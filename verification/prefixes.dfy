/** How construct_formsets gives every formset on a page its prefix
    (django/views/generic/edit.py:182-198 and its copy at 295-311).

    The formsets are taken in configuration order. A dictionary counts, per
    default prefix, how many formsets with that default have been seen so
    far. The first one keeps its default; the k-th (k >= 2) gets
    `default + "-" + str(k)`. */
module Prefixes {
  import opened Decimal

  /** How many entries of `s` are `p`; the reference count the dictionary must keep. */
  function Count(s: seq<string>, p: string): (n: nat)
    ensures n <= |s|
    ensures n == 0 <==> p !in s
  {
    if s == [] then 0
    else
      assert s == s[..|s| - 1] + [s[|s| - 1]];
      Count(s[..|s| - 1], p) + (if s[|s| - 1] == p then 1 else 0)
  }

  /** The `prefixes` dictionary after the loop has seen `s`: each step does
      `prefixes[prefix] = prefixes.get(prefix, 0) + 1`. */
  function Tally(s: seq<string>): (counter: map<string, nat>)
  {
    if s == [] then map[]
    else
      var counter := Tally(s[..|s| - 1]);
      var p := s[|s| - 1];
      counter[p := (if p in counter then counter[p] else 0) + 1]
  }

  /** The dictionary holds exactly the defaults seen so far, each with its number of occurrences. */
  lemma {:induction false} TallyIsCount(s: seq<string>)
    ensures forall p :: p in Tally(s) <==> p in s
    ensures forall p :: p in Tally(s) ==> Tally(s)[p] == Count(s, p)
  {
    if s != [] {
      var init := s[..|s| - 1];
      TallyIsCount(init);
      assert s == init + [s[|s| - 1]];
    }
  }

  /** One turn of the construct_formsets loop: bumping the counter of the next default
      gives the dictionary for one more formset, and the prefix it then computes is the
      one PrefixAt assigns. */
  lemma CounterStep(defaults: seq<string>, i: nat, counter: map<string, nat>)
    requires i < |defaults|
    requires counter == Tally(defaults[..i])
    ensures var p := defaults[i];
            var bumped := counter[p := (if p in counter then counter[p] else 0) + 1];
            && bumped == Tally(defaults[..i + 1])
            && Disambiguated(p, bumped[p]) == PrefixAt(defaults, i)
  {
    assert defaults[..i + 1][..i] == defaults[..i];
    TallyIsCount(defaults[..i + 1]);
  }

  /** The prefix given to the `k`-th formset whose default prefix is `base`. */
  function Disambiguated(base: string, k: nat): (prefix: string)
  {
    if k != 1 then base + "-" + NatToString(k) else base
  }

  /** The prefixes construct_formsets assigns, position by position, to formsets whose
      default prefixes are `defaults`. */
  function AssignedPrefixes(defaults: seq<string>): (prefixes: seq<string>)
    ensures |prefixes| == |defaults|
  {
    seq(|defaults|, i requires 0 <= i < |defaults| => PrefixAt(defaults, i))
  }

  /** The prefix of the formset at position `i`: its default, disambiguated by how many
      formsets up to and including it share that default. */
  function PrefixAt(defaults: seq<string>, i: nat): (prefix: string)
    requires i < |defaults|
  {
    Disambiguated(defaults[i], Count(defaults[..i + 1], defaults[i]))
  }

  /** The suffix rule: the first formset with a default keeps it unchanged; a later one
      gets "-" and one more than the number of earlier formsets with that default. */
  lemma SuffixRule(defaults: seq<string>, i: nat)
    requires i < |defaults|
    ensures AssignedPrefixes(defaults)[i] == defaults[i] <==> defaults[i] !in defaults[..i]
    ensures defaults[i] in defaults[..i] ==>
      Count(defaults[..i], defaults[i]) + 1 >= 2 &&
      AssignedPrefixes(defaults)[i] == defaults[i] + "-" + NatToString(Count(defaults[..i], defaults[i]) + 1)
  {
    assert defaults[..i + 1] == defaults[..i] + [defaults[i]];
    assert defaults[..i + 1][..i] == defaults[..i];
  }

  /** Counting over a longer prefix of `s` never gives less. */
  lemma {:induction false} CountGrows(s: seq<string>, i: nat, j: nat, p: string)
    requires i <= j <= |s|
    ensures Count(s[..i], p) <= Count(s[..j], p)
    decreases j - i
  {
    if i < j {
      CountGrows(s, i, j - 1, p);
      assert s[..j][..j - 1] == s[..j - 1];
    }
  }

  /** Two formsets with the same default prefix never get the same prefix. */
  lemma SameDefaultDistinct(defaults: seq<string>, i: nat, j: nat)
    requires i < j < |defaults|
    requires defaults[i] == defaults[j]
    ensures AssignedPrefixes(defaults)[i] != AssignedPrefixes(defaults)[j]
  {
    var p := defaults[i];
    var ki := Count(defaults[..i + 1], p);
    var kj := Count(defaults[..j + 1], p);
    CountGrows(defaults, i + 1, j, p);
    assert defaults[..j + 1][..j] == defaults[..j];
    assert kj == Count(defaults[..j], p) + 1;
    var a, b := AssignedPrefixes(defaults)[i], AssignedPrefixes(defaults)[j];
    assert b == p + "-" + NatToString(kj);
    if ki != 1 && a == b {
      assert a == p + "-" + NatToString(ki);
      assert NatToString(ki) == a[|p| + 1..];
      assert NatToString(kj) == b[|p| + 1..];
      NatToStringInjective(ki, kj);
    }
  }

  /** The part of a prefix before its first hyphen. */
  function BeforeHyphen(s: string): (head: string)
  {
    if s == [] || s[0] == '-' then [] else [s[0]] + BeforeHyphen(s[1..])
  }

  lemma {:induction false} BeforeHyphenOfJoin(base: string, suffix: string)
    requires '-' !in base
    ensures BeforeHyphen(base) == base
    ensures BeforeHyphen(base + "-" + suffix) == base
  {
    if base != [] {
      BeforeHyphenOfJoin(base[1..], suffix);
      assert (base + "-" + suffix)[1..] == base[1..] + "-" + suffix;
    }
  }

  /** When a default has no hyphen, it can be read back from the prefix it was given. */
  lemma AssignedPrefixKeepsBase(defaults: seq<string>, i: nat)
    requires i < |defaults|
    requires '-' !in defaults[i]
    ensures BeforeHyphen(AssignedPrefixes(defaults)[i]) == defaults[i]
  {
    BeforeHyphenOfJoin(defaults[i], NatToString(Count(defaults[..i + 1], defaults[i])));
  }

  /** Uniqueness across different defaults holds when no default contains a hyphen
      (as with "form" or "article_set"); the code does not promise it otherwise. */
  lemma DistinctWhenDefaultsHaveNoHyphen(defaults: seq<string>, i: nat, j: nat)
    requires i < j < |defaults|
    requires forall k :: 0 <= k < |defaults| ==> '-' !in defaults[k]
    ensures AssignedPrefixes(defaults)[i] != AssignedPrefixes(defaults)[j]
  {
    if defaults[i] == defaults[j] {
      SameDefaultDistinct(defaults, i, j);
    } else {
      AssignedPrefixKeepsBase(defaults, i);
      AssignedPrefixKeepsBase(defaults, j);
    }
  }

  /** Two formsets that both default to "form" get "form" and "form-2", the keys the
      formset view tests post. */
  lemma TwoFormFormSets()
    ensures AssignedPrefixes(["form", "form"]) == ["form", "form-2"]
  {
    var ds := ["form", "form"];
    assert NatToString(2) == "2";
    assert ds[..1] == ["form"] && ds[..1][..0] == [];
    assert ds[..2] == ds && ds[..1] == ds[..|ds| - 1];
    assert PrefixAt(ds, 0) == Disambiguated("form", 1) == "form";
    assert PrefixAt(ds, 1) == Disambiguated("form", 2) == "form-2";
  }

  /** A default that already looks disambiguated collides with a generated prefix:
      prefixes are distinct per default, not across the page. */
  lemma HyphenatedDefaultCollides()
    ensures AssignedPrefixes(["form", "form", "form-2"]) == ["form", "form-2", "form-2"]
  {
    var ds := ["form", "form", "form-2"];
    assert NatToString(2) == "2";
    assert ds[..1] == ["form"] && ds[..1][..0] == [];
    assert ds[..2] == ["form", "form"] && ds[..2][..1] == ds[..1];
    assert ds[..3] == ds && ds[..3][..2] == ds[..2];
    assert Count(ds[..2], "form-2") == 0;
    assert PrefixAt(ds, 0) == Disambiguated("form", 1) == "form";
    assert PrefixAt(ds, 1) == Disambiguated("form", 2) == "form-2";
    assert PrefixAt(ds, 2) == Disambiguated("form-2", 1) == "form-2";
  }
}
