/** The formset views of django/views/generic/edit.py, with their mixins resolved:
    BaseFormSetView (FormSetMixin + ProcessFormSetView), BaseModelFormSetView
    (ModelFormSetMixin + ProcessFormSetView) and BaseInlineFormSetView
    (InlineFormSetMixin + ProcessInlineFormSetView).

    A view object keeps the formset instances it constructed in the field
    `formsetsInstances`, and the inline view keeps the edited model instance in
    `obj` (`self.object`); both are updated in place, so the views are classes. */
module FormSetViews {
  import opened EditTypes
  import opened KeywordArgs
  import opened SuccessUrls
  import opened Prefixes
  import opened Decimal

  /** The formsets construct_formsets builds: the i-th configured formset class, under the
      i-th assigned prefix, every one with the same keyword arguments. */
  function ConstructedFormSets(formsets: seq<FormSetClass>, defaults: seq<string>, kwargs: Kwargs): (built: seq<FormSetInstance>)
    requires |defaults| == |formsets|
    ensures |built| == |formsets|
  {
    seq(|formsets|, i requires 0 <= i < |formsets| =>
      FormSetInstance(formsets[i], AssignedPrefixes(defaults)[i], kwargs))
  }

  /** One more turn of the construct_formsets loop appends the next formset under the
      prefix PrefixAt assigns it. */
  lemma ConstructStep(formsets: seq<FormSetClass>, defaults: seq<string>, kwargs: Kwargs, i: nat)
    requires |defaults| == |formsets| && i < |formsets|
    ensures ConstructedFormSets(formsets, defaults, kwargs)[..i + 1] ==
            ConstructedFormSets(formsets, defaults, kwargs)[..i] + [FormSetInstance(formsets[i], PrefixAt(defaults, i), kwargs)]
  {
    var built := ConstructedFormSets(formsets, defaults, kwargs);
    assert AssignedPrefixes(defaults)[i] == PrefixAt(defaults, i);
    assert built[i] == FormSetInstance(formsets[i], PrefixAt(defaults, i), kwargs);
    assert built[..i + 1] == built[..i] + [built[i]];
  }

  /** FormSetMixin takes each formset class's own `get_default_prefix()`. */
  function DefaultPrefixes(formsets: seq<FormSetClass>): (defaults: seq<string>)
    ensures |defaults| == |formsets|
  {
    seq(|formsets|, i requires 0 <= i < |formsets| => formsets[i].defaultPrefix)
  }

  /** `s.replace('+', '')`: every character but '+' is kept, as often as it occurs. */
  function WithoutPlus(s: string): (r: string)
    ensures '+' !in r
    ensures forall c :: c in r <==> c in s && c != '+'
    ensures '+' !in s ==> r == s
  {
    if s == [] then []
    else (if s[0] == '+' then [] else [s[0]]) + WithoutPlus(s[1..])
  }

  /** Every character but '+' is kept exactly as often as it occurs. */
  lemma {:induction false} WithoutPlusKeepsCounts(s: string)
    ensures multiset(WithoutPlus(s)) == multiset(s)['+' := 0]
  {
    if s != [] {
      WithoutPlusKeepsCounts(s[1..]);
      assert s == [s[0]] + s[1..];
    }
  }

  /** Removing '+' works piece by piece, so the kept characters stay in their order. */
  lemma {:induction false} WithoutPlusAppend(a: string, b: string)
    ensures WithoutPlus(a + b) == WithoutPlus(a) + WithoutPlus(b)
  {
    if a == [] {
      assert a + b == b;
    } else {
      var kept := if a[0] == '+' then [] else [a[0]];
      calc {
        WithoutPlus(a + b);
        == { assert (a + b)[0] == a[0] && (a + b)[1..] == a[1..] + b; }
        kept + WithoutPlus(a[1..] + b);
        == { WithoutPlusAppend(a[1..], b); }
        kept + (WithoutPlus(a[1..]) + WithoutPlus(b));
        ==
        (kept + WithoutPlus(a[1..])) + WithoutPlus(b);
        ==
        WithoutPlus(a) + WithoutPlus(b);
      }
    }
  }

  /** InlineFormSetMixin.get_default_prefix: the accessor name of the foreign key from the
      formset's model to the parent model, with every '+' removed. The accessor name is
      computed by the ORM and comes in as `accessorName(parentModel, model, fkName)`. */
  function InlineDefaultPrefix(accessorName: (string, string, Option<string>) -> string,
                               parentModel: string, formset: FormSetClass): (prefix: string)
    ensures '+' !in prefix
  {
    WithoutPlus(accessorName(parentModel, formset.model, formset.fkName))
  }

  function InlineDefaultPrefixes(accessorName: (string, string, Option<string>) -> string,
                                 parentModel: string, formsets: seq<FormSetClass>): (defaults: seq<string>)
    ensures |defaults| == |formsets|
  {
    seq(|formsets|, i requires 0 <= i < |formsets| => InlineDefaultPrefix(accessorName, parentModel, formsets[i]))
  }

  /** What FormSetMixin.construct_formsets leaves in `formsets_instances`. */
  function FormSetsOf(formsets: seq<FormSetClass>, request: Request): (built: seq<FormSetInstance>)
  {
    ConstructedFormSets(formsets, DefaultPrefixes(formsets), FormSetKwargs(request))
  }

  /** What InlineFormSetMixin.construct_formsets leaves in `formsets_instances`. */
  function InlineFormSetsOf(formsets: seq<FormSetClass>, request: Request,
                            accessorName: (string, string, Option<string>) -> string, parent: Obj): (built: seq<FormSetInstance>)
  {
    ConstructedFormSets(formsets, InlineDefaultPrefixes(accessorName, parent.model, formsets),
                        InlineFormSetKwargs(request, parent))
  }

  /** Two formsets of the same class on one page are never given the same prefix. */
  lemma SameClassDistinctPrefixes(formsets: seq<FormSetClass>, request: Request, i: nat, j: nat)
    requires i < j < |formsets|
    requires formsets[i].defaultPrefix == formsets[j].defaultPrefix
    ensures FormSetsOf(formsets, request)[i].prefix != FormSetsOf(formsets, request)[j].prefix
  {
    SameDefaultDistinct(DefaultPrefixes(formsets), i, j);
  }

  /** Every instance an inline view builds has a prefix without '+', and is bound to the
      parent object. */
  lemma InlinePrefixesHaveNoPlus(formsets: seq<FormSetClass>, request: Request,
                                 accessorName: (string, string, Option<string>) -> string, parent: Obj, i: nat)
    requires i < |formsets|
    ensures '+' !in InlineFormSetsOf(formsets, request, accessorName, parent)[i].prefix
    ensures InlineFormSetsOf(formsets, request, accessorName, parent)[i].kwargs["instance"] == InstanceArg(Some(parent))
  {
    var defaults := InlineDefaultPrefixes(accessorName, parent.model, formsets);
    var k := Count(defaults[..i + 1], defaults[i]);
    assert AssignedPrefixes(defaults)[i] == PrefixAt(defaults, i);
    assert InlineFormSetsOf(formsets, request, accessorName, parent)[i].prefix == PrefixAt(defaults, i);
    assert '+' !in defaults[i];
    if k != 1 {
      var p := defaults[i] + "-" + NatToString(k);
      assert PrefixAt(defaults, i) == p;
      assert forall n :: 0 <= n < |p| ==> p[n] != '+' by {
        forall n | 0 <= n < |p| ensures p[n] != '+' {
          if n > |defaults[i]| {
            assert p[n] == NatToString(k)[n - |defaults[i]| - 1];
          } else if n < |defaults[i]| {
            assert p[n] == defaults[i][n];
          }
        }
      }
    }
  }

  /** The two formset views: ModelFormSetView saves every formset on success
      (ModelFormSetMixin.formsets_valid); FormSetView does not. */
  datatype FormSetFlavour = PlainFormSets | ModelFormSets

  /** BaseFormSetView and BaseModelFormSetView. */
  class FormSetView {
    const flavour: FormSetFlavour
    const formsets: seq<FormSetClass>
    const request: Request
    const successUrl: Option<string>
    var formsetsInstances: seq<FormSetInstance>

    constructor (flavour: FormSetFlavour, formsets: seq<FormSetClass>, request: Request, successUrl: Option<string>)
      ensures this.flavour == flavour && this.formsets == formsets
      ensures this.request == request && this.successUrl == successUrl
      ensures formsetsInstances == []
    {
      this.flavour := flavour;
      this.formsets := formsets;
      this.request := request;
      this.successUrl := successUrl;
      formsetsInstances := [];
    }

    /** FormSetMixin.construct_formsets: one instance per configured formset, in order,
        each under its disambiguated prefix. `prefixes` is the per-default counter. */
    method ConstructFormsets()
      modifies this
      ensures formsetsInstances == FormSetsOf(formsets, request)
    {
      ghost var defaults := DefaultPrefixes(formsets);
      formsetsInstances := [];
      var prefixes: map<string, nat> := map[];
      for i := 0 to |formsets|
        invariant prefixes == Tally(defaults[..i])
        invariant formsetsInstances == FormSetsOf(formsets, request)[..i]
      {
        CounterStep(defaults, i, prefixes);
        ConstructStep(formsets, defaults, FormSetKwargs(request), i);
        var formset := formsets[i];
        var prefix := formset.defaultPrefix;
        prefixes := prefixes[prefix := (if prefix in prefixes then prefixes[prefix] else 0) + 1];
        if prefixes[prefix] != 1 {
          prefix := prefix + "-" + NatToString(prefixes[prefix]);
        }
        assert prefix == PrefixAt(defaults, i);
        formsetsInstances := formsetsInstances + [FormSetInstance(formset, prefix, FormSetKwargs(request))];
      }
    }

    /** FormSetMixin.formsets_valid, and ModelFormSetMixin.formsets_valid which first saves
        every formset in order. The success URL is looked up after the saves. */
    method FormsetsValid() returns (out: Outcome)
      ensures out.effects == (if flavour == ModelFormSets then Saves(formsetsInstances) else [])
      ensures out.response.Redirect? <==> IsSet(successUrl)
      ensures out.response == RedirectTo(FormSetSuccessUrl(successUrl))
    {
      var effects: seq<Effect> := [];
      if flavour == ModelFormSets {
        for i := 0 to |formsetsInstances|
          invariant effects == Saves(formsetsInstances[..i])
        {
          effects := effects + [SaveFormSet(formsetsInstances[i])];
        }
        assert formsetsInstances[..|formsetsInstances|] == formsetsInstances;
      }
      out := Outcome(effects, RedirectTo(FormSetSuccessUrl(successUrl)));
    }

    /** What ProcessFormSetView.post answers, given the formsets it constructed: a redirect
        (after saving, for model formsets) exactly when every formset is valid and a
        success URL is set; a re-rendering of the formsets, with nothing saved, whenever
        one is invalid. */
    ghost predicate Answered(isValid: FormSetInstance -> bool, out: Outcome)
      reads this
    {
      && formsetsInstances == FormSetsOf(formsets, request)
      && (out.response.Render? <==> !AllValid(formsetsInstances, isValid))
      && (out.response.Redirect? <==> AllValid(formsetsInstances, isValid) && IsSet(successUrl))
      && (out.response.Redirect? ==> out.response.url == successUrl.value)
      && out.effects == (if AllValid(formsetsInstances, isValid) && flavour == ModelFormSets
                         then Saves(formsetsInstances) else [])
      && (AllValid(formsetsInstances, isValid) ==> out.response == RedirectTo(FormSetSuccessUrl(successUrl)))
      && (out.response.Render? ==> out.response.context == Context(None, Some(formsetsInstances), None))
    }

    /** ProcessFormSetView.get: construct the formsets and render them. */
    method Get() returns (out: Outcome)
      modifies this
      ensures formsetsInstances == FormSetsOf(formsets, request)
      ensures out == Outcome([], Render(Context(None, Some(formsetsInstances), None)))
    {
      ConstructFormsets();
      out := Outcome([], Render(Context(None, Some(formsetsInstances), None)));
    }

    /** ProcessFormSetView.post. */
    method Post(isValid: FormSetInstance -> bool) returns (out: Outcome)
      modifies this
      ensures Answered(isValid, out)
    {
      ConstructFormsets();
      if AllValid(formsetsInstances, isValid) {
        out := FormsetsValid();
      } else {
        out := Outcome([], Render(Context(None, Some(formsetsInstances), None)));
      }
    }

    /** ProcessFormSetView.put, with the request forwarded to post (see Dispatch). */
    method Put(isValid: FormSetInstance -> bool) returns (out: Outcome)
      modifies this
      ensures Answered(isValid, out)
    {
      out := Post(isValid);
    }
  }

  /** The object a handler of ProcessInlineFormSetView starts from: `self.get_object()`,
      or a fresh `self.model()` when that raises AttributeError. */
  function Loaded(fetched: Option<Obj>, newObj: Obj): (loaded: Obj)
    ensures fetched.Some? ==> loaded == fetched.value
    ensures fetched.None? ==> loaded == newObj
  {
    if fetched.Some? then fetched.value else newObj
  }

  /** BaseInlineFormSetView. */
  class InlineFormSetView {
    const formsets: seq<FormSetClass>
    const request: Request
    const initial: map<string, string>
    const successUrl: Option<string>
    const accessorName: (string, string, Option<string>) -> string
    var obj: Option<Obj>
    var formsetsInstances: seq<FormSetInstance>

    constructor (formsets: seq<FormSetClass>, request: Request, initial: map<string, string>,
                 successUrl: Option<string>, accessorName: (string, string, Option<string>) -> string)
      ensures this.formsets == formsets && this.request == request && this.initial == initial
      ensures this.successUrl == successUrl && this.accessorName == accessorName
      ensures obj == None && formsetsInstances == []
    {
      this.formsets := formsets;
      this.request := request;
      this.initial := initial;
      this.successUrl := successUrl;
      this.accessorName := accessorName;
      obj := None;
      formsetsInstances := [];
    }

    /** InlineFormSetMixin.construct_formsets: as FormSetMixin's, but the defaults come
        from the foreign keys to the current object's model, and every formset is bound
        to that object. Its callers always set `self.object` first. */
    method ConstructFormsets()
      requires obj.Some?
      modifies this
      ensures obj == old(obj)
      ensures formsetsInstances == InlineFormSetsOf(formsets, request, accessorName, obj.value)
    {
      var parent := obj.value;
      ghost var defaults := InlineDefaultPrefixes(accessorName, parent.model, formsets);
      formsetsInstances := [];
      var prefixes: map<string, nat> := map[];
      for i := 0 to |formsets|
        invariant obj == Some(parent)
        invariant prefixes == Tally(defaults[..i])
        invariant formsetsInstances == InlineFormSetsOf(formsets, request, accessorName, parent)[..i]
      {
        CounterStep(defaults, i, prefixes);
        ConstructStep(formsets, defaults, InlineFormSetKwargs(request, parent), i);
        var formset := formsets[i];
        var prefix := InlineDefaultPrefix(accessorName, obj.value.model, formset);
        prefixes := prefixes[prefix := (if prefix in prefixes then prefixes[prefix] else 0) + 1];
        if prefixes[prefix] != 1 {
          prefix := prefix + "-" + NatToString(prefixes[prefix]);
        }
        assert prefix == PrefixAt(defaults, i);
        formsetsInstances := formsetsInstances + [FormSetInstance(formset, prefix, InlineFormSetKwargs(request, obj.value))];
      }
    }

    /** InlineFormSetMixin.form_valid: save the object, the form's many-to-many data and
        every formset, in that order, then redirect. The success URL resolves to
        FormSetMixin.get_success_url, and is looked up after the saves. */
    method FormValid(form: Form) returns (out: Outcome)
      requires obj.Some?
      ensures out.effects == [SaveObject(obj.value), SaveM2M(form)] + Saves(formsetsInstances)
      ensures out.response == RedirectTo(FormSetSuccessUrl(successUrl))
    {
      var effects := [SaveObject(obj.value), SaveM2M(form)];
      for i := 0 to |formsetsInstances|
        invariant effects == [SaveObject(obj.value), SaveM2M(form)] + Saves(formsetsInstances[..i])
      {
        effects := effects + [SaveFormSet(formsetsInstances[i])];
      }
      assert formsetsInstances[..|formsetsInstances|] == formsetsInstances;
      out := Outcome(effects, RedirectTo(FormSetSuccessUrl(successUrl)));
    }

    /** What ProcessInlineFormSetView.post answers. The form is bound to the loaded object;
        when it is valid, `self.object` becomes `form.save(commit=False)`. The formsets are
        constructed on every path, against whatever `self.object` is by then. form_valid is
        reached exactly when the form and every formset are valid; otherwise nothing is
        saved and the form is re-rendered with the formsets. */
    ghost predicate Answered(fetched: Option<Obj>, newObj: Obj, formIsValid: Form -> bool,
                             saveUncommitted: Form -> Obj, formsetIsValid: FormSetInstance -> bool, out: Outcome)
      reads this
    {
      var form := Form(ModelFormKwargs(request, initial, Some(Loaded(fetched, newObj))));
      var accepted := formIsValid(form) && AllValid(formsetsInstances, formsetIsValid);
      && obj == Some(if formIsValid(form) then saveUncommitted(form) else Loaded(fetched, newObj))
      && formsetsInstances == InlineFormSetsOf(formsets, request, accessorName, obj.value)
      && (out.effects != [] <==> accepted)
      && (out.response.Redirect? <==> accepted && IsSet(successUrl))
      && (accepted ==> out.effects == [SaveObject(obj.value), SaveM2M(form)] + Saves(formsetsInstances))
      && (accepted ==> out.response == RedirectTo(FormSetSuccessUrl(successUrl)))
      && (!accepted ==> out == Outcome([], Render(Context(Some(form), Some(formsetsInstances), obj))))
    }

    /** ProcessInlineFormSetView.get: load the object, build its form and its formsets,
        and render them all. */
    method Get(fetched: Option<Obj>, newObj: Obj) returns (out: Outcome)
      modifies this
      ensures obj == Some(Loaded(fetched, newObj))
      ensures formsetsInstances == InlineFormSetsOf(formsets, request, accessorName, obj.value)
      ensures out == Outcome([], Render(Context(Some(Form(ModelFormKwargs(request, initial, obj))),
                                                Some(formsetsInstances), obj)))
    {
      obj := Some(Loaded(fetched, newObj));
      var form := Form(ModelFormKwargs(request, initial, obj));
      ConstructFormsets();
      out := Outcome([], Render(Context(Some(form), Some(formsetsInstances), obj)));
    }

    /** ProcessInlineFormSetView.post. */
    method Post(fetched: Option<Obj>, newObj: Obj, formIsValid: Form -> bool,
                saveUncommitted: Form -> Obj, formsetIsValid: FormSetInstance -> bool) returns (out: Outcome)
      modifies this
      ensures Answered(fetched, newObj, formIsValid, saveUncommitted, formsetIsValid, out)
    {
      obj := Some(Loaded(fetched, newObj));
      var form := Form(ModelFormKwargs(request, initial, obj));
      if formIsValid(form) {
        obj := Some(saveUncommitted(form));
        ConstructFormsets();
        if AllValid(formsetsInstances, formsetIsValid) {
          out := FormValid(form);
          return;
        }
      } else {
        ConstructFormsets();
      }
      out := Outcome([], Render(Context(Some(form), Some(formsetsInstances), obj)));
    }

    /** ProcessInlineFormSetView.put, with the request forwarded to post (see Dispatch). */
    method Put(fetched: Option<Obj>, newObj: Obj, formIsValid: Form -> bool,
               saveUncommitted: Form -> Obj, formsetIsValid: FormSetInstance -> bool) returns (out: Outcome)
      modifies this
      ensures Answered(fetched, newObj, formIsValid, saveUncommitted, formsetIsValid, out)
    {
      out := Post(fetched, newObj, formIsValid, saveUncommitted, formsetIsValid);
    }
  }
}
