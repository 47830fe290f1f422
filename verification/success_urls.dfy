/** Where a successful submission redirects to: the four `get_success_url`s of
    django/views/generic/edit.py (lines 54-60, 102-112, 166-171, 223-229). */
module SuccessUrls {
  import opened EditTypes

  const NoSuccessUrl := "No URL to redirect to. Provide a success_url."
  const NoModelUrl := "No URL to redirect to.  Either provide a url or define a get_absolute_url method on the Model."
  const NoFormSetSuccessUrl := "No URL to redirect to. Provide a success_url"

  /** FormMixin.get_success_url: `success_url` when it is set, otherwise ImproperlyConfigured. */
  function FormSuccessUrl(successUrl: Option<string>): (r: Result<string>)
    ensures r.Ok? <==> IsSet(successUrl)
    ensures r.Ok? ==> r.value == successUrl.value
    ensures r.Err? ==> r.error == ImproperlyConfigured(NoSuccessUrl)
  {
    if IsSet(successUrl) then Ok(successUrl.value) else Err(ImproperlyConfigured(NoSuccessUrl))
  }

  /** ModelFormMixin.get_success_url: `success_url` interpolated with the object's
      attributes when it is set, otherwise the object's absolute URL; ImproperlyConfigured
      only when both are missing. `interpolate` stands for Python's `%` formatting. */
  function ModelFormSuccessUrl(successUrl: Option<string>, obj: Obj,
                               interpolate: (string, map<string, string>) -> string): (r: Result<string>)
    ensures r.Ok? <==> IsSet(successUrl) || obj.absoluteUrl.Some?
    ensures IsSet(successUrl) ==> r == Ok(interpolate(successUrl.value, obj.attrs))
    ensures !IsSet(successUrl) && obj.absoluteUrl.Some? ==> r == Ok(obj.absoluteUrl.value)
    ensures r.Err? ==> r.error == ImproperlyConfigured(NoModelUrl)
  {
    if IsSet(successUrl) then Ok(interpolate(successUrl.value, obj.attrs))
    else match obj.absoluteUrl
      case Some(url) => Ok(url)
      case None => Err(ImproperlyConfigured(NoModelUrl))
  }

  /** DeletionMixin.get_success_url: `success_url` when it is set, otherwise ImproperlyConfigured. */
  function DeletionSuccessUrl(successUrl: Option<string>): (r: Result<string>)
    ensures r.Ok? <==> IsSet(successUrl)
    ensures r.Ok? ==> r.value == successUrl.value
    ensures r.Err? ==> r.error == ImproperlyConfigured(NoSuccessUrl)
  {
    if IsSet(successUrl) then Ok(successUrl.value)
    else Err(ImproperlyConfigured(NoSuccessUrl))
  }

  /** FormSetMixin.get_success_url: `success_url` when it is set, otherwise
      ImproperlyConfigured (its message lacks the final period). */
  function FormSetSuccessUrl(successUrl: Option<string>): (r: Result<string>)
    ensures r.Ok? <==> IsSet(successUrl)
    ensures r.Ok? ==> r.value == successUrl.value
    ensures r.Err? ==> r.error == ImproperlyConfigured(NoFormSetSuccessUrl)
  {
    if IsSet(successUrl) then Ok(successUrl.value)
    else Err(ImproperlyConfigured(NoFormSetSuccessUrl))
  }

  /** The deletion, form and formset variants agree on every configuration; only the
      formset variant's message differs. */
  lemma PlainVariantsAgree(successUrl: Option<string>)
    ensures DeletionSuccessUrl(successUrl) == FormSuccessUrl(successUrl)
    ensures FormSetSuccessUrl(successUrl).Ok? == FormSuccessUrl(successUrl).Ok?
    ensures FormSetSuccessUrl(successUrl).Ok? ==> FormSetSuccessUrl(successUrl) == FormSuccessUrl(successUrl)
  {
  }

  /** The model variant redirects wherever the plain one does, and also when only the
      object's absolute URL is known. */
  lemma ModelVariantFallsBack(successUrl: Option<string>, obj: Obj,
                              interpolate: (string, map<string, string>) -> string)
    ensures FormSuccessUrl(successUrl).Ok? ==> ModelFormSuccessUrl(successUrl, obj, interpolate).Ok?
    ensures ModelFormSuccessUrl(successUrl, obj, interpolate).Err? <==>
            FormSuccessUrl(successUrl).Err? && obj.absoluteUrl.None?
  {
  }
}
