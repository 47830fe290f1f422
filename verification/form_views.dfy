/** The request handlers of the single-form views of django/views/generic/edit.py,
    each with its mixins resolved: BaseFormView (FormMixin + ProcessFormView),
    BaseCreateView and BaseUpdateView (ModelFormMixin + ProcessFormView) and
    BaseDeleteView (DeletionMixin). Form validity, `form.save()` and `get_object()`
    are collaborators and come in as parameters. */
module FormViews {
  import opened EditTypes
  import opened KeywordArgs
  import opened SuccessUrls

  /** BaseFormView.get (ProcessFormView.get): render the form, never redirect, save nothing. */
  function FormViewGet(request: Request, initial: map<string, string>): (out: Outcome)
    ensures out.effects == []
    ensures out.response.Render?
    ensures out.response.context == Context(Some(Form(FormKwargs(request, initial))), None, None)
  {
    Outcome([], Render(Context(Some(Form(FormKwargs(request, initial))), None, None)))
  }

  /** BaseFormView.post (ProcessFormView.post): a valid form redirects to `success_url`
      (or raises ImproperlyConfigured when it is not set); an invalid one is re-rendered. */
  function FormViewPost(request: Request, initial: map<string, string>, successUrl: Option<string>,
                        isValid: Form -> bool): (out: Outcome)
    ensures out.effects == []
    ensures out.response.Render? <==> !isValid(Form(FormKwargs(request, initial)))
    ensures out.response.Redirect? <==> isValid(Form(FormKwargs(request, initial))) && IsSet(successUrl)
    ensures out.response.Redirect? ==> out.response.url == successUrl.value
    ensures out.response.Raised? ==> out.response.error == ImproperlyConfigured(NoSuccessUrl)
    ensures out.response.Render? ==> out.response.context == Context(Some(Form(FormKwargs(request, initial))), None, None)
  {
    var form := Form(FormKwargs(request, initial));
    if isValid(form) then Outcome([], RedirectTo(FormSuccessUrl(successUrl)))
    else Outcome([], Render(Context(Some(form), None, None)))
  }

  /** ProcessFormView.get through ModelFormMixin, with `self.object` already set: the
      form is bound to the object, and the context names the object when there is one. */
  function ModelFormViewGet(request: Request, initial: map<string, string>, obj: Option<Obj>): (out: Outcome)
    ensures out.effects == []
    ensures out.response.Render?
    ensures out.response.context.form == Some(Form(ModelFormKwargs(request, initial, obj)))
    ensures out.response.context.formsets == None
    ensures out.response.context.obj == obj
  {
    Outcome([], Render(Context(Some(Form(ModelFormKwargs(request, initial, obj))), None, obj)))
  }

  /** ProcessFormView.post through ModelFormMixin, with `self.object` already set. A valid
      form is saved (once, and only then) and the view redirects to the success URL of the
      SAVED object; an invalid form is re-rendered and nothing is saved. */
  function ModelFormViewPost(request: Request, initial: map<string, string>, obj: Option<Obj>,
                             successUrl: Option<string>, interpolate: (string, map<string, string>) -> string,
                             isValid: Form -> bool, save: Form -> Obj): (out: Outcome)
    ensures var form := Form(ModelFormKwargs(request, initial, obj));
      && (out.response.Render? <==> !isValid(form))
      && (out.effects != [] <==> isValid(form))
      && (isValid(form) ==> out.effects == [SaveForm(form)])
      && (isValid(form) ==> out.response == RedirectTo(ModelFormSuccessUrl(successUrl, save(form), interpolate)))
      && (out.response.Redirect? <==> isValid(form) && (IsSet(successUrl) || save(form).absoluteUrl.Some?))
      && (out.response.Redirect? && !IsSet(successUrl) ==> out.response.url == save(form).absoluteUrl.value)
      && (out.response.Render? ==> out.response.context == Context(Some(form), None, obj))
  {
    var form := Form(ModelFormKwargs(request, initial, obj));
    if isValid(form) then
      var saved := save(form);
      Outcome([SaveForm(form)], RedirectTo(ModelFormSuccessUrl(successUrl, saved, interpolate)))
    else Outcome([], Render(Context(Some(form), None, obj)))
  }

  /** BaseCreateView.get: `self.object = None`, so the form has no instance and the
      context no object. */
  function CreateViewGet(request: Request, initial: map<string, string>): (out: Outcome)
    ensures out.effects == []
    ensures out.response.Render?
    ensures out.response.context == Context(Some(Form(ModelFormKwargs(request, initial, None))), None, None)
    ensures out.response.context.obj == None
    ensures out.response.context.form.Some? && "instance" in out.response.context.form.value.kwargs
    ensures out.response.context.form.value.kwargs["instance"] == InstanceArg(None)
  {
    ModelFormViewGet(request, initial, None)
  }

  /** BaseCreateView.post: `self.object = None`, then ProcessFormView.post. */
  function CreateViewPost(request: Request, initial: map<string, string>, successUrl: Option<string>,
                          interpolate: (string, map<string, string>) -> string,
                          isValid: Form -> bool, save: Form -> Obj): (out: Outcome)
    ensures var form := Form(ModelFormKwargs(request, initial, None));
      && form.kwargs["instance"] == InstanceArg(None)
      && (out.effects != [] <==> isValid(form))
      && (isValid(form) ==> out.effects == [SaveForm(form)])
      && (isValid(form) ==> out.response == RedirectTo(ModelFormSuccessUrl(successUrl, save(form), interpolate)))
      && (out.response.Render? <==> !isValid(form))
      && (!isValid(form) ==> out == Outcome([], Render(Context(Some(form), None, None))))
  {
    ModelFormViewPost(request, initial, None, successUrl, interpolate, isValid, save)
  }

  /** BaseUpdateView.get: `self.object = self.get_object()`, so the form edits that object. */
  function UpdateViewGet(request: Request, initial: map<string, string>, fetched: Obj): (out: Outcome)
    ensures out.effects == []
    ensures out.response.Render?
    ensures out.response.context == Context(Some(Form(ModelFormKwargs(request, initial, Some(fetched)))), None, Some(fetched))
    ensures out.response.context.obj == Some(fetched)
    ensures out.response.context.form.Some? && "instance" in out.response.context.form.value.kwargs
    ensures out.response.context.form.value.kwargs["instance"] == InstanceArg(Some(fetched))
  {
    ModelFormViewGet(request, initial, Some(fetched))
  }

  /** BaseUpdateView.post: `self.object = self.get_object()`, then ProcessFormView.post. */
  function UpdateViewPost(request: Request, initial: map<string, string>, fetched: Obj,
                          successUrl: Option<string>, interpolate: (string, map<string, string>) -> string,
                          isValid: Form -> bool, save: Form -> Obj): (out: Outcome)
    ensures var form := Form(ModelFormKwargs(request, initial, Some(fetched)));
      && form.kwargs["instance"] == InstanceArg(Some(fetched))
      && (out.effects != [] <==> isValid(form))
      && (isValid(form) ==> out.effects == [SaveForm(form)])
      && (isValid(form) ==> out.response == RedirectTo(ModelFormSuccessUrl(successUrl, save(form), interpolate)))
      && (out.response.Render? <==> !isValid(form))
      && (!isValid(form) ==> out == Outcome([], Render(Context(Some(form), None, Some(fetched)))))
  {
    ModelFormViewPost(request, initial, Some(fetched), successUrl, interpolate, isValid, save)
  }

  /** DeletionMixin.delete (which DeletionMixin.post calls): the fetched object is always
      deleted, and only then is the success URL looked up, so a missing `success_url`
      raises after the deletion. Nothing is ever rendered. */
  function DeleteViewDelete(fetched: Obj, successUrl: Option<string>): (out: Outcome)
    ensures out.effects == [DeleteObject(fetched)]
    ensures out.response.Redirect? <==> IsSet(successUrl)
    ensures out.response.Redirect? ==> out.response.url == successUrl.value
    ensures out.response.Raised? ==> out.response.error == ImproperlyConfigured(NoSuccessUrl)
    ensures out.response == RedirectTo(DeletionSuccessUrl(successUrl))
    ensures !out.response.Render?
  {
    Outcome([DeleteObject(fetched)], RedirectTo(DeletionSuccessUrl(successUrl)))
  }
}
