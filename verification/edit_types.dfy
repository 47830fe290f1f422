/** The values that flow through the editing views of django/views/generic/edit.py.
    Forms, formsets, model instances and responses are opaque collaborators there;
    here they are plain values that keep just what the views decide on. */
module EditTypes {

  datatype Option<T> = None | Some(value: T)

  /** The parts of an HTTP request the views read: `request.httpMethod`,
      `request.POST` and `request.FILES`. */
  datatype Request = Request(httpMethod: string, post: map<string, string>, files: map<string, string>)

  /** A model instance: its class, its attribute dictionary (`__dict__`) and what
      `get_absolute_url()` returns, `None` when the model does not define it. */
  datatype Obj = Obj(model: string, attrs: map<string, string>, absoluteUrl: Option<string>)

  /** One keyword argument handed to a form or formset constructor. */
  datatype KwArg =
    | InitialArg(initial: map<string, string>)
    | DataArg(data: map<string, string>)
    | FilesArg(files: map<string, string>)
    | InstanceArg(instance: Option<Obj>)
    | ParentModelArg(model: string)

  type Kwargs = map<string, KwArg>

  /** A form instance, known by the keyword arguments it was built from. */
  datatype Form = Form(kwargs: Kwargs)

  /** A configured formset class: the prefix its `get_default_prefix()` returns, and for
      inline formsets the model it edits and its foreign-key name. */
  datatype FormSetClass = FormSetClass(name: string, defaultPrefix: string, model: string, fkName: Option<string>)

  /** A formset instance: `formset(prefix=prefix, **kwargs)`. */
  datatype FormSetInstance = FormSetInstance(formset: FormSetClass, prefix: string, kwargs: Kwargs)

  /** The template context a view renders: the `form`, `formsets` and `object` keys. */
  datatype Context = Context(form: Option<Form>, formsets: Option<seq<FormSetInstance>>, obj: Option<Obj>)

  /** The exception a misconfigured view raises. */
  datatype Error = ImproperlyConfigured(message: string)

  datatype Result<T> = Ok(value: T) | Err(error: Error)

  /** What a handler produces: an HTTP 302 to `url`, an HTTP 200 rendering of a
      context, or an exception that propagates out of the view. */
  datatype Response = Redirect(url: string) | Render(context: Context) | Raised(error: Error)

  /** A call into the ORM a handler makes, in the order it makes them. */
  datatype Effect =
    | SaveForm(form: Form)
    | SaveObject(obj: Obj)
    | SaveM2M(form: Form)
    | SaveFormSet(formset: FormSetInstance)
    | DeleteObject(obj: Obj)

  datatype Outcome = Outcome(effects: seq<Effect>, response: Response)

  /** `request.httpMethod in ('POST', 'PUT')`. */
  predicate IsSubmission(httpMethod: string)
  {
    httpMethod == "POST" || httpMethod == "PUT"
  }

  /** Python truthiness of `success_url`: neither `None` nor the empty string. */
  predicate IsSet(url: Option<string>)
  {
    url.Some? && url.value != ""
  }

  /** `all_valid(formsets)`: every formset is valid (all of them are asked). */
  predicate AllValid(formsets: seq<FormSetInstance>, isValid: FormSetInstance -> bool)
  {
    forall i :: 0 <= i < |formsets| ==> isValid(formsets[i])
  }

  /** `HttpResponseRedirect(self.get_success_url())`: the exception, if any, propagates. */
  function RedirectTo(url: Result<string>): (response: Response)
  {
    match url
    case Ok(u) => Redirect(u)
    case Err(e) => Raised(e)
  }

  /** `formset.save()` for every formset, in order. */
  function Saves(formsets: seq<FormSetInstance>): (effects: seq<Effect>)
  {
    seq(|formsets|, i requires 0 <= i < |formsets| => SaveFormSet(formsets[i]))
  }
}
