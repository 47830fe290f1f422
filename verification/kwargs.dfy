/** The keyword arguments the views pass to form and formset constructors
    (django/views/generic/edit.py:39-49, 94-100, 200-213, 254-263). */
module KeywordArgs {
  import opened EditTypes

  /** FormMixin.get_form_kwargs: always `initial`; `data` and `files` from the request
      exactly when it is a POST or a PUT. */
  function FormKwargs(request: Request, initial: map<string, string>): (kw: Kwargs)
    ensures "initial" in kw && kw["initial"] == InitialArg(initial)
    ensures "data" in kw <==> IsSubmission(request.httpMethod)
    ensures "files" in kw <==> IsSubmission(request.httpMethod)
    ensures "data" in kw ==> kw["data"] == DataArg(request.post)
    ensures "files" in kw ==> kw["files"] == FilesArg(request.files)
    ensures kw.Keys <= {"initial", "data", "files"}
  {
    var kw := map["initial" := InitialArg(initial)];
    if IsSubmission(request.httpMethod) then
      kw["data" := DataArg(request.post)]["files" := FilesArg(request.files)]
    else kw
  }

  /** ModelFormMixin.get_form_kwargs: the FormMixin arguments plus `instance`. */
  function ModelFormKwargs(request: Request, initial: map<string, string>, obj: Option<Obj>): (kw: Kwargs)
    ensures "instance" in kw && kw["instance"] == InstanceArg(obj)
    ensures kw - {"instance"} == FormKwargs(request, initial)
  {
    FormKwargs(request, initial)["instance" := InstanceArg(obj)]
  }

  /** FormSetMixin.get_formsets_kwargs: `data` and `files` from the request exactly when
      it is a POST or a PUT, and nothing otherwise. */
  function FormSetKwargs(request: Request): (kw: Kwargs)
    ensures "data" in kw <==> IsSubmission(request.httpMethod)
    ensures "files" in kw <==> IsSubmission(request.httpMethod)
    ensures "data" in kw ==> kw["data"] == DataArg(request.post)
    ensures "files" in kw ==> kw["files"] == FilesArg(request.files)
    ensures !IsSubmission(request.httpMethod) ==> kw == map[]
    ensures kw.Keys <= {"data", "files"}
  {
    if IsSubmission(request.httpMethod) then
      map["data" := DataArg(request.post), "files" := FilesArg(request.files)]
    else map[]
  }

  /** InlineFormSetMixin.get_formsets_kwargs: the FormSetMixin arguments plus the parent
      `instance` and its class as `parent_model`. */
  function InlineFormSetKwargs(request: Request, obj: Obj): (kw: Kwargs)
    ensures "instance" in kw && kw["instance"] == InstanceArg(Some(obj))
    ensures "parent_model" in kw && kw["parent_model"] == ParentModelArg(obj.model)
    ensures kw - {"instance", "parent_model"} == FormSetKwargs(request)
  {
    FormSetKwargs(request)["instance" := InstanceArg(Some(obj))]["parent_model" := ParentModelArg(obj.model)]
  }

  /** A form and a formset of the same request are bound to the same data: the form's
      arguments are the formset's plus `initial`. */
  lemma FormAndFormSetBindAlike(request: Request, initial: map<string, string>)
    ensures FormKwargs(request, initial) == FormSetKwargs(request)["initial" := InitialArg(initial)]
  {
  }
}
