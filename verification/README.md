# Generic editing views: a Dafny model

This project models the request handling of the class-based editing views in
`django/views/generic/edit.py`. These are views that show and process a form, a set of
formsets, or a model instance with its inline formsets. They redirect on success,
re-render on validation errors and raise `ImproperlyConfigured` when no success URL
can be found.

Forms, formsets, model instances and the ORM are collaborators that this code only
calls. The model keeps what the views decide on:

- a form is known by the keyword arguments it was built from;
- a formset instance is known by its class, its prefix and its keyword arguments;
- validity, `form.save()`, `get_object()` and the accessor name of a foreign key come in
  as parameters;
- every call into the ORM a handler makes (a save, a many-to-many save, a delete) is
  recorded, in order, in the handler's `Outcome`, beside its `Response`: `Redirect(url)`
  (HTTP 302), `Render(context)` (HTTP 200) or `Raised(ImproperlyConfigured(message))`.

The Python mixins are resolved by hand. Each concrete view's handlers are modelled as
that view's method resolution order makes them behave. One consequence follows: the
inline formset view's `get_success_url` is `FormSetMixin`'s, which comes before
`ModelFormMixin`'s in that order. So that view never falls back to
`get_absolute_url()`.

Modules:

- `Decimal` (decimal.dfy): `str(k)` for the counter suffix, with its inverse.
- `Prefixes` (prefixes.dfy): the prefix rule of `construct_formsets` as a specification
  (`AssignedPrefixes`), the counter dictionary (`Tally`) and the lemmas about them.
- `EditTypes` (edit_types.dfy): requests, instances, forms, formsets, contexts,
  responses, effects.
- `KeywordArgs` (kwargs.dfy): `get_form_kwargs` and `get_formsets_kwargs`.
- `SuccessUrls` (success_urls.dfy): the four `get_success_url`s.
- `FormViews` (form_views.dfy): the handlers of the form, create, update and delete views.
  They are pure functions.
- `FormSetViews` (formset_views.dfy): the formset, model-formset and inline-formset views.
  These are classes whose `ConstructFormsets` loops keep the per-default counter and
  append to `formsetsInstances`, as the source does.
- `Dispatch` (dispatch.dfy): how `put` and `post` forward their positional arguments.

## Model

| member | source | states |
|---|---|---|
| `Decimal.NatToString` | django/views/generic/edit.py:194 | the counter renders as decimal digits with no leading zero; it is one character long exactly when the counter is below 10 |
| `Decimal.DecimalRoundTrip` | django/views/generic/edit.py:194 | reading the rendered digits back gives the counter again |
| `Decimal.NatToStringInjective` | django/views/generic/edit.py:194 | different counters never render alike |
| `Prefixes.TallyIsCount` | django/views/generic/edit.py:188-192 | after the loop has seen some formsets, the `prefixes` dictionary holds exactly their defaults, and each default's value is the number of those formsets that have it |
| `Prefixes.CounterStep` | django/views/generic/edit.py:191-194 | one turn of the loop: bumping the counter of the next default gives the dictionary for one more formset, and the prefix then computed is the one the specification assigns |
| `Prefixes.AssignedPrefixes` | django/views/generic/edit.py:186-198 | one prefix per configured formset |
| `Prefixes.SuffixRule` | django/views/generic/edit.py:191-194 | a formset keeps its default prefix exactly when no earlier formset has that default; otherwise it gets `default + "-" + str(n + 1)`, where n ≥ 1 is the number of earlier formsets with that default |
| `Prefixes.SameDefaultDistinct` | django/views/generic/edit.py:191-194 | two formsets with the same default never get the same prefix |
| `Prefixes.DistinctWhenDefaultsHaveNoHyphen` | django/views/generic/edit.py:191-194 | when no default contains a hyphen, all prefixes on the page are distinct |
| `Prefixes.HyphenatedDefaultCollides` | django/views/generic/edit.py:191-194 | defaults `form`, `form`, `form-2` get `form`, `form-2`, `form-2`: prefixes are distinct only per default, not across the page |
| `Prefixes.TwoFormFormSets` | tests/regressiontests/generic_views/formsets.py:12-30 | two formsets defaulting to `form` get `form` and `form-2`, the keys the tests post |
| `KeywordArgs.FormKwargs` | django/views/generic/edit.py:39-49 | always `initial`; `data` and `files` from the request exactly when the method is POST or PUT; nothing else |
| `KeywordArgs.ModelFormKwargs` | django/views/generic/edit.py:94-100 | the FormMixin arguments plus `instance` = the current object, and nothing else changed |
| `KeywordArgs.FormSetKwargs` | django/views/generic/edit.py:200-213 | `data` and `files` from the request exactly when the method is POST or PUT; empty otherwise |
| `KeywordArgs.InlineFormSetKwargs` | django/views/generic/edit.py:254-263 | the FormSetMixin arguments plus `instance` = the parent object and `parent_model` = its class |
| `KeywordArgs.FormAndFormSetBindAlike` | django/views/generic/edit.py:206-213 | a form's arguments are exactly a formset's plus `initial`, so both bind to the same data under the same condition |
| `SuccessUrls.FormSuccessUrl` | django/views/generic/edit.py:54-60 | `success_url` when it is truthy (not None, not empty); ImproperlyConfigured with the FormMixin message otherwise |
| `SuccessUrls.ModelFormSuccessUrl` | django/views/generic/edit.py:102-112 | the interpolated `success_url` when it is truthy, else the object's absolute URL; ImproperlyConfigured only when both are missing |
| `SuccessUrls.DeletionSuccessUrl` | django/views/generic/edit.py:166-171 | `success_url` when truthy, otherwise ImproperlyConfigured with the same message as FormMixin |
| `SuccessUrls.FormSetSuccessUrl` | django/views/generic/edit.py:223-229 | `success_url` when truthy; ImproperlyConfigured with the FormSetMixin message otherwise |
| `SuccessUrls.PlainVariantsAgree` | django/views/generic/edit.py:166-171 | the deletion variant equals the form variant, and the formset variant differs from it only in the error message |
| `SuccessUrls.ModelVariantFallsBack` | django/views/generic/edit.py:102-112 | the model variant succeeds wherever the plain one does, and fails exactly when `success_url` is unset and the object has no absolute URL |
| `FormViews.FormViewGet` | django/views/generic/edit.py:132-135 | GET renders the form built from FormMixin's arguments, saves nothing and never redirects |
| `FormViews.FormViewPost` | django/views/generic/edit.py:137-143 | a valid form redirects to `success_url`, or raises when it is unset; an invalid form is re-rendered; nothing is saved |
| `FormViews.ModelFormViewGet` | django/views/generic/edit.py:132-135 | GET saves nothing and renders only the form bound to the current object (no formsets), with the object in the context when there is one |
| `FormViews.ModelFormViewPost` | django/views/generic/edit.py:114-116 | the form is saved once, and only when it is valid; the response is then ModelFormMixin's success URL computed from the SAVED object (interpolated `success_url`, else its absolute URL, else ImproperlyConfigured); an invalid form is re-rendered with nothing saved |
| `FormViews.CreateViewGet` | django/views/generic/edit.py:395-397 | GET saves nothing and renders exactly the form bound by `get_form_kwargs` with no instance, and no object |
| `FormViews.CreateViewPost` | django/views/generic/edit.py:399-401 | the create form has no instance; when valid it saves the form once and answers with the success URL of the saved object; it re-renders exactly when the form is invalid, then with nothing saved, the form and no object |
| `FormViews.UpdateViewGet` | django/views/generic/edit.py:410-412 | GET saves nothing and renders exactly the form bound by `get_form_kwargs` with the fetched object as instance, and that object |
| `FormViews.UpdateViewPost` | django/views/generic/edit.py:414-416 | the update form edits the fetched object; when valid it saves the form once and answers with the success URL of the saved object; it re-renders exactly when the form is invalid, then with nothing saved, the form and the fetched object |
| `FormViews.DeleteViewDelete` | django/views/generic/edit.py:157-164 | POST and DELETE always delete the fetched object first, then redirect to `success_url`, or raise ImproperlyConfigured with DeletionMixin's message when it is unset; never render |
| `FormSetViews.WithoutPlus` | django/views/generic/edit.py:292 | `replace('+', '')` leaves no `+`, contains exactly the other characters of its input, and is the identity on a string without `+` |
| `FormSetViews.WithoutPlusKeepsCounts` | django/views/generic/edit.py:292 | every character but `+` is kept exactly as many times as it occurs |
| `FormSetViews.WithoutPlusAppend` | django/views/generic/edit.py:292 | removal works piece by piece (`WithoutPlus(a + b) == WithoutPlus(a) + WithoutPlus(b)`), so the kept characters stay in their order |
| `FormSetViews.InlineDefaultPrefix` | django/views/generic/edit.py:287-292 | the inline default prefix is the foreign key's accessor name without `+`; it never contains `+` |
| `FormSetViews.Loaded` | django/views/generic/edit.py:340-343 | the handler starts from `get_object()` when it succeeds, and from a new `self.model()` when it raises AttributeError |
| `FormSetViews.InlinePrefixesHaveNoPlus` | django/views/generic/edit.py:287-292 | every inline formset gets a prefix without `+` and is bound to the parent object |
| `FormSetViews.SameClassDistinctPrefixes` | django/views/generic/edit.py:189-194 | formsets with the same default prefix, for example the same class twice, get distinct prefixes |
| `FormSetViews.ConstructStep` | django/views/generic/edit.py:196-198 | each turn of the loop appends exactly the next configured formset under its assigned prefix |
| `FormSetViews.FormSetView.ConstructFormsets` | django/views/generic/edit.py:182-198 | resets `formsetsInstances`, then leaves exactly one instance per configured formset, in order, each under its assigned prefix and with FormSetMixin's arguments; the loop keeps the counter equal to `Tally` of the defaults seen |
| `FormSetViews.FormSetView.FormsetsValid` | django/views/generic/edit.py:243-246 | the model variant saves every formset in order and the plain one saves none; then it redirects to `success_url` or raises |
| `FormSetViews.FormSetView.Get` | django/views/generic/edit.py:318-320 | constructs the formsets and renders them, saving nothing |
| `FormSetViews.FormSetView.Post` | django/views/generic/edit.py:322-327 | constructs the formsets; it redirects exactly when all are valid and a success URL is set (raising the FormSetMixin error when all are valid and none is set), and re-renders exactly when one is invalid; model formsets are saved only on the valid path |
| `FormSetViews.FormSetView.Put` | django/views/generic/edit.py:329-330 | behaves as POST (with the forwarding corrected, see Findings) |
| `FormSetViews.InlineFormSetView.ConstructFormsets` | django/views/generic/edit.py:295-311 | as FormSetMixin's, with defaults taken from the foreign keys to the current object's class, and every instance bound to that object; the object is unchanged |
| `FormSetViews.InlineFormSetView.FormValid` | django/views/generic/edit.py:273-279 | saves the object, then its many-to-many data, then every formset in order; then redirects to `success_url` or raises |
| `FormSetViews.InlineFormSetView.Get` | django/views/generic/edit.py:338-352 | loads the object (or a new one), builds its form and formsets and renders all three |
| `FormSetViews.InlineFormSetView.Post` | django/views/generic/edit.py:354-376 | formsets are constructed on every path; `form_valid` is reached exactly when the form and every formset are valid; otherwise nothing is saved and the form is re-rendered with the formsets |
| `FormSetViews.InlineFormSetView.Put` | django/views/generic/edit.py:379-380 | behaves as POST (with the forwarding corrected, see Findings) |
| `Dispatch.BindPost` | django/views/generic/edit.py:322 | `post(self, request, *args)` lacks its request exactly when it receives no positional argument |
| `Dispatch.PutAsWrittenMissesRequest` | django/views/generic/edit.py:329-330 | as written, PUT to a URL without positional captures calls post() without a request |
| `Dispatch.PutAsWrittenMisbindsRequest` | django/views/generic/edit.py:379-380 | as written, with URL captures, post() takes the first capture as its request |
| `Dispatch.PutForwardBindsRequest` | django/views/generic/edit.py:147-148 | forwarding every positional argument, as ProcessFormView.put does, gives post() the original request and URL arguments for every URL |

## Findings

| source | as written | input that shows it | evidently intended | confidence | as-written member | corrected member |
|---|---|---|---|---|---|---|
| django/views/generic/edit.py:329-330 | `put(self, request, *args, **kwargs)` returns `self.post(*args, **kwargs)`, dropping `request`; the same holds at lines 379-380 | a PUT to a formset or inline-formset view whose URL pattern captures no positional argument: post() is called with no `request` and raises TypeError | PUT behaves as POST, as in ProcessFormView.put (lines 147-148), which forwards the request with `*args` | high; not executed | `Dispatch.PutAsWrittenMissesRequest` | `Dispatch.PutForwardBindsRequest` |

The two `Put` methods of `FormSetViews` use the corrected forwarding. They answer exactly
what `Post` answers. With the argument binding as written, they would raise for URLs
without positional captures.

## Left out

- ORM and form-library work is not modelled: `form.save`, `save_m2m`, `formset.save`,
  `object.delete`, `get_object`, `is_valid`, `all_valid`'s per-formset validation,
  `_get_foreign_key` and `RelatedObject.get_accessor_name`. These calls are recorded as
  effects or taken as parameters.
- `ModelFormMixin.get_form_class` (lines 74-92) is left out. It chooses a form class
  through `modelform_factory` and the queryset; the model's forms are known by their
  arguments only. `FormMixin.get_initial` returns the `initial` class attribute and appears
  as the `initial` parameter. `FormMixin.get_form_class` (lines 27-31) is not modelled
  either: forms are known by their arguments, and the TypeError raised when `form_class`
  is None and `get_form` calls it is not modelled.
- `success_url % self.object.__dict__` is Python `%` formatting. It is taken as an
  uninterpreted `interpolate` parameter.
- Template rendering, `render_to_response` and `HttpResponseRedirect` are left out.
  Responses are the `Response` datatype. The context keeps the `form`, `formsets` and
  `object` keys; the extra key named by `get_context_object_name` is left out, because
  SingleObjectMixin is not part of this model.
- Python's method resolution order is not modelled. Each concrete view's resolved
  behaviour is written directly.
- BaseDeleteView's GET comes from BaseDetailView, which is not part of this model.
- Exceptions other than ImproperlyConfigured are left out: a 404 from `get_object`, and
  the AttributeError of `ModelFormMixin.get_success_url` on a `None` object, which no
  handler reaches because `form_valid` sets the object first.
- The AttributeError that `ProcessInlineFormSetView` catches around `get_object()` is
  modelled as `fetched == None`.
- `InlineFormSetView.ConstructFormsets` requires `obj` to be set. Its callers always set
  `self.object` first; the AttributeError raised when it is unset is not modelled.
- The view classes `FormView`, `CreateView`, `UpdateView`, `DeleteView`,
  `FormSetView`, `ModelFormSetView` and `InlineFormSetView` only add template mixins,
  which are not modelled.
