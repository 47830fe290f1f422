/** How the delegating handlers of django/views/generic/edit.py forward their positional
    arguments: ProcessFormView.put and DeletionMixin.post take `*args` (the request
    included) and pass them on whole, while ProcessFormSetView.put and
    ProcessInlineFormSetView.put take `request` separately and pass on only the rest. */
module Dispatch {
  import opened EditTypes

  /** A positional argument of a handler call: the request, which the framework's
      dispatcher passes first, or a value captured from the URL. */
  datatype PositionalArg = RequestArg(request: Request) | UrlArg(value: string)

  /** How Python binds positional arguments to `post(self, request, *args, **kwargs)`:
      the first becomes `request` and the rest `args`; with none, the call raises TypeError. */
  datatype Binding = Bound(request: PositionalArg, rest: seq<PositionalArg>) | MissingRequest

  function BindPost(args: seq<PositionalArg>): (b: Binding)
    ensures b.MissingRequest? <==> args == []
    ensures b.Bound? ==> [b.request] + b.rest == args
  {
    if args == [] then MissingRequest else Bound(args[0], args[1..])
  }

  /** The arguments a handler receives: `handler(request, *args, **kwargs)`. */
  function Dispatched(request: Request, urlArgs: seq<string>): (args: seq<PositionalArg>)
    ensures |args| == |urlArgs| + 1 && args[0] == RequestArg(request)
    ensures forall i :: 0 <= i < |urlArgs| ==> args[i + 1] == UrlArg(urlArgs[i])
  {
    [RequestArg(request)] + seq(|urlArgs|, i requires 0 <= i < |urlArgs| => UrlArg(urlArgs[i]))
  }

  /** The formset views' put as written: `put(self, request, *args)` calls
      `self.post(*args)`, so `request` is not passed on. */
  function PutForwardAsWritten(args: seq<PositionalArg>): (forwarded: seq<PositionalArg>)
    requires |args| >= 1
  {
    args[1..]
  }

  /** Forwarding everything, as ProcessFormView.put and DeletionMixin.post do. */
  function PutForward(args: seq<PositionalArg>): (forwarded: seq<PositionalArg>)
  {
    args
  }

  /** As written, a PUT to a formset view whose URL captures no positional argument calls
      post() without its `request`: a TypeError instead of the POST behaviour. */
  lemma PutAsWrittenMissesRequest(request: Request)
    ensures BindPost(PutForwardAsWritten(Dispatched(request, []))) == MissingRequest
  {
  }

  /** As written, with captured URL arguments, post() takes the first of them as its
      request (harmless only because post reads `self.request`). */
  lemma PutAsWrittenMisbindsRequest(request: Request, urlArgs: seq<string>)
    requires urlArgs != []
    ensures BindPost(PutForwardAsWritten(Dispatched(request, urlArgs))).Bound?
    ensures BindPost(PutForwardAsWritten(Dispatched(request, urlArgs))).request == UrlArg(urlArgs[0])
  {
  }

  /** Forwarding everything, post() receives the same request and URL arguments the
      handler received, for every URL. */
  lemma PutForwardBindsRequest(request: Request, urlArgs: seq<string>)
    ensures BindPost(PutForward(Dispatched(request, urlArgs))) ==
            Bound(RequestArg(request), Dispatched(request, urlArgs)[1..])
  {
  }
}
