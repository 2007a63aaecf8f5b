/** `SocketRouter.handleRequest`: validate the request shape, look the
    (type, action) pair up in a two-level table, run the handler, and turn a
    thrown failure into an `internal_server_error` envelope. The table and the
    handlers are parameters; a handler is an oracle that either returns an
    envelope or throws. */
module SocketRouter {
  import opened Values
  import opened SocketResponse
  import Messages

  /** What running a handler does: return an envelope, or throw. */
  datatype HandlerResult = Returned(response: Response) | Threw(thrown: Thrown)

  /** The outcome of the checks before any handler runs. */
  datatype Resolution<H> = Rejected(response: Response) | Resolved(handler: H)

  /** `type` and `action` are both present and non-empty. */
  predicate WellFormed(req: Request) {
    Filled(req.kind) && Filled(req.action)
  }

  const TypeActionRequired := "Type and action are required"

  function ServiceMissing(kind: string): string {
    "Service '" + kind + "' not found"
  }

  function ActionMissing(kind: string, action: string): string {
    "Action '" + action + "' not found in service '" + kind + "'"
  }

  /** Lines 12-30: validation, then the service, then the action. Every
      rejection is a failure envelope echoing the request. */
  function Resolve<H>(registry: map<string, map<string, H>>, req: Request): (r: Resolution<H>)
    ensures r.Rejected? ==> !r.response.status && r.response.request == req && r.response.errors != []
    ensures r.Resolved? <==>
      WellFormed(req) && req.kind.value in registry && req.action.value in registry[req.kind.value]
    ensures r.Resolved? ==> r.handler == registry[req.kind.value][req.action.value]
  {
    if !WellFormed(req) then
      Rejected(ValidationError([TypeActionRequired], req))
    else if req.kind.value !in registry then
      Rejected(Error(Messages.ServiceNotFound, [ServiceMissing(req.kind.value)], req))
    else if req.action.value !in registry[req.kind.value] then
      Rejected(Error(Messages.ActionNotFound, [ActionMissing(req.kind.value, req.action.value)], req))
    else
      Resolved(registry[req.kind.value][req.action.value])
  }

  /** `SocketRouter.handleRequest`. It is total: no input makes it throw. */
  function HandleRequest<H>(registry: map<string, map<string, H>>,
                            run: (H, Doc, Request) -> HandlerResult,
                            req: Request): (r: Response)
    // the checks, in this order
    ensures !WellFormed(req) ==>
      r == Error(Messages.ValidationFailed, [TypeActionRequired], req)
    ensures WellFormed(req) && req.kind.value !in registry ==>
      r == Error(Messages.ServiceNotFound, ["Service '" + req.kind.value + "' not found"], req)
    ensures WellFormed(req) && req.kind.value in registry && req.action.value !in registry[req.kind.value] ==>
      r == Error(Messages.ActionNotFound,
                 ["Action '" + req.action.value + "' not found in service '" + req.kind.value + "'"], req)
    // a resolved request: the handler's envelope unchanged, or the caught failure
    ensures Resolve(registry, req).Resolved? ==>
      var h := registry[req.kind.value][req.action.value];
      match run(h, req.payload, req)
      case Returned(e) => r == e
      case Threw(t) => r == Error(Messages.InternalServerError, [ErrorText(t)], req)
  {
    match Resolve(registry, req)
    case Rejected(e) => e
    case Resolved(h) =>
      match run(h, req.payload, req)
      case Returned(e) => e
      case Threw(t) => Caught(Messages.InternalServerError, t, req)
  }

  /** No handler runs before the request has been resolved: on every
      rejection the answer does not depend on the handlers at all. */
  lemma RejectionIgnoresHandlers<H>(registry: map<string, map<string, H>>,
                                    run1: (H, Doc, Request) -> HandlerResult,
                                    run2: (H, Doc, Request) -> HandlerResult,
                                    req: Request)
    requires !Resolve(registry, req).Resolved?
    ensures HandleRequest(registry, run1, req) == HandleRequest(registry, run2, req)
    ensures !HandleRequest(registry, run1, req).status
  {
  }

  /** The answer depends on the handlers only through the one call
      `handler(payload, request)`: two oracles that agree on that call give
      the same answer. */
  lemma OneHandlerCall<H>(registry: map<string, map<string, H>>,
                          run1: (H, Doc, Request) -> HandlerResult,
                          run2: (H, Doc, Request) -> HandlerResult,
                          req: Request)
    requires Resolve(registry, req).Resolved?
    requires var h := Resolve(registry, req).handler;
      run1(h, req.payload, req) == run2(h, req.payload, req)
    ensures HandleRequest(registry, run1, req) == HandleRequest(registry, run2, req)
  {
  }

  /** An unknown service is reported as such even when the action is
      unknown too: the service check comes first. */
  lemma ServiceCheckedBeforeAction<H>(registry: map<string, map<string, H>>,
                                      run: (H, Doc, Request) -> HandlerResult,
                                      req: Request)
    requires WellFormed(req) && req.kind.value !in registry
    ensures HandleRequest(registry, run, req).msg == "service_not_found"
    ensures HandleRequest(registry, run, req).msg != "action_not_found"
  {
  }

  /** The echo invariant: if every handler's envelope echoes the request it
      was given (as the registered services do), every answer of the router
      echoes the original request verbatim, and every envelope is well shaped
      as long as the handlers' are. */
  lemma EchoInvariant<H>(registry: map<string, map<string, H>>,
                         run: (H, Doc, Request) -> HandlerResult,
                         req: Request)
    requires forall h: H, p: Doc :: run(h, p, req).Returned? ==>
      run(h, p, req).response.request == req && WellShaped(run(h, p, req).response)
    ensures HandleRequest(registry, run, req).request == req
    ensures WellShaped(HandleRequest(registry, run, req))
  {
    match Resolve(registry, req)
    case Rejected(e) =>
    case Resolved(h) =>
      var out := run(h, req.payload, req);
  }

  /** Every envelope the router builds itself (rather than passing a handler's
      through) is a failure that echoes the request. */
  lemma RouterEnvelopesFail<H>(registry: map<string, map<string, H>>,
                               run: (H, Doc, Request) -> HandlerResult,
                               req: Request)
    ensures var r := HandleRequest(registry, run, req);
      (Resolve(registry, req).Resolved? && run(Resolve(registry, req).handler, req.payload, req).Returned?)
      || (!r.status && r.data.None? && r.request == req && |r.errors| == 1)
  {
  }
}
