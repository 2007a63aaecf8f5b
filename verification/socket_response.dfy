/** The wire request and the uniform response envelope, with the three
    envelope constructors of `SocketResponseUtil`. */
module SocketResponse {
  import opened Values
  import Messages

  /** `SocketRequest`. `kind` is the wire field `type`; a missing `type` or
      `action` is `None`. */
  datatype Request = Request(kind: Option<string>, action: Option<string>, payload: Doc, demo: Option<Doc>)

  /** `SocketResponse`: `data` is `None` when the field is absent. */
  datatype Response = Response(status: bool, msg: string, data: Option<Value>, errors: seq<string>, request: Request)

  /** The shape every envelope keeps: a success carries no errors, a failure
      carries no data. */
  predicate WellShaped(r: Response) {
    (r.status ==> r.errors == []) && (!r.status ==> r.data.None?)
  }

  /** `SocketResponseUtil.success` */
  function Success(msg: string, data: Value, request: Request): (r: Response)
    ensures r.status && r.errors == [] && WellShaped(r)
    ensures r.msg == msg && r.data == Some(data) && r.request == request
  {
    Response(true, msg, Some(data), [], request)
  }

  /** `SocketResponseUtil.error` */
  function Error(msg: string, errors: seq<string>, request: Request): (r: Response)
    ensures !r.status && r.data.None? && WellShaped(r)
    ensures r.msg == msg && r.errors == errors && r.request == request
  {
    Response(false, msg, None, errors, request)
  }

  /** `SocketResponseUtil.validationError`: an error with the fixed code
      `validation_failed`. */
  function ValidationError(errors: seq<string>, request: Request): (r: Response)
    ensures r == Error(Messages.ValidationFailed, errors, request)
  {
    Response(false, "validation_failed", None, errors, request)
  }

  /** The envelope of a failure that was caught: the thrown error's message,
      or "Unknown error". */
  function Caught(msg: string, t: Thrown, request: Request): (r: Response)
    ensures !r.status && r.data.None? && r.msg == msg && r.request == request
    ensures r.errors == [if t.ErrorValue? then t.message else "Unknown error"]
  {
    Error(msg, [ErrorText(t)], request)
  }

  /** The envelopes the three constructors can build are exactly the
      well-shaped ones: any well-shaped envelope is `success` or `error`
      of its own fields. */
  lemma WellShapedIsBuilt(r: Response)
    requires WellShaped(r)
    ensures r.status && r.data.Some? ==> r == Success(r.msg, r.data.value, r.request)
    ensures !r.status ==> r == Error(r.msg, r.errors, r.request)
  {
  }
}
