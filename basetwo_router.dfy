/**
 * `BaseTwoRouter` of the lib revision: like `BaseRouter`, but a handler may
 * answer on its own (return nothing, an object with a socket, or an object
 * without a status), and exceptions go to an overridable `handleError`.
 */
module BaseTwoRouter {
  import opened Wrappers
  import opened Http
  import Util
  import BaseRouter

  /** `_handleResponse(res, response)`: nothing is written for a missing
      result, an object with a socket or an object without a (truthy)
      status; a number is written as its default envelope; a proper object
      is written with its own status, with a default message when a non-200
      status has none. */
  function HandleResponse(v: HandlerValue): (o: Outcome)
    ensures o.NoWrite? || o.Respond?
    ensures o.NoWrite? <==> v.Nothing? || (v.Object? && (v.obj.socket || !StatusSet(v.obj)))
    ensures v.Code? ==> o == Respond(v.n, Envelope(ResponseObj(Some(v.n), Some(DefaultFor(v.n)), false, map[])))
    ensures v.Object? && o.Respond? ==> o.status == v.obj.status.value && o.body.Envelope?
    ensures v.Object? && o.Respond? ==> o.body.obj.extra == v.obj.extra && o.body.obj.status == v.obj.status
    ensures v.Object? && o.Respond? && o.status != OK ==> MessageSet(o.body.obj)
    ensures v.Object? && o.Respond? && MessageSet(v.obj) ==> o.body.obj.message == v.obj.message
    ensures v.Object? && o.Respond? && o.status != OK && !MessageSet(v.obj) ==> o.body.obj.message == Some(DefaultFor(o.status))
  {
    match v
    case Nothing => NoWrite
    case Code(n) => Respond(n, Envelope(ResponseObj(Some(n), Some(DefaultFor(n)), false, map[])))
    case Object(response) =>
      if response.socket || !StatusSet(response) then NoWrite
      else
        var message :=
          if response.status.value != OK && !MessageSet(response) then Some(DefaultFor(response.status.value))
          else response.message;
        Respond(response.status.value, Envelope(response.(message := message)))
  }

  /** Whatever a well-formed object writes here, the src revision's
      normalisation writes too; the two differ only on objects the lib
      revision leaves to the handler. */
  lemma AgreesWithGetResponse(o: ResponseObj)
    requires StatusSet(o) && !o.socket
    ensures HandleResponse(Object(o)) == Respond(Util.GetResponseValue(Object(o)).status.value, Envelope(Util.GetResponseValue(Object(o))))
  {
  }

  /** An object without a status is left to the handler here, while the src
      revision answers it with 200. */
  lemma StatuslessObjectDiffers(o: ResponseObj)
    requires !StatusSet(o)
    ensures HandleResponse(Object(o)) == NoWrite
    ensures Util.GetResponseValue(Object(o)).status == Some(OK)
  {
  }

  /** `handleError(error, req, res)`: the base one writes the 500 envelope;
      a subclass override takes over. */
  function HandleError(handler: ErrorHandler, f: Fault): (o: Outcome)
    ensures handler.DefaultHandler? ==> o == Util.DefaultErrorResponse()
    ensures handler.CustomHandler? ==> o == ToErrorHandler(f)
  {
    if handler.DefaultHandler? then HandleResponse(Code(INTERNAL_SERVER_ERROR)) else ToErrorHandler(f)
  }

  /** `_wrapHandler(handler)` for one request. */
  function WrapHandler(onError: ErrorHandler, handler: BaseRouter.Handler, req: Request): (o: Outcome)
    ensures handler(req).Threw? ==> o == HandleError(onError, handler(req).fault)
    ensures handler(req).Completed? ==> o == HandleResponse(handler(req).value)
  {
    match handler(req)
    case Threw(f) => HandleError(onError, f)
    case Completed(v) => HandleResponse(v)
  }

  class BaseTwoRouter {
    /** `handleError` as the subclass leaves or overrides it. */
    const onError: ErrorHandler
    /** The handlers registered on the Express router, in order. */
    var registered: seq<BaseRouter.Registration>

    /** `new BaseTwoRouter()`: the base `init()` registers nothing. */
    constructor (onError: ErrorHandler)
      ensures this.onError == onError && registered == []
    {
      this.onError := onError;
      registered := [];
    }

    /** `all/get/post/put/delete(path, handler)`: registers the wrapped handler. */
    method Register(verb: BaseRouter.Verb, path: string, handler: BaseRouter.Handler)
      modifies this
      ensures registered == old(registered) + [BaseRouter.Registration(verb, path, handler)]
    {
      registered := registered + [BaseRouter.Registration(verb, path, handler)];
    }

    /** The response of a registered handler: at most one write. */
    function Serve(reg: BaseRouter.Registration, req: Request): (o: Outcome)
      reads this
      ensures o.NoWrite? || o.Respond? || (o.ToErrorHandler? && onError.CustomHandler?)
      ensures reg.handler(req).Completed? ==> o == HandleResponse(reg.handler(req).value)
    {
      WrapHandler(onError, reg.handler, req)
    }
  }
}
