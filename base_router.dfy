/**
 * `BaseRouter` of the lib revision: handlers are registered under a method
 * and a path, and every handler is wrapped so that its result is normalised
 * and written, and any exception answered with 500.
 */
module BaseRouter {
  import opened Wrappers
  import opened Http
  import Util

  /** The registration methods `all`, `get`, `post`, `put`, `delete`. */
  datatype Verb = All | Get | Post | Put | Delete

  /** A lib route handler, `(req, res) => result`. */
  type Handler = Request -> Run

  /** One handler on the Express router. */
  datatype Registration = Registration(verb: Verb, path: string, handler: Handler)

  /** `handleResponse(res, response)`: a number becomes its default envelope;
      an object gets 200 when it has no status and a default message when it
      needs one; reading `.status` of nothing throws. */
  function HandleResponse(v: HandlerValue): (r: Result<Outcome, Fault>)
    ensures v.Nothing? <==> r.Err?
    ensures r.Err? ==> r.error == TypeError
    ensures r.Ok? ==> r.value == Respond(Util.GetResponseValue(v).status.value, Envelope(Util.GetResponseValue(v)))
    ensures v.Object? && !StatusSet(v.obj) ==> r.Ok? && r.value.status == OK
  {
    match v
    case Nothing => Err(TypeError)
    case Code(n) => Ok(Respond(n, Envelope(ResponseObj(Some(n), Some(DefaultFor(n)), false, map[]))))
    case Object(o) =>
      var status := if StatusSet(o) then o.status.value else OK;
      var message := if status != OK && !MessageSet(o) then Some(DefaultFor(status)) else o.message;
      Ok(Respond(status, Envelope(o.(status := Some(status), message := message))))
  }

  /** `wrapHandler(handler)` for one request: every request gets exactly one
      response, 500 when the handler throws or returns nothing. */
  function WrapHandler(handler: Handler, req: Request): (o: Outcome)
    ensures o.Respond?
    ensures handler(req).Threw? || handler(req) == Completed(Nothing) ==> o == Util.DefaultErrorResponse()
    ensures handler(req).Completed? && !handler(req).value.Nothing? ==> o == HandleResponse(handler(req).value).value
  {
    match handler(req)
    case Threw(_) => HandleResponse(Code(INTERNAL_SERVER_ERROR)).value
    case Completed(v) =>
      match HandleResponse(v)
      case Err(_) => HandleResponse(Code(INTERNAL_SERVER_ERROR)).value
      case Ok(o) => o
  }

  class BaseRouter {
    /** The handlers registered on the Express router, in order. */
    var registered: seq<Registration>

    constructor ()
      ensures registered == []
    {
      registered := [];
    }

    /** `all/get/post/put/delete(path, handler)`: registers the wrapped handler. */
    method Register(verb: Verb, path: string, handler: Handler)
      modifies this
      ensures registered == old(registered) + [Registration(verb, path, handler)]
    {
      registered := registered + [Registration(verb, path, handler)];
    }
  }

  /** `WildcardRouter`: every request is answered 404. */
  method NewWildcard() returns (r: BaseRouter)
    ensures fresh(r) && |r.registered| == 1
    ensures r.registered[0].verb == All && r.registered[0].path == "*"
    ensures forall req ::
      WrapHandler(r.registered[0].handler, req) == Respond(NOT_FOUND, Envelope(ResponseObj(Some(NOT_FOUND), Some(DefaultFor(NOT_FOUND)), false, map[])))
  {
    r := new BaseRouter();
    r.Register(All, "*", req => Completed(Code(NOT_FOUND)));
  }

  /** `GenericRouter(version, message)`: `/` answers 200 with both. */
  method NewGeneric(version: string, message: string) returns (r: BaseRouter)
    ensures fresh(r) && |r.registered| == 1
    ensures r.registered[0].verb == All && r.registered[0].path == "/"
    ensures forall req ::
      WrapHandler(r.registered[0].handler, req) == Respond(OK, Envelope(ResponseObj(Some(OK), Some(Literal(message)), false, map["version" := JStr(version)])))
  {
    r := new BaseRouter();
    r.Register(All, "/", req => Completed(Object(ResponseObj(None, Some(Literal(message)), false, map["version" := JStr(version)]))));
  }
}
