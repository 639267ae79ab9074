/**
 * The lib-revision middleware base (`BaseMiddleware`): the same whitelist
 * scan as the src revision, but its own `getResponse` (which does not accept
 * a missing result), a default `exec` that refuses with 500, and a handler
 * that answers every exception itself with 500.
 */
module BaseMiddleware {
  import opened Wrappers
  import opened Http
  import Util
  import Whitelist
  import Middleware

  /** `getResponse(response)` of the lib revision: reading `.status` of
      `null`/`undefined` throws; numbers and objects are normalised as in the
      src revision. */
  function GetResponse(v: HandlerValue): (r: Result<ResponseObj, Fault>)
    ensures r.Err? <==> v.Nothing?
    ensures r.Err? ==> r.error == TypeError
    ensures !v.Nothing? ==> r == Ok(Util.GetResponseValue(v))
  {
    if v.Nothing? then Err(TypeError) else Ok(Util.GetResponseValue(v))
  }

  /** The base `exec()`: `{status: 500, message: 'Empty middleware'}` */
  function DefaultExec(req: Request): (step: ExecStep)
    ensures step.result.Completed? && step.account == req.account
    ensures Util.GetResponseValue(step.result.value).status == Some(INTERNAL_SERVER_ERROR)
  {
    ExecStep(Completed(Object(ResponseObj(Some(INTERNAL_SERVER_ERROR), Some(Literal("Empty middleware")), false, map[]))), req.account)
  }

  /** The response the `catch` block writes. */
  function FailureResponse(): (o: Outcome)
    ensures o == Util.DefaultErrorResponse()
  {
    var response := Util.GetResponseValue(Code(INTERNAL_SERVER_ERROR));
    Respond(response.status.value, Envelope(response))
  }

  /** What the handler does with the run of `exec`: an exception, or a missing
      result, answers 500; a 200 calls `next()`; anything else is written. */
  function Decide(run: Run): (o: Outcome)
    ensures o.Next? || o.Respond?
    ensures o == Next <==> run.Completed? && !run.value.Nothing? && Util.GetResponseValue(run.value).status == Some(OK)
    ensures run.Threw? || run.value.Nothing? ==> o == FailureResponse()
    ensures run.Completed? && !run.value.Nothing? && o.Respond? ==>
      o.body == Envelope(Util.GetResponseValue(run.value)) && MessageSet(o.body.obj)
  {
    match run
    case Threw(_) => FailureResponse()
    case Completed(v) =>
      match GetResponse(v)
      case Err(_) => FailureResponse()
      case Ok(response) =>
        if response.status == Some(OK) then Next else Respond(response.status.value, Envelope(response))
  }

  /** The revisions part ways on a missing result (lib: 500, src: `next()`)
      and on exceptions (lib: its own 500; src: the error handler); otherwise
      they decide alike. */
  lemma DecideRevisions(run: Run)
    ensures run == Completed(Nothing) ==> Decide(run) == FailureResponse()
    ensures run == Completed(Nothing) ==> Util.Settle(DefaultHandler, Middleware.Decide(run)) == Next
    ensures run.Completed? && !run.value.Nothing? ==> Decide(run) == Middleware.Decide(run)
    ensures run.Threw? ==> Decide(run) == Util.Settle(DefaultHandler, Middleware.Decide(run))
  {
  }

  class BaseMiddleware {
    /** `exec` as a subclass overrides it, `None` for the base one. */
    const executor: Option<Executor>
    const urlMatch: Whitelist.UrlMatch
    var whitelistArray: seq<Whitelist.Entry>

    constructor (executor: Option<Executor>, urlMatch: Whitelist.UrlMatch)
      ensures this.executor == executor && this.urlMatch == urlMatch
      ensures whitelistArray == []
    {
      this.executor := executor;
      this.urlMatch := urlMatch;
      whitelistArray := [];
    }

    /** `whitelist(path, method)`: appends one entry. */
    method AddToWhitelist(path: string, verb: Option<string>)
      modifies this
      ensures whitelistArray == old(whitelistArray) + [Whitelist.NewEntry(path, verb)]
    {
      whitelistArray := whitelistArray + [Whitelist.NewEntry(path, verb)];
    }

    /** The `exec` in effect for a request. */
    function Exec(req: Request): (step: ExecStep)
      ensures executor.None? ==> step == DefaultExec(req)
    {
      match executor
      case Some(f) => f(req)
      case None => DefaultExec(req)
    }

    /** The handler `middleware()` returns, for one request. */
    method Handle(req: Request) returns (o: Outcome, after: Request)
      ensures Whitelist.Whitelisted(urlMatch, whitelistArray, req) ==> o == Next && after == req
      ensures !Whitelist.Whitelisted(urlMatch, whitelistArray, req) ==>
        o == Decide(Exec(req).result) && after == req.(account := Exec(req).account)
      ensures o.Next? || o.Respond?
    {
      var bypass := Whitelist.Scan(urlMatch, whitelistArray, req);
      if bypass {
        return Next, req;
      }
      var step := Exec(req);
      o := Decide(step.result);
      after := req.(account := step.account);
    }
  }

  /** A bare `BaseMiddleware` refuses every request it does not whitelist. */
  lemma BareMiddlewareRefuses(req: Request)
    ensures Decide(DefaultExec(req).result).Respond?
    ensures Decide(DefaultExec(req).result).status == INTERNAL_SERVER_ERROR
  {
  }
}
