/**
 * The src-revision middleware base (`Middleware`): a name, an error handler,
 * an optional executor and a whitelist; its handler lets whitelisted
 * requests through, otherwise normalises what the executor returns and
 * either calls `next()` (status 200) or writes that response.
 */
module Middleware {
  import opened Wrappers
  import opened Http
  import Util
  import Whitelist

  /** `exec(req)`: the executor's run, or 200 when there is none. */
  function Exec(executor: Option<Executor>, req: Request): (step: ExecStep)
    ensures executor.None? ==> step == ExecStep(Completed(Code(OK)), req.account)
  {
    match executor
    case Some(f) => f(req)
    case None => ExecStep(Completed(Code(OK)), req.account)
  }

  /** What the handler does with the executor's run, before the error handler
      gets involved: pass on a 200, write any other normalised response, hand
      an exception on. */
  function Decide(run: Run): (o: Outcome)
    ensures o == Next <==> run.Completed? && Util.GetResponseValue(run.value).status == Some(OK)
    ensures o.Respond? <==> run.Completed? && Util.GetResponseValue(run.value).status != Some(OK)
    ensures o.Respond? ==> o.status != OK && o.body.Envelope? && MessageSet(o.body.obj) &&
                           o.body == Envelope(Util.GetResponseValue(run.value))
    ensures run.Threw? ==> o == ToErrorHandler(run.fault)
  {
    match run
    case Threw(f) => ToErrorHandler(f)
    case Completed(v) =>
      var response := Util.GetResponseValue(v);
      if response.status == Some(OK) then Next else Respond(response.status.value, Envelope(response))
  }

  /** `errorHandler(e)` as written: the handler receives no response object,
      so the default handler's `res.status(...)` throws and nothing is written. */
  function SettleAsWritten(handler: ErrorHandler, o: Outcome): Outcome {
    if o.ToErrorHandler? && handler.DefaultHandler? then Unhandled(TypeError) else o
  }

  /** With the default handler, an executor that throws leaves the request
      without any response, where a 500 was meant. */
  lemma DefaultHandlerNeverAnswers(f: Fault)
    ensures SettleAsWritten(DefaultHandler, Decide(Threw(f))) == Unhandled(TypeError)
    ensures Util.Settle(DefaultHandler, Decide(Threw(f))) == Util.DefaultErrorResponse()
  {
  }

  /** Every settled outcome of the handler is `next()`, one response, or a hand-over
      to a custom handler; it never leaves the request silently unanswered. */
  lemma SettledOutcomes(handler: ErrorHandler, run: Run)
    ensures var o := Util.Settle(handler, Decide(run));
      o.Next? || o.Respond? || (o.ToErrorHandler? && handler.CustomHandler?)
  {
  }

  /** An executor-less middleware passes every request on (the base `exec` returns 200). */
  lemma DefaultExecPasses(handler: ErrorHandler, req: Request)
    ensures Util.Settle(handler, Decide(Exec(None, req).result)) == Next
  {
  }

  class Middleware {
    const name: string
    const errorHandler: ErrorHandler
    const executor: Option<Executor>
    const urlMatch: Whitelist.UrlMatch
    var whitelistArray: seq<Whitelist.Entry>

    /** `new Middleware(name, errorHandler, executor)` */
    constructor (name: string, errorHandler: HandlerArg, executor: Option<Executor>, urlMatch: Whitelist.UrlMatch)
      ensures this.name == name && this.executor == executor && this.urlMatch == urlMatch
      ensures this.errorHandler == HandlerFor(errorHandler)
      ensures whitelistArray == []
    {
      this.name := name;
      this.errorHandler := HandlerFor(errorHandler);
      this.executor := executor;
      this.urlMatch := urlMatch;
      whitelistArray := [];
    }

    /** `whitelist(path, method)`: appends one entry. */
    method AddToWhitelist(path: string, verb: Option<string>)
      modifies this
      ensures whitelistArray == old(whitelistArray) + [Whitelist.NewEntry(path, verb)]
    {
      whitelistArray := whitelistArray + [Whitelist.NewEntry(path, verb)];
    }

    /** The `_middleware` handler for one request: its outcome and the request
        as the executor leaves it (the executor may set `req.account`). */
    method Handle(req: Request) returns (o: Outcome, after: Request)
      ensures Whitelist.Whitelisted(urlMatch, whitelistArray, req) ==> o == Next && after == req
      ensures !Whitelist.Whitelisted(urlMatch, whitelistArray, req) ==>
        var step := Exec(executor, req);
        o == Util.Settle(errorHandler, Decide(step.result)) && after == req.(account := step.account)
    {
      var bypass := Whitelist.Scan(urlMatch, whitelistArray, req);
      if bypass {
        return Next, req;
      }
      var step := Exec(executor, req);
      o := Util.Settle(errorHandler, Decide(step.result));
      after := req.(account := step.account);
    }
  }
}
