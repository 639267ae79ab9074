/**
 * `Track` of the lib revision: the same page-view record as `TrackMiddleware`,
 * named from the constructor's arguments, and an `exec` that answers
 * `{status: 200}`.
 */
module LibTrackingMiddleware {
  import opened Wrappers
  import opened Http
  import Whitelist
  import BaseMiddleware
  import TrackMiddleware

  /** `${this.name}_${this.environment}` */
  function AppName(name: string, environment: Option<string>): string {
    name + "_" + Template(environment)
  }

  const PASS: ResponseObj := ResponseObj(Some(OK), None, false, map[])

  /** The lib executor: `{status: 200}` once the record is built; a request
      without any address throws. */
  function Run(name: string, version: Option<string>, environment: Option<string>, req: Request): (step: ExecStep)
    ensures step.account == req.account
    ensures step.result == Completed(Object(PASS)) <==> TrackMiddleware.Pageview(AppName(name, environment), version, req).Ok?
    ensures step.result.Threw? ==> step.result.fault == TypeError
  {
    match TrackMiddleware.Pageview(AppName(name, environment), version, req)
    case Err(e) => ExecStep(Threw(e), req.account)
    case Ok(_) => ExecStep(Completed(Object(PASS)), req.account)
  }

  /** Every request passes, except one without any address, which the base
      handler answers with 500. */
  lemma Outcomes(name: string, version: Option<string>, environment: Option<string>, req: Request)
    ensures TrackMiddleware.ClientIp(req, TrackMiddleware.CF_HEADER).Ok? ==>
      BaseMiddleware.Decide(Run(name, version, environment, req).result) == Next
    ensures TrackMiddleware.ClientIp(req, TrackMiddleware.CF_HEADER).Err? ==>
      BaseMiddleware.Decide(Run(name, version, environment, req).result) == BaseMiddleware.FailureResponse()
  {
  }

  /** `new Track(name, version, environment, trackingKey)` */
  method New(name: string, version: Option<string>, environment: Option<string>, urlMatch: Whitelist.UrlMatch)
    returns (m: BaseMiddleware.BaseMiddleware)
    ensures fresh(m) && m.whitelistArray == [] && m.urlMatch == urlMatch
    ensures m.executor.Some?
    ensures forall q :: m.executor.value(q) == Run(name, version, environment, q)
  {
    m := new BaseMiddleware.BaseMiddleware(Some(q => Run(name, version, environment, q)), urlMatch);
  }
}
