/**
 * `AccountAPIMiddleware` of the lib revision: a `BaseMiddleware` whose
 * `exec` is the token check of `IrohMiddleware`, with its URL base, user
 * agent and whitelist passed to the constructor instead of read from the API.
 */
module AccountApiMiddleware {
  import opened Wrappers
  import opened Http
  import Strings
  import Whitelist
  import BaseMiddleware
  import IrohMiddleware

  /** `uagent || `Account API Middleware on wapi-core v${pkg.version}`` */
  function UserAgent(uagent: Option<string>, pkgVersion: string): (ua: string)
    ensures uagent.Some? && uagent.value != "" ==> ua == uagent.value
    ensures uagent.None? || uagent.value == "" ==> ua == "Account API Middleware on wapi-core v" + pkgVersion
  {
    OrElse(uagent, "Account API Middleware on wapi-core v" + pkgVersion)
  }

  /** `new AccountAPIMiddleware(urlBase, uagent, whitelist)`; `pkgVersion` is
      the version field of the package manifest. */
  method New(urlBase: Option<string>, uagent: Option<string>, whitelist: Option<seq<ConfigEntry>>, pkgVersion: string,
             urlMatch: Whitelist.UrlMatch, validate: IrohMiddleware.Validator, encode: string -> string)
    returns (m: BaseMiddleware.BaseMiddleware)
    ensures fresh(m) && m.urlMatch == urlMatch
    ensures m.whitelistArray == if whitelist.Some? then IrohMiddleware.Seeded(whitelist.value) else []
    ensures m.executor.Some?
    ensures forall q ::
      m.executor.value(q) == IrohMiddleware.Run(OrElse(urlBase, "http://localhost:9010"), UserAgent(uagent, pkgVersion), validate, encode, q)
  {
    var base := OrElse(urlBase, "http://localhost:9010");
    var ua := UserAgent(uagent, pkgVersion);
    m := new BaseMiddleware.BaseMiddleware(Some(q => IrohMiddleware.Run(base, ua, validate, encode, q)), urlMatch);
    if whitelist.Some? && |whitelist.value| > 0 {
      var entries := whitelist.value;
      var i := 0;
      while i < |entries|
        invariant 0 <= i <= |entries|
        invariant m.whitelistArray == IrohMiddleware.Seeded(entries[..i])
      {
        assert entries[..i + 1][..i] == entries[..i];
        m.AddToWhitelist(entries[i].path, entries[i].verb);
        i := i + 1;
      }
      assert entries[..i] == entries;
    }
  }

  /** A valid Bearer token answered with an account lets the request through
      with that account attached; an unknown one is answered 401. */
  lemma BearerTokenAdmitted(urlBase: string, ua: string, validate: IrohMiddleware.Validator, encode: string -> string,
                            req: Request, t: string, acc: Account)
    requires t != "" && Strings.IndexOf(t, IrohMiddleware.BEARER).None?
    requires req.headers.Some? && "authorization" in req.headers.value
    requires req.headers.value["authorization"] == IrohMiddleware.BEARER + t
    requires validate(IrohMiddleware.ValidationUrl(urlBase, IrohMiddleware.Credential(t, false), encode), ua) == IrohMiddleware.Answered(Some(acc))
    ensures var step := IrohMiddleware.Run(urlBase, ua, validate, encode, req);
      BaseMiddleware.Decide(step.result) == Next && step.account == Some(acc)
  {
    IrohMiddleware.BearerRoundTrip(req.headers.value, t);
  }

  /** A token the account service rejects with an error status is answered 401. */
  lemma RejectedTokenRefused(urlBase: string, ua: string, validate: IrohMiddleware.Validator, encode: string -> string,
                             req: Request, t: string, status: int)
    requires t != "" && Strings.IndexOf(t, IrohMiddleware.BEARER).None?
    requires req.headers.Some? && "authorization" in req.headers.value
    requires req.headers.value["authorization"] == IrohMiddleware.BEARER + t
    requires status != OK
    requires validate(IrohMiddleware.ValidationUrl(urlBase, IrohMiddleware.Credential(t, false), encode), ua) == IrohMiddleware.FailedWithStatus(status)
    ensures var step := IrohMiddleware.Run(urlBase, ua, validate, encode, req);
      BaseMiddleware.Decide(step.result).Respond? && BaseMiddleware.Decide(step.result).status == UNAUTHORIZED &&
      step.account == req.account
  {
    IrohMiddleware.BearerRoundTrip(req.headers.value, t);
  }
}
