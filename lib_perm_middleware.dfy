/**
 * `PermMiddleware` of the lib revision: a `BaseMiddleware` whose `exec` is
 * the same scope-to-permission derivation as the src revision, under the key
 * `<apiName>-<apiEnv>` given to the constructor.
 */
module LibPermMiddleware {
  import opened Wrappers
  import opened Http
  import Whitelist
  import BaseMiddleware
  import PermMiddleware

  /** `this.scopeKey = `${apiName}-${apiEnv}`` */
  function ScopeKey(apiName: string, apiEnv: string): (key: string)
    ensures |key| == |apiName| + 1 + |apiEnv|
    ensures key[..|apiName|] == apiName && key[|apiName|] == '-' && key[|apiName| + 1..] == apiEnv
  {
    apiName + "-" + apiEnv
  }

  /** `new PermMiddleware(apiName, apiEnv)` */
  method New(apiName: string, apiEnv: string, urlMatch: Whitelist.UrlMatch) returns (m: BaseMiddleware.BaseMiddleware)
    ensures fresh(m) && m.whitelistArray == [] && m.urlMatch == urlMatch
    ensures m.executor.Some?
    ensures forall q :: m.executor.value(q) == PermMiddleware.Run(ScopeKey(apiName, apiEnv), q)
  {
    var scopeKey := ScopeKey(apiName, apiEnv);
    m := new BaseMiddleware.BaseMiddleware(Some(q => PermMiddleware.Run(scopeKey, q)), urlMatch);
  }

  /** The lib middleware lets every request through, as the src one does. */
  lemma NeverRefuses(apiName: string, apiEnv: string, req: Request)
    ensures BaseMiddleware.Decide(PermMiddleware.Run(ScopeKey(apiName, apiEnv), req).result) == Next
  {
  }
}
