/**
 * `PermMiddleware` of the src revision: turns the scopes of the request's
 * account into the permissions of this API. A scope counts when it starts
 * with the scope key `<name>-<env>`; a bare key grants `all`, a key with
 * one `:perm` suffix grants `perm`, and the scope `admin` grants `all`.
 */
module PermMiddleware {
  import opened Wrappers
  import opened Strings
  import opened Http
  import Util
  import Whitelist
  import Middleware

  /** The permissions one scope grants under the scope key. */
  function GrantOf(key: string, scope: string): (r: set<string>)
    ensures !StartsWith(scope, key) ==> r == {}
    ensures |r| <= 1
  {
    if !StartsWith(scope, key) then {}
    else
      var scopeSplit := Split(scope, ":");
      if |scopeSplit| == 1 then {"all"}
      else if |scopeSplit| == 2 then {scopeSplit[1]}
      else {}
  }

  /** What a scope with the key grants, by the number of colons in it:
      none grants `all`, exactly one grants what follows it, two or more
      grant nothing. */
  lemma GrantOfMeaning(key: string, scope: string)
    requires StartsWith(scope, key)
    ensures ':' !in scope ==> GrantOf(key, scope) == {"all"}
    ensures forall a, b :: scope == a + ":" + b && ':' !in a && ':' !in b ==> GrantOf(key, scope) == {b}
    ensures forall i, j :: 0 <= i < j < |scope| && scope[i] == ':' && scope[j] == ':' ==> GrantOf(key, scope) == {}
  {
    SplitCharSingle(scope, ':');
    forall a, b | scope == a + ":" + b && ':' !in a && ':' !in b
      ensures GrantOf(key, scope) == {b}
    {
      SplitCharTwo(a, ':', b);
    }
    forall i, j | 0 <= i < j < |scope| && scope[i] == ':' && scope[j] == ':'
      ensures GrantOf(key, scope) == {}
    {
      SplitCharMany(scope, ':', i, j);
    }
  }

  /** The permissions granted by a list of scopes, before `admin` is considered. */
  function Granted(key: string, scopes: seq<string>): set<string> {
    if |scopes| == 0 then {}
    else Granted(key, scopes[..|scopes| - 1]) + GrantOf(key, scopes[|scopes| - 1])
  }

  /** A permission is granted exactly when some scope grants it. */
  lemma {:induction false} GrantedMeaning(key: string, scopes: seq<string>, p: string)
    ensures p in Granted(key, scopes) <==> exists i :: 0 <= i < |scopes| && p in GrantOf(key, scopes[i])
    decreases |scopes|
  {
    if |scopes| > 0 {
      var init := scopes[..|scopes| - 1];
      GrantedMeaning(key, init, p);
      if p in Granted(key, init) {
        var i :| 0 <= i < |init| && p in GrantOf(key, init[i]);
        assert scopes[i] == init[i];
      }
      if exists i :: 0 <= i < |scopes| && p in GrantOf(key, scopes[i]) {
        var i :| 0 <= i < |scopes| && p in GrantOf(key, scopes[i]);
        if i < |init| {
          assert init[i] == scopes[i];
        }
      }
    }
  }

  /** The permissions the executor stores for a non-empty scope list. */
  function Derived(key: string, scopes: seq<string>): (perms: set<string>)
    ensures "admin" in scopes ==> "all" in perms
  {
    var perms := Granted(key, scopes);
    if ArrayIndexOf(scopes, "admin") > -1 then perms + {"all"} else perms
  }

  /** A permission is stored exactly when some scope grants it, or when it is
      `all` and `admin` is among the scopes. */
  lemma DerivedMeaning(key: string, scopes: seq<string>, p: string)
    ensures p in Derived(key, scopes) <==>
      (exists i :: 0 <= i < |scopes| && p in GrantOf(key, scopes[i])) || (p == "all" && "admin" in scopes)
  {
    GrantedMeaning(key, scopes, p);
  }

  /** The executor: no account passes untouched; an account without scopes
      gets no permissions; otherwise it gets the derived ones. It always
      returns 200. */
  function Run(key: string, req: Request): (step: ExecStep)
    ensures step.result == Completed(Code(OK))
    ensures req.account.None? ==> step.account.None?
    ensures req.account.Some? ==> step.account.Some? && step.account.value == req.account.value.(perms := step.account.value.perms)
    ensures req.account.Some? && (req.account.value.scopes.None? || req.account.value.scopes.value == []) ==>
      step.account.value.perms == Some({})
    ensures req.account.Some? && req.account.value.scopes.Some? && req.account.value.scopes.value != [] ==>
      step.account.value.perms == Some(Derived(key, req.account.value.scopes.value))
  {
    match req.account
    case None => ExecStep(Completed(Code(OK)), None)
    case Some(account) =>
      if account.scopes.None? || |account.scopes.value| == 0 then
        ExecStep(Completed(Code(OK)), Some(account.(perms := Some({}))))
      else
        ExecStep(Completed(Code(OK)), Some(account.(perms := Some(Derived(key, account.scopes.value)))))
  }

  /** The executor body, step by step. */
  method Exec(key: string, req: Request) returns (step: ExecStep)
    ensures step == Run(key, req)
  {
    if req.account.None? {
      return ExecStep(Completed(Code(OK)), None);
    }
    var account := req.account.value;
    if account.scopes.None? || |account.scopes.value| == 0 {
      return ExecStep(Completed(Code(OK)), Some(account.(perms := Some({}))));
    }
    var scopes := account.scopes.value;
    var perms: set<string> := {};
    var i := 0;
    while i < |scopes|
      invariant 0 <= i <= |scopes|
      invariant perms == Granted(key, scopes[..i])
    {
      assert scopes[..i + 1][..i] == scopes[..i];
      if StartsWith(scopes[i], key) {
        var scope := scopes[i];
        var scopeSplit := Split(scope, ":");
        if |scopeSplit| == 1 {
          perms := perms + {"all"};
        } else if |scopeSplit| == 2 {
          perms := perms + {scopeSplit[1]};
        }
      }
      i := i + 1;
    }
    assert scopes[..i] == scopes;
    if ArrayIndexOf(scopes, "admin") > -1 {
      perms := perms + {"all"};
    }
    step := ExecStep(Completed(Code(OK)), Some(account.(perms := Some(perms))));
  }

  /** A scope built by `buildFullyQualifiedScope` grants back the permission
      it was built from (or `all` for the empty one), provided no part holds a colon. */
  lemma QualifiedScopeGrants(name: string, env: string, p: string)
    requires ':' !in name && ':' !in env && ':' !in p
    ensures GrantOf(name + "-" + env, Util.BuildFullyQualifiedScope(name, env, p)) == if p == "" then {"all"} else {p}
  {
    var key := name + "-" + env;
    var scope := Util.BuildFullyQualifiedScope(name, env, p);
    assert scope[..|key|] == key;
    assert ':' !in key by {
      forall i | 0 <= i < |key| ensures key[i] != ':' {
        if i < |name| {
          assert key[i] == name[i];
        } else if i > |name| {
          assert key[i] == env[i - |name| - 1];
        }
      }
    }
    GrantOfMeaning(key, scope);
  }

  /** The key is a plain prefix: the scopes of an API whose name-env pair
      extends this one's (`svc-production` under the key `svc-prod`) also
      grant here. */
  lemma PrefixKeyQuirk(key: string, more: string, p: string)
    requires ':' !in key && ':' !in more && ':' !in p
    ensures GrantOf(key, key + more + ":" + p) == {p}
  {
    var scope := key + more + ":" + p;
    assert scope[..|key|] == key;
    assert ':' !in key + more by {
      forall i | 0 <= i < |key + more| ensures (key + more)[i] != ':' {
        if i >= |key| {
          assert (key + more)[i] == more[i - |key|];
        }
      }
    }
    assert scope == (key + more) + ":" + p;
    GrantOfMeaning(key, scope);
  }

  /** An account holding the qualified scope for `p` passes the permission
      check for `p` once this middleware has run. */
  lemma ScopeThenPermission(name: string, env: string, p: string, req: Request, requireAccount: Option<bool>)
    requires ':' !in name && ':' !in env && ':' !in p && p != ""
    requires req.account.Some? && req.account.value.scopes.Some?
    requires Util.BuildFullyQualifiedScope(name, env, p) in req.account.value.scopes.value
    ensures var after := Run(name + "-" + env, req).account;
      Util.CheckPermissions(after, [p], requireAccount) == Ok(true)
  {
    var key := name + "-" + env;
    var scopes := req.account.value.scopes.value;
    var i :| 0 <= i < |scopes| && scopes[i] == Util.BuildFullyQualifiedScope(name, env, p);
    QualifiedScopeGrants(name, env, p);
    GrantedMeaning(key, scopes, p);
    assert p in Derived(key, scopes);
  }

  /** `admin` among the scopes passes every permission check. */
  lemma AdminPassesEverything(key: string, req: Request, wanted: seq<string>, requireAccount: Option<bool>)
    requires req.account.Some? && req.account.value.scopes.Some?
    requires "admin" in req.account.value.scopes.value
    ensures Util.CheckPermissions(Run(key, req).account, wanted, requireAccount) == Ok(true)
  {
  }

  /** Without `admin` and without any scope under the key, an account holds
      no permission afterwards and fails every non-empty permission check. */
  lemma ForeignScopesGrantNothing(key: string, req: Request, wanted: seq<string>, requireAccount: Option<bool>)
    requires req.account.Some? && req.account.value.scopes.Some?
    requires "admin" !in req.account.value.scopes.value
    requires forall i :: 0 <= i < |req.account.value.scopes.value| ==> !StartsWith(req.account.value.scopes.value[i], key)
    requires |wanted| > 0
    ensures Run(key, req).account.value.perms == Some({})
    ensures Util.CheckPermissions(Run(key, req).account, wanted, requireAccount) == Ok(false)
  {
    var scopes := req.account.value.scopes.value;
    forall p | true ensures p !in Granted(key, scopes) {
      GrantedMeaning(key, scopes, p);
    }
    assert Granted(key, scopes) == {};
  }

  /** `new PermMiddleware(weebApi, errorHandler)`: refuses an API that is not
      loaded; otherwise a middleware named `PermMiddleware` whose executor is
      `Run` under the key `<name>-<config env>`. */
  method New(api: Api, errorHandler: HandlerArg, urlMatch: Whitelist.UrlMatch) returns (r: Result<Middleware.Middleware, Fault>)
    ensures r.Err? <==> !api.loaded
    ensures r.Err? ==> r.error == Raised("Cannot instantiate PermMiddleware without loaded WeebAPI class")
    ensures r.Ok? ==> fresh(r.value) && r.value.name == "PermMiddleware" && r.value.whitelistArray == []
    ensures r.Ok? ==> r.value.errorHandler == HandlerFor(errorHandler) && r.value.urlMatch == urlMatch
    ensures r.Ok? ==> r.value.executor.Some?
    ensures r.Ok? ==> forall q :: r.value.executor.value(q) == Run(api.name + "-" + Template(api.config.env), q)
  {
    if !api.loaded {
      return Err(Raised("Cannot instantiate PermMiddleware without loaded WeebAPI class"));
    }
    var scopeKey := api.name + "-" + Template(api.config.env);
    var m := new Middleware.Middleware("PermMiddleware", errorHandler, Some(q => Run(scopeKey, q)), urlMatch);
    r := Ok(m);
  }

  /** The middleware never refuses a request: it always calls `next()`. */
  lemma NeverRefuses(key: string, handler: ErrorHandler, req: Request)
    ensures Util.Settle(handler, Middleware.Decide(Run(key, req).result)) == Next
  {
  }
}
