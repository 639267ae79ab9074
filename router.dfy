/**
 * `Router` of the src revision: registers every alias of every route on an
 * Express router (skipping entries that cannot be made into routes and
 * aliases with an unknown method), and wraps each route in a handler that
 * checks permissions, calls the route and writes its normalised response.
 */
module Router {
  import opened Wrappers
  import opened Strings
  import opened Http
  import Util

  /** The methods a route alias may use (`Route.Methods`). */
  const ROUTE_METHODS: seq<string> := ["GET", "POST", "PUT", "DELETE", "ALL"]

  /** One method/path pair under which a route is reachable. */
  datatype Alias = Alias(verb: string, path: string)

  /** A route: the permissions it wants, whether it needs an account (`None`
      when left to the default), its aliases and its `call`. */
  datatype Route = Route(
    permissions: seq<string>,
    requireAccount: Option<bool>,
    aliases: seq<Alias>,
    call: (Request, Alias) -> Run)

  /** What a route entry turns into when instantiated. */
  datatype Construction = Builds(route: Route) | BuildsNonRoute | ThrowsOnNew

  /** An entry of the route list: a `Route` instance, or something to instantiate. */
  datatype RouteEntry = Instance(route: Route) | Class(construction: Construction)

  /** One handler on the Express router: `router[verb](path, wrapped route)`. */
  datatype Registration = Registration(verb: string, path: string, route: Route, alias: Alias)

  /** The route an entry yields, if any. */
  function Resolve(e: RouteEntry): (r: Option<Route>)
    ensures e.Instance? ==> r == Some(e.route)
    ensures e.Class? ==> (r.Some? <==> e.construction.Builds?)
  {
    match e
    case Instance(route) => Some(route)
    case Class(Builds(route)) => Some(route)
    case Class(_) => None
  }

  /** The registrations for some aliases of a route, in order, skipping
      aliases with an unknown method. */
  function AliasRegistrations(route: Route, aliases: seq<Alias>): seq<Registration> {
    if |aliases| == 0 then []
    else
      var alias := aliases[|aliases| - 1];
      AliasRegistrations(route, aliases[..|aliases| - 1]) +
        (if alias.verb in ROUTE_METHODS then [Registration(Lower(alias.verb), alias.path, route, alias)] else [])
  }

  /** The registrations for one entry. */
  function EntryRegistrations(e: RouteEntry): seq<Registration> {
    match Resolve(e)
    case None => []
    case Some(route) => AliasRegistrations(route, route.aliases)
  }

  /** The registrations `_init` makes for a route list, in order. */
  function Registered(entries: seq<RouteEntry>): seq<Registration> {
    if |entries| == 0 then []
    else Registered(entries[..|entries| - 1]) + EntryRegistrations(entries[|entries| - 1])
  }

  /** Registration distributes over concatenation of route lists: each entry
      registers independently of the others, in list order. */
  lemma {:induction false} RegisteredAppend(a: seq<RouteEntry>, b: seq<RouteEntry>)
    ensures Registered(a + b) == Registered(a) + Registered(b)
    decreases |b|
  {
    if |b| == 0 {
      assert a + b == a;
    } else {
      var ab := a + b;
      var b' := b[..|b| - 1];
      var last := b[|b| - 1];
      assert ab[..|ab| - 1] == a + b';
      assert ab[|ab| - 1] == last;
      assert Registered(ab) == Registered(a + b') + EntryRegistrations(last);
      RegisteredAppend(a, b');
      assert Registered(b) == Registered(b') + EntryRegistrations(last);
    }
  }

  /** An entry that cannot be made into a route is skipped, and the routes
      around it still register. */
  lemma SkippedEntry(a: seq<RouteEntry>, bad: RouteEntry, b: seq<RouteEntry>)
    requires Resolve(bad).None?
    ensures Registered(a + [bad] + b) == Registered(a) + Registered(b)
  {
    var one := [bad];
    assert one[..0] == [] && one[0] == bad;
    assert EntryRegistrations(bad) == [];
    assert Registered(one) == [];
    RegisteredAppend(a, one);
    assert Registered(a + one) == Registered(a);
    RegisteredAppend(a + one, b);
  }

  /** Every registration comes from an alias with a known method, under that
      method in lower case. */
  lemma {:induction false} AliasRegistrationsValid(route: Route, aliases: seq<Alias>)
    ensures forall reg :: reg in AliasRegistrations(route, aliases) ==>
      reg.alias in aliases && reg.alias.verb in ROUTE_METHODS && reg.verb == Lower(reg.alias.verb) &&
      reg.path == reg.alias.path && reg.route == route
    decreases |aliases|
  {
    if |aliases| > 0 {
      AliasRegistrationsValid(route, aliases[..|aliases| - 1]);
    }
  }

  /** An alias with a known method is registered; one with an unknown method
      (including a lower-case one) is not. */
  lemma {:induction false} AliasRegisteredIff(route: Route, aliases: seq<Alias>, alias: Alias)
    ensures (exists reg :: reg in AliasRegistrations(route, aliases) && reg.alias == alias) <==>
      alias in aliases && alias.verb in ROUTE_METHODS
    decreases |aliases|
  {
    AliasRegistrationsValid(route, aliases);
    if |aliases| > 0 {
      var init := aliases[..|aliases| - 1];
      var last := aliases[|aliases| - 1];
      AliasRegisteredIff(route, init, alias);
      assert aliases == init + [last];
      if alias in aliases && alias.verb in ROUTE_METHODS {
        if alias == last {
          assert Registration(Lower(alias.verb), alias.path, route, alias) in AliasRegistrations(route, aliases);
        } else {
          assert alias in init;
          var reg :| reg in AliasRegistrations(route, init) && reg.alias == alias;
          assert reg in AliasRegistrations(route, aliases);
        }
      }
    }
  }

  /** `req.config ? req.config.env : 'unset'`, as the message prints it */
  function EnvOf(req: Request): string {
    match req.config
    case Some(c) => Template(c.env)
    case None => "unset"
  }

  /** The 403 body: the missing-scope message for the route's permissions. */
  function DeniedMessage(route: Route, req: Request): string {
    Util.BuildMissingScopeMessage(OrElse(req.appName, "unset"), EnvOf(req), Util.List(route.permissions))
  }

  /** The handler `_wrapRoute(route, alias)` makes, before the error handler
      gets involved. */
  function WrapRoute(route: Route, alias: Alias, req: Request): (o: Outcome)
    ensures o == Respond(FORBIDDEN, Text(DeniedMessage(route, req))) <==>
      Util.CheckPermissions(req.account, route.permissions, route.requireAccount) == Ok(false)
    ensures Util.CheckPermissions(req.account, route.permissions, route.requireAccount).Err? ==>
      o == ToErrorHandler(Util.CheckPermissions(req.account, route.permissions, route.requireAccount).error)
    ensures Util.CheckPermissions(req.account, route.permissions, route.requireAccount) == Ok(true) ==>
      match route.call(req, alias)
      case Threw(f) => o == ToErrorHandler(f)
      case Completed(v) =>
        (o == NoWrite <==> !IsTruthy(v)) &&
        (IsTruthy(v) ==> o == Respond(Util.GetResponseValue(v).status.value, Envelope(Util.GetResponseValue(v))))
  {
    match Util.CheckPermissions(req.account, route.permissions, route.requireAccount)
    case Err(e) => ToErrorHandler(e)
    case Ok(allowed) =>
      if !allowed then Respond(FORBIDDEN, Text(DeniedMessage(route, req)))
      else
        match route.call(req, alias)
        case Threw(f) => ToErrorHandler(f)
        case Completed(v) =>
          if !IsTruthy(v) then NoWrite
          else
            var response := Util.GetResponseValue(v);
            Respond(response.status.value, Envelope(response))
  }

  /** A denied request never reaches the route: the outcome is the same
      whatever `call` would do. */
  lemma DeniedNeverCalls(route: Route, other: (Request, Alias) -> Run, alias: Alias, req: Request)
    requires Util.CheckPermissions(req.account, route.permissions, route.requireAccount) == Ok(false)
    ensures WrapRoute(route, alias, req) == WrapRoute(route.(call := other), alias, req)
    ensures WrapRoute(route, alias, req).Respond? && WrapRoute(route, alias, req).status == FORBIDDEN
  {
  }

  /** A request without an account to a route that needs one but names no
      permission is refused with a message that names no scope. */
  lemma NoAccountNoScopeNamed(route: Route, req: Request)
    requires req.account.None? && route.permissions == [] && Util.AccountRequired(route.requireAccount)
    ensures WrapRoute(route, Alias("GET", "/"), req) == Respond(FORBIDDEN, Text("Missing scope "))
  {
    var name, env := OrElse(req.appName, "unset"), EnvOf(req);
    assert Util.Qualified(name, env, []) == [];
    assert Util.BuildMissingScopeMessage(name, env, Util.List([])) == "Missing scope" + "" + " " + "";
    assert "Missing scope" + "" + " " + "" == "Missing scope ";
  }

  /** With a wanted permission the account lacks (and no `all`), the 403 body
      names the fully qualified scope `appName-env:p`, with `unset` standing in
      for a missing application name or configuration. */
  lemma DeniedNamesScope(route: Route, alias: Alias, req: Request, p: string, held: set<string>)
    requires route.permissions == [p] && p != ""
    requires req.account.Some? && req.account.value.perms == Some(held)
    requires p !in held && "all" !in held
    ensures WrapRoute(route, alias, req) ==
      Respond(FORBIDDEN, Text("Missing scope " + OrElse(req.appName, "unset") + "-" + EnvOf(req) + ":" + p))
  {
    assert Util.CheckPermissions(req.account, route.permissions, route.requireAccount) == Ok(false);
    Util.MissingScopeMessageSingle(OrElse(req.appName, "unset"), EnvOf(req), p);
  }

  /** `Util.getDefaultErrorHandler()` as written: `Util` has no such member,
      so a missing or non-function error handler makes the constructor throw. */
  function ResolveErrorHandlerAsWritten(arg: HandlerArg): (r: Result<ErrorHandler, Fault>)
    ensures r.Ok? <==> arg.Function?
  {
    if arg.Function? then Ok(CustomHandler(arg.id)) else Err(TypeError)
  }

  /** A router built without an error handler throws instead of falling back
      to the default one. */
  lemma RouterWithoutHandlerThrows()
    ensures ResolveErrorHandlerAsWritten(Missing) == Err(TypeError)
    ensures HandlerFor(Missing) == DefaultHandler
  {
  }

  class Router {
    const name: string
    const routes: seq<RouteEntry>
    const errorHandler: ErrorHandler
    /** The handlers registered on the Express router, in order. */
    var registered: seq<Registration>

    /** `new Router(name, routes, errorHandler)`, with the default handler
        the code evidently meant to install. */
    constructor (name: string, routes: seq<RouteEntry>, errorHandler: HandlerArg)
      ensures this.name == name && this.routes == routes
      ensures this.errorHandler == HandlerFor(errorHandler)
      ensures registered == Registered(routes)
    {
      this.name := name;
      this.routes := routes;
      this.errorHandler := HandlerFor(errorHandler);
      registered := [];
      new;
      Init();
    }

    /** `_init()`: registers every alias of every route. */
    method Init()
      modifies this
      ensures registered == old(registered) + Registered(routes)
    {
      var i := 0;
      while i < |routes|
        invariant 0 <= i <= |routes|
        invariant registered == old(registered) + Registered(routes[..i])
      {
        assert routes[..i + 1][..i] == routes[..i];
        var resolved := Resolve(routes[i]);
        if resolved.None? {
          i := i + 1;
          continue;
        }
        var route := resolved.value;
        var j := 0;
        while j < |route.aliases|
          invariant 0 <= j <= |route.aliases|
          invariant registered == old(registered) + Registered(routes[..i]) + AliasRegistrations(route, route.aliases[..j])
        {
          assert route.aliases[..j + 1][..j] == route.aliases[..j];
          var alias := route.aliases[j];
          if alias.verb !in ROUTE_METHODS {
            j := j + 1;
            continue;
          }
          registered := registered + [Registration(Lower(alias.verb), alias.path, route, alias)];
          j := j + 1;
        }
        assert route.aliases[..j] == route.aliases;
        i := i + 1;
      }
      assert routes[..i] == routes;
    }

    /** The response of a registered handler, settled by the router's error handler. */
    function Serve(reg: Registration, req: Request): (o: Outcome)
      reads this
      ensures o.ToErrorHandler? ==> errorHandler.CustomHandler?
      ensures !o.ToErrorHandler? && !WrapRoute(reg.route, reg.alias, req).ToErrorHandler? ==>
        o == WrapRoute(reg.route, reg.alias, req)
      ensures WrapRoute(reg.route, reg.alias, req).ToErrorHandler? && errorHandler.DefaultHandler? ==>
        o == Util.DefaultErrorResponse()
    {
      Util.Settle(errorHandler, WrapRoute(reg.route, reg.alias, req))
    }
  }
}
