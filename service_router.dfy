/**
 * `ServiceRouter`: the router named `Service` with an info route on `/` and,
 * when the API has permission nodes, a `/permnode` route listing them.
 */
module ServiceRouter {
  import opened Wrappers
  import opened Http
  import Util
  import Strings
  import Router

  /** `new Route(method, path, [], false)` with its `call` assigned. */
  function OpenRoute(verb: string, path: string, answer: ResponseObj): (r: Router.Route)
    ensures r.permissions == [] && r.requireAccount == Some(false) && r.aliases == [Router.Alias(verb, path)]
    ensures forall req, alias :: r.call(req, alias) == Completed(Object(answer))
  {
    Router.Route([], Some(false), [Router.Alias(verb, path)], (req, alias) => Completed(Object(answer)))
  }

  /** `{version, message: `Welcome to the ${name} API`}` */
  function InfoAnswer(api: Api): ResponseObj {
    ResponseObj(None, Some(Literal("Welcome to the " + api.name + " API")), false, map["version" := JStr(api.version)])
  }

  /** `{apiIdentifier: `${name}-${config.env}`, permNodes}` */
  function PermNodeAnswer(api: Api): ResponseObj
    requires api.permNodes.Some?
  {
    ResponseObj(None, None, false,
      map["apiIdentifier" := JStr(api.name + "-" + Template(api.config.env)), "permNodes" := api.permNodes.value])
  }

  /** The route list the constructor builds. */
  function ServiceRoutes(api: Api): (routes: seq<Router.RouteEntry>)
    ensures |routes| >= 1 && routes[0] == Router.Instance(OpenRoute("ALL", "/", InfoAnswer(api)))
    ensures |routes| == 2 <==> api.permNodes.Some? && Truthy(api.permNodes.value)
    ensures |routes| <= 2
  {
    var info := Router.Instance(OpenRoute("ALL", "/", InfoAnswer(api)));
    if api.permNodes.Some? && Truthy(api.permNodes.value)
    then [info, Router.Instance(OpenRoute("ALL", "/permnode", PermNodeAnswer(api)))]
    else [info]
  }

  /** `new ServiceRouter(weebApi, errorHandler)` */
  method New(api: Api, errorHandler: HandlerArg) returns (r: Result<Router.Router, Fault>)
    ensures r.Err? <==> !api.loaded
    ensures r.Err? ==> r.error == Raised("Cannot instantiate ServiceRouter without loaded WeebAPI class")
    ensures r.Ok? ==> fresh(r.value) && r.value.name == "Service" && r.value.routes == ServiceRoutes(api)
    ensures r.Ok? ==> r.value.errorHandler == HandlerFor(errorHandler)
    ensures r.Ok? ==> r.value.registered == Router.Registered(ServiceRoutes(api))
  {
    if !api.loaded {
      return Err(Raised("Cannot instantiate ServiceRouter without loaded WeebAPI class"));
    }
    var routes: seq<Router.RouteEntry> := [];
    var info := OpenRoute("ALL", "/", InfoAnswer(api));
    routes := routes + [Router.Instance(info)];
    if api.permNodes.Some? && Truthy(api.permNodes.value) {
      var permnode := OpenRoute("ALL", "/permnode", PermNodeAnswer(api));
      routes := routes + [Router.Instance(permnode)];
    }
    var router := new Router.Router("Service", routes, errorHandler);
    r := Ok(router);
  }

  /** The router registers `all /` first, then `all /permnode` exactly when
      the API has permission nodes. */
  lemma ServiceRegistrations(api: Api)
    ensures var regs := Router.Registered(ServiceRoutes(api));
      |regs| == |ServiceRoutes(api)| &&
      regs[0].verb == "all" && regs[0].path == "/" &&
      (|regs| == 2 ==> regs[1].verb == "all" && regs[1].path == "/permnode")
  {
    var routes := ServiceRoutes(api);
    assert Strings.Lower("ALL") == "all";
    var info := OpenRoute("ALL", "/", InfoAnswer(api));
    assert Router.AliasRegistrations(info, info.aliases) == [Router.Registration("all", "/", info, Router.Alias("ALL", "/"))] by {
      assert info.aliases[..0] == [];
    }
    assert routes[..1] == [routes[0]];
    assert Router.Registered(routes[..1]) == Router.Registered([]) + Router.EntryRegistrations(routes[0]);
    if |routes| == 2 {
      var permnode := OpenRoute("ALL", "/permnode", PermNodeAnswer(api));
      assert Router.AliasRegistrations(permnode, permnode.aliases) ==
        [Router.Registration("all", "/permnode", permnode, Router.Alias("ALL", "/permnode"))] by {
        assert permnode.aliases[..0] == [];
      }
    }
  }

  /** Every request to the info route is answered 200 with the welcome
      message and the version, whoever asks. */
  lemma InfoAlwaysAnswers(api: Api, req: Request, alias: Router.Alias)
    ensures var info := OpenRoute("ALL", "/", InfoAnswer(api));
      Router.WrapRoute(info, alias, req) ==
        Respond(OK, Envelope(ResponseObj(Some(OK), Some(Literal("Welcome to the " + api.name + " API")), false,
                                         map["version" := JStr(api.version)])))
  {
  }

  /** The permission-node route answers 200 with the identifier `name-env`. */
  lemma PermNodeAnswers(api: Api, req: Request, alias: Router.Alias)
    requires api.permNodes.Some? && Truthy(api.permNodes.value)
    ensures var o := Router.WrapRoute(OpenRoute("ALL", "/permnode", PermNodeAnswer(api)), alias, req);
      o.Respond? && o.status == OK && o.body.Envelope? &&
      o.body.obj.extra["apiIdentifier"] == JStr(api.name + "-" + Template(api.config.env)) &&
      o.body.obj.extra["permNodes"] == api.permNodes.value
  {
  }
}
