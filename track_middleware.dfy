/**
 * `TrackMiddleware` (src) and the page-view record it shares with the lib
 * revision's `Track`: the client address (forwarded-for header, else the
 * socket address, overridden by Cloudflare's header, cut at the first
 * comma), the full URL, and the account dimensions. Sending the record is
 * left to the caller; the executor's result is what the pipeline sees.
 */
module TrackMiddleware {
  import opened Wrappers
  import opened Strings
  import opened Http
  import Util
  import Whitelist
  import Middleware

  /** The header name the code looks up. */
  const CF_AS_WRITTEN: string := "CF-Connecting-IP"
  /** The name under which Node delivers that header. */
  const CF_HEADER: string := "cf-connecting-ip"

  /** Node delivers every request header under its lower-case name. */
  predicate NodeHeaders(h: map<string, string>) {
    forall k :: k in h ==> !HasUpper(k)
  }

  /** `headers[name]` is present and truthy */
  predicate HeaderSet(h: map<string, string>, name: string) {
    name in h && h[name] != ""
  }

  /** The client address, looking up Cloudflare's header under `cfName`. A
      request without headers, or without any address at all, throws. */
  function ClientIp(req: Request, cfName: string): (r: Result<string, Fault>)
    ensures r.Err? ==> r.error == TypeError
    ensures r.Err? <==> (req.headers.None? ||
      (!HeaderSet(req.headers.value, cfName) && !HeaderSet(req.headers.value, "x-forwarded-for") && req.remoteAddress.None?))
    ensures r.Ok? ==> ',' !in r.value
  {
    if req.headers.None? then Err(TypeError)
    else
      var h := req.headers.value;
      var ip := if HeaderSet(h, "x-forwarded-for") then Some(h["x-forwarded-for"]) else req.remoteAddress;
      var ip := if HeaderSet(h, cfName) then Some(h[cfName]) else ip;
      if ip.None? then Err(TypeError)
      else
        var ipList := Split(ip.value, ",");
        SplitPiecesAreFree(ip.value, ",");
        FreeOfChar(ipList[0], ',');
        Ok(ipList[0])
  }

  /** A string in which `[c]` never occurs does not contain `c`. */
  lemma FreeOfChar(s: string, c: char)
    requires IndexOf(s, [c]).None?
    ensures c !in s
  {
    SplitCharSingle(s, c);
  }

  /** The first address of a comma-separated list; a list of one is itself. */
  lemma FirstHop(a: string, rest: string)
    requires ',' !in a
    ensures Split(a, ",") == [a]
    ensures Split(a + "," + rest, ",")[0] == a
  {
    SplitCharSingle(a, ',');
    var s := a + "," + rest;
    assert s[|a|..|a| + 1] == ",";
    forall j | 0 <= j < |a| ensures !OccursAt(s, ",", j) {
      assert s[j..j + 1] == [a[j]];
    }
    IndexFromFinds(s, ",", 0, |a|);
    assert s[..|a|] == a;
  }

  /** As written, Cloudflare's header is never seen: Node's header names are
      lower case, so the override does not happen and the forwarded-for
      address (or the socket's) is used. */
  lemma CloudflareIgnoredAsWritten(req: Request)
    requires req.headers.Some? && NodeHeaders(req.headers.value)
    ensures ClientIp(req, CF_AS_WRITTEN) == ClientIp(req.(headers := Some(req.headers.value - {CF_HEADER})), CF_HEADER)
  {
    assert HasUpper(CF_AS_WRITTEN) by {
      assert 'A' <= CF_AS_WRITTEN[0] <= 'Z';
    }
    assert CF_AS_WRITTEN !in req.headers.value;
    assert "x-forwarded-for" != CF_HEADER by {
      assert "x-forwarded-for"[0] != CF_HEADER[0];
    }
  }

  /** A request through Cloudflare that also carries a forwarded-for header:
      the written lookup records the forwarded address, the corrected one
      Cloudflare's. */
  lemma CloudflareExample()
    ensures var req := Request(Some("/"), "GET", Some(map[CF_HEADER := "1.2.3.4", "x-forwarded-for" := "5.6.7.8"]),
                               None, None, "https", "/", None, None);
      ClientIp(req, CF_AS_WRITTEN) == Ok("5.6.7.8") && ClientIp(req, CF_HEADER) == Ok("1.2.3.4")
  {
    SplitCharSingle("5.6.7.8", ',');
    SplitCharSingle("1.2.3.4", ',');
  }

  /** With the corrected lookup, Cloudflare's header wins, then the
      forwarded-for header, then the socket address; each is a single address
      or a comma-separated list cut at its first comma. */
  lemma ClientIpPriority(req: Request, first: string, rest: string)
    requires req.headers.Some? && ',' !in first
    ensures var h := req.headers.value;
      (HeaderSet(h, CF_HEADER) && (h[CF_HEADER] == first || h[CF_HEADER] == first + "," + rest)) ==>
      ClientIp(req, CF_HEADER) == Ok(first)
    ensures var h := req.headers.value;
      (!HeaderSet(h, CF_HEADER) && HeaderSet(h, "x-forwarded-for") &&
       (h["x-forwarded-for"] == first || h["x-forwarded-for"] == first + "," + rest)) ==>
      ClientIp(req, CF_HEADER) == Ok(first)
    ensures var h := req.headers.value;
      (!HeaderSet(h, CF_HEADER) && !HeaderSet(h, "x-forwarded-for") &&
       (req.remoteAddress == Some(first) || req.remoteAddress == Some(first + "," + rest))) ==>
      ClientIp(req, CF_HEADER) == Ok(first)
  {
    FirstHop(first, rest);
  }

  /** The custom dimensions of a request with an account. */
  datatype Dims = Dims(cd1: Option<string>, cd2: Option<string>, cd3: Option<string>)

  /** The page view sent to the analytics service. */
  datatype TrackingRecord = TrackingRecord(
    uid: Option<string>,
    uip: string,
    ua: Option<string>,
    dl: string,
    an: string,
    av: Option<string>,
    dims: Option<Dims>)

  /** `${req.protocol}://${req.get('host')}${req.originalUrl}` */
  function FullUrl(req: Request): string
    requires req.headers.Some?
  {
    var host := if "host" in req.headers.value then Some(req.headers.value["host"]) else None;
    req.protocol + "://" + Template(host) + req.originalUrl
  }

  /** The record for a request, given the application name and version as
      the revision formats them. */
  function Pageview(an: string, av: Option<string>, req: Request): (r: Result<TrackingRecord, Fault>)
    ensures r.Err? <==> ClientIp(req, CF_HEADER).Err?
    ensures r.Ok? ==> r.value.uip == ClientIp(req, CF_HEADER).value && r.value.an == an && r.value.av == av
    ensures r.Ok? ==> (r.value.dims.Some? <==> req.account.Some?)
    ensures r.Ok? && req.account.Some? ==>
      r.value.uid == req.account.value.id &&
      r.value.dims == Some(Dims(req.account.value.discordUserId, req.account.value.id, req.account.value.name))
    ensures r.Ok? && req.account.None? ==> r.value.uid.None?
  {
    match ClientIp(req, CF_HEADER)
    case Err(e) => Err(e)
    case Ok(ip) =>
      var h := req.headers.value;
      var uid := if req.account.Some? then req.account.value.id else None;
      var ua := if "user-agent" in h then Some(h["user-agent"]) else None;
      var dims := if req.account.Some? then
          Some(Dims(req.account.value.discordUserId, req.account.value.id, req.account.value.name))
        else None;
      Ok(TrackingRecord(uid, ip, ua, FullUrl(req), an, av, dims))
  }

  /** The executor body step by step: `ip` is reassigned in stages and the
      account dimensions are merged into the record afterwards, as
      `Object.assign` does. */
  method BuildRecord(an: string, av: Option<string>, req: Request) returns (r: Result<TrackingRecord, Fault>)
    ensures r == Pageview(an, av, req)
  {
    if req.headers.None? {
      return Err(TypeError);
    }
    var h := req.headers.value;
    var ip: Option<string> := req.remoteAddress;
    if HeaderSet(h, "x-forwarded-for") {
      ip := Some(h["x-forwarded-for"]);
    }
    if HeaderSet(h, CF_HEADER) {
      ip := Some(h[CF_HEADER]);
    }
    if ip.None? {
      return Err(TypeError);
    }
    var ipList := Split(ip.value, ",");
    var addr := ipList[0];
    var uid: Option<string> := None;
    if req.account.Some? {
      uid := req.account.value.id;
    }
    var ua := if "user-agent" in h then Some(h["user-agent"]) else None;
    var record := TrackingRecord(uid, addr, ua, FullUrl(req), an, av, None);
    if req.account.Some? {
      record := record.(dims := Some(Dims(req.account.value.discordUserId, req.account.value.id, req.account.value.name)));
    }
    r := Ok(record);
  }

  /** `${weebApi.get('name')}_${weebApi.get('env')}` */
  function AppName(api: Api): string {
    api.name + "_" + Template(api.env)
  }

  /** The src executor: it returns nothing, so the request passes; a request
      without any address throws. */
  function Run(api: Api, req: Request): (step: ExecStep)
    ensures step.account == req.account
    ensures step.result == Completed(Nothing) <==> Pageview(AppName(api), Some(api.version), req).Ok?
    ensures step.result.Threw? ==> step.result.fault == TypeError
  {
    match Pageview(AppName(api), Some(api.version), req)
    case Err(e) => ExecStep(Threw(e), req.account)
    case Ok(_) => ExecStep(Completed(Nothing), req.account)
  }

  /** Tracking never refuses a request that has an address. */
  lemma PassesTrackedRequests(api: Api, handler: ErrorHandler, req: Request)
    requires ClientIp(req, CF_HEADER).Ok?
    ensures Util.Settle(handler, Middleware.Decide(Run(api, req).result)) == Next
  {
  }

  /** `new TrackMiddleware(weebApi, errorHandler)` */
  method New(api: Api, errorHandler: HandlerArg, urlMatch: Whitelist.UrlMatch) returns (r: Result<Middleware.Middleware, Fault>)
    ensures r.Err? <==> !api.loaded
    ensures r.Err? ==> r.error == Raised("Cannot instantiate TrackMiddleware without loaded WeebAPI class")
    ensures r.Ok? ==> fresh(r.value) && r.value.name == "TrackMiddleware" && r.value.whitelistArray == []
    ensures r.Ok? ==> r.value.errorHandler == HandlerFor(errorHandler) && r.value.urlMatch == urlMatch
    ensures r.Ok? ==> r.value.executor.Some?
    ensures r.Ok? ==> forall q :: r.value.executor.value(q) == Run(api, q)
  {
    if !api.loaded {
      return Err(Raised("Cannot instantiate TrackMiddleware without loaded WeebAPI class"));
    }
    var m := new Middleware.Middleware("TrackMiddleware", errorHandler, Some(q => Run(api, q)), urlMatch);
    r := Ok(m);
  }
}
