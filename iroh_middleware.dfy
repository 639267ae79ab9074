/**
 * `IrohMiddleware` (src) and the executor it shares, line for line, with the
 * lib revision's `AccountAPIMiddleware`: read a `Bearer` or `Wolke` token
 * from the `authorization` header, ask the account service to validate it,
 * and attach the account it answers with. The HTTP call is a parameter
 * (`validate(url, userAgent)`), and so is `encodeURIComponent`.
 */
module IrohMiddleware {
  import opened Wrappers
  import opened Strings
  import opened Http
  import Util
  import Whitelist
  import Middleware

  const BEARER: string := "Bearer "
  const WOLKE: string := "Wolke "

  /** The token of an `authorization` header, and whether it is a Wolke token. */
  datatype Credential = Credential(token: string, wolke: bool)

  /** `header.split(prefix)[1]` for a header that starts with the prefix:
      the text after the prefix up to the next occurrence of it. */
  function TokenAfter(header: string, prefix: string): string
    requires prefix != "" && StartsWith(header, prefix)
  {
    SplitAtLeadingSeparator(header, prefix);
    Split(header, prefix)[1]
  }

  /** The header check and token extraction: `Bearer ` is tried first; the
      token is the text after the prefix up to any repetition of it; a
      missing header, another scheme or an empty token is refused (`None`). */
  function ParseAuthorization(headers: Option<map<string, string>>): (c: Option<Credential>)
    ensures c.Some? ==> headers.Some? && "authorization" in headers.value && c.value.token != ""
    ensures c.Some? ==> (c.value.wolke <==> !StartsWith(headers.value["authorization"], BEARER))
    ensures c.Some? ==> StartsWith(headers.value["authorization"], if c.value.wolke then WOLKE else BEARER)
    ensures headers.None? || "authorization" !in headers.value ==> c.None?
    ensures c.Some? ==>
      var h := headers.value["authorization"];
      var prefix := if c.value.wolke then WOLKE else BEARER;
      StartsWith(h, prefix) && c.value.token == TokenAfter(h, prefix)
    ensures headers.Some? && "authorization" in headers.value ==>
      var h := headers.value["authorization"];
      (c.None? <==>
        (!StartsWith(h, BEARER) && !StartsWith(h, WOLKE)) ||
        (StartsWith(h, BEARER) && TokenAfter(h, BEARER) == "") ||
        (!StartsWith(h, BEARER) && StartsWith(h, WOLKE) && TokenAfter(h, WOLKE) == ""))
  {
    if headers.None? || "authorization" !in headers.value || headers.value["authorization"] == "" then None
    else
      var authHeader := headers.value["authorization"];
      if !StartsWith(authHeader, BEARER) && !StartsWith(authHeader, WOLKE) then None
      else
        var c :=
          if StartsWith(authHeader, BEARER) then Credential(TokenAfter(authHeader, BEARER), false)
          else Credential(TokenAfter(authHeader, WOLKE), true);
        if c.token == "" then None else Some(c)
  }

  /** `Bearer <t>` yields `t`, for any non-empty `t` that does not repeat the prefix. */
  lemma BearerRoundTrip(headers: map<string, string>, t: string)
    requires t != "" && IndexOf(t, BEARER).None?
    requires "authorization" in headers && headers["authorization"] == BEARER + t
    ensures ParseAuthorization(Some(headers)) == Some(Credential(t, false))
  {
    var a := BEARER + t;
    assert a[..|BEARER|] == BEARER;
    assert a[|BEARER|..] == t;
    SplitAtLeadingSeparator(a, BEARER);
    SplitWithoutSeparator(t, BEARER);
  }

  /** `Wolke <t>` yields `t` as a Wolke token, for any non-empty `t` that does
      not repeat the prefix. */
  lemma WolkeRoundTrip(headers: map<string, string>, t: string)
    requires t != "" && IndexOf(t, WOLKE).None?
    requires "authorization" in headers && headers["authorization"] == WOLKE + t
    ensures ParseAuthorization(Some(headers)) == Some(Credential(t, true))
  {
    var a := WOLKE + t;
    assert a[..|WOLKE|] == WOLKE;
    assert a[|WOLKE|..] == t;
    assert !StartsWith(a, BEARER) by {
      assert a[0] == 'W';
    }
    SplitAtLeadingSeparator(a, WOLKE);
    SplitWithoutSeparator(t, WOLKE);
  }

  /** A token that repeats the prefix is cut at the repetition: only the
      text up to the second prefix is sent for validation. */
  lemma RepeatedPrefixTruncates(t: string, u: string, prefix: string)
    requires prefix != "" && Util.Separable(t, prefix)
    ensures TokenAfter(prefix + t + prefix + u, prefix) == t
  {
    var a := prefix + t + prefix + u;
    assert a[..|prefix|] == prefix;
    SplitAtLeadingSeparator(a, prefix);
    assert a[|prefix|..] == t + prefix + u;
    Util.SeparableFirstOccurrence(t, prefix, u);
    assert (t + prefix + u)[..|t|] == t;
  }

  /** How the validation call ended: an answer (with or without an account),
      an error response with its status, or no response at all. */
  datatype Validation = Answered(account: Option<Account>) | FailedWithStatus(status: int) | NoResponse

  type Validator = (string, string) -> Validation

  /** `${urlBase}/validate/${encodeURIComponent(token)}` plus the Wolke flag */
  function ValidationUrl(urlBase: string, c: Credential, encode: string -> string): string {
    urlBase + "/validate/" + encode(c.token) + (if c.wolke then "?wolkeToken=true" else "")
  }

  /** The URL is the validation endpoint under the base; a Wolke token and a
      Bearer token with the same text go to different URLs, the Wolke one
      carrying the flag. */
  lemma ValidationUrlShape(urlBase: string, t: string, encode: string -> string)
    ensures StartsWith(ValidationUrl(urlBase, Credential(t, false), encode), urlBase + "/validate/")
    ensures ValidationUrl(urlBase, Credential(t, true), encode) ==
      ValidationUrl(urlBase, Credential(t, false), encode) + "?wolkeToken=true"
    ensures ValidationUrl(urlBase, Credential(t, true), encode) != ValidationUrl(urlBase, Credential(t, false), encode)
  {
    var p := urlBase + "/validate/";
    var u := ValidationUrl(urlBase, Credential(t, false), encode);
    assert u == p + encode(t);
    assert u[..|p|] == p;
  }

  const CONTACT_FAILURE: ResponseObj :=
    ResponseObj(Some(INTERNAL_SERVER_ERROR), Some(Literal("Failed to contact Account API")), false, map[])

  /** The executor. */
  function Run(urlBase: string, uagent: string, validate: Validator, encode: string -> string, req: Request): (step: ExecStep)
    ensures step.result.Completed?
    ensures step.result.value in {Code(OK), Code(UNAUTHORIZED), Object(CONTACT_FAILURE)}
    ensures ParseAuthorization(req.headers).None? ==> step == ExecStep(Completed(Code(UNAUTHORIZED)), req.account)
    ensures step.result.value == Code(OK) <==>
      var c := ParseAuthorization(req.headers);
      c.Some? && var v := validate(ValidationUrl(urlBase, c.value, encode), uagent);
      v.Answered? && v.account.Some? && step.account == v.account
    ensures step.result.value != Code(OK) ==> step.account == req.account
    ensures step.result.value == Object(CONTACT_FAILURE) <==>
      var c := ParseAuthorization(req.headers);
      c.Some? && var v := validate(ValidationUrl(urlBase, c.value, encode), uagent);
      v.NoResponse? || v == FailedWithStatus(OK)
  {
    match ParseAuthorization(req.headers)
    case None => ExecStep(Completed(Code(UNAUTHORIZED)), req.account)
    case Some(c) =>
      match validate(ValidationUrl(urlBase, c, encode), uagent)
      case FailedWithStatus(status) =>
        if status != OK then ExecStep(Completed(Code(UNAUTHORIZED)), req.account)
        else ExecStep(Completed(Object(CONTACT_FAILURE)), req.account)
      case NoResponse => ExecStep(Completed(Object(CONTACT_FAILURE)), req.account)
      case Answered(account) =>
        if account.None? then ExecStep(Completed(Code(UNAUTHORIZED)), req.account)
        else ExecStep(Completed(Code(OK)), account)
  }

  /** A request refused at the header check never reaches the account service:
      its outcome is the same whatever the validator would answer. */
  lemma RefusedWithoutCall(urlBase: string, uagent: string, v1: Validator, v2: Validator, encode: string -> string, req: Request)
    requires ParseAuthorization(req.headers).None?
    ensures Run(urlBase, uagent, v1, encode, req) == Run(urlBase, uagent, v2, encode, req)
  {
  }

  /** Which outcome reaches the client: 200 calls `next()`, 401 and the
      contact failure are written. */
  lemma Outcomes(urlBase: string, uagent: string, validate: Validator, encode: string -> string, req: Request)
    ensures var step := Run(urlBase, uagent, validate, encode, req);
      var o := Middleware.Decide(step.result);
      (o.Next? <==> step.result.value == Code(OK)) &&
      (o.Next? || (o.Respond? && o.status in {UNAUTHORIZED, INTERNAL_SERVER_ERROR}))
  {
  }

  /** `config.irohHost || 'http://localhost:9010'` */
  function UrlBase(config: Config): string {
    OrElse(config.irohHost, "http://localhost:9010")
  }

  /** `weebApi.get('uagent') || `${name}-${config.env}`` */
  function UserAgent(api: Api): string {
    OrElse(api.uagent, api.name + "-" + Template(api.config.env))
  }

  /** The whitelist the configuration seeds, one entry per configured entry. */
  function Seeded(entries: seq<ConfigEntry>): (r: seq<Whitelist.Entry>)
    ensures |r| == |entries|
    ensures forall i :: 0 <= i < |entries| ==> r[i] == Whitelist.NewEntry(entries[i].path, entries[i].verb)
  {
    if |entries| == 0 then []
    else Seeded(entries[..|entries| - 1]) + [Whitelist.NewEntry(entries[|entries| - 1].path, entries[|entries| - 1].verb)]
  }

  /** `new IrohMiddleware(weebApi, errorHandler)` */
  method New(api: Api, errorHandler: HandlerArg, urlMatch: Whitelist.UrlMatch, validate: Validator, encode: string -> string)
    returns (r: Result<Middleware.Middleware, Fault>)
    ensures r.Err? <==> !api.loaded
    ensures r.Err? ==> r.error == Raised("Cannot instantiate IrohMiddleware without loaded WeebAPI class")
    ensures r.Ok? ==> fresh(r.value) && r.value.name == "IrohMiddleware"
    ensures r.Ok? ==> r.value.errorHandler == HandlerFor(errorHandler) && r.value.urlMatch == urlMatch
    ensures r.Ok? ==> r.value.whitelistArray == if api.config.whitelist.Some? then Seeded(api.config.whitelist.value) else []
    ensures r.Ok? ==> r.value.executor.Some?
    ensures r.Ok? ==> forall q :: r.value.executor.value(q) == Run(UrlBase(api.config), UserAgent(api), validate, encode, q)
  {
    if !api.loaded {
      return Err(Raised("Cannot instantiate IrohMiddleware without loaded WeebAPI class"));
    }
    var urlBase := UrlBase(api.config);
    var uagent := UserAgent(api);
    var m := new Middleware.Middleware("IrohMiddleware", errorHandler, Some(q => Run(urlBase, uagent, validate, encode, q)), urlMatch);
    var whitelist := api.config.whitelist;
    if whitelist.Some? && |whitelist.value| > 0 {
      var entries := whitelist.value;
      var i := 0;
      while i < |entries|
        invariant 0 <= i <= |entries|
        invariant m.whitelistArray == Seeded(entries[..i])
      {
        assert entries[..i + 1][..i] == entries[..i];
        m.AddToWhitelist(entries[i].path, entries[i].verb);
        i := i + 1;
      }
      assert entries[..i] == entries;
    }
    r := Ok(m);
  }
}
