/**
 * The helpers of the src revision (`Util`): response normalisation, the
 * permission check, the missing-scope message, `isTrue`, and `checkScopes`.
 */
module Util {
  import opened Wrappers
  import opened Http
  import opened Strings

  // ---------------------------------------------------------------------------
  // checkScopes

  /** `'admin' > -1` compares a string that converts to NaN with -1, which is
      `false`; `checkScopes` then asks a list of strings for the index of
      `false`. This is that probe, as the code computes it. */
  function AdminProbeAsWritten(scopes: seq<string>): int {
    ArrayIndexOf(seq(|scopes|, i requires 0 <= i < |scopes| => JStr(scopes[i])), JBool(false))
  }

  /** The early-return loop: does `wantedScope` start with one of `scopes`? */
  function AnyPrefix(wantedScope: string, scopes: seq<string>): (r: bool)
    ensures r <==> exists i :: 0 <= i < |scopes| && StartsWith(wantedScope, scopes[i])
  {
    if |scopes| == 0 then false
    else if StartsWith(wantedScope, scopes[0]) then true
    else
      var r := AnyPrefix(wantedScope, scopes[1..]);
      assert forall i :: 1 <= i < |scopes| ==> scopes[i] == scopes[1..][i - 1];
      r
  }

  /** `checkScopes` as written: the probe is -1, which is truthy. */
  function CheckScopesAsWritten(wantedScope: string, scopes: seq<string>): bool {
    if AdminProbeAsWritten(scopes) != 0 then true
    else AnyPrefix(wantedScope, scopes)
  }

  /** For every list of strings the written check passes. */
  lemma CheckScopesAsWrittenAlwaysPasses(wantedScope: string, scopes: seq<string>)
    ensures CheckScopesAsWritten(wantedScope, scopes)
  {
    var probed := seq(|scopes|, i requires 0 <= i < |scopes| => JStr(scopes[i]));
    assert JBool(false) !in probed;
  }

  /** The written check passes even with no scopes at all. */
  lemma CheckScopesAsWrittenPassesEmpty()
    ensures CheckScopesAsWritten("svc-prod:write", [])
    ensures !CheckScopes("svc-prod:write", [])
  {
    CheckScopesAsWrittenAlwaysPasses("svc-prod:write", []);
  }

  /** `checkScopes` as intended: `scopes.indexOf('admin') > -1`, then the prefix loop. */
  function CheckScopes(wantedScope: string, scopes: seq<string>): bool {
    if ArrayIndexOf(scopes, "admin") > -1 then true
    else AnyPrefix(wantedScope, scopes)
  }

  /** The intended check passes exactly for an admin or a granting prefix. */
  lemma CheckScopesMeaning(wantedScope: string, scopes: seq<string>)
    ensures CheckScopes(wantedScope, scopes) <==>
      "admin" in scopes || exists i :: 0 <= i < |scopes| && StartsWith(wantedScope, scopes[i])
  {
  }

  // ---------------------------------------------------------------------------
  // checkPermissions

  /** `requireAccount = true`: a missing argument means an account is required. */
  function AccountRequired(requireAccount: Option<bool>): bool {
    requireAccount.None? || requireAccount.value
  }

  /** `for (const perm of wanted) if (perms[perm]) return true; return false` */
  function AnyHeld(perms: set<string>, wanted: seq<string>): (r: bool)
    ensures r <==> exists i :: 0 <= i < |wanted| && wanted[i] in perms
  {
    if |wanted| == 0 then false
    else if wanted[0] in perms then true
    else
      var r := AnyHeld(perms, wanted[1..]);
      assert forall i :: 1 <= i < |wanted| ==> wanted[i] == wanted[1..][i - 1];
      r
  }

  /** `Util.checkPermissions(account, wantedPermissions, requireAccount)`.
      Reading `perms.all` of an account without `perms` throws. */
  function CheckPermissions(account: Option<Account>, wanted: seq<string>, requireAccount: Option<bool>): (r: Result<bool, Fault>)
    ensures account.None? ==> r == Ok(!AccountRequired(requireAccount))
    ensures account.Some? && |wanted| == 0 ==> r == Ok(true)
    ensures r.Err? <==> account.Some? && |wanted| > 0 && account.value.perms.None?
    ensures account.Some? && account.value.perms.Some? && |wanted| > 0 ==>
      (r == Ok(true) <==> "all" in account.value.perms.value ||
                          exists i :: 0 <= i < |wanted| && wanted[i] in account.value.perms.value)
  {
    if account.None? then Ok(!AccountRequired(requireAccount))
    else if |wanted| == 0 then Ok(true)
    else if account.value.perms.None? then Err(TypeError)
    else if "all" in account.value.perms.value then Ok(true)
    else Ok(AnyHeld(account.value.perms.value, wanted))
  }

  /** The check is an OR: holding any single wanted permission suffices, and
      holding none of several fails. */
  lemma CheckPermissionsIsOr(acc: Account, wanted: seq<string>, k: nat, requireAccount: Option<bool>)
    requires acc.perms.Some? && k < |wanted| && wanted[k] in acc.perms.value
    ensures CheckPermissions(Some(acc), wanted, requireAccount) == Ok(true)
  {
  }

  // ---------------------------------------------------------------------------
  // buildFullyQualifiedScope, buildMissingScopeMessage

  /** `${name}-${env}`, then `:scope` unless the scope is empty */
  function BuildFullyQualifiedScope(name: string, env: string, scope: string): string {
    var fqScope := name + "-" + env;
    if scope != "" then fqScope + ":" + scope else fqScope
  }

  /** The scope argument: an array, or anything else (wrapped in a one-element list). */
  datatype ScopeArg = Single(scope: string) | List(scopes: seq<string>)

  function AsList(arg: ScopeArg): seq<string> {
    match arg
    case Single(s) => [s]
    case List(ss) => ss
  }

  /** The qualified form of every scope, in order. */
  function Qualified(name: string, env: string, scopes: seq<string>): (r: seq<string>)
    ensures |r| == |scopes|
    ensures forall i :: 0 <= i < |scopes| ==> r[i] == BuildFullyQualifiedScope(name, env, scopes[i])
  {
    seq(|scopes|, i requires 0 <= i < |scopes| => BuildFullyQualifiedScope(name, env, scopes[i]))
  }

  /** The message shared by both revisions, which differ only in `lead`. */
  function ScopeMessage(lead: string, name: string, env: string, arg: ScopeArg): string {
    var scopes := Qualified(name, env, AsList(arg));
    lead + (if |scopes| > 1 then "s" else "") + " " + Join(scopes, " or ")
  }

  /** `Util.buildMissingScopeMessage(name, env, scopes)` */
  function BuildMissingScopeMessage(name: string, env: string, arg: ScopeArg): string {
    ScopeMessage("Missing scope", name, env, arg)
  }

  /** A single missing scope reads "Missing scope name-env:perm". */
  lemma MissingScopeMessageSingle(name: string, env: string, perm: string)
    requires perm != ""
    ensures BuildMissingScopeMessage(name, env, Single(perm)) == "Missing scope " + name + "-" + env + ":" + perm
    ensures BuildMissingScopeMessage(name, env, List([perm])) == "Missing scope " + name + "-" + env + ":" + perm
  {
  }

  /** Several missing scopes read "Missing scopes a or b or ...": the plural
      lead, then the qualified scopes joined with " or ". */
  lemma MissingScopeMessageMany(name: string, env: string, scopes: seq<string>)
    requires |scopes| > 1
    ensures BuildMissingScopeMessage(name, env, List(scopes)) ==
      "Missing scopes " + Join(Qualified(name, env, scopes), " or ")
  {
  }

  /** Splitting the joined part of the message on " or " recovers the
      qualified scopes, provided none of them can be confused with the separator. */
  lemma MissingScopeMessageLists(name: string, env: string, scopes: seq<string>)
    requires |scopes| >= 1
    requires forall i :: 0 <= i < |scopes| ==> Separable(BuildFullyQualifiedScope(name, env, scopes[i]), " or ")
    ensures var lead := if |scopes| > 1 then "Missing scopes " else "Missing scope ";
      var m := BuildMissingScopeMessage(name, env, List(scopes));
      StartsWith(m, lead) && Split(m[|lead|..], " or ") == Qualified(name, env, scopes)
  {
    var q := Qualified(name, env, scopes);
    var lead := if |scopes| > 1 then "Missing scopes " else "Missing scope ";
    var m := BuildMissingScopeMessage(name, env, List(scopes));
    assert m == lead + Join(q, " or ");
    assert m[|lead|..] == Join(q, " or ");
    SplitJoin(q, " or ");
  }

  /** `p` followed by the separator holds no occurrence of the separator
      that starts inside `p`. */
  predicate Separable(p: string, sep: string) {
    forall j :: 0 <= j < |p| ==> !OccursAt(p + sep, sep, j)
  }

  /** A separable piece holds no separator. */
  lemma SeparableHasNone(p: string, sep: string)
    requires sep != [] && Separable(p, sep)
    ensures IndexOf(p, sep).None?
  {
    forall j | 0 <= j ensures !OccursAt(p, sep, j) {
      if j < |p| {
        assert !OccursAt(p + sep, sep, j);
        if j + |sep| <= |p| {
          assert (p + sep)[j..j + |sep|] == p[j..j + |sep|];
        }
      }
    }
  }

  /** In `p + sep + t` with `p` separable, the first separator is the one after `p`. */
  lemma SeparableFirstOccurrence(p: string, sep: string, t: string)
    requires sep != [] && Separable(p, sep)
    ensures IndexOf(p + sep + t, sep) == Some(|p|)
  {
    var s := p + sep + t;
    assert s[..|p| + |sep|] == p + sep;
    forall j | 0 <= j < |p| ensures !OccursAt(s, sep, j) {
      assert !OccursAt(p + sep, sep, j);
      assert (p + sep)[j..j + |sep|] == s[j..j + |sep|];
    }
    assert s[|p|..|p| + |sep|] == sep;
    IndexFromFinds(s, sep, 0, |p|);
  }

  /** Splitting a join recovers the parts when each part is separable. */
  lemma {:induction false} SplitJoin(parts: seq<string>, sep: string)
    requires sep != [] && |parts| >= 1
    requires forall i :: 0 <= i < |parts| ==> Separable(parts[i], sep)
    ensures Split(Join(parts, sep), sep) == parts
    decreases |parts|
  {
    var p := parts[0];
    assert Separable(p, sep);
    if |parts| == 1 {
      SeparableHasNone(p, sep);
    } else {
      var rest := parts[1..];
      var t := Join(rest, sep);
      var s := Join(parts, sep);
      assert s == p + sep + t;
      SeparableFirstOccurrence(p, sep, t);
      assert s[..|p|] == p;
      assert s[|p| + |sep|..] == t;
      assert Split(s, sep) == [p] + Split(t, sep);
      forall i | 0 <= i < |rest| ensures Separable(rest[i], sep) {
        assert rest[i] == parts[i + 1];
      }
      SplitJoin(rest, sep);
      assert parts == [p] + rest;
    }
  }

  // ---------------------------------------------------------------------------
  // isTrue

  /** `Util.isTrue(value)`: a string must be "true"; a boolean is itself; anything else is false. */
  function IsTrue(value: Json): (r: bool)
    ensures r <==> value == JStr("true") || value == JBool(true)
  {
    match value
    case JStr(s) => s == "true"
    case JBool(b) => b
    case _ => false
  }

  // ---------------------------------------------------------------------------
  // getResponse

  /** `Util.getResponse(response)` on values: the normalised envelope. */
  function GetResponseValue(v: HandlerValue): (r: ResponseObj)
    ensures r.status.Some?
    ensures r.status != Some(OK) ==> MessageSet(r)
    ensures v.Nothing? ==> r == ResponseObj(Some(OK), Some(DefaultFor(OK)), false, map[])
    ensures v.Code? ==> r == ResponseObj(Some(v.n), Some(DefaultFor(v.n)), false, map[])
    ensures v.Object? ==> r.extra == v.obj.extra && r.socket == v.obj.socket
    ensures v.Object? && StatusSet(v.obj) ==> r.status == v.obj.status
    ensures v.Object? && !StatusSet(v.obj) ==> r.status == Some(OK)
    ensures v.Object? && (MessageSet(v.obj) || r.status == Some(OK)) ==> r.message == v.obj.message
    ensures v.Object? && !MessageSet(v.obj) && r.status != Some(OK) ==> r.message == Some(DefaultFor(r.status.value))
  {
    match v
    case Nothing => ResponseObj(Some(OK), Some(DefaultFor(OK)), false, map[])
    case Code(n) => ResponseObj(Some(n), Some(DefaultFor(n)), false, map[])
    case Object(o) =>
      var withStatus := if !StatusSet(o) then o.(status := Some(OK)) else o;
      if withStatus.status != Some(OK) && !MessageSet(withStatus)
      then withStatus.(message := Some(DefaultFor(withStatus.status.value)))
      else withStatus
  }

  /** Normalising a normalised object changes nothing, except for status 0,
      which is falsy and so becomes 200 on the second pass. */
  lemma GetResponseIdempotent(v: HandlerValue)
    ensures GetResponseValue(v).status != Some(0) ==>
      GetResponseValue(Object(GetResponseValue(v))) == GetResponseValue(v)
    ensures GetResponseValue(Code(0)).status == Some(0)
    ensures GetResponseValue(Object(GetResponseValue(Code(0)))).status == Some(OK)
  {
  }

  /** A mutable JavaScript response object. */
  class ResponseObject {
    var status: Option<int>
    var message: Option<Msg>
    const socket: bool
    const extra: map<string, Json>

    constructor (v: ResponseObj)
      ensures Value() == v
    {
      status, message, socket, extra := v.status, v.message, v.socket, v.extra;
    }

    function Value(): ResponseObj
      reads this
    {
      ResponseObj(status, message, socket, extra)
    }
  }

  /** The handler value a result denotes at the current state of the heap. */
  function Snapshot(r: JsResult<ResponseObject>): HandlerValue
    reads if r.Object? then {r.obj} else {}
  {
    match r
    case Nothing => Nothing
    case Code(n) => Code(n)
    case Object(o) => Object(o.Value())
  }

  /** `Util.getResponse(response)`: builds a fresh envelope for nothing or a
      number; an object is completed in place and is itself returned. */
  method GetResponse(r: JsResult<ResponseObject>) returns (out: ResponseObject)
    modifies if r.Object? then {r.obj} else {}
    ensures r.Object? ==> out == r.obj
    ensures !r.Object? ==> fresh(out)
    ensures out.Value() == GetResponseValue(old(Snapshot(r)))
  {
    match r
    case Nothing =>
      out := new ResponseObject(ResponseObj(Some(OK), Some(DefaultFor(OK)), false, map[]));
    case Code(n) =>
      out := new ResponseObject(ResponseObj(Some(n), Some(DefaultFor(n)), false, map[]));
    case Object(o) =>
      if o.status.None? || o.status.value == 0 {
        o.status := Some(OK);
      }
      if o.status != Some(OK) && (o.message.None? || o.message.value == Literal("")) {
        o.message := Some(DefaultFor(o.status.value));
      }
      out := o;
  }

  // ---------------------------------------------------------------------------
  // The default error handler

  /** The default error handler: log, then answer with the normalised 500
      envelope (the handler `Middleware` installs, and what
      `getDefaultErrorHandler` is meant to provide). */
  function DefaultErrorResponse(): (o: Outcome)
    ensures o.Respond? && o.status == INTERNAL_SERVER_ERROR
    ensures o.body == Envelope(ResponseObj(Some(INTERNAL_SERVER_ERROR), Some(DefaultFor(INTERNAL_SERVER_ERROR)), false, map[]))
  {
    var response := GetResponseValue(Code(INTERNAL_SERVER_ERROR));
    Respond(response.status.value, Envelope(response))
  }

  /** Hands an exception to the error handler in use, given the response:
      the default answers 500; a custom one takes over. */
  function Settle(handler: ErrorHandler, o: Outcome): (r: Outcome)
    ensures !o.ToErrorHandler? ==> r == o
    ensures o.ToErrorHandler? && handler.DefaultHandler? ==> r == DefaultErrorResponse()
    ensures o.ToErrorHandler? && handler.CustomHandler? ==> r == o
  {
    if o.ToErrorHandler? && handler.DefaultHandler? then DefaultErrorResponse() else o
  }
}
