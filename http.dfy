/**
 * The vocabulary shared by the middlewares and routers: status codes,
 * handler results, the request as the pipeline sees it, and the outcome of
 * handling one request (call `next()`, write one response, write nothing,
 * or hand an exception to an error handler).
 */
module Http {
  import opened Wrappers

  // The status codes of the constants module that the core uses.
  const OK: int := 200
  const UNAUTHORIZED: int := 401
  const FORBIDDEN: int := 403
  const NOT_FOUND: int := 404
  const INTERNAL_SERVER_ERROR: int := 500

  /** A response message: a literal text, or the entry of the status-text
      table (`DefaultResponses`) for a code. */
  datatype Msg = Literal(text: string) | DefaultFor(code: int)

  /** JSON-like JavaScript values carried in extra response fields and configuration. */
  datatype Json =
    | JNull
    | JBool(b: bool)
    | JNum(n: int)
    | JStr(s: string)
    | JArray(items: seq<Json>)
    | JObject(fields: map<string, Json>)

  /** JavaScript truthiness of a JSON value. */
  predicate Truthy(j: Json) {
    match j
    case JNull => false
    case JBool(b) => b
    case JNum(n) => n != 0
    case JStr(s) => s != ""
    case _ => true
  }

  /** A response object as handlers return it: `status` and `message` may be
      missing, `socket` says whether it carries a truthy `socket` field, and
      `extra` holds every other field. */
  datatype ResponseObj = ResponseObj(status: Option<int>, message: Option<Msg>, socket: bool, extra: map<string, Json>)

  /** `response.status` is truthy */
  predicate StatusSet(o: ResponseObj) {
    o.status.Some? && o.status.value != 0
  }

  /** `response.message` is truthy (a table entry counts as present) */
  predicate MessageSet(o: ResponseObj) {
    o.message.Some? && o.message.value != Literal("")
  }

  /** The value a handler or executor returns: nothing (`null`/`undefined`),
      a number, or an object. */
  datatype JsResult<+O> = Nothing | Code(n: int) | Object(obj: O)

  type HandlerValue = JsResult<ResponseObj>

  /** JavaScript truthiness of a handler's return value. */
  predicate IsTruthy(v: HandlerValue) {
    match v
    case Nothing => false
    case Code(n) => n != 0
    case Object(_) => true
  }

  /** An exception: a `TypeError` or `ReferenceError` raised by the core
      itself, or anything a collaborator throws. */
  datatype Fault = TypeError | ReferenceError | Raised(tag: string)

  /** The run of a handler or executor: it returned a value or threw. */
  datatype Run = Completed(value: HandlerValue) | Threw(fault: Fault)

  /** A response body: a (normalised) response object, or a bare string. */
  datatype Body = Envelope(obj: ResponseObj) | Text(text: string)

  /** How the handling of one request ends. */
  datatype Outcome =
    | Next                          // `next()` is called
    | Respond(status: int, body: Body)  // `res.status(status).json(body)`, once
    | NoWrite                       // nothing is written
    | ToErrorHandler(fault: Fault)  // a custom error handler receives the exception
    | Unhandled(fault: Fault)       // an exception escapes; nothing is written

  /** What is passed where an error handler is expected. */
  datatype HandlerArg = Missing | NotAFunction | Function(id: nat)

  /** The error handler in use: the built-in default or a custom one. */
  datatype ErrorHandler = DefaultHandler | CustomHandler(id: nat)

  /** `if (!errorHandler || typeof errorHandler !== 'function') errorHandler = <default>` */
  function HandlerFor(arg: HandlerArg): (h: ErrorHandler)
    ensures h.CustomHandler? <==> arg.Function?
  {
    match arg
    case Function(id) => CustomHandler(id)
    case _ => DefaultHandler
  }

  /** The authenticated account attached to a request. */
  datatype Account = Account(
    id: Option<string>,
    scopes: Option<seq<string>>,
    perms: Option<set<string>>,
    discordUserId: Option<string>,
    name: Option<string>)

  /** The per-request configuration some routers read. */
  datatype RequestConfig = RequestConfig(env: Option<string>)

  /** The parts of an Express request the core reads. Header names are the
      keys of `headers` exactly as given. */
  datatype Request = Request(
    path: Option<string>,
    verb: string,
    headers: Option<map<string, string>>,
    account: Option<Account>,
    remoteAddress: Option<string>,
    protocol: string,
    originalUrl: string,
    appName: Option<string>,
    config: Option<RequestConfig>)

  /** What an executor leaves behind: its run, and the account the request
      carries afterwards (executors may attach or rewrite it). */
  datatype ExecStep = ExecStep(result: Run, account: Option<Account>)

  /** A middleware executor, `(req) => result`. */
  type Executor = Request -> ExecStep

  /** `${x}` in a template literal: a missing value prints as "undefined". */
  function Template(x: Option<string>): string {
    match x
    case Some(s) => s
    case None => "undefined"
  }

  /** `x || fallback` for a string that may be missing or empty */
  function OrElse(x: Option<string>, fallback: string): (r: string)
    ensures x.Some? && x.value != "" ==> r == x.value
    ensures (x.None? || x.value == "") ==> r == fallback
  {
    if x.Some? && x.value != "" then x.value else fallback
  }

  /** One whitelist entry as the configuration lists it, `{path, method}`. */
  datatype ConfigEntry = ConfigEntry(path: string, verb: Option<string>)

  /** `config/main.json` as far as the core reads it. */
  datatype Config = Config(env: Option<string>, irohHost: Option<string>, whitelist: Option<seq<ConfigEntry>>)

  /** The application object the src-revision components are built from:
      `loaded` and the values its `get(key)` returns. */
  datatype Api = Api(
    loaded: bool,
    name: string,
    version: string,
    config: Config,
    permNodes: Option<Json>,
    env: Option<string>,
    uagent: Option<string>)
}
