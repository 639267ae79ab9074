# wapi-core request decisions, in Dafny

This project models the request-decision core of wapi-core, a toolkit for
weeb.sh HTTP services built on Express. The repository holds two revisions
of the same ideas: the older `lib/` one and the newer `src/` one. Both are
modelled wherever they differ. The model covers:

- **Response normalisation.** A handler or executor returns nothing, a
  number or an object. `getResponse`, `handleResponse` and
  `_handleResponse` turn that into a `{status, message, ...}` envelope, or
  decide to write nothing.
- **Permissions.** This covers:
  - deriving `account.perms` from `account.scopes` under the key `name-env`;
  - `checkPermissions`, an OR over the wanted permissions with an `all` override;
  - the missing-scope message;
  - `isTrue`;
  - `checkScopes`.
- **Middleware dispatch.** A request matching the ordered whitelist skips the
  executor. Otherwise the executor's normalised result decides between
  `next()`, one response, and the error handler.
- **Authentication.** The `Bearer `/`Wolke ` header is parsed, a validation URL
  is built, and the account service's answer is classified as 401, 500, or
  200 with the account attached.
- **Routers.** Route and alias registration skips invalid entries and keeps
  order. A permission gate answers 403 with the missing-scope message. A
  falsy handler result writes nothing. The service router's fixed route
  list is modelled too.
- **Shutdown.** The shutdown sequence tears down the registrator, the web
  server and the database connection in a fixed order, each at most once.
  Its exit code depends on the errors it recorded.
- **Tracking.** The tracking middlewares choose the client address and
  build the page-view record.

The model's vocabulary lives in `Http`:

- `Request` is the part of the Express request the core reads.
- `HandlerValue` is nothing, a number or a response object.
- `Run` is a value returned or an exception thrown.
- `Outcome` is how one request ends: `Next` (`next()`), `Respond(status, body)`
  (one `res.status().json()`), `NoWrite`, `ToErrorHandler(fault)` (a custom
  handler takes over) or `Unhandled(fault)` (an exception escapes and nothing
  is written).
- Executors return an `ExecStep`: their run, and the account the request
  carries afterwards. This is how writing `req.account` is modelled.

Code that updates state in place is modelled with classes:

- the middleware and router base classes, whose whitelist and registration
  lists are `seq` fields appended by methods;
- the mutable response object of `Util.getResponse`;
- `ShutdownHandler`, whose nullable resources become flags cleared step by step.

Loops become methods proved against the functions that specify them:

- the whitelist scan;
- the permission-derivation loop;
- the whitelist seeding loops;
- the nested `_init` loops;
- the shutdown sequence, whose re-entry from callbacks is unrolled into a loop.

Collaborators the core only calls are parameters:

- URL-pattern matching (`urlMatch(pattern, path)`);
- the account-service HTTP call (a `Validator` returning the `Validation`
  datatype);
- `encodeURIComponent`;
- what instantiating a route class yields;
- how unregistering ends.

The status-text table `DefaultResponses` is symbolic (`Msg.DefaultFor(code)`).
The status codes used are 200, 401, 403, 404 and 500.

## Model

| member | source | states |
|---|---|---|
| Util.AnyPrefix | src/utils/Util.js:24-29 | the prefix loop of `checkScopes` is true iff the wanted scope starts with one of the listed scopes |
| Util.CheckScopesAsWrittenAlwaysPasses | src/utils/Util.js:20-23 | as written, `checkScopes` is true for every list of strings, because `indexOf('admin' > -1)` looks up `false` and gets the truthy -1 (lib/utils.js:3-6 is the same code) |
| Util.CheckScopesAsWrittenPassesEmpty | src/utils/Util.js:20-30 | as written, even an empty scope list passes, and the intended check refuses that list |
| Util.CheckScopesMeaning | src/utils/Util.js:20-30 | the intended check passes iff `admin` is listed or some listed scope is a prefix of the wanted scope |
| Util.AnyHeld | src/utils/Util.js:44-50 | the permission loop is true iff some wanted permission is set in `perms` |
| Util.CheckPermissions | src/utils/Util.js:32-51 | without an account the result is `!requireAccount`, which defaults to true; with an account, an empty wanted list passes; otherwise the result is true iff `all` or any one wanted permission is held (OR); an account without `perms` throws |
| Util.CheckPermissionsIsOr | src/utils/Util.js:44-48 | holding any single wanted permission is enough to pass |
| Util.Qualified | src/utils/Util.js:57 | every scope is replaced by its fully qualified form, with order and length kept |
| Util.MissingScopeMessageSingle | src/utils/Util.js:53-69 | one non-empty scope, bare or in a one-element array, reads `Missing scope name-env:scope` |
| Util.MissingScopeMessageMany | src/utils/Util.js:58-59 | several scopes read `Missing scopes ` followed by the qualified scopes joined with ` or ` |
| Util.MissingScopeMessageLists | src/utils/Util.js:53-61 | after the lead, splitting the message on ` or ` gives back exactly the qualified scopes, for scopes that do not contain the separator |
| Util.IsTrue | src/utils/Util.js:71-80 | true iff the value is the string `"true"` or the boolean true; lib/utils.js:46-54 is the same code |
| Util.GetResponseValue | src/utils/Util.js:82-102 | null gives `{200, default(200)}`; a number n gives `{n, default(n)}`; an object without a truthy status gets 200; a non-200 object without a truthy message gets exactly `default(status)`; other fields are kept; the result always has a status, and a message whenever the status is not 200 |
| Util.GetResponseIdempotent | src/utils/Util.js:93-99 | normalising twice equals normalising once, except for status 0, which the second pass turns into 200 |
| Util.GetResponse | src/utils/Util.js:82-102 | a fresh envelope for null or a number; an object is completed in place and that same object is returned; the result's value is `GetResponseValue` of the input as it was |
| Util.DefaultErrorResponse | src/middleware/Middleware.js:31-32 | the default error handler answers 500 with the normalised 500 envelope |
| Util.Settle | src/middleware/Middleware.js:23-34 | (corrected) an exception reaching the default handler becomes the 500 answer; a custom handler takes the exception over; other outcomes are unchanged |
| Http.HandlerFor | src/middleware/Middleware.js:23 | a custom handler is used iff a function was passed; anything else gets the default |
| LibUtils.CheckPermissions | lib/utils.js:13-26 | without an account the result is `!requireAccount` (default true); with one, the result is true iff `all` or any wanted permission is held; there is no empty-list shortcut; an account without `perms` throws |
| LibUtils.CheckPermissionsRevisions | lib/utils.js:17-25 | the revisions agree whenever some permission is wanted; with none wanted, src passes every account, while lib passes only an account holding `all` and throws without `perms` |
| LibUtils.MissingScopeMessageRevisions | lib/utils.js:28-36 | the lib message equals the src message except that its first letter is lower case (`missing scope`) |
| Whitelist.NewEntry | src/middleware/Middleware.js:72-74 | an entry keeps the path as its pattern; its method is the given one, or `all` when that is missing or empty |
| Whitelist.Scan | src/middleware/Middleware.js:38-45 | the scan hits iff the request has a path and some entry's pattern matches the lower-cased path with the lower-cased method or `all` |
| Whitelist.UpperCaseMethodNeverMatches | src/middleware/Middleware.js:41 | an entry whose method has an upper-case letter (such as `GET`) never matches any request |
| Whitelist.NoMethodMeansAll | src/middleware/Middleware.js:73 | an entry added without a method matches every request method on its pattern |
| Whitelist.WhitelistGrows | src/middleware/Middleware.js:72-74 | appending an entry keeps every existing bypass, and a matching entry adds one |
| Whitelist.NoPathNoBypass | src/middleware/Middleware.js:38 | a request without a path is never whitelisted |
| Middleware.Exec | src/middleware/Middleware.js:63-70 | without an executor, `exec` returns 200 and leaves the account alone |
| Middleware.Decide | src/middleware/Middleware.js:47-54 | a normalised 200 calls `next()` only; any other status writes that normalised envelope, which carries a message; an exception goes to the error handler |
| Middleware.DefaultHandlerNeverAnswers | src/middleware/Middleware.js:53-55 | as written, the default handler gets no `res` and so writes nothing when the executor throws; the intended behaviour is the 500 answer |
| Middleware.SettledOutcomes | src/middleware/Middleware.js:36-56 | (corrected) each request ends in `next()`, one response, or a hand-over to a custom error handler |
| Middleware.DefaultExecPasses | src/middleware/Middleware.js:63-70 | a middleware without an executor passes every request on |
| Middleware.Middleware.constructor | src/middleware/Middleware.js:17-34 | the whitelist starts empty; the executor is the given one; the error handler is the given function or the default |
| Middleware.Middleware.AddToWhitelist | src/middleware/Middleware.js:72-74 | appends exactly one entry and leaves the earlier ones unchanged |
| Middleware.Middleware.Handle | src/middleware/Middleware.js:36-56 | (corrected) a whitelisted request calls `next()` and the executor is never run; otherwise the outcome is the settled decision on the executor's run, and the request keeps the account the executor left |
| BaseMiddleware.GetResponse | lib/middleware/base.middleware.js:13-18 | null throws a TypeError; numbers and objects are normalised as in the src revision |
| BaseMiddleware.DefaultExec | lib/middleware/base.middleware.js:20-22 | the base `exec` answers `{500, 'Empty middleware'}` |
| BaseMiddleware.FailureResponse | lib/middleware/base.middleware.js:42-47 | the `catch` block writes the normalised 500 envelope |
| BaseMiddleware.Decide | lib/middleware/base.middleware.js:38-47 | a normalised 200 calls `next()`; any other status writes its envelope; an exception or a missing result answers 500; the request always ends in `next()` or one response |
| BaseMiddleware.DecideRevisions | lib/middleware/base.middleware.js:38-47 | lib answers a missing result with 500 where src calls `next()`; an exception gets the same answer as src's default handler; otherwise the two decide alike |
| BaseMiddleware.BaseMiddleware.constructor | lib/middleware/base.middleware.js:9-11 | the whitelist starts empty |
| BaseMiddleware.BaseMiddleware.AddToWhitelist | lib/middleware/base.middleware.js:24-26 | appends one entry, whose method defaults to `all` |
| BaseMiddleware.BaseMiddleware.Exec | lib/middleware/base.middleware.js:20-22 | a subclass's `exec` when there is one, otherwise the base `exec` |
| BaseMiddleware.BaseMiddleware.Handle | lib/middleware/base.middleware.js:28-49 | a whitelisted request calls `next()` without `exec`; otherwise the lib decision on `exec`'s run; never anything but `next()` or one response |
| BaseMiddleware.BareMiddlewareRefuses | lib/middleware/base.middleware.js:20-22 | an unsubclassed middleware answers 500 to every request it does not whitelist |
| PermMiddleware.GrantOf | src/middleware/PermMiddleware.js:25-33 | a scope without the key grants nothing; any scope grants at most one permission |
| PermMiddleware.GrantOfMeaning | src/middleware/PermMiddleware.js:27-32 | a keyed scope with no colon grants `all`; one with a single colon grants the text after it; one with two or more colons grants nothing |
| PermMiddleware.GrantedMeaning | src/middleware/PermMiddleware.js:23-34 | a permission is collected iff some scope in the list grants it |
| PermMiddleware.Derived | src/middleware/PermMiddleware.js:35-37 | `admin` anywhere in the scopes grants `all` |
| PermMiddleware.DerivedMeaning | src/middleware/PermMiddleware.js:23-37 | a permission ends up in `perms` iff some scope grants it, or it is `all` and `admin` is among the scopes |
| PermMiddleware.Run | src/middleware/PermMiddleware.js:14-41 | always 200; no account gives no change; missing or empty scopes give `perms = {}`; otherwise the account is unchanged except that `perms` is replaced wholesale by the permissions the scopes derive (`Derived`) |
| PermMiddleware.Exec | src/middleware/PermMiddleware.js:14-41 | the loop that fills `perms` scope by scope computes the executor's result |
| PermMiddleware.QualifiedScopeGrants | src/middleware/PermMiddleware.js:24-32 | a scope built by `buildFullyQualifiedScope` grants back its permission, or `all` for the empty one, when no part contains a colon |
| PermMiddleware.PrefixKeyQuirk | src/middleware/PermMiddleware.js:25 | the key is a plain prefix: for any key and any colon-free extra text `more` and permission `p`, the scope `key + more + ":" + p` grants exactly `p` (so under `svc-prod`, `svc-production:read` grants `read`) |
| PermMiddleware.ScopeThenPermission | src/middleware/PermMiddleware.js:12-38 | an account holding `name-env:p` passes the permission check for `p` after this middleware |
| PermMiddleware.AdminPassesEverything | src/middleware/PermMiddleware.js:35-37 | an `admin` scope passes every permission check afterwards |
| PermMiddleware.ForeignScopesGrantNothing | src/middleware/PermMiddleware.js:23-38 | without `admin` or a keyed scope, perms end up empty and every non-empty check fails |
| PermMiddleware.New | src/middleware/PermMiddleware.js:7-14 | throws for an API that is not loaded; otherwise a middleware named `PermMiddleware` whose executor derives under `name-env` |
| PermMiddleware.NeverRefuses | src/middleware/PermMiddleware.js:14-41 | the middleware always calls `next()` |
| LibPermMiddleware.ScopeKey | lib/middleware/perm.middleware.js:8 | the key is the API name, a dash, then the environment |
| LibPermMiddleware.New | lib/middleware/perm.middleware.js:5-36 | a `BaseMiddleware` whose `exec` is the same derivation under that key |
| LibPermMiddleware.NeverRefuses | lib/middleware/perm.middleware.js:11-35 | the lib middleware always calls `next()` |
| IrohMiddleware.ParseAuthorization | src/middleware/IrohMiddleware.js:18-35 | a missing header is refused, and so are another scheme and an empty token; `Bearer ` is tried before `Wolke `; the token is `split(prefix)[1]`; only the Wolke scheme sets the flag |
| IrohMiddleware.BearerRoundTrip | src/middleware/IrohMiddleware.js:27-28 | `Bearer t` yields the Bearer token `t` |
| IrohMiddleware.WolkeRoundTrip | src/middleware/IrohMiddleware.js:29-32 | `Wolke t` yields the Wolke token `t` |
| IrohMiddleware.RepeatedPrefixTruncates | src/middleware/IrohMiddleware.js:28 | a token that repeats the prefix is cut at the repetition |
| IrohMiddleware.ValidationUrlShape | src/middleware/IrohMiddleware.js:39 | the URL is under `urlBase/validate/`; only a Wolke token adds `?wolkeToken=true` |
| IrohMiddleware.Run | src/middleware/IrohMiddleware.js:17-55 | the result is always 200, 401 or the contact-failure 500; 200 holds iff the token parses and the service answers with an account, which is then attached; an error response with a non-200 status gives 401; no response gives the 500 |
| IrohMiddleware.RefusedWithoutCall | src/middleware/IrohMiddleware.js:18-35 | a refused header never reaches the account service |
| IrohMiddleware.Outcomes | src/middleware/IrohMiddleware.js:43-54 | 200 calls `next()`; 401 and 500 are written |
| IrohMiddleware.Seeded | src/middleware/IrohMiddleware.js:57-62 | one whitelist entry per configured entry, in order |
| IrohMiddleware.New | src/middleware/IrohMiddleware.js:9-63 | throws for an API that is not loaded; the URL base defaults to `http://localhost:9010` and the user agent to `name-env`; the whitelist is seeded from the configuration |
| AccountApiMiddleware.UserAgent | lib/middleware/accountapi.middleware.js:13 | the given user agent, or `Account API Middleware on wapi-core v<version>` |
| AccountApiMiddleware.New | lib/middleware/accountapi.middleware.js:10-19 | the URL base defaults to `http://localhost:9010`; the whitelist is appended in order; `exec` is the shared token check |
| AccountApiMiddleware.BearerTokenAdmitted | lib/middleware/accountapi.middleware.js:31-58 | a valid Bearer token that is answered with an account passes with that account attached |
| AccountApiMiddleware.RejectedTokenRefused | lib/middleware/accountapi.middleware.js:47-50 | a token rejected with an error status gets 401 and the account is left alone |
| TrackMiddleware.ClientIp | src/middleware/TrackMiddleware.js:14-21 | the address throws iff there are no headers or no address at all; otherwise it contains no comma |
| TrackMiddleware.CloudflareIgnoredAsWritten | src/middleware/TrackMiddleware.js:15-17 | as written, Cloudflare's header is never consulted, because Node lower-cases header names |
| TrackMiddleware.CloudflareExample | src/middleware/TrackMiddleware.js:14-21 | with both headers present, the written lookup records the forwarded address and the corrected one records Cloudflare's |
| TrackMiddleware.ClientIpPriority | src/middleware/TrackMiddleware.js:14-21 | (corrected header lookup) Cloudflare's header wins, then forwarded-for, then the socket address; each source, whether a single address or a comma-separated list, gives its first entry |
| TrackMiddleware.Pageview | src/middleware/TrackMiddleware.js:23-46 | `uip` is the chosen address; `uid` and the dimensions `cd1`-`cd3` come from the account and appear iff there is one; `an` and `av` are as given |
| TrackMiddleware.BuildRecord | src/middleware/TrackMiddleware.js:14-46 | the staged assignments of the executor build exactly that record |
| TrackMiddleware.Run | src/middleware/TrackMiddleware.js:13-53 | the executor returns nothing once the record is built; the account is left alone |
| TrackMiddleware.PassesTrackedRequests | src/middleware/TrackMiddleware.js:13-53 | tracking never blocks a request that has an address |
| TrackMiddleware.New | src/middleware/TrackMiddleware.js:8-13 | throws for an API that is not loaded; otherwise builds the `TrackMiddleware` middleware |
| LibTrackingMiddleware.Run | lib/middleware/tracking.middleware.js:13-50 | `{status: 200}` once the record is built, with `an` set to `name_environment` |
| LibTrackingMiddleware.Outcomes | lib/middleware/tracking.middleware.js:49 | every request with an address passes; one without is answered 500 |
| LibTrackingMiddleware.New | lib/middleware/tracking.middleware.js:5-11 | a `BaseMiddleware` with that `exec` |
| Router.Resolve | src/router/Router.js:48-65 | an instance is used as is; a class is used iff instantiating it builds a `Route` |
| Router.RegisteredAppend | src/router/Router.js:47-80 | registration distributes over the route list: each entry registers on its own, in order |
| Router.SkippedEntry | src/router/Router.js:49-65 | an entry that throws or is not a `Route` is skipped, and the routes around it still register |
| Router.AliasRegistrationsValid | src/router/Router.js:68-79 | each registration comes from an alias whose method is one of `Route.Methods`, registered under that method lower-cased |
| Router.AliasRegisteredIff | src/router/Router.js:68-76 | an alias is registered iff its method is one of `Route.Methods` |
| Router.WrapRoute | src/router/Router.js:83-104 | a failed permission check gives 403 with the missing-scope message as a bare string; a throwing check or call goes to the error handler; a falsy result writes nothing; a truthy one writes its normalised envelope once |
| Router.DeniedNeverCalls | src/router/Router.js:87-93 | a denied request never reaches `route.call` |
| Router.NoAccountNoScopeNamed | src/router/Router.js:87-93 | no account on a route that needs one and names no permission gives 403 `Missing scope ` |
| Router.DeniedNamesScope | src/router/Router.js:87-92 | for any held set lacking both `p` and `all`, the 403 body is `Missing scope ` then the application name, a dash, the environment, a colon and `p`, with `unset` for a missing name or environment |
| Router.ResolveErrorHandlerAsWritten | src/router/Router.js:24-27 | as written, construction succeeds only with a function handler |
| Router.RouterWithoutHandlerThrows | src/router/Router.js:24-27 | as written, a router without an error handler throws instead of using the default |
| Router.Router.constructor | src/router/Router.js:18-30 | (corrected) the router holds its name and routes, the given or default error handler, and every registration of the route list |
| Router.Router.Init | src/router/Router.js:46-81 | the nested loops register exactly `Registered(routes)`, in route-then-alias order |
| Router.Router.Serve | src/router/Router.js:83-104 | (corrected default handler) an exception reaching the default handler is answered 500; a custom handler takes it over; other outcomes are written as decided |
| ServiceRouter.OpenRoute | src/router/ServiceRouter.js:14-15 | a route without permissions or account requirement, with one alias, always returning its answer |
| ServiceRouter.ServiceRoutes | src/router/ServiceRouter.js:12-21 | the info route on `/` comes first; `/permnode` follows iff the API has permission nodes |
| ServiceRouter.New | src/router/ServiceRouter.js:7-24 | (through the corrected router constructor) throws for an API that is not loaded; otherwise a router named `Service` over those routes |
| ServiceRouter.ServiceRegistrations | src/router/ServiceRouter.js:14-23 | the router registers `all /`, then `all /permnode` when present |
| ServiceRouter.InfoAlwaysAnswers | src/router/ServiceRouter.js:15 | the info route answers 200 with the version and `Welcome to the <name> API`, whoever asks |
| ServiceRouter.PermNodeAnswers | src/router/ServiceRouter.js:19 | `/permnode` answers 200 with `apiIdentifier` `name-env` and the permission nodes |
| BaseRouter.HandleResponse | lib/routers/base.router.js:13-18 | null throws; otherwise the normalised envelope is written with its status, 200 for an object without one |
| BaseRouter.WrapHandler | lib/routers/base.router.js:20-29 | every request gets exactly one response, 500 when the handler throws or returns nothing |
| BaseRouter.BaseRouter.constructor | lib/routers/base.router.js:9-11 | nothing is registered yet |
| BaseRouter.BaseRouter.Register | lib/routers/base.router.js:31-49 | each registration method appends one wrapped handler |
| BaseRouter.NewWildcard | lib/routers/wildcard.router.js:8-12 | every request is answered with the 404 envelope |
| BaseRouter.NewGeneric | lib/routers/generic.router.js:6-10 | `/` answers 200 with the given version and message |
| BaseTwoRouter.HandleResponse | lib/routers/basetwo.router.js:14-30 | nothing is written for null, an object with a socket, or an object without a truthy status; a number n writes `{n, default(n)}`; a proper object is written with its own status and, where a non-200 status lacks a message, exactly `default(status)`; at most one write |
| BaseTwoRouter.AgreesWithGetResponse | lib/routers/basetwo.router.js:22-29 | on a well-formed object it writes what the src normalisation writes |
| BaseTwoRouter.StatuslessObjectDiffers | lib/routers/basetwo.router.js:23 | an object without a status is left to the handler, where src answers 200 |
| BaseTwoRouter.HandleError | lib/routers/basetwo.router.js:42-46 | the base `handleError` writes the 500 envelope; an override takes over |
| BaseTwoRouter.WrapHandler | lib/routers/basetwo.router.js:32-40 | a throwing handler goes to `handleError`; a result goes to `_handleResponse` |
| BaseTwoRouter.BaseTwoRouter.constructor | lib/routers/basetwo.router.js:9-12 | the base `init` registers nothing |
| BaseTwoRouter.BaseTwoRouter.Register | lib/routers/basetwo.router.js:52-70 | each registration method appends one wrapped handler |
| BaseTwoRouter.BaseTwoRouter.Serve | lib/routers/basetwo.router.js:32-40 | a registered handler writes at most once, or hands over to an override |
| ShutdownHandler.PlanOrder | src/application/ShutdownHandler.js:18-36 | the due steps run in the order unregister, webserver, mongoose, each at most once, so at most three steps |
| ShutdownHandler.Finish | src/application/ShutdownHandler.js:37-44 | (corrected) the exit code is 1 iff errors were recorded, else 0 |
| ShutdownHandler.FailedUnregisterEscapes | src/application/ShutdownHandler.js:37-41 | as written, a recorded error ends in a `ReferenceError` from the undefined `logger`: the errors are never logged and the explicit `process.exit(1)` is never reached; the corrected exit code for the same errors is 1 |
| ShutdownHandler.ShutdownHandler.constructor | src/application/ShutdownHandler.js:8-16 | the webserver step exists iff a server is given; `errors` starts empty |
| ShutdownHandler.ShutdownHandler.Shutdown | src/application/ShutdownHandler.js:18-64 | (corrected final step) the steps run are exactly the plan for the starting state; unregister runs only with both a registrator and a name; every step's resource ends cleared; only a failed unregister adds an error; the exit code is 1 iff an error was recorded |

## Left out

- HTTP, Express and process effects are values. `next()`, `res.status().json()`,
  `app.use`, `register()` and `process.exit` become `Outcome` values and
  exit codes.
- Logging is left out (winston, `console.log`). Universal-analytics sending
  and its error callback are left out too, and so is the tracking key.
- Async interleaving is left out. That includes concurrent `shutdown()` calls,
  which the code does not latch. The shutdown steps run sequentially, and
  only whether unregistering fails is an input.
- `url-pattern` matching is the parameter `urlMatch`. A pattern that makes
  `UrlPattern` throw is not modelled.
- The account-service call (axios) is the `Validator` parameter, and
  `encodeURIComponent` is the `encode` parameter.
- `DefaultResponses` texts are symbolic (`Msg.DefaultFor`). The constants
  module is not part of this model.
- `Route.js` is not part of this model. `Route.Methods` is taken as `GET`,
  `POST`, `PUT`, `DELETE` and `ALL`. `new Route(method, path, ...)` is taken to
  have the single alias `(method, path)`. What instantiating a route class
  yields is the `Construction` input.
- `Strings.Lower`: lower-casing covers ASCII letters only.
- `PermMiddleware.Run`: `perms` is a set of names. Keys inherited from
  `Object.prototype` (such as `toString`), which would read as truthy in
  `perms[perm]`, are not modelled.
- `Util.GetResponseValue`: Node's refusal of invalid status codes (such as 0)
  when writing is not modelled.
- `BaseRouter.HandleResponse`: the lib routers complete the response object
  in place. This is modelled on values; only `Util.GetResponse` models the
  in-place update.
- `Middleware.Middleware.Handle`: an exception thrown by pattern matching is
  not modelled. The default error handler answers 500 as corrected; as
  written it writes nothing (`Middleware.DefaultHandlerNeverAnswers`).
- `Util.Settle`: models the corrected call `errorHandler(e, req, res)`, not the
  call without `res` that src/middleware/Middleware.js:54 makes.
- `Middleware.SettledOutcomes`: holds for the corrected default handler; as
  written, a throwing executor under the default handler ends in no answer.
- `Router.Router.constructor`: installs the default handler where
  src/router/Router.js:25 throws a TypeError
  (`Router.RouterWithoutHandlerThrows`).
- `Router.Router.Serve`: answers 500 through the default handler the corrected
  constructor installs.
- `ServiceRouter.New`: builds on the corrected router constructor, so a
  missing error handler yields a router rather than a TypeError.
- `ShutdownHandler.Finish`: the corrected last step. As written, recorded
  errors end in a `ReferenceError` (`ShutdownHandler.FailedUnregisterEscapes`).
- `ShutdownHandler.ShutdownHandler.Shutdown`: its exit code is the corrected
  `Finish`; as written, a failed unregister never logs its errors.
- `Util.GetResponseValue`: every status is assumed to have a non-empty default
  text. A code missing from `DefaultResponses` would leave `message`
  undefined; this assumption also underlies "carries a message" in
  `Middleware.Decide` and `BaseTwoRouter.HandleResponse`.
- `BaseMiddleware.GetResponse`: lib/middleware/base.middleware.js:15-16
  completes the result object in place; this is modelled on values.
- Account updates are modelled on values: `req.account` is replaced, not
  aliased.
- The lib registration methods `all/get/post/put/delete` are one `Register`
  taking the method.
- `router()`, `get name()` and `register(app)` only return or hand over
  Express objects.
- src/application/ShutdownHandler.js:67 exports an undefined name, so loading
  that module throws. The model describes the class as it is evidently meant
  to be exported.
- The tracking middlewares use the corrected Cloudflare header lookup. The
  lookup as written is the first half of the corresponding finding below.

## Findings

| source | as written | input that shows it | evidently intended | confidence | as-written member | corrected member |
|---|---|---|---|---|---|---|
| src/utils/Util.js:21 | `scopes.indexOf('admin' > -1)` looks up `false`, and the resulting -1 is truthy (same in lib/utils.js:4) | `checkScopes('svc-prod:write', [])` returns true | `scopes.indexOf('admin') > -1` | high; not executed | Util.CheckScopesAsWrittenPassesEmpty | Util.CheckScopesMeaning |
| src/middleware/Middleware.js:54 | `errorHandler(e)` passes no `res`, and the default handler calls `res.status` | the default handler with an executor that throws: nothing is written | `errorHandler(e, req, res)`, answering 500 | high; not executed | Middleware.DefaultHandlerNeverAnswers | Util.Settle |
| src/router/Router.js:25 | `Util.getDefaultErrorHandler()` is not defined in `Util` | `new Router('r', [], undefined)` throws a TypeError | fall back to the default 500 handler | high; not executed | Router.RouterWithoutHandlerThrows | Router.Router.Serve |
| src/middleware/TrackMiddleware.js:15-16 | reads `req.headers['CF-Connecting-IP']`, but Node stores header names in lower case (same in lib/middleware/tracking.middleware.js:20-22) | headers `cf-connecting-ip: 1.2.3.4` and `x-forwarded-for: 5.6.7.8` record 5.6.7.8 | Cloudflare's address 1.2.3.4 | medium; not executed | TrackMiddleware.CloudflareExample | TrackMiddleware.ClientIpPriority |
| src/application/ShutdownHandler.js:39 | `logger.error(error)` with no `logger` in scope | a failing unregister: a ReferenceError escapes from the callback, the errors are never logged and the explicit `process.exit(1)` is not reached | log the errors, then `process.exit(1)` | high; not executed | ShutdownHandler.FailedUnregisterEscapes | ShutdownHandler.ShutdownHandler.Shutdown |
