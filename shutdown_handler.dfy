/**
 * `ShutdownHandler`: tears the application down in a fixed order
 * (unregister from service discovery, stop the web server, close the
 * database connection), each step at most once, then exits with 1 when the
 * unregister step failed and 0 otherwise. Each step's collaborator is left
 * out; only whether unregistering fails is an input.
 */
module ShutdownHandler {
  import opened Wrappers
  import opened Http

  /** One teardown step. */
  datatype Step = Unregister | StopWebserver | StopMongoose

  /** The position of a step in the teardown order. */
  function Rank(s: Step): nat {
    match s
    case Unregister => 0
    case StopWebserver => 1
    case StopMongoose => 2
  }

  /** `this.name` is truthy */
  predicate NameSet(name: Option<string>) {
    name.Some? && name.value != ""
  }

  /** The steps a shutdown runs, given which of them are due. */
  function Plan(unregister: bool, webserver: bool, mongoose: bool): seq<Step> {
    (if unregister then [Unregister] else []) +
    (if webserver then [StopWebserver] else []) +
    (if mongoose then [StopMongoose] else [])
  }

  /** The plan runs exactly the due steps, in the fixed order, each once. */
  lemma PlanOrder(unregister: bool, webserver: bool, mongoose: bool)
    ensures var p := Plan(unregister, webserver, mongoose);
      |p| <= 3 &&
      (Unregister in p <==> unregister) && (StopWebserver in p <==> webserver) && (StopMongoose in p <==> mongoose) &&
      forall i, j :: 0 <= i < j < |p| ==> Rank(p[i]) < Rank(p[j])
  {
  }

  /** The exit code: 1 exactly when errors were collected. */
  function Finish(errors: seq<Fault>): (code: int)
    ensures code == 1 <==> |errors| > 0
    ensures code == 0 <==> |errors| == 0
  {
    if |errors| > 0 then 1 else 0
  }

  /** How the process ends. */
  datatype Ending = Exited(code: int) | Escaped(fault: Fault)

  /** The last step as written: the error loop calls `logger.error`, and
      `logger` is not defined in the module, so with errors collected a
      `ReferenceError` escapes from the callback before any error is logged
      and before the explicit `process.exit(1)` is reached. */
  function FinishAsWritten(errors: seq<Fault>): Ending {
    if |errors| > 0 then Escaped(ReferenceError) else Exited(0)
  }

  /** A failed unregister ends, as written, in an escaping `ReferenceError`
      rather than in the logged errors and explicit exit with code 1 the code
      sets out to produce; the collected errors are never logged. (The
      process may still end with a failure status through the runtime's
      uncaught-exception path, which is not part of this model.) */
  lemma FailedUnregisterEscapes(f: Fault)
    ensures FinishAsWritten([f]) == Escaped(ReferenceError)
    ensures Finish([f]) == 1
    ensures FinishAsWritten([]) == Exited(Finish([]))
  {
  }

  class ShutdownHandler {
    /** A registrator was given and is not yet cleared. */
    var registrator: bool
    /** A graceful-shutdown manager exists (a server was given) and is not yet cleared. */
    var gsm: bool
    /** A mongoose instance was given and is not yet cleared. */
    var mongoose: bool
    const name: Option<string>
    var errors: seq<Fault>

    /** `new ShutdownHandler(server, registrator, mongoose, name)` */
    constructor (server: bool, registrator: bool, mongoose: bool, name: Option<string>)
      ensures this.gsm == server && this.registrator == registrator && this.mongoose == mongoose
      ensures this.name == name && errors == []
    {
      gsm := server;
      this.registrator := registrator;
      this.mongoose := mongoose;
      this.name := name;
      errors := [];
    }

    /** `shutdown()`, with the re-entry from each step's callback unrolled
        into a loop; `unregisterFailure` is how unregistering ends. Returns
        the steps run and the exit code. */
    method Shutdown(unregisterFailure: Option<Fault>) returns (steps: seq<Step>, exitCode: int)
      modifies this
      ensures steps == Plan(old(registrator) && NameSet(name), old(gsm), old(mongoose))
      ensures errors == old(errors) +
        (if old(registrator) && NameSet(name) && unregisterFailure.Some? then [unregisterFailure.value] else [])
      ensures !gsm && !mongoose && registrator == (old(registrator) && !NameSet(name))
      ensures exitCode == Finish(errors)
      ensures old(errors) == [] ==> (exitCode == 1 <==> old(registrator) && NameSet(name) && unregisterFailure.Some?)
    {
      steps := [];
      while (registrator && NameSet(name)) || gsm || mongoose
        invariant registrator ==> old(registrator)
        invariant gsm ==> old(gsm)
        invariant mongoose ==> old(mongoose)
        invariant !NameSet(name) ==> registrator == old(registrator)
        invariant registrator && NameSet(name) ==> gsm == old(gsm) && mongoose == old(mongoose)
        invariant gsm ==> mongoose == old(mongoose)
        invariant steps + Plan(registrator && NameSet(name), gsm, mongoose) ==
                  Plan(old(registrator) && NameSet(name), old(gsm), old(mongoose))
        invariant errors == old(errors) +
          (if old(registrator) && !registrator && unregisterFailure.Some? then [unregisterFailure.value] else [])
        decreases (if registrator then 1 else 0) + (if gsm then 1 else 0) + (if mongoose then 1 else 0)
      {
        if registrator && NameSet(name) {
          if unregisterFailure.Some? {
            errors := errors + [unregisterFailure.value];
          }
          registrator := false;
          steps := steps + [Unregister];
        } else if gsm {
          gsm := false;
          steps := steps + [StopWebserver];
        } else {
          mongoose := false;
          steps := steps + [StopMongoose];
        }
      }
      exitCode := Finish(errors);
    }
  }
}
