/** Wrapper synthesis: the entry point generated for each kind, described as
    data rather than as Rust tokens. It is exported under a fixed protocol
    name, takes the host's low-level arguments, converts them, awaits the
    relocated function and, for fetch only, dispatches a failure. */
module Synthesis {
  import opened Wrappers
  import opened Handler

  datatype Param = Param(name: string, ty: string)

  /** An argument of the call to the relocated function. */
  datatype Arg =
    | FromLowLevel(ty: string, param: string)   // `ty::from(param)`
    | WrappedNew(ty: string, param: string)     // `ty::new(param)`, bound before the call
    | Passed(param: string)                     // the parameter as it came in

  /** What happens when a fetch handler returns `Err(e)`; both actions carry
      the error's display text. */
  datatype ErrorAction =
    | RespondWithStatus(status: nat)   // `Response::error(e.to_string(), status)`
    | PanicWithError                   // `panic!("{}", e)`

  /** How the wrapper finishes with the awaited result. */
  datatype Completion =
    | AwaitOnly                                                    // the result is the wrapper's own
    | MapResult(convertOk: string, logError: bool, onError: ErrorAction)  // `Ok` converted, `Err` handled

  /** A generated `pub async fn`. */
  datatype Wrapper = Wrapper(
    name: string,
    params: seq<Param>,
    returnType: Option<string>,
    callee: string,
    args: seq<Arg>,
    completion: Completion)

  const FetchExportName := "fetch"
  const ScheduledExportName := "scheduled"

  /** The name the host runtime looks the entry point up by. */
  function ExportName(kind: HandlerKind): string {
    match kind
    case Fetch => FetchExportName
    case Scheduled => ScheduledExportName
  }

  /** The path of the host's low-level (JavaScript-facing) types. */
  const WorkerSys := "::worker::worker_sys::"

  predicate IsLowLevel(ty: string) {
    |ty| > |WorkerSys| && ty[..|WorkerSys|] == WorkerSys
  }

  const LowResponse := WorkerSys + "Response"
  const EnvParam := Param("env", "::worker::Env")

  function FetchWrapper(glue: string, respondWithErrors: bool): Wrapper {
    Wrapper(
      FetchExportName,
      [Param("req", WorkerSys + "Request"), EnvParam, Param("ctx", WorkerSys + "Context")],
      Some(LowResponse),
      glue,
      [FromLowLevel("::worker::Request", "req"), Passed("env"), WrappedNew("worker::Context", "ctx")],
      MapResult(LowResponse, true, if respondWithErrors then RespondWithStatus(500) else PanicWithError))
  }

  function ScheduledWrapper(glue: string): Wrapper {
    Wrapper(
      ScheduledExportName,
      [Param("event", WorkerSys + "ScheduledEvent"), EnvParam, Param("ctx", WorkerSys + "ScheduleContext")],
      None,
      glue,
      [FromLowLevel("::worker::ScheduledEvent", "event"), Passed("env"),
       FromLowLevel("::worker::ScheduleContext", "ctx")],
      AwaitOnly)
  }

  /** What the relocated function's awaited call produced. */
  datatype HandlerResult = Returned | Failed(text: string)

  /** How one invocation of the wrapper ends. */
  datatype Ending =
    | ConvertedResponse(ty: string)          // the handler's response, converted to `ty`
    | ErrorResponse(status: nat, body: string)
    | Panicked(message: string)
    | PassedThrough(result: HandlerResult)   // whatever the call produced, unconverted

  datatype Effect = Effect(logged: seq<string>, ending: Ending)

  /** An abstract reading of the wrapper's completion: which action it
      selects for a given result and what it logs before that action. */
  function Run(w: Wrapper, r: HandlerResult): Effect {
    match w.completion
    case AwaitOnly => Effect([], PassedThrough(r))
    case MapResult(ty, log, action) =>
      match r
      case Returned => Effect([], ConvertedResponse(ty))
      case Failed(t) =>
        Effect(
          if log then [t] else [],
          match action
          case RespondWithStatus(s) => ErrorResponse(s, t)
          case PanicWithError => Panicked(t))
  }

  /** The wrapper for a configuration, calling the relocated function `glue`.
      It is exported as `fetch` or `scheduled` whatever the user's function is
      called. It takes three parameters, a low-level event (request or
      scheduled event), the environment and a low-level context, and passes
      them to `glue` in that order: the event and the context converted to
      their high-level types, the environment as it is. A fetch wrapper
      returns a low-level response: a success is converted, and a failure is
      always logged and then answered with 500 and the error's text when
      `respond_with_errors` is set, or makes it panic with that text when it
      is not. A scheduled wrapper returns nothing and passes every result
      through, so the flag makes no difference to it. */
  function Synthesize(cfg: HandlerConfig, glue: string): (w: Wrapper)
    ensures w.name == ExportName(cfg.kind)
    ensures w.callee == glue
    ensures |w.params| == |w.args| == 3
    ensures forall i :: 0 <= i < 3 ==> w.args[i].param == w.params[i].name
    ensures IsLowLevel(w.params[0].ty) && !w.args[0].Passed?
    ensures w.params[1] == EnvParam && w.args[1] == Passed(EnvParam.name)
    ensures IsLowLevel(w.params[2].ty) && !w.args[2].Passed?
    ensures cfg.kind == Fetch ==>
      w.returnType == Some(LowResponse) && IsLowLevel(LowResponse)
      && Run(w, Returned) == Effect([], ConvertedResponse(LowResponse))
      && forall t :: Run(w, Failed(t))
                     == Effect([t], if cfg.respondWithErrors then ErrorResponse(500, t) else Panicked(t))
    ensures cfg.kind == Scheduled ==>
      w.returnType.None? && forall r :: Run(w, r) == Effect([], PassedThrough(r))
  {
    match cfg.kind
    case Fetch => FetchWrapper(glue, cfg.respondWithErrors)
    case Scheduled => ScheduledWrapper(glue)
  }

  /** The flag is ignored for scheduled handlers: both settings generate the
      same wrapper. */
  lemma ScheduledIgnoresFlag(glue: string)
    ensures Synthesize(HandlerConfig(Scheduled, true), glue) == Synthesize(HandlerConfig(Scheduled, false), glue)
  {
  }

  /** For fetch, the flag changes only the terminal action of the error
      branch: the log entry and every other part of the wrapper are the same. */
  lemma FetchFlagChangesOnlyTerminalAction(glue: string, t: string)
    ensures
      var on, off := Synthesize(HandlerConfig(Fetch, true), glue), Synthesize(HandlerConfig(Fetch, false), glue);
      on.(completion := off.completion) == off
      && Run(on, Failed(t)).logged == Run(off, Failed(t)).logged == [t]
      && Run(on, Failed(t)).ending != Run(off, Failed(t)).ending
  {
  }

  /** Everything but the callee and the error action depends on the kind
      alone: the name, the parameter list, the arguments and the return type. */
  lemma WrapperShapeDependsOnKindOnly(c1: HandlerConfig, g1: string, c2: HandlerConfig, g2: string)
    requires c1.kind == c2.kind
    ensures
      var w1, w2 := Synthesize(c1, g1), Synthesize(c2, g2);
      w1.params == w2.params && w1.args == w2.args && w1.returnType == w2.returnType
  {
  }

  /** The wrapper's exported name depends on the kind alone. */
  lemma ExportNameIsFixed(c1: HandlerConfig, g1: string, c2: HandlerConfig, g2: string)
    requires c1.kind == c2.kind
    ensures Synthesize(c1, g1).name == Synthesize(c2, g2).name
    ensures Synthesize(c1, g1).name in {FetchExportName, ScheduledExportName}
  {
  }
}
