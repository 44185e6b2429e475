/** What the worker posts: progress and final reports derived from re-simulating the
    champion, and error reports. The simulator itself is not part of this model: every
    simulator call the worker makes is a function supplied from outside. */
module Reports {
  import opened Wrappers
  import opened Actions
  import opened LogBuffer

  /** The five constraint checks of a simulated end state. */
  datatype Violations = Violations(progressOk: bool, durabilityOk: bool, cpOk: bool,
                                   trickOk: bool, reliabilityOk: bool)

  /** All five constraints hold. */
  predicate Feasible(v: Violations)
  {
    v.progressOk && v.durabilityOk && v.cpOk && v.trickOk && v.reliabilityOk
  }

  /** A simulated end state, with the outcome of its constraint checks. */
  datatype SimState = SimState(quality: int, durability: int, cp: int, progress: int,
                               condition: string, violations: Violations)

  /** One simulation run: its end state and the text it writes to a log it is given. */
  datatype Run = Run(state: SimState, log: string)

  /** One Monte Carlo study: its success percentage and the text it writes. */
  datatype MonteCarlo = MonteCarlo(successPercent: int, log: string)

  /** The simulator calls of one search, bound to its crafter, recipe and options. */
  datatype Simulator = Simulator(
    /** `heuristicSequenceBuilder(synth)` */
    heuristic: seq<Action>,
    /** `MonteCarloSequence` of the heuristic seed, conditions as configured */
    heuristicRun: seq<Action> -> Run,
    /** `MonteCarloSequence` from the start state without conditions */
    noConditions: Individual -> Run,
    /** the text `simSynth` writes */
    trace: Individual -> string,
    /** `MonteCarloSim` over the configured number of runs */
    monteCarlo: Individual -> MonteCarlo,
    /** the text of the debug-only example run */
    example: Individual -> string,
    /** `hqPercentFromQuality` of the quality as a percentage of the recipe's maximum */
    hqPercent: int -> int,
    /** `evalSeq` with the configured penalty weight: the fitness of an individual */
    evaluate: Individual -> seq<real>)

  /** The first entry of the size-1 hall of fame, `undefined` when it is empty. */
  type Champion = Option<Individual>

  /** The `state` object of a report. `successPercent` is present in the final report only. */
  datatype ReportState = ReportState(quality: int, durability: int, cp: int, progress: int,
                                     successPercent: Option<int>, hqPercent: int, feasible: bool,
                                     violations: Violations, condition: string)

  /** A message the worker posts. */
  datatype Report =
    | Error(error: string, log: Option<string>)
    | Progress(generationsCompleted: int, maxGenerations: int, state: ReportState,
               bestSequence: seq<string>)
    | Success(fullLog: string, state: ReportState, bestSequence: seq<string>)

  /** The text of the exception thrown when a property of `undefined` is read. The exact
      wording is the script engine's; the model fixes one. */
  const TypeErrorText := "TypeError: Cannot read properties of undefined"

  /** The report's view of an end state. */
  function Describe(s: SimState, hqPercent: int, successPercent: Option<int>): (r: ReportState)
    ensures r.feasible <==> (r.violations.progressOk && r.violations.durabilityOk &&
      r.violations.cpOk && r.violations.trickOk && r.violations.reliabilityOk)
    ensures r.quality == s.quality && r.durability == s.durability && r.cp == s.cp &&
      r.progress == s.progress && r.violations == s.violations && r.condition == s.condition
    ensures r.hqPercent == hqPercent && r.successPercent == successPercent
  {
    ReportState(s.quality, s.durability, s.cp, s.progress, successPercent, hqPercent,
                Feasible(s.violations), s.violations, s.condition)
  }

  /** What `postProgress` posts for the current champion: its deterministic re-simulation,
      the conjunction of the five checks, and its short codes; or the error thrown when
      there is no champion or one of its slots is `undefined`. */
  function ProgressReport(gen: int, maxGen: int, champion: Champion, sim: Simulator): (r: Report)
    ensures !r.Success?
    ensures r.Error? ==> r == Error(TypeErrorText, None)
    ensures r.Progress? <==>
      champion.Some? && forall k :: 0 <= k < |champion.value| ==> champion.value[k].Some?
    ensures r.Progress? ==>
      r.generationsCompleted == gen && r.maxGenerations == maxGen &&
      r.state == Describe(sim.noConditions(champion.value).state,
                          sim.hqPercent(sim.noConditions(champion.value).state.quality), None) &&
      (r.state.feasible <==> (r.state.violations.progressOk && r.state.violations.durabilityOk &&
        r.state.violations.cpOk && r.state.violations.trickOk && r.state.violations.reliabilityOk)) &&
      |r.bestSequence| == |champion.value| &&
      forall k :: 0 <= k < |champion.value| ==> r.bestSequence[k] == champion.value[k].value.shortName
  {
    match champion
    case None => Error(TypeErrorText, None)
    case Some(best) =>
      var current := sim.noConditions(best).state;
      match ShortNamesOf(best)
      case None => Error(TypeErrorText, None)
      case Some(names) => Progress(gen, maxGen, Describe(current, sim.hqPercent(current.quality), None), names)
  }

  /** `postProgress`: re-simulates the champion and renders it. */
  method PostProgress(gen: int, maxGen: int, champion: Champion, sim: Simulator) returns (report: Report)
    ensures report == ProgressReport(gen, maxGen, champion, sim)
  {
    if champion.None? {
      // the simulator reads the length of an undefined sequence
      return Error(TypeErrorText, None);
    }
    var best := champion.value;
    var currentState := sim.noConditions(best).state;
    var names := ActionSequenceToShortNames(best);
    if names.None? {
      return Error(TypeErrorText, None);
    }
    report := Progress(gen, maxGen, Describe(currentState, sim.hqPercent(currentState.quality), None), names.value);
  }

  /** The log `before` followed by what `finish` writes: headings, the simulator's traces,
      the debug-only example, and the elapsed time. Without a champion the first simulator
      call throws right after the first heading. */
  function FinishLog(before: string, champion: Champion, sim: Simulator, debug: bool, elapsed: int): string
  {
    var heading := before + "Genetic Algorithm Result\n" + "========================\n";
    match champion
    case None => heading
    case Some(best) => TracesLog(heading, best, sim, debug, elapsed)
  }

  /** The log `before` followed by the traces `finish` writes for the champion `best`. */
  function TracesLog(before: string, best: Individual, sim: Simulator, debug: bool, elapsed: int): string
  {
    var studied := before + sim.trace(best) +
      "\nMonte Carlo Result\n" + "==================\n" + sim.monteCarlo(best).log;
    var illustrated := if debug then studied + "\nMonte Carlo Example" + "\n===================\n" + sim.example(best)
                       else studied;
    illustrated + sim.noConditions(best).log + ("\nElapsed time: " + IntText(elapsed) + " ms")
  }

  /** The writes of `finish` between its first heading and its report. */
  method WriteTraces(logOutput: LogOutput, best: Individual, sim: Simulator, debug: bool, elapsed: int)
    modifies logOutput
    ensures logOutput.log == TracesLog(old(logOutput.log), best, sim, debug, elapsed)
  {
    logOutput.Write(sim.trace(best));
    logOutput.Write("\nMonte Carlo Result\n");
    logOutput.Write("==================\n");
    logOutput.Write(sim.monteCarlo(best).log);
    if debug {
      logOutput.Write("\nMonte Carlo Example");
      logOutput.Write("\n===================\n");
      logOutput.Write(sim.example(best));
    }
    logOutput.Write(sim.noConditions(best).log);
    logOutput.Write("\nElapsed time: " + IntText(elapsed) + " ms");
  }

  /** What `finish` posts: the whole log, the deterministic end state of the champion with
      the Monte Carlo success percentage laid over it, and its short codes; or the error
      thrown when there is no champion or one of its slots is `undefined`. */
  function FinalReport(log: string, champion: Champion, sim: Simulator): (r: Report)
    ensures !r.Progress?
    ensures r.Error? ==> r == Error(TypeErrorText, None)
    ensures r.Success? <==>
      champion.Some? && forall k :: 0 <= k < |champion.value| ==> champion.value[k].Some?
    ensures r.Success? ==>
      r.fullLog == log &&
      r.state == Describe(sim.noConditions(champion.value).state,
                          sim.hqPercent(sim.noConditions(champion.value).state.quality),
                          Some(sim.monteCarlo(champion.value).successPercent)) &&
      (r.state.feasible <==> (r.state.violations.progressOk && r.state.violations.durabilityOk &&
        r.state.violations.cpOk && r.state.violations.trickOk && r.state.violations.reliabilityOk)) &&
      |r.bestSequence| == |champion.value| &&
      forall k :: 0 <= k < |champion.value| ==> r.bestSequence[k] == champion.value[k].value.shortName
  {
    match champion
    case None => Error(TypeErrorText, None)
    case Some(best) =>
      var finalState := sim.noConditions(best).state;
      match ShortNamesOf(best)
      case None => Error(TypeErrorText, None)
      case Some(names) =>
        Success(log, Describe(finalState, sim.hqPercent(finalState.quality),
                              Some(sim.monteCarlo(best).successPercent)), names)
  }

  // ---------------------------------------------------------------------------
  // Text formatting used in log lines
  // ---------------------------------------------------------------------------

  /** A boolean as `%s` prints it. */
  function BoolText(b: bool): string
  {
    if b then "true" else "false"
  }

  /** The decimal digits of a natural number. */
  function DigitsText(n: nat): (r: string)
    ensures |r| > 0 && forall i :: 0 <= i < |r| ==> '0' <= r[i] <= '9'
  {
    if n < 10 then ["0123456789"[n]] else DigitsText(n / 10) + ["0123456789"[n % 10]]
  }

  /** An integer as `%d` prints it. */
  function IntText(i: int): string
  {
    if i < 0 then "-" + DigitsText(-i) else DigitsText(i)
  }

  /** The heuristic seed's feasibility line. */
  function FeasibilityLine(v: Violations): string
  {
    "Progress: " + BoolText(v.progressOk) + ", Durability: " + BoolText(v.durabilityOk) +
    ", CP: " + BoolText(v.cpOk) + ", Tricks: " + BoolText(v.trickOk) +
    ", Reliability: " + BoolText(v.reliabilityOk) + "\n\n"
  }
}
