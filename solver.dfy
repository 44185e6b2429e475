/** The worker's controller: the session record that one search mutates in place, and the
    message handler that starts a session, advances it one generation at a time, resumes
    it and finishes it. The evolutionary algorithm is supplied from outside as a pair of
    functions, `setup` and `gen`. */
module Solver {
  import opened Wrappers
  import opened LogBuffer
  import opened Actions
  import opened Randomness
  import opened Reports

  /** The parts of the configuration the controller itself reads. The crafter's and the
      recipe's attributes and the simulator's options live in the `Simulator` built for
      them. */
  datatype Settings = Settings(
    seed: Option<int>,
    crafterActions: seq<string>,
    useConditions: bool,
    sequence: seq<string>,
    population: int,
    generations: int,
    algorithm: string,
    debug: bool)

  /** What `start` registers in the toolbox the algorithm is handed: random actions chosen
      from the sorted crafter actions, random sequences shorter than `seqMaxLength`, and the
      simulator's evaluation of an individual. */
  datatype Toolbox = Toolbox(actions: seq<Action>, seqMaxLength: int, sim: Simulator)

  /** A population together with the hall-of-fame entry: what `gen` yields, and what
      `setup` or a throwing `gen` leaves behind in the objects it was handed. */
  datatype Generation = Generation(pop: seq<Individual>, champion: Champion)

  /** What an algorithm's `setup` does: fills the hall of fame (and may reorder or alter the
      population array it is handed in place), or throws. */
  datatype SetupOutcome = SetupDone(ready: Generation) | SetupThrew(exception: string)

  /** What one call of an algorithm's `gen` does: yields a generation, or throws. A `gen`
      that throws may already have updated the hall of fame or the population array it
      was handed; `left` is what it left in them. */
  datatype GenOutcome = GenDone(next: Generation) | GenThrew(exception: string, left: Generation)

  /** An entry of the algorithm registry. */
  datatype Algorithm = Algorithm(
    setup: (seq<Individual>, Toolbox) -> SetupOutcome,
    gen: (seq<Individual>, Toolbox, Champion, real, real) -> GenOutcome)

  /** The crossover and mutation rates the controller passes to every generation. */
  const CrossoverRate: real := 0.5
  const MutationRate: real := 0.2

  /** An inbound message. */
  datatype Request = StartRequest(settings: Settings) | ResumeRequest | RunGenRequest
                   | FinishRequest | OtherRequest

  /** The seed individual: the known names of the explicit start sequence, or the
      heuristic builder's sequence when none of them is known. */
  function SeedSequence(settings: Settings, registry: Registry, sim: Simulator): (r: seq<Action>)
    ensures Resolved(settings.sequence, registry) != [] ==> r == Resolved(settings.sequence, registry)
    ensures Resolved(settings.sequence, registry) == [] ==> r == sim.heuristic
  {
    var explicit := Resolved(settings.sequence, registry);
    if explicit == [] then sim.heuristic else explicit
  }

  /** The log `before` followed by what `start` logs about the heuristic seed. */
  function HeuristicLog(before: string, sim: Simulator): string
  {
    var run := sim.heuristicRun(sim.heuristic);
    before + "No initial sequence provided; seeding with the following heuristic sequence:\n\n" +
    JoinNames(sim.heuristic) + "\n\n" + run.log +
    "Heuristic sequence feasibility:\n" + FeasibilityLine(run.state.violations)
  }

  /** The line that reports the seed and whether conditions are used. */
  function SeedLine(seed: int, useConditions: bool): string
  {
    "Seed: " + IntText(seed) + ", Use Conditions: " + BoolText(useConditions) + "\n\n"
  }

  /** The log of `start` up to the algorithm lookup. */
  function StartLog(settings: Settings, registry: Registry, sim: Simulator, seed: int): string
  {
    var unsupported := UnsupportedLog(settings.crafterActions, registry);
    var seeded := if Resolved(settings.sequence, registry) == [] then HeuristicLog(unsupported, sim) else unsupported;
    seeded + SeedLine(seed, settings.useConditions)
  }

  /** The text `start` logs about the heuristic seed, written piece by piece. */
  method WriteHeuristic(logOutput: LogOutput, sim: Simulator)
    modifies logOutput
    ensures logOutput.log == HeuristicLog(old(logOutput.log), sim)
  {
    var sequence := sim.heuristic;
    logOutput.Write("No initial sequence provided; seeding with the following heuristic sequence:\n\n");
    WriteNames(logOutput, sequence);
    logOutput.Write("\n\n");
    var heuristicState := sim.heuristicRun(sequence);
    logOutput.Write(heuristicState.log);
    logOutput.Write("Heuristic sequence feasibility:\n");
    logOutput.Write(FeasibilityLine(heuristicState.state.violations));
  }

  /** The first half of `start`: the crafter's actions, sorted, and the seed sequence, with
      what their resolution logs. */
  method ResolveActionsAndSeed(settings: Settings, registry: Registry, sim: Simulator, logOutput: LogOutput)
    returns (crafterActions: seq<Action>, sequence: seq<Action>)
    modifies logOutput
    ensures var unsupported := old(logOutput.log) + UnsupportedLog(settings.crafterActions, registry);
      logOutput.log ==
        if Resolved(settings.sequence, registry) == [] then HeuristicLog(unsupported, sim) else unsupported
    ensures SortedByShortName(crafterActions)
    ensures multiset(crafterActions) == multiset(Resolved(settings.crafterActions, registry))
    ensures sequence == SeedSequence(settings, registry, sim)
  {
    crafterActions := ResolveCrafterActions(settings.crafterActions, registry, logOutput);
    sequence := ResolveSequence(settings.sequence, registry);
    if sequence == [] {
      sequence := sim.heuristic;
      WriteHeuristic(logOutput, sim);
    }
  }

  /** The toolbox `start` builds from the sorted crafter actions. */
  function ToolboxFor(settings: Settings, registry: Registry, sim: Simulator, sortedActions: seq<Action>): Toolbox
  {
    Toolbox(sortedActions, SeqMaxLength(|SeedSequence(settings, registry, sim)|), sim)
  }

  /** The session record: created by `start`, mutated in place by each generation. */
  class Session {
    const settings: Settings
    const logOutput: LogOutput
    const algorithm: Algorithm
    const toolbox: Toolbox
    const startTime: int
    const sim: Simulator
    var pop: seq<Individual>
    var champion: Champion
    var maxGen: int
    var gen: int

    /** A new session has run no generation and allows as many as configured. */
    constructor (settings: Settings, logOutput: LogOutput, algorithm: Algorithm, toolbox: Toolbox,
                 startTime: int, sim: Simulator, pop: seq<Individual>, champion: Champion)
      ensures this.settings == settings && this.logOutput == logOutput
      ensures this.algorithm == algorithm && this.toolbox == toolbox
      ensures this.startTime == startTime && this.sim == sim
      ensures this.pop == pop && this.champion == champion
      ensures gen == 0 && maxGen == settings.generations
    {
      this.settings := settings;
      this.logOutput := logOutput;
      this.algorithm := algorithm;
      this.toolbox := toolbox;
      this.startTime := startTime;
      this.sim := sim;
      this.pop := pop;
      this.champion := champion;
      this.maxGen := settings.generations;
      this.gen := 0;
    }

    /** The session after one generation run from `pop0` and `champion0`: the counter reads
        `count` and the budget `budget`. If the algorithm yields a generation, it replaces
        the population and the champion, and the report is the progress report. If the
        algorithm throws, the counter has already moved on, the population and champion are
        whatever the algorithm left in the objects it shares with the session, and the report
        is the exception, without a log. */
    predicate Generated(pop0: seq<Individual>, champion0: Champion, count: int, budget: int, report: Report)
      reads this
    {
      gen == count && maxGen == budget &&
      match algorithm.gen(pop0, toolbox, champion0, CrossoverRate, MutationRate)
      case GenDone(next) =>
        pop == next.pop && champion == next.champion && report == ProgressReport(gen, maxGen, champion, sim)
      case GenThrew(exception, left) =>
        pop == left.pop && champion == left.champion && report == Error(exception, None)
    }

    /** `runOneGen`: counts one more generation, lets the algorithm produce the next
      population and update the hall of fame, and reports progress. */
    method RunOneGen() returns (report: Report)
      modifies this
      ensures Generated(old(pop), old(champion), old(gen) + 1, old(maxGen), report)
    {
      gen := gen + 1;
      var outcome := algorithm.gen(pop, toolbox, champion, CrossoverRate, MutationRate);
      if outcome.GenThrew? {
        // the exception leaves `runOneGen` before the population is reassigned; what the
        // algorithm changed in the shared array and hall of fame stays changed
        pop, champion := outcome.left.pop, outcome.left.champion;
        return Error(outcome.exception, None);
      }
      pop, champion := outcome.next.pop, outcome.next.champion;
      report := PostProgress(gen, maxGen, champion, sim);
    }

    /** `finish`: writes the final traces to the log and reports the champion; touches
      neither the counters nor the population. */
    method Finish(now: int) returns (report: Report)
      modifies logOutput
      ensures logOutput.log == FinishLog(old(logOutput.log), champion, sim, settings.debug, now - startTime)
      ensures report == FinalReport(logOutput.log, champion, sim)
    {
      logOutput.Write("Genetic Algorithm Result\n");
      logOutput.Write("========================\n");
      if champion.None? {
        // the simulator reads the length of an undefined sequence
        return Error(TypeErrorText, None);
      }
      var best := champion.value;
      var elapsedTime := now - startTime;
      WriteTraces(logOutput, best, sim, settings.debug, elapsedTime);
      var mcSimResult := sim.monteCarlo(best);
      var finalState := sim.noConditions(best).state;
      var names := ActionSequenceToShortNames(best);
      if names.None? {
        return Error(TypeErrorText, None);
      }
      report := Success(logOutput.log,
                        Describe(finalState, sim.hqPercent(finalState.quality), Some(mcSimResult.successPercent)),
                        names.value);
    }
  }

  /** The worker: the action and algorithm registries, the global `state`, and the seed of
      the random source. */
  class Worker {
    const registry: Registry
    const algorithms: map<string, Algorithm>
    var state: Session?
    var mathSeed: int

    /** Before the first `start` there is no session. */
    constructor (registry: Registry, algorithms: map<string, Algorithm>, mathSeed: int)
      ensures this.registry == registry && this.algorithms == algorithms
      ensures this.mathSeed == mathSeed && state == null
    {
      this.registry := registry;
      this.algorithms := algorithms;
      this.mathSeed := mathSeed;
      this.state := null;
    }

    /** What `start` achieves, with `sortedActions` the crafter actions after the sort and
        `population` the population handed to `setup`:
        - the random seed is the configured one when one is given;
        - the sorted actions are the known crafter actions ordered by short code;
        - the population is the one the draws build from the sorted actions and the seed;
        - an unknown algorithm gives two error reports and a failing `setup` one, both with
          the log, and the old session stays;
        - otherwise a fresh session holds the start log and the first generation. */
    twostate predicate Started(settings: Settings, sim: Simulator, draws: Stream, now: int,
                               reports: seq<Report>, new population: seq<Individual>, sortedActions: seq<Action>)
      reads this, state, if state == null then {} else {state.logOutput}
    {
      var seed := SeedSequence(settings, registry, sim);
      var toolbox := ToolboxFor(settings, registry, sim, sortedActions);
      var log := StartLog(settings, registry, sim, mathSeed);
      mathSeed == (if settings.seed.Some? then settings.seed.value else old(mathSeed)) &&
      SortedByShortName(sortedActions) &&
      multiset(sortedActions) == multiset(Resolved(settings.crafterActions, registry)) &&
      population == InitialPopulationOf(settings.population, toolbox.seqMaxLength, sortedActions, seed, draws, 0) &&
      (settings.algorithm !in algorithms ==>
        state == old(state) &&
        reports == [Error("No such algorithm: " + settings.algorithm, Some(log)),
                    Error("Solver setup failed", Some(log + "\n\n" + TypeErrorText))]) &&
      (settings.algorithm in algorithms && algorithms[settings.algorithm].setup(population, toolbox).SetupThrew? ==>
        state == old(state) &&
        reports == [Error("Solver setup failed",
                          Some(log + "\n\n" + algorithms[settings.algorithm].setup(population, toolbox).exception))]) &&
      (settings.algorithm in algorithms && algorithms[settings.algorithm].setup(population, toolbox).SetupDone? ==>
        var algorithm := algorithms[settings.algorithm];
        state != null && fresh(state) && fresh(state.logOutput) &&
        state.settings == settings && state.algorithm == algorithm && state.toolbox == toolbox &&
        state.sim == sim && state.startTime == now &&
        state.logOutput.log == log && |reports| == 1 &&
        state.Generated(algorithm.setup(population, toolbox).ready.pop,
                        algorithm.setup(population, toolbox).ready.champion, 1, settings.generations, reports[0]))
    }

    /** `start`: resolves the actions and the seed, builds the initial population from the
      random draws `draws`, looks the algorithm up and sets it up. On success a new session
      replaces the old one and runs its first generation; on failure the old session, if
      any, is kept untouched. */
    method Start(settings: Settings, sim: Simulator, draws: Stream, now: int)
      returns (reports: seq<Report>, ghost population: seq<Individual>, ghost sortedActions: seq<Action>)
      modifies this
      ensures Started(settings, sim, draws, now, reports, population, sortedActions)
      ensures IsInitialPopulation(population, settings.population,
                                  SeqMaxLength(|SeedSequence(settings, registry, sim)|),
                                  sortedActions, SeedSequence(settings, registry, sim))
      ensures old(state) != null ==> unchanged(old(state), old(state.logOutput))
    {
      var logOutput := new LogOutput();

      var seed := mathSeed;
      if settings.seed.Some? {
        seed := settings.seed.value;
        mathSeed := seed;
      }

      var toolbox, pop := Prepare(settings, sim, draws, seed, logOutput);
      sortedActions := toolbox.actions;
      population := pop;
      reports := Launch(settings, sim, logOutput, toolbox, pop, now);
    }

    /** The first half of `start`, up to the algorithm lookup: the log it writes, the toolbox
        over the sorted crafter actions, and the initial population. */
    method Prepare(settings: Settings, sim: Simulator, draws: Stream, seed: int, logOutput: LogOutput)
      returns (toolbox: Toolbox, pop: seq<Individual>)
      requires logOutput.log == ""
      modifies logOutput
      ensures logOutput.log == StartLog(settings, registry, sim, seed)
      ensures toolbox == ToolboxFor(settings, registry, sim, toolbox.actions)
      ensures SortedByShortName(toolbox.actions)
      ensures multiset(toolbox.actions) == multiset(Resolved(settings.crafterActions, registry))
      ensures pop == InitialPopulationOf(settings.population, toolbox.seqMaxLength, toolbox.actions,
                                         SeedSequence(settings, registry, sim), draws, 0)
      ensures IsInitialPopulation(pop, settings.population, toolbox.seqMaxLength, toolbox.actions,
                                  SeedSequence(settings, registry, sim))
    {
      var crafterActions, sequence := ResolveActionsAndSeed(settings, registry, sim, logOutput);
      assert "" + UnsupportedLog(settings.crafterActions, registry) == UnsupportedLog(settings.crafterActions, registry);

      var seqMaxLength := SeqMaxLength(|sequence|);
      toolbox := Toolbox(crafterActions, seqMaxLength, sim);
      pop := InitialPopulation(settings.population, seqMaxLength, crafterActions, sequence, draws, 0);
      InitialPopulationShape(settings.population, seqMaxLength, crafterActions, sequence, draws, 0);

      logOutput.Write(SeedLine(seed, settings.useConditions));
    }

    /** The second half of `start`: looks the algorithm up, sets it up on `pop`, and on
      success installs the new session and runs its first generation. */
    method Launch(settings: Settings, sim: Simulator, logOutput: LogOutput, toolbox: Toolbox,
                  pop: seq<Individual>, startTime: int)
      returns (reports: seq<Report>)
      requires state == null || state.logOutput != logOutput
      modifies this, logOutput
      ensures mathSeed == old(mathSeed)
      ensures old(state) != null ==> unchanged(old(state), old(state.logOutput))
      ensures settings.algorithm !in algorithms ==>
        state == old(state) &&
        reports == [Error("No such algorithm: " + settings.algorithm, Some(old(logOutput.log))),
                    Error("Solver setup failed", Some(old(logOutput.log) + "\n\n" + TypeErrorText))]
      ensures settings.algorithm in algorithms && algorithms[settings.algorithm].setup(pop, toolbox).SetupThrew? ==>
        state == old(state) &&
        reports == [Error("Solver setup failed",
                          Some(old(logOutput.log) + "\n\n" + algorithms[settings.algorithm].setup(pop, toolbox).exception))]
      ensures settings.algorithm in algorithms && algorithms[settings.algorithm].setup(pop, toolbox).SetupDone? ==>
        var algorithm := algorithms[settings.algorithm];
        state != null && fresh(state) && state.logOutput == logOutput &&
        state.settings == settings && state.algorithm == algorithm && state.toolbox == toolbox &&
        state.sim == sim && state.startTime == startTime &&
        logOutput.log == old(logOutput.log) && |reports| == 1 &&
        state.Generated(algorithm.setup(pop, toolbox).ready.pop,
                        algorithm.setup(pop, toolbox).ready.champion, 1, settings.generations, reports[0])
    {
      if settings.algorithm !in algorithms {
        reports := [Error("No such algorithm: " + settings.algorithm, Some(logOutput.log))];
        // `algorithm.setup` on undefined throws inside the setup guard
        logOutput.Write("\n\n");
        logOutput.Write(TypeErrorText);
        reports := reports + [Error("Solver setup failed", Some(logOutput.log))];
        return;
      }
      var algorithm := algorithms[settings.algorithm];

      var outcome := algorithm.setup(pop, toolbox);
      if outcome.SetupThrew? {
        logOutput.Write("\n\n");
        logOutput.Write(outcome.exception);
        reports := [Error("Solver setup failed", Some(logOutput.log))];
        return;
      }

      var session := new Session(settings, logOutput, algorithm, toolbox, startTime, sim, outcome.ready.pop, outcome.ready.champion);
      state := session;
      var progress := session.RunOneGen();
      reports := [progress];
    }

    /** What `resume` achieves: without a session, the error of reading `undefined`;
        otherwise the budget grows by the configured count if and only if it was used up,
        the log is empty, and one generation has run. The session stays the same object. */
    twostate predicate Resumed(reports: seq<Report>)
      reads this, state, if state == null then {} else {state.logOutput}
    {
      state == old(state) &&
      (state == null ==> reports == [Error(TypeErrorText, None)]) &&
      (state != null ==>
        var budget := if old(state.gen) >= old(state.maxGen)
                      then old(state.maxGen) + state.settings.generations
                      else old(state.maxGen);
        state.logOutput.log == "" && |reports| == 1 &&
        state.Generated(old(state.pop), old(state.champion), old(state.gen) + 1, budget, reports[0]))
    }

    /** The `resume` branch: extends the generation budget by the configured count when it is
      used up, empties the log, and runs one generation. */
    method Resume() returns (reports: seq<Report>)
      modifies if state == null then {} else {state as object, state.logOutput as object}
      ensures Resumed(reports)
    {
      if state == null {
        // reading `gen` of undefined throws
        return [Error(TypeErrorText, None)];
      }
      if state.gen >= state.maxGen {
        state.maxGen := state.maxGen + state.settings.generations;
      }
      state.logOutput.Clear();
      var progress := state.RunOneGen();
      reports := [progress];
    }

    /** What `rungen` achieves: without a session, the error of reading `undefined`;
        otherwise one generation has run under the same budget. */
    twostate predicate RanGeneration(reports: seq<Report>)
      reads this, state
    {
      state == old(state) &&
      (state == null ==> reports == [Error(TypeErrorText, None)]) &&
      (state != null ==>
        |reports| == 1 &&
        state.Generated(old(state.pop), old(state.champion), old(state.gen) + 1, old(state.maxGen), reports[0]))
    }

    /** The `rungen` branch: runs exactly one generation. */
    method RunGen() returns (reports: seq<Report>)
      modifies if state == null then {} else {state}
      ensures RanGeneration(reports)
    {
      if state == null {
        return [Error(TypeErrorText, None)];
      }
      var progress := state.RunOneGen();
      reports := [progress];
    }

    /** What `finish` achieves: without a session, the error of reading `undefined`;
        otherwise the final log and report, with the counters and the population as they
        were. */
    twostate predicate Finished(now: int, reports: seq<Report>)
      reads this, state, if state == null then {} else {state.logOutput}
    {
      state == old(state) &&
      (state == null ==> reports == [Error(TypeErrorText, None)]) &&
      (state != null ==>
        state.gen == old(state.gen) && state.maxGen == old(state.maxGen) &&
        state.pop == old(state.pop) && state.champion == old(state.champion) &&
        state.logOutput.log ==
          FinishLog(old(state.logOutput.log), state.champion, state.sim, state.settings.debug, now - state.startTime) &&
        reports == [FinalReport(state.logOutput.log, state.champion, state.sim)])
    }

    /** The `finish` branch. */
    method Finish(now: int) returns (reports: seq<Report>)
      modifies if state == null then {} else {state.logOutput}
      ensures Finished(now, reports)
    {
      if state == null {
        return [Error(TypeErrorText, None)];
      }
      var report := state.Finish(now);
      reports := [report];
    }

    /** `onmessage`: dispatches one inbound message to its branch; any other message does
        nothing. Only `start` replaces the session or the random seed. `population` and
        `sortedActions` are those of a `start`. */
    method OnMessage(request: Request, sim: Simulator, draws: Stream, now: int)
      returns (reports: seq<Report>, ghost population: seq<Individual>, ghost sortedActions: seq<Action>)
      modifies this
      modifies if state == null then {} else {state as object, state.logOutput as object}
      ensures request.StartRequest? ==>
        Started(request.settings, sim, draws, now, reports, population, sortedActions) &&
        (old(state) != null ==> unchanged(old(state), old(state.logOutput)))
      ensures request.ResumeRequest? ==> Resumed(reports)
      ensures request.RunGenRequest? ==> RanGeneration(reports)
      ensures request.FinishRequest? ==> Finished(now, reports)
      ensures request.OtherRequest? ==>
        reports == [] && state == old(state) && (old(state) != null ==> unchanged(old(state), old(state.logOutput)))
      ensures !request.StartRequest? ==> mathSeed == old(mathSeed)
    {
      population, sortedActions := [], [];
      match request
      case StartRequest(settings) =>
        reports, population, sortedActions := Start(settings, sim, draws, now);
      case ResumeRequest =>
        reports := Resume();
      case RunGenRequest =>
        reports := RunGen();
      case FinishRequest =>
        reports := Finish(now);
      case OtherRequest =>
        reports := [];
    }
  }
}
