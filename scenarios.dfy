/** Three runs of the worker as a caller drives them (a session over five generations, an
    unknown algorithm, a throwing generation step), checked against the specifications alone. */
module Scenarios {
  import opened Wrappers
  import opened Actions
  import opened Randomness
  import opened Reports
  import opened Solver

  const Basic := Action("Basic Synthesis", "basicSynth")

  /** An algorithm whose setup crowns the last member (the seed) and whose generations
      change nothing. */
  const Keep := Algorithm(
    (pop: seq<Individual>, toolbox: Toolbox) =>
      SetupDone(Generation(pop, if pop == [] then None else Some(pop[|pop| - 1]))),
    (pop: seq<Individual>, toolbox: Toolbox, champion: Champion, crossover: real, mutation: real) =>
      GenDone(Generation(pop, champion)))

  /** Population `size` and a budget of five generations, the seed given as a known action
      and one unknown crafter action: the population holds `size` members with the seed last,
      and the first progress report counts generation 1 of 5 and names the seed. */
  method StartFive(sim: Simulator, draws: Stream, size: int) returns (worker: Worker)
    requires size > 1
    ensures worker.state != null && fresh(worker.state) && fresh(worker.state.logOutput)
    ensures worker.state.settings.generations == 5
    ensures worker.state.algorithm == Keep
    ensures worker.state.gen == 1 && worker.state.maxGen == 5
    ensures worker.state.champion == Some(Defined([Basic]))
  {
    var registry := map["Basic Synthesis" := Basic];
    worker := new Worker(registry, map["eaSimple" := Keep], 0);
    var settings := Settings(Some(7), ["Basic Synthesis", "Hasty Touch"], false, ["Basic Synthesis"],
                             size, 5, "eaSimple", false);
    assert Resolved(settings.sequence, registry) == [Basic];

    var reports;
    ghost var population, sortedActions;
    reports, population, sortedActions := worker.Start(settings, sim, draws, 0);
    assert |population| == size && population[size - 1] == Defined([Basic]);
    ghost var champion := Some(Defined([Basic]));
    ghost var toolbox := ToolboxFor(settings, registry, sim, sortedActions);
    assert Keep.setup(population, toolbox) == SetupDone(Generation(population, champion));
    assert Keep.gen(population, toolbox, champion, CrossoverRate, MutationRate) == GenDone(Generation(population, champion));
    assert reports[0].Progress? && reports[0].generationsCompleted == 1 && reports[0].maxGenerations == 5;
    assert reports[0].bestSequence == ["basicSynth"];
  }

  /** Four more generations count up to 5 under the same budget, and a resume once the
      budget is used up extends it by 5 and empties the log. Works for any simulator and
      any random draws. */
  method FiveGenerations(sim: Simulator, draws: Stream)
  {
    var worker := StartFive(sim, draws, 20);
    var session := worker.state;
    var reports;
    var g := 2;
    while g <= 5
      invariant 2 <= g <= 6
      invariant worker.state == session && session.algorithm == Keep
      invariant session.gen == g - 1 && session.maxGen == 5
      invariant session.champion == Some(Defined([Basic]))
      modifies session
    {
      reports := worker.RunGen();
      assert reports[0].Progress? && reports[0].generationsCompleted == g && reports[0].maxGenerations == 5;
      g := g + 1;
    }

    reports := worker.Resume();
    assert reports[0].Progress? && reports[0].generationsCompleted == 6 && reports[0].maxGenerations == 10;
    assert session.logOutput.log == "";
  }

  /** An unknown algorithm name: an error naming it, then the setup failure the following
      call on `undefined` causes; no session is created. */
  method UnknownAlgorithm(sim: Simulator, draws: Stream)
  {
    var worker := new Worker(map[], map[], 0);
    var settings := Settings(None, [], false, [], 20, 5, "doesNotExist", false);
    var reports;
    ghost var population, sortedActions;
    reports, population, sortedActions := worker.Start(settings, sim, draws, 0);
    assert |reports| == 2 && reports[0].Error? && reports[1].Error?;
    assert reports[1].error == "Solver setup failed";
    assert worker.state == null;
  }

  /** An algorithm whose generation step records the first member in the hall of fame and
      then throws: the counter still moves on, the population stays, the hall of fame keeps
      what the failed step wrote, and the exception is the only report. */
  method ThrowingGeneration(sim: Simulator, draws: Stream)
  {
    var basic := Action("Basic Synthesis", "basicSynth");
    var registry := map["Basic Synthesis" := basic];
    var broken := Algorithm(
      (pop: seq<Individual>, toolbox: Toolbox) => SetupDone(Generation(pop, None)),
      (pop: seq<Individual>, toolbox: Toolbox, champion: Champion, crossover: real, mutation: real) =>
        GenThrew("RangeError: broken", Generation(pop, if pop == [] then champion else Some(pop[0]))));
    var worker := new Worker(registry, map["broken" := broken], 0);
    var settings := Settings(None, ["Basic Synthesis"], false, ["Basic Synthesis"], 10, 3, "broken", false);
    var reports;
    ghost var population, sortedActions;
    reports, population, sortedActions := worker.Start(settings, sim, draws, 0);
    var session := worker.state;
    assert |population| == 10;
    assert session.gen == 1 && session.pop == population && session.champion == Some(population[0]);
    assert reports == [Error("RangeError: broken", None)];

    reports := worker.RunGen();
    assert session.gen == 2 && session.pop == population && session.champion == Some(population[0]);
    assert reports == [Error("RangeError: broken", None)];
  }
}
