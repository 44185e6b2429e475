# Crafting-solver worker: a Dafny model

This project models the controller of the crafting solver's background worker
(`app/js/solver/worker.js`). The worker receives four kinds of message.

- `start` takes a configuration and does the following:
  - checks the crafter's requested actions against the action registry and logs one line per unsupported name;
  - orders the kept actions by short code;
  - builds the seed sequence. It uses the known names of the explicit start sequence, or the heuristic builder's sequence when none of those names is known;
  - builds the initial population from `population - 1` random individuals plus the seed;
  - logs the seed line, looks up the named genetic algorithm and runs its `setup`;
  - creates the session record and runs the first generation.
- `rungen` advances the session by one generation.
- `resume` extends the generation budget by the configured count once it is used up, clears the log and runs a generation.
- `finish` writes the final traces and posts the final report.

Every generation posts a progress report. The report re-simulates the hall-of-fame champion without conditions. It carries the conjunction of the five constraint checks (progress, durability, CP, tricks, reliability) and the champion's short codes.

The files are:

- `log_buffer.dfy`: the append-only log object, as a class.
- `actions.dfy`: the following parts:
  - the registry lookup loops and their specification functions;
  - the short-code comparator and an in-place insertion sort on an array;
  - the rendering of sequences as short codes and as joined names.
- `randomness.dfy`: `randomInt`, `randomChoice` and `randomSeq` over a stream of `Math.random()` draws, and the initial population.
- `reports.dfy`: the progress and final reports and the text `finish` writes.
- `solver.dfy`: the session record and the worker's message handler, as classes.
- `scenarios.dfy`: three client runs checked against the contracts alone:
  - five generations followed by a resume;
  - an unknown algorithm name;
  - an algorithm whose generation step writes the hall of fame and then throws.

The simulator (`MonteCarloSequence`, `MonteCarloSim`, `simSynth`, `heuristicSequenceBuilder`, `hqPercentFromQuality`) is not part of this model. It is a `Simulator` value of functions that the caller supplies. The genetic algorithm is an `Algorithm` value made of `setup` and `gen` functions. Both receive the `Toolbox` that `start` registers: the sorted crafter actions, the sequence length bound and the simulator. `setup` and `gen` may each throw. The population array and the hall of fame are shared with the algorithm, so each of them reports the population and the hall-of-fame entry it leaves behind, also when `gen` throws. `Math.random()` is a stream of draws. `Date.now()` is a parameter. `postMessage` is modelled as the list of reports a handler returns.

When the configured algorithm name is unknown, the code posts "No such algorithm" and then continues. The next statement calls `setup` on `undefined`, which throws inside the `try`, so a second error report "Solver setup failed" follows. `Solver.Worker.Start` states both reports.

## Model

| member | source | states |
|---|---|---|
| LogBuffer.LogOutput.constructor | app/js/solver/worker.js:45-46 | a new log object starts with an empty log |
| LogBuffer.LogOutput.Write | app/js/solver/worker.js:47-49 | `write` appends the message to the log and changes nothing else |
| LogBuffer.LogOutput.Clear | app/js/solver/worker.js:50-52 | `clear` empties the log |
| Actions.CodeLessIrreflexive | app/js/solver/worker.js:75-76 | no short code is less than itself under JavaScript string `<` |
| Actions.CodeLessTotal | app/js/solver/worker.js:75-77 | two distinct short codes are ordered one way or the other |
| Actions.CodeLessAsymmetric | app/js/solver/worker.js:75-76 | `a < b` excludes `b < a` |
| Actions.CodeLessTransitive | app/js/solver/worker.js:75-76 | string `<` is transitive |
| Actions.Compare | app/js/solver/worker.js:74-78 | the comparator returns -1, 0 or 1; it returns 0 exactly when the short codes are equal and a negative value exactly when the first code is less |
| Actions.CompareAntisymmetric | app/js/solver/worker.js:74-78 | swapping the arguments negates the comparator's result, so it is consistent for sorting |
| Actions.CompareTransitive | app/js/solver/worker.js:74-78 | if a1 ≤ a2 and a2 ≤ a3 under the comparator, then a1 ≤ a3 |
| Actions.SortedUnique | app/js/solver/worker.js:74-78 | when short codes identify actions, two lists sorted by the comparator with the same elements are equal, so the sort's result does not depend on the order of the request |
| Actions.SortedHeads | app/js/solver/worker.js:74-78 | two such sorted lists start with the same action |
| Actions.SameTails | app/js/solver/worker.js:74-78 | two lists with the same elements and the same first element have tails with the same elements |
| Actions.SortedTail | app/js/solver/worker.js:74-78 | the tail of a sorted list is sorted |
| Actions.Swap | app/js/solver/worker.js:74-78 | exchanges two slots of the array being sorted, leaves the rest alone and keeps its multiset |
| Actions.InsertAt | app/js/solver/worker.js:74-78 | inserting the next element into a sorted prefix leaves the prefix one longer, still sorted, and the array a permutation of what it was |
| Actions.SortByShortName | app/js/solver/worker.js:74-78 | the in-place sort leaves the array ordered by short code and a permutation of its old contents |
| Actions.SortedCopy | app/js/solver/worker.js:70-78 | the array built from the kept actions, once sorted, is ordered by short code and holds the same actions |
| Actions.PositionsExact | app/js/solver/worker.js:63-72 | the positions of known (or unknown) names are in range, increasing, of that kind, and complete |
| Actions.ResolvedAtPositions | app/js/solver/worker.js:63-72 | the k-th kept action is the registry entry of the k-th known name, so the kept actions follow the input order |
| Actions.UnsupportedAtPositions | app/js/solver/worker.js:63-72 | the k-th logged name is the k-th unknown name |
| Actions.ResolutionPartitions | app/js/solver/worker.js:63-72 | every requested name is either kept or logged, never both: the two counts add up to the input length |
| Actions.UnsupportedLogEmpty | app/js/solver/worker.js:66-68 | nothing is logged exactly when every requested name is known |
| Actions.ResolutionStep | app/js/solver/worker.js:63-72 | one loop step appends the action of a known name, or the unsupported-action line of an unknown one |
| Actions.ResolveCrafterActions | app/js/solver/worker.js:61-78 | the crafter loop writes the unsupported-action lines in order, never fails, and returns the kept actions sorted by short code and as a permutation of the kept list |
| Actions.ResolveSequence | app/js/solver/worker.js:94-102 | the start-sequence loop keeps exactly the known names' actions, in order, and drops the others silently |
| Actions.ShortNamesOf | app/js/solver/worker.js:298-304 | rendering succeeds exactly when every slot is defined; it then returns one short code per slot, position by position |
| Actions.ActionSequenceToShortNames | app/js/solver/worker.js:298-304 | the loop computes the rendering, stopping (throwing) at the first undefined slot |
| Actions.JoinNamesFront | app/js/solver/worker.js:109-115 | the joined names read from the front are the first name, " \| ", and the join of the rest, so the separator sits only between neighbours |
| Actions.WriteNames | app/js/solver/worker.js:109-115 | the heuristic-sequence loop appends the names joined by " \| " to the log |
| Randomness.RandomInt | app/js/solver/worker.js:281-283 | `randomInt(max)` lies in [0, max) for a positive bound, is 0 for a zero bound and lies in [max, 0] for a negative one |
| Randomness.RandomIntReachesEnds | app/js/solver/worker.js:281-283 | both ends of [0, max) are reached: the least draw gives 0 and the greatest gives max - 1 |
| Randomness.RandomChoice | app/js/solver/worker.js:285-287 | `randomChoice` yields an element of the list for a non-empty list and `undefined` for an empty one |
| Randomness.SeqLength | app/js/solver/worker.js:290-292 | the number of elements `randomSeq` draws is below a positive bound, and zero for a bound that is not positive |
| Randomness.RandomIndividual | app/js/solver/worker.js:289-296 | the individual drawn from a position of the stream is shorter than a positive bound, and each slot holds one of the items, or `undefined` when there are none |
| Randomness.RandomSeq | app/js/solver/worker.js:289-296 | the loop draws the length first and then one element per position, so it builds exactly the individual the draws determine, using 1 + length draws |
| Randomness.SeqMaxLength | app/js/solver/worker.js:128 | the length bound is at least 50 and at least the seed's length, and equals one of them |
| Randomness.RandomCount | app/js/solver/worker.js:146 | the number of random members is `population - 1`, or none when that is not positive |
| Randomness.InitialPopulationOf | app/js/solver/worker.js:146-148 | the initial population has one member more than the random ones, and the seed is the last |
| Randomness.DrawnPopulationShape | app/js/solver/worker.js:139-146 | every drawn member is shorter than a positive bound and holds only crafter actions, or only `undefined` when there are none |
| Randomness.InitialPopulationShape | app/js/solver/worker.js:139-148 | the initial population has the configured size (at least 1), the seed last, and well-drawn random members |
| Randomness.DrawStep | app/js/solver/worker.js:146 | drawing one individual moves it from the part of the population still to be drawn to the part already drawn |
| Randomness.InitialPopulation | app/js/solver/worker.js:139-148 | the loop builds exactly the population the draws determine: individual after individual, each from the draws after the previous one's, then the seed |
| Randomness.PopulationIgnoresRequestOrder | app/js/solver/worker.js:74-148 | given the draws, and when short codes identify actions, the population does not depend on the order of the requested actions, because they are sorted before any choice |
| Reports.Describe | app/js/solver/worker.js:266-275 | the report state's `feasible` is the conjunction of the five checks. Quality, durability, CP, progress, violations and condition are those of the simulated state, and the HQ and success percentages are the ones given |
| Reports.ProgressReport | app/js/solver/worker.js:256-279 | a progress report exists exactly when there is a champion with every slot defined. It carries the generation counters and its short codes. Its state is `Describe` of the champion's re-simulation without conditions, with that state's HQ percentage and no success percentage, so feasibility is the conjunction of the five checks. Otherwise the post throws |
| Reports.PostProgress | app/js/solver/worker.js:256-279 | `postProgress` computes that report |
| Reports.WriteTraces | app/js/solver/worker.js:215-233 | `finish` appends the trace, the Monte Carlo headings and text, the debug-only example, the final run's text and the elapsed-time line, in that order |
| Reports.FinalReport | app/js/solver/worker.js:235-253 | the final report exists exactly when the champion exists with every slot defined. It carries the whole log and the short codes. Its state is `Describe` of the deterministic end state, with its HQ percentage and the Monte Carlo success percentage, so feasibility is the conjunction |
| Solver.SeedSequence | app/js/solver/worker.js:94-105 | the seed is the known part of the explicit sequence, or the heuristic sequence when that part is empty |
| Solver.WriteHeuristic | app/js/solver/worker.js:105-125 | the heuristic branch logs its heading, the joined names, the run's text and the feasibility line |
| Solver.ResolveActionsAndSeed | app/js/solver/worker.js:61-126 | the first half of `start` logs the unsupported lines and then the heuristic text only when no given name is known. It returns the sorted crafter actions and the seed sequence |
| Solver.Session.constructor | app/js/solver/worker.js:180-192 | the session record starts at generation 0 with the configured generation budget, and holds the algorithm, its toolbox, and the population and hall-of-fame entry `setup` left |
| Solver.Session.RunOneGen | app/js/solver/worker.js:197-202 | one generation increments `gen` and keeps `maxGen`. If the algorithm's step (rates 0.5 and 0.2, the session's toolbox) succeeds, it replaces the population and the champion and the progress report follows. If the step throws, `gen` stays incremented, the population and champion are what the step left in the shared array and hall of fame, and the exception is reported without a log |
| Solver.Session.Finish | app/js/solver/worker.js:204-254 | `finish` writes its headings and traces (only the first heading when there is no champion) and posts the final report over the whole log |
| Solver.Worker.constructor | app/js/solver/worker.js:14 | a fresh worker has no session |
| Solver.Worker.Start | app/js/solver/worker.js:44-195 | `start` sets the random seed when one is given and sorts the known crafter actions by short code. It builds exactly the population the draws determine from the sorted actions and the seed, and leaves any previous session untouched. An unknown algorithm gives two error reports and a failing setup one, both with the log. On success the fresh session holds the start log, the toolbox, and the population and champion `setup` left, and its first generation runs from them as `RunOneGen` states |
| Solver.Worker.Prepare | app/js/solver/worker.js:61-154 | the first half of `start` writes the start log up to the seed line, builds the toolbox over the crafter actions sorted by short code, and builds exactly the population the draws determine |
| Solver.Worker.Launch | app/js/solver/worker.js:156-195 | the second half of `start`: the algorithm lookup, the guarded `setup` with the toolbox, the session record over the population and champion `setup` left, and the first generation |
| Solver.Worker.Resume | app/js/solver/worker.js:21-27 | `resume` adds the configured generations to `maxGen` if and only if `gen` has reached it, clears the log and runs one generation; without a session it reports the thrown error |
| Solver.Worker.RunGen | app/js/solver/worker.js:28-30 | `rungen` runs one generation under the same budget; without a session it reports the thrown error |
| Solver.Worker.Finish | app/js/solver/worker.js:31-33 | `finish` writes the final log and produces the final report, leaving the counters, population and champion as they were; without a session it reports the thrown error |
| Solver.Worker.OnMessage | app/js/solver/worker.js:16-42 | the handler promises, for each message, everything its branch promises: `start`'s three outcomes and population, `resume`'s budget rule, cleared log and generation, `rungen`'s generation, and `finish`'s log and report. An unknown message does nothing, and only `start` changes the random seed |

## Left out

- Simulator: `MonteCarloSequence`, `MonteCarloSim`, `simSynth`, `heuristicSequenceBuilder`, `checkViolations` and `hqPercentFromQuality` are outside this model. The worker sees them as the functions of a `Simulator` value. Building the `Crafter`, `Recipe` and `Synth` objects from the configuration is folded into that value.
- Genetic algorithm: yagal's `setup` and `gen` are outside this model. They are the functions of an `Algorithm` value. The size-1 hall of fame appears only as the champion those functions return, so no claim is made that it improves over generations.
- `Randomness.InitialPopulation`: assumes yagal's `initRepeat` draws an individual the way `randomSeq` does: one length draw from `randomInt(seqMaxLength)`, then one `randomChoice` per slot. `tools.js` is not part of this model.
- `Randomness.RandomInt`: uses exact rational arithmetic (draw × max / 2^53, floored). `Math.random() * max` is rounded to a double first, and for any bound the rounded product can floor one higher than the exact one. For example, with max = 3 and the draw (2^54 − 1)/3 over 2^53, the double product rounds to 2, while the model gives 1. The range [0, max) still holds for bounds below 2^53.
- `Randomness.Draw`: assumes the seeded generator that replaces `Math.random()` yields multiples of 2^-53 in [0, 1). `seededrandom.js` is not part of this model.
- `Solver.Worker.OnMessage`: assumes drawing random numbers does not change `Math.seed`. Line 55 of the worker reads `Math.seed` as the generator's current value, and whether draws advance it depends on `seededrandom.js`. The model keeps `mathSeed` fixed outside `start`.
- Random draws: how `seededrandom.js` derives draws from `Math.seed` is not modelled. Neither are the draws consumed by `setup`, `gen` and the simulator. `Start` states the population for whatever draws it is given.
- `Reports.Describe`: the percentage passed to `hqPercentFromQuality` is a floating-point division. It is folded into the simulator's `hqPercent` function.
- `Date.now()` is a parameter (`now`). The elapsed time is the difference of two such values.
- `console.error`, `importScripts` and `isFitnessInvalid` are not modelled, because they have no effect on the reports.
- `sprintf` is modelled only for the `%s` and `%d` arguments the worker uses.
- `Reports.TypeErrorText`: the text of a thrown `TypeError` belongs to the script engine. The model fixes one string for it.
- `Reports.ProgressReport`: assumes the simulator throws on an `undefined` champion. `Reports.FinalReport` assumes it throws as soon as `simSynth` reads the champion.
- `Solver.Session.Finish`: assumes the simulator accepts a champion with `undefined` slots. Such a champion arises when no crafter action is known. The model then writes the full traces, and only the short-code rendering throws afterwards.
- `Solver.Session.RunOneGen`: the toolbox's `evaluate` and random operators are represented by the `Toolbox` value (sorted actions, length bound, simulator). The draws `setup` and `gen` consume are not tied to the stream. What the algorithm does to the shared population array and hall of fame is seen only through the population and entry it reports; the individuals' own arrays are values here.
- `Actions.CodeLess`: compares characters. JavaScript compares UTF-16 code units, and the two orders agree for the ASCII short codes of the registry.
- `Actions.SortByShortName`: stability is not stated, and actions with equal short codes may come out in either order. JavaScript's `Array.prototype.sort` is stable in current engines.
- `Solver.Worker.Start`: a numeric `settings.seed` is an integer here. A fractional number would also be accepted by the source.
- `Solver.Worker.OnMessage`: an error report carries the exception's text, which for a missing session is the fixed `TypeErrorText`.
