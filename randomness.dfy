/** The random helpers of the worker and the initial population they build. `Math.random()`
    is an input oracle: a stream of draws, each draw k standing for the number k / 2^53. */
module Randomness {
  import opened Wrappers
  import opened Actions

  /** The draw resolution. The generator behind `Math.random()` (a seeded one, loaded with
      the worker) is assumed to yield multiples of 2^-53 in [0, 1). */
  const Resolution: nat := 0x20_0000_0000_0000

  /** One result of `Math.random()`, as its numerator over `Resolution` (an assumption about
      the seeded generator, which is not part of this model). */
  type Draw = k: nat | k < Resolution

  /** The successive results of `Math.random()`. */
  type Stream = nat -> Draw

  lemma MulMonotone(a: int, b: int, d: nat)
    requires a <= b
    ensures a * d <= b * d
  {
    var k: nat := b - a;
    assert b * d == a * d + k * d;
  }

  lemma DivisionBounds(n: int, d: nat, lo: int, hi: int)
    requires 0 < d && lo * d <= n < hi * d
    ensures lo <= n / d < hi
  {
    var q, r := n / d, n % d;
    assert n == q * d + r && 0 <= r < d;
    if q < lo {
      MulMonotone(q, lo - 1, d);
    }
    if q >= hi {
      MulMonotone(hi, q, d);
    }
  }

  lemma ScaledDrawBounds(max: int, u: Draw)
    ensures 0 < max ==> 0 <= u * max / Resolution < max
    ensures max == 0 ==> u * max / Resolution == 0
    ensures max < 0 ==> max <= u * max / Resolution <= 0
  {
    if 0 < max {
      MulMonotone(0, u, max);
      MulMonotone(u, Resolution - 1, max);
      assert (Resolution - 1) * max == Resolution * max - max;
      DivisionBounds(u * max, Resolution, 0, max);
    } else if max < 0 {
      var d := -max;
      MulMonotone(0, u, d);
      MulMonotone(u, Resolution - 1, d);
      assert u * max == -(u * d);
      assert (Resolution - 1) * d == Resolution * d - d;
      DivisionBounds(u * max, Resolution, max, 1);
    }
  }

  /** `randomInt(max)`: `Math.floor(Math.random() * max)`, in [0, max) for a positive
      bound; a zero bound gives 0 and a negative one a value in [max, 0]. */
  function RandomInt(max: int, u: Draw): (r: int)
    ensures 0 < max ==> 0 <= r < max
    ensures max == 0 ==> r == 0
    ensures max < 0 ==> max <= r <= 0
  {
    ScaledDrawBounds(max, u);
    u * max / Resolution
  }

  /** Both ends of the range are reached: the smallest draw gives 0 and the largest gives
      `max - 1`. */
  lemma RandomIntReachesEnds(max: int)
    requires 0 < max <= Resolution
    ensures RandomInt(max, 0) == 0
    ensures RandomInt(max, Resolution - 1) == max - 1
  {
    var n := (Resolution - 1) * max;
    assert n == (max - 1) * Resolution + (Resolution - max);
    DivisionBounds(n, Resolution, max - 1, max);
  }

  /** `randomChoice(items)`: `items[randomInt(items.length)]`, which is `undefined` for an
      empty list. */
  function RandomChoice<T(==)>(items: seq<T>, u: Draw): (r: Option<T>)
    ensures r.Some? <==> |items| > 0
    ensures r.Some? ==> r.value in items
  {
    var i := RandomInt(|items|, u);
    if i < |items| then Some(items[i]) else None
  }

  /** The length `randomSeq` draws for a bound `maxLen`: `randomInt(maxLen)`, read as no
      elements when it is negative. */
  function SeqLength(maxLen: int, u: Draw): (r: nat)
    ensures 0 < maxLen ==> r < maxLen
    ensures maxLen <= 0 ==> r == 0
  {
    var len := RandomInt(maxLen, u);
    if len < 0 then 0 else len
  }

  /** The individual the draws from position `at` on make: a length from the first draw,
      then one random choice from `items` per position, each from the next draw. */
  function RandomIndividual(maxLen: int, items: seq<Action>, draws: Stream, at: nat): (r: Individual)
    ensures 0 < maxLen ==> |r| < maxLen
    ensures forall k :: 0 <= k < |r| ==> (r[k].Some? <==> |items| > 0)
    ensures forall k :: 0 <= k < |r| ==> r[k].Some? ==> r[k].value in items
  {
    var len := SeqLength(maxLen, draws(at));
    var r := seq(len, k requires 0 <= k < len => RandomChoice(items, draws(at + 1 + k)));
    assert forall k :: 0 <= k < len ==> r[k] == RandomChoice(items, draws(at + 1 + k));
    r
  }

  /** `randomSeq(maxLen, randomChoice over items)`: consumes one draw for the length and one
      per element. */
  method RandomSeq(maxLen: int, items: seq<Action>, draws: Stream, at: nat)
    returns (s: Individual, next: nat)
    ensures s == RandomIndividual(maxLen, items, draws, at)
    ensures next == at + 1 + |s|
  {
    var len := RandomInt(maxLen, draws(at));
    s := [];
    var i := 0;
    while i < len
      invariant 0 <= i && |s| == i
      invariant if len >= 0 then i <= len else i == 0
      invariant forall k :: 0 <= k < i ==> s[k] == RandomChoice(items, draws(at + 1 + k))
    {
      s := s + [RandomChoice(items, draws(at + 1 + i))];
      i := i + 1;
    }
    next := at + 1 + |s|;
  }

  /** `seqMaxLength`: `Math.max(50, sequence.length)`. */
  function SeqMaxLength(seedLength: nat): (r: nat)
    ensures 50 <= r && seedLength <= r
    ensures r == 50 || r == seedLength
  {
    if 50 < seedLength then seedLength else 50
  }

  /** The seed as an individual: every slot defined. */
  function Defined(sequence: seq<Action>): (r: Individual)
    ensures |r| == |sequence|
    ensures forall k :: 0 <= k < |r| ==> r[k] == Some(sequence[k])
  {
    seq(|sequence|, k requires 0 <= k < |sequence| => Some(sequence[k]))
  }

  /** `count` random individuals drawn one after another, the first from position `at` of
      the draws and each next one from the draw after the previous one's last. */
  function DrawnPopulation(count: nat, maxLen: int, items: seq<Action>, draws: Stream, at: nat)
    : (r: seq<Individual>)
    ensures |r| == count
    decreases count
  {
    if count == 0 then []
    else
      var first := RandomIndividual(maxLen, items, draws, at);
      [first] + DrawnPopulation(count - 1, maxLen, items, draws, at + 1 + |first|)
  }

  /** An individual as the random builder makes it: shorter than a positive bound, and
      holding only elements of `items`, or only `undefined` when `items` is empty. */
  predicate WellDrawn(individual: Individual, maxLen: int, items: seq<Action>)
  {
    (0 < maxLen ==> |individual| < maxLen) &&
    forall k :: 0 <= k < |individual| ==>
      (individual[k].Some? <==> |items| > 0) && (individual[k].Some? ==> individual[k].value in items)
  }

  /** Every drawn member is well drawn. */
  lemma {:induction false} DrawnPopulationShape(count: nat, maxLen: int, items: seq<Action>, draws: Stream, at: nat)
    ensures forall i :: 0 <= i < count ==> WellDrawn(DrawnPopulation(count, maxLen, items, draws, at)[i], maxLen, items)
    decreases count
  {
    if count > 0 {
      var first := RandomIndividual(maxLen, items, draws, at);
      var rest := DrawnPopulation(count - 1, maxLen, items, draws, at + 1 + |first|);
      DrawnPopulationShape(count - 1, maxLen, items, draws, at + 1 + |first|);
      var r := DrawnPopulation(count, maxLen, items, draws, at);
      assert r == [first] + rest;
      forall i | 0 <= i < count
        ensures WellDrawn(r[i], maxLen, items)
      {
        if i > 0 {
          assert r[i] == rest[i - 1];
        }
      }
    }
  }

  /** How many random individuals a configured population size asks for:
      `population - 1`, or none when that is not positive. */
  function RandomCount(population: int): (r: nat)
    ensures population > 1 ==> r == population - 1
    ensures population <= 1 ==> r == 0
  {
    if population > 1 then population - 1 else 0
  }

  /** The initial population as the worker assembles it: the drawn individuals, then the
      seed, unchanged, as the last member. */
  function InitialPopulationOf(population: int, maxLen: int, actions: seq<Action>, seed: seq<Action>,
                               draws: Stream, at: nat): (r: seq<Individual>)
    ensures |r| == RandomCount(population) + 1
    ensures r[|r| - 1] == Defined(seed)
  {
    DrawnPopulation(RandomCount(population), maxLen, actions, draws, at) + [Defined(seed)]
  }

  /** What the population promises whatever the draws: `population - 1` well-drawn random
      members (none when that is not positive), then the seed as the last member. */
  predicate IsInitialPopulation(pop: seq<Individual>, population: int, maxLen: int,
                                actions: seq<Action>, seed: seq<Action>)
  {
    |pop| == (if population > 1 then population else 1) &&
    pop[|pop| - 1] == Defined(seed) &&
    forall i :: 0 <= i < |pop| - 1 ==> WellDrawn(pop[i], maxLen, actions)
  }

  /** The drawn initial population has that shape. */
  lemma InitialPopulationShape(population: int, maxLen: int, actions: seq<Action>, seed: seq<Action>,
                               draws: Stream, at: nat)
    ensures IsInitialPopulation(InitialPopulationOf(population, maxLen, actions, seed, draws, at),
                                population, maxLen, actions, seed)
  {
    var drawn := DrawnPopulation(RandomCount(population), maxLen, actions, draws, at);
    DrawnPopulationShape(RandomCount(population), maxLen, actions, draws, at);
    var pop := InitialPopulationOf(population, maxLen, actions, seed, draws, at);
    assert pop == drawn + [Defined(seed)];
    assert forall i :: 0 <= i < |pop| - 1 ==> pop[i] == drawn[i];
  }

  /** `toolbox.population(population - 1)` followed by `pop.push(iniGuess)`. */
  method InitialPopulation(population: int, maxLen: int, actions: seq<Action>, seed: seq<Action>,
                           draws: Stream, at: nat)
    returns (pop: seq<Individual>)
    ensures pop == InitialPopulationOf(population, maxLen, actions, seed, draws, at)
  {
    var count := RandomCount(population);
    pop := [];
    var next: nat := at;
    var i := 0;
    while i < count
      invariant 0 <= i <= count && |pop| == i
      invariant pop + DrawnPopulation(count - i, maxLen, actions, draws, next) ==
                DrawnPopulation(count, maxLen, actions, draws, at)
    {
      var individual;
      ghost var before := pop;
      ghost var from := next;
      individual, next := RandomSeq(maxLen, actions, draws, next);
      pop := pop + [individual];
      DrawStep(before, count - i, maxLen, actions, draws, from);
      i := i + 1;
    }
    assert pop == DrawnPopulation(count, maxLen, actions, draws, at);
    pop := pop + [Defined(seed)];
  }

  /** Drawing one more individual moves it from the population still to be drawn to the
      population drawn so far. */
  lemma DrawStep(drawn: seq<Individual>, count: nat, maxLen: int, items: seq<Action>, draws: Stream, at: nat)
    requires count > 0
    ensures var first := RandomIndividual(maxLen, items, draws, at);
      drawn + DrawnPopulation(count, maxLen, items, draws, at) ==
      (drawn + [first]) + DrawnPopulation(count - 1, maxLen, items, draws, at + 1 + |first|)
  {
    var first := RandomIndividual(maxLen, items, draws, at);
    var rest := DrawnPopulation(count - 1, maxLen, items, draws, at + 1 + |first|);
    assert DrawnPopulation(count, maxLen, items, draws, at) == [first] + rest;
    assert drawn + ([first] + rest) == (drawn + [first]) + rest;
  }

  /** Given the draws, the drawn population depends only on which crafter actions there are,
      not on the order they were requested in: the actions are sorted first, and sorting by
      short code leaves no choice when short codes identify actions. */
  lemma PopulationIgnoresRequestOrder(population: int, maxLen: int, actions: seq<Action>, others: seq<Action>,
                                      seed: seq<Action>, draws: Stream, at: nat)
    requires SortedByShortName(actions) && SortedByShortName(others)
    requires multiset(actions) == multiset(others)
    requires CodesIdentify(actions)
    ensures InitialPopulationOf(population, maxLen, actions, seed, draws, at) ==
            InitialPopulationOf(population, maxLen, others, seed, draws, at)
  {
    SortedUnique(actions, others);
  }
}
