/** Crafting actions: the registry lookup that validates requested names, the ordering
    by short code, and the rendering of sequences as names and short codes. */
module Actions {
  import opened Wrappers
  import opened LogBuffer

  /** One entry of the action registry: full display name and short code. */
  datatype Action = Action(name: string, shortName: string)

  /** The registry of known actions, keyed by the names a configuration uses. */
  type Registry = map<string, Action>

  /** One slot of an individual. `None` is JavaScript's `undefined`, which is what a
      random choice from an empty action list puts there. */
  type Gene = Option<Action>

  /** A candidate solution: an ordered sequence of actions. */
  type Individual = seq<Gene>

  // ---------------------------------------------------------------------------
  // Ordering by short code
  // ---------------------------------------------------------------------------

  /** JavaScript's `<` on strings: lexicographic by character, a proper prefix first. */
  predicate CodeLess(a: string, b: string)
  {
    if a == [] then b != []
    else if b == [] then false
    else if a[0] != b[0] then a[0] < b[0]
    else CodeLess(a[1..], b[1..])
  }

  lemma {:induction false} CodeLessIrreflexive(a: string)
    ensures !CodeLess(a, a)
  {
    if a != [] {
      CodeLessIrreflexive(a[1..]);
    }
  }

  lemma {:induction false} CodeLessTotal(a: string, b: string)
    ensures a == b || CodeLess(a, b) || CodeLess(b, a)
  {
    if a != [] && b != [] && a[0] == b[0] {
      CodeLessTotal(a[1..], b[1..]);
      assert a == [a[0]] + a[1..] && b == [b[0]] + b[1..];
    }
  }

  lemma {:induction false} CodeLessAsymmetric(a: string, b: string)
    requires CodeLess(a, b)
    ensures !CodeLess(b, a)
  {
    if a != [] && b != [] && a[0] == b[0] {
      CodeLessAsymmetric(a[1..], b[1..]);
    }
  }

  lemma {:induction false} CodeLessTransitive(a: string, b: string, c: string)
    requires CodeLess(a, b) && CodeLess(b, c)
    ensures CodeLess(a, c)
  {
    if a != [] && a[0] == b[0] && b[0] == c[0] {
      CodeLessTransitive(a[1..], b[1..], c[1..]);
    }
  }

  /** The comparator handed to `sort`: -1, 1 or 0 as the first short code sorts before,
      after, or equal to the second. */
  function Compare(a1: Action, a2: Action): (r: int)
    ensures -1 <= r <= 1
    ensures r == 0 <==> a1.shortName == a2.shortName
    ensures r < 0 <==> CodeLess(a1.shortName, a2.shortName)
  {
    CodeLessTotal(a1.shortName, a2.shortName);
    CodeLessIrreflexive(a1.shortName);
    if CodeLess(a1.shortName, a2.shortName) then -1
    else if CodeLess(a2.shortName, a1.shortName) then 1
    else 0
  }

  /** The comparator is antisymmetric, as `sort` requires of it. */
  lemma CompareAntisymmetric(a1: Action, a2: Action)
    ensures Compare(a1, a2) == -Compare(a2, a1)
  {
    if CodeLess(a1.shortName, a2.shortName) {
      CodeLessAsymmetric(a1.shortName, a2.shortName);
    }
  }

  /** "Sorts no later than" is transitive, as `sort` requires of its comparator. */
  lemma CompareTransitive(a1: Action, a2: Action, a3: Action)
    requires Compare(a1, a2) <= 0 && Compare(a2, a3) <= 0
    ensures Compare(a1, a3) <= 0
  {
    if Compare(a1, a2) < 0 && Compare(a2, a3) < 0 {
      CodeLessTransitive(a1.shortName, a2.shortName, a3.shortName);
    }
  }

  /** Every pair of positions is in comparator order. */
  predicate SortedByShortName(s: seq<Action>)
  {
    forall i, j :: 0 <= i < j < |s| ==> Compare(s[i], s[j]) <= 0
  }

  /** Actions with the same short code are the same action. */
  predicate CodesIdentify(s: seq<Action>)
  {
    forall i, j :: 0 <= i < |s| && 0 <= j < |s| && s[i].shortName == s[j].shortName ==> s[i] == s[j]
  }

  /** Sorting by short code leaves no choice when short codes identify actions: two sorted
      lists with the same elements are equal, whatever order they were built in. */
  lemma {:induction false} SortedUnique(a: seq<Action>, b: seq<Action>)
    requires SortedByShortName(a) && SortedByShortName(b)
    requires multiset(a) == multiset(b)
    requires CodesIdentify(a)
    ensures a == b
    decreases |a|
  {
    assert |a| == |multiset(a)| == |multiset(b)| == |b|;
    if a != [] {
      SortedHeads(a, b);
      SameTails(a, b);
      SortedTail(a);
      SortedTail(b);
      SortedUnique(a[1..], b[1..]);
    }
  }

  /** Two sorted lists with the same elements start with the same action when short codes
      identify actions. */
  lemma SortedHeads(a: seq<Action>, b: seq<Action>)
    requires SortedByShortName(a) && SortedByShortName(b)
    requires multiset(a) == multiset(b) && |a| > 0
    requires CodesIdentify(a)
    ensures |b| > 0 && a[0] == b[0]
  {
    assert a[0] in multiset(b) && b[0] in multiset(a);
    var i :| 0 <= i < |a| && a[i] == b[0];
    var j :| 0 <= j < |b| && b[j] == a[0];
    assert Compare(a[0], b[0]) <= 0 by {
      if i > 0 {
        assert Compare(a[0], a[i]) <= 0;
      }
    }
    assert Compare(b[0], a[0]) <= 0 by {
      if j > 0 {
        assert Compare(b[0], b[j]) <= 0;
      }
    }
    CompareAntisymmetric(a[0], b[0]);
  }

  /** Two lists with the same elements and the same first element have tails with the same
      elements. */
  lemma SameTails(a: seq<Action>, b: seq<Action>)
    requires multiset(a) == multiset(b) && |a| > 0 && |b| > 0 && a[0] == b[0]
    ensures multiset(a[1..]) == multiset(b[1..])
  {
    assert a == [a[0]] + a[1..] && b == [b[0]] + b[1..];
    assert multiset(a) == multiset([a[0]]) + multiset(a[1..]);
    assert multiset(b) == multiset([b[0]]) + multiset(b[1..]);
    assert multiset(a[1..]) == multiset(a) - multiset([a[0]]);
    assert multiset(b[1..]) == multiset(b) - multiset([b[0]]);
  }

  /** The tail of a sorted list is sorted, and short codes still identify its actions. */
  lemma SortedTail(a: seq<Action>)
    requires SortedByShortName(a) && |a| > 0
    ensures SortedByShortName(a[1..])
    ensures CodesIdentify(a) ==> CodesIdentify(a[1..])
  {
    forall p, q | 0 <= p < q < |a| - 1
      ensures Compare(a[1..][p], a[1..][q]) <= 0
    {
      assert a[1..][p] == a[p + 1] && a[1..][q] == a[q + 1];
    }
  }

  /** Exchanges two elements of the array. */
  method Swap(a: array<Action>, i: int, j: int)
    requires 0 <= i < a.Length && 0 <= j < a.Length
    modifies a
    ensures a[i] == old(a[j]) && a[j] == old(a[i])
    ensures forall m :: 0 <= m < a.Length && m != i && m != j ==> a[m] == old(a[m])
    ensures multiset(a[..]) == multiset(old(a[..]))
  {
    a[i], a[j] := a[j], a[i];
  }

  /** One pass of insertion: moves `a[i]` down into the sorted prefix `a[..i]`. */
  method InsertAt(a: array<Action>, i: int)
    requires 0 <= i < a.Length
    requires forall p, q :: 0 <= p < q < i ==> Compare(a[p], a[q]) <= 0
    modifies a
    ensures forall p, q :: 0 <= p < q <= i ==> Compare(a[p], a[q]) <= 0
    ensures forall m :: i < m < a.Length ==> a[m] == old(a[m])
    ensures multiset(a[..]) == multiset(old(a[..]))
  {
    var j := i;
    while j > 0 && Compare(a[j - 1], a[j]) > 0
      invariant 0 <= j <= i
      invariant forall p, q :: 0 <= p < q <= i && p != j && q != j ==> Compare(a[p], a[q]) <= 0
      invariant forall q :: j < q <= i ==> Compare(a[j], a[q]) < 0
      invariant forall m :: i < m < a.Length ==> a[m] == old(a[m])
      invariant multiset(a[..]) == multiset(old(a[..]))
    {
      CompareAntisymmetric(a[j - 1], a[j]);
      Swap(a, j - 1, j);
      j := j - 1;
    }
    forall p, q | 0 <= p < q <= i
      ensures Compare(a[p], a[q]) <= 0
    {
      if q == j && p < j - 1 {
        CompareTransitive(a[p], a[j - 1], a[j]);
      }
    }
  }

  /** `crafterActions.sort(...)`: sorts the array in place by short code. */
  method SortByShortName(a: array<Action>)
    modifies a
    ensures SortedByShortName(a[..])
    ensures multiset(a[..]) == multiset(old(a[..]))
  {
    var i := 0;
    while i < a.Length
      invariant 0 <= i <= a.Length
      invariant forall p, q :: 0 <= p < q < i ==> Compare(a[p], a[q]) <= 0
      invariant multiset(a[..]) == multiset(old(a[..]))
    {
      InsertAt(a, i);
      i := i + 1;
    }
  }

  // ---------------------------------------------------------------------------
  // Resolving names against the registry
  // ---------------------------------------------------------------------------

  /** The registry entries of the requested names that the registry knows, in request
      order, duplicates kept. */
  function Resolved(names: seq<string>, registry: Registry): seq<Action>
  {
    if names == [] then []
    else
      var n := names[|names| - 1];
      Resolved(names[..|names| - 1], registry) + (if n in registry then [registry[n]] else [])
  }

  /** The requested names that the registry does not know, in request order. */
  function Unsupported(names: seq<string>, registry: Registry): seq<string>
  {
    if names == [] then []
    else
      var n := names[|names| - 1];
      Unsupported(names[..|names| - 1], registry) + (if n in registry then [] else [n])
  }

  /** The positions of `names` whose name is (`known`) or is not (`!known`) in the registry,
      in increasing order. */
  function Positions(names: seq<string>, registry: Registry, known: bool): seq<nat>
  {
    if names == [] then []
    else
      var n := names[|names| - 1];
      Positions(names[..|names| - 1], registry, known) + (if (n in registry) == known then [|names| - 1] else [])
  }

  /** The positions are in range, carry the asked-for property, increase strictly, and
      miss no position that has it. */
  lemma {:induction false} PositionsExact(names: seq<string>, registry: Registry, known: bool)
    ensures var ps := Positions(names, registry, known);
      (forall k :: 0 <= k < |ps| ==> ps[k] < |names| && (names[ps[k]] in registry) == known) &&
      (forall k, l :: 0 <= k < l < |ps| ==> ps[k] < ps[l]) &&
      (forall i :: 0 <= i < |names| && (names[i] in registry) == known ==> i in ps)
  {
    if names != [] {
      var init := names[..|names| - 1];
      PositionsExact(init, registry, known);
      assert forall i :: 0 <= i < |init| ==> names[i] == init[i];
    }
  }

  /** Each known position contributes its registry entry, in order. */
  lemma {:induction false} ResolvedAtPositions(names: seq<string>, registry: Registry)
    ensures var ps := Positions(names, registry, true);
      |Resolved(names, registry)| == |ps| &&
      forall k :: 0 <= k < |ps| ==> (ps[k] < |names| && names[ps[k]] in registry &&
        Resolved(names, registry)[k] == registry[names[ps[k]]])
  {
    if names != [] {
      var init := names[..|names| - 1];
      ResolvedAtPositions(init, registry);
      assert forall i :: 0 <= i < |init| ==> names[i] == init[i];
    }
  }

  /** Each unknown position contributes its name, in order. */
  lemma {:induction false} UnsupportedAtPositions(names: seq<string>, registry: Registry)
    ensures var ps := Positions(names, registry, false);
      |Unsupported(names, registry)| == |ps| &&
      forall k :: 0 <= k < |ps| ==> (ps[k] < |names| && names[ps[k]] !in registry &&
        Unsupported(names, registry)[k] == names[ps[k]])
  {
    if names != [] {
      var init := names[..|names| - 1];
      UnsupportedAtPositions(init, registry);
      assert forall i :: 0 <= i < |init| ==> names[i] == init[i];
    }
  }

  /** Every requested name is either resolved or reported, never both. */
  lemma {:induction false} ResolutionPartitions(names: seq<string>, registry: Registry)
    ensures |Resolved(names, registry)| + |Unsupported(names, registry)| == |names|
  {
    if names != [] {
      ResolutionPartitions(names[..|names| - 1], registry);
    }
  }

  /** The log line written for one unsupported name. */
  function UnsupportedLine(name: string): string
  {
    "Error: Action is unsupported: " + name + "\n"
  }

  /** One log line per name, in order. */
  function Lines(unknown: seq<string>): string
  {
    if unknown == [] then ""
    else Lines(unknown[..|unknown| - 1]) + UnsupportedLine(unknown[|unknown| - 1])
  }

  /** The log text crafter-action resolution writes: one line per unknown name. */
  function UnsupportedLog(names: seq<string>, registry: Registry): string
  {
    Lines(Unsupported(names, registry))
  }

  /** The log stays empty exactly when every requested name is known. */
  lemma {:induction false} UnsupportedLogEmpty(names: seq<string>, registry: Registry)
    ensures UnsupportedLog(names, registry) == "" <==> forall i :: 0 <= i < |names| ==> names[i] in registry
  {
    if names != [] {
      var init := names[..|names| - 1];
      UnsupportedLogEmpty(init, registry);
      assert forall i :: 0 <= i < |init| ==> names[i] == init[i];
      var u := Unsupported(names, registry);
      if names[|names| - 1] !in registry {
        assert u[..|u| - 1] == Unsupported(init, registry);
        assert |UnsupportedLog(names, registry)| >= |UnsupportedLine(names[|names| - 1])| > 0;
      }
    }
  }

  /** Resolving one more name adds at most one action or one log line. */
  lemma ResolutionStep(names: seq<string>, i: nat, registry: Registry)
    requires i < |names|
    ensures Resolved(names[..i + 1], registry) ==
      Resolved(names[..i], registry) + (if names[i] in registry then [registry[names[i]]] else [])
    ensures UnsupportedLog(names[..i + 1], registry) ==
      UnsupportedLog(names[..i], registry) + (if names[i] in registry then "" else UnsupportedLine(names[i]))
  {
    var n := names[i];
    assert names[..i + 1][..i] == names[..i];
    var u := Unsupported(names[..i + 1], registry);
    if n in registry {
      assert u == Unsupported(names[..i], registry);
    } else {
      assert u == Unsupported(names[..i], registry) + [n];
      assert u[..|u| - 1] == Unsupported(names[..i], registry);
    }
  }

  /** The crafter-action loop and the sort that follows it: keeps the known names' actions,
      writes one unsupported-action line per unknown name, never fails, and returns the
      kept actions ordered by short code. */
  method ResolveCrafterActions(names: seq<string>, registry: Registry, logOutput: LogOutput)
    returns (crafterActions: seq<Action>)
    modifies logOutput
    ensures logOutput.log == old(logOutput.log) + UnsupportedLog(names, registry)
    ensures SortedByShortName(crafterActions)
    ensures multiset(crafterActions) == multiset(Resolved(names, registry))
  {
    var found: seq<Action> := [];
    var i := 0;
    while i < |names|
      invariant 0 <= i <= |names|
      invariant found == Resolved(names[..i], registry)
      invariant logOutput.log == old(logOutput.log) + UnsupportedLog(names[..i], registry)
    {
      var actionName := names[i];
      ResolutionStep(names, i, registry);
      if actionName !in registry {
        logOutput.Write(UnsupportedLine(actionName));
      } else {
        found := found + [registry[actionName]];
      }
      i := i + 1;
    }
    assert names[..i] == names;
    crafterActions := SortedCopy(found);
  }

  /** The list pushed into a JavaScript array and sorted there in place. */
  method SortedCopy(found: seq<Action>) returns (sorted: seq<Action>)
    ensures SortedByShortName(sorted)
    ensures multiset(sorted) == multiset(found)
  {
    var arr := new Action[|found|](k requires 0 <= k < |found| => found[k]);
    assert arr[..] == found;
    SortByShortName(arr);
    sorted := arr[..];
  }

  /** The explicit start-sequence loop: keeps the known names' actions in order and drops
      the unknown ones without a word. */
  method ResolveSequence(names: seq<string>, registry: Registry) returns (sequence: seq<Action>)
    ensures sequence == Resolved(names, registry)
  {
    sequence := [];
    var j := 0;
    while j < |names|
      invariant 0 <= j <= |names|
      invariant sequence == Resolved(names[..j], registry)
    {
      assert names[..j + 1][..j] == names[..j];
      var actionName := names[j];
      if actionName in registry {
        sequence := sequence + [registry[actionName]];
      }
      j := j + 1;
    }
    assert names[..j] == names;
  }

  // ---------------------------------------------------------------------------
  // Rendering sequences
  // ---------------------------------------------------------------------------

  /** The short codes of a sequence, or `None` when a slot is `undefined` (reading its
      `shortName` throws). */
  function ShortNamesOf(sequence: Individual): (r: Option<seq<string>>)
    ensures r.Some? <==> forall k :: 0 <= k < |sequence| ==> sequence[k].Some?
    ensures r.Some? ==> (|r.value| == |sequence| &&
      forall k :: 0 <= k < |sequence| ==> r.value[k] == sequence[k].value.shortName)
  {
    if sequence == [] then Some([])
    else
      var init := sequence[..|sequence| - 1];
      assert forall k :: 0 <= k < |init| ==> init[k] == sequence[k];
      match ShortNamesOf(init)
      case None => None
      case Some(names) =>
        match sequence[|sequence| - 1]
        case None => None
        case Some(a) => Some(names + [a.shortName])
  }

  /** `actionSequenceToShortNames`: renders a sequence position by position. */
  method ActionSequenceToShortNames(sequence: Individual) returns (r: Option<seq<string>>)
    ensures r == ShortNamesOf(sequence)
  {
    var nameSequence: seq<string> := [];
    var k := 0;
    while k < |sequence|
      invariant 0 <= k <= |sequence|
      invariant ShortNamesOf(sequence[..k]) == Some(nameSequence)
    {
      assert sequence[..k + 1][..k] == sequence[..k];
      match sequence[k]
      case None =>
        // reading `shortName` of undefined throws
        return None;
      case Some(a) =>
        nameSequence := nameSequence + [a.shortName];
      k := k + 1;
    }
    assert sequence[..k] == sequence;
    r := Some(nameSequence);
  }

  /** The full names of a sequence separated by " | ". */
  function JoinNames(s: seq<Action>): string
  {
    if s == [] then ""
    else if |s| == 1 then s[0].name
    else JoinNames(s[..|s| - 1]) + " | " + s[|s| - 1].name
  }

  /** The separator sits between every two neighbours: read from the front, the join is the
      first name, then " | " and the join of the rest. */
  lemma {:induction false} JoinNamesFront(s: seq<Action>)
    requires |s| >= 2
    ensures JoinNames(s) == s[0].name + " | " + JoinNames(s[1..])
  {
    if |s| > 2 {
      JoinNamesFront(s[..|s| - 1]);
      assert s[..|s| - 1][1..] == s[1..][..|s[1..]| - 1];
    }
  }

  /** The heuristic-sequence loop: writes each full name, with " | " between neighbours. */
  method WriteNames(logOutput: LogOutput, sequence: seq<Action>)
    modifies logOutput
    ensures logOutput.log == old(logOutput.log) + JoinNames(sequence)
  {
    var i := 0;
    while i < |sequence|
      invariant 0 <= i <= |sequence|
      invariant logOutput.log == old(logOutput.log) + JoinNames(sequence[..i]) +
        (if 0 < i < |sequence| then " | " else "")
    {
      assert sequence[..i + 1][..i] == sequence[..i];
      var action := sequence[i];
      logOutput.Write(action.name);
      if i < |sequence| - 1 {
        logOutput.Write(" | ");
      }
      i := i + 1;
    }
    assert sequence[..i] == sequence;
  }
}
