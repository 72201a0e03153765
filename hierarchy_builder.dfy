/**
 * The hierarchy builders of breakItUp.py: offsetHierarchyFromTS,
 * offsetsFromTSAndLevels (its own, non-music21 branch),
 * offsetListFromPulseLengths, and the choice of hierarchy source made by
 * ReGrouper's constructor.
 *
 * Each builder is a specification function plus a method that runs the
 * source's loops and is proved to return what the function describes.
 */
module HierarchyBuilder {
  import opened Wrappers
  import opened Metre
  import opened OneLevel

  /** The exceptions the builders raise. */
  datatype Error =
    | MalformedSignature          // a numerator group int() cannot read (no group at all)
    | InvalidDenominator          // denominator not in SupportedDenominators
    | InvalidMinimumPulse         // minimumPulse not in SupportedDenominators
    | NoLevels                    // max() of an empty level list
    | LevelTooDeep                // a requested level above MaxLevelDepth
    | LevelOutOfRange             // a requested level the full hierarchy does not have (IndexError)
    | NoPulseLengths              // first element of an empty pulse list (IndexError)
    | PulseLongerThanMeasure      // the longest pulse exceeds a supplied measure length
    | RatioNot2Or3                // neighbouring pulses not in a 2:1 or 3:1 ratio
    | LevelsWithoutTimeSignature  // levels given with no time signature
    | NoTimeSignature             // no source at all: the time signature is None
    | NoHierarchy                 // the chosen hierarchy is empty

  /** A time signature 'a+b+.../d', read into its numerator groups and its denominator. */
  datatype TimeSignature = TimeSignature(numerators: seq<nat>, denominator: int)

  /** A beat grouping: one row of groups, or several rows (one hidden level each). */
  datatype Grouping = Flat(beats: seq<nat>) | Layered(rows: seq<seq<nat>>)

  /** Default groupings substituted for plain 'round' numerators (hiddenLayerMappings). */
  const HiddenLayerMappings: seq<(seq<nat>, Grouping)> := [
    ([4], Flat([2, 2])),
    ([6], Flat([3, 3])),
    ([9], Flat([3, 3, 3])),
    ([12], Layered([[6, 6], [3, 3, 3, 3]])),
    ([15], Flat([3, 3, 3, 3, 3])),
    ([6, 9], Layered([[6, 9], [3, 3, 3, 3, 3]])),
    ([9, 6], Layered([[6, 6], [3, 3, 3, 3, 3]]))
  ]

  /** The rewrite loop: in table order, a row whose key equals the current grouping replaces it. */
  function ApplyMappings(g: Grouping, table: seq<(seq<nat>, Grouping)>): Grouping
    decreases |table|
  {
    if |table| == 0 then g
    else ApplyMappings(if g == Flat(table[0].0) then table[0].1 else g, table[1..])
  }

  /** The grouping used for the numerators: the rewrite loop run over the whole table. */
  function Regroup(numerators: seq<nat>): Grouping
  {
    ApplyMappings(Flat(numerators), HiddenLayerMappings)
  }

  /** Running the table in order comes to a single lookup: no replacement is itself a later key. */
  lemma RegroupIsLookup(numerators: seq<nat>)
    ensures Regroup(numerators) ==
      (if numerators == [4] then Flat([2, 2])
       else if numerators == [6] then Flat([3, 3])
       else if numerators == [9] then Flat([3, 3, 3])
       else if numerators == [12] then Layered([[6, 6], [3, 3, 3, 3]])
       else if numerators == [15] then Flat([3, 3, 3, 3, 3])
       else if numerators == [6, 9] then Layered([[6, 9], [3, 3, 3, 3, 3]])
       else if numerators == [9, 6] then Layered([[6, 6], [3, 3, 3, 3, 3]])
       else Flat(numerators))
  {
  }

  /** The rows that become hidden levels: only when there is more than one group. */
  function HiddenRows(g: Grouping): seq<seq<nat>>
  {
    match g
    case Flat(beats) => if |beats| > 1 then [beats] else []
    case Layered(rows) => if |rows| > 1 then rows else []
  }

  /**
   * Beats in the measure: the sum of the groups, or of the first row when
   * layered (the table's layered groupings all have two rows).
   */
  function GroupingBeats(g: Grouping): nat
  {
    match g
    case Flat(beats) => Sum(beats)
    case Layered(rows) => if |rows| == 0 then 0 else Sum(rows[0])
  }

  function HiddenLevels(rows: seq<seq<nat>>, unit: int): (h: Hierarchy)
    ensures |h| == |rows|
    ensures forall i :: 0 <= i < |rows| ==> h[i] == BeatOffsets(rows[i], unit)
    ensures forall i :: 0 <= i < |h| ==>
      |h[i]| == |rows[i]| + 1 && h[i][0] == 0 && Last(h[i]) == Sum(rows[i]) * unit
  {
    seq(|rows|, i requires 0 <= i < |rows| => BeatOffsets(rows[i], unit))
  }

  lemma HiddenLevelsSnoc(rows: seq<seq<nat>>, i: nat, unit: int)
    requires i < |rows|
    ensures HiddenLevels(rows[..i + 1], unit) == HiddenLevels(rows[..i], unit) + [BeatOffsets(rows[i], unit)]
  {
  }

  /** Python's slice s[from:to]. */
  function Slice(s: seq<int>, from: nat, to: nat): (r: seq<int>)
    requires to <= |s|
    ensures forall x :: x in r ==> x in s
  {
    if from <= to then s[from..to] else []
  }

  /** One evenly stepped level per denominator, stepping by that note value. */
  function PulseLevels(measureLength: int, denominators: seq<int>): (h: Hierarchy)
    requires forall d :: d in denominators ==> d in SupportedDenominators
    ensures |h| == |denominators|
    ensures forall k :: 0 <= k < |h| ==> h[k] == PulseOffsets(measureLength, NoteTicks(denominators[k]))
    ensures forall k :: 0 <= k < |h| ==> |h[k]| > 0 && Last(h[k]) == measureLength
    ensures measureLength > 0 ==> forall k :: 0 <= k < |h| ==> h[k][0] == 0
  {
    seq(|denominators|, k requires 0 <= k < |denominators| =>
      PulseOffsets(measureLength, NoteTicks(denominators[k])))
  }

  lemma PulseLevelsSnoc(measureLength: int, denominators: seq<int>, k: nat)
    requires forall d :: d in denominators ==> d in SupportedDenominators
    requires k < |denominators|
    ensures PulseLevels(measureLength, denominators[..k + 1])
         == PulseLevels(measureLength, denominators[..k]) + [PulseOffsets(measureLength, NoteTicks(denominators[k]))]
  {
    assert forall d :: d in denominators[..k + 1] ==> d in denominators;
  }

  /** The denominators stepped through: from the signature's own down to minimumPulse. */
  function StepDenominators(denominator: int, minimumPulse: int): seq<int>
    requires denominator in SupportedDenominators && minimumPulse in SupportedDenominators
    ensures forall d :: d in StepDenominators(denominator, minimumPulse) ==> d in SupportedDenominators
  {
    Slice(SupportedDenominators, IndexOf(SupportedDenominators, denominator),
          IndexOf(SupportedDenominators, minimumPulse) + 1)
  }

  /** The hidden-level loop of offsetHierarchyFromTS: one offsetsFromBeatPattern level per grouping row. */
  method OffsetsFromBeatRows(rows: seq<seq<nat>>, denominator: int) returns (levels: Hierarchy)
    requires denominator in SupportedDenominators
    ensures levels == HiddenLevels(rows, NoteTicks(denominator))
  {
    levels := [];
    for i := 0 to |rows|
      invariant levels == HiddenLevels(rows[..i], NoteTicks(denominator))
    {
      var offsets := OffsetsFromBeatPattern(rows[i], denominator);
      HiddenLevelsSnoc(rows, i, NoteTicks(denominator));
      levels := levels + [offsets];
    }
    assert rows[..|rows|] == rows;
  }

  /** The per-denominator loop of offsetHierarchyFromTS: one offsetsFromLengths level per note value. */
  method OffsetsFromDenominators(measureLength: int, denominators: seq<int>) returns (levels: Hierarchy)
    requires forall d :: d in denominators ==> d in SupportedDenominators
    ensures levels == PulseLevels(measureLength, denominators)
  {
    levels := [];
    for k := 0 to |denominators|
      invariant levels == PulseLevels(measureLength, denominators[..k])
    {
      var offsets := OffsetsFromLengths(measureLength, NoteTicks(denominators[k]));
      PulseLevelsSnoc(measureLength, denominators, k);
      levels := levels + [offsets];
    }
    assert denominators[..|denominators|] == denominators;
  }

  /** offsetHierarchyFromTS as a value. */
  function HierarchyFromTS(ts: TimeSignature, minimumPulse: int): Result<Hierarchy, Error>
  {
    if |ts.numerators| == 0 then Failure(MalformedSignature)
    else if ts.denominator !in SupportedDenominators then Failure(InvalidDenominator)
    else if minimumPulse !in SupportedDenominators then Failure(InvalidMinimumPulse)
    else
      var g := Regroup(ts.numerators);
      var unit := NoteTicks(ts.denominator);
      var measureLength := GroupingBeats(g) * unit;
      Success([[0, measureLength]]
              + HiddenLevels(HiddenRows(g), unit)
              + PulseLevels(measureLength, StepDenominators(ts.denominator, minimumPulse)))
  }

  /** offsetHierarchyFromTS, with its rewrite loop and its two level-building loops. */
  method OffsetHierarchyFromTS(ts: TimeSignature, minimumPulse: int) returns (r: Result<Hierarchy, Error>)
    ensures r == HierarchyFromTS(ts, minimumPulse)
  {
    if |ts.numerators| == 0 {
      return Failure(MalformedSignature);
    }
    var denominator := ts.denominator;
    if denominator !in SupportedDenominators {
      return Failure(InvalidDenominator);
    }
    if minimumPulse !in SupportedDenominators {
      return Failure(InvalidMinimumPulse);
    }

    var numerators := Flat(ts.numerators);
    for m := 0 to |HiddenLayerMappings|
      invariant ApplyMappings(numerators, HiddenLayerMappings[m..]) == Regroup(ts.numerators)
    {
      assert HiddenLayerMappings[m..][1..] == HiddenLayerMappings[m + 1..];
      if numerators == Flat(HiddenLayerMappings[m].0) {
        numerators := HiddenLayerMappings[m].1;
      }
    }

    var unit := NoteTicks(denominator);
    var measureLength := GroupingBeats(numerators) * unit;
    var hiddenLevels := OffsetsFromBeatRows(HiddenRows(numerators), denominator);
    var pulseLevels := OffsetsFromDenominators(measureLength, StepDenominators(denominator, minimumPulse));
    var offsetHierarchy: Hierarchy := [[0, measureLength]] + hiddenLevels + pulseLevels;
    return Success(offsetHierarchy);
  }

  // ---------------------------------------------------------------------------
  // offsetsFromTSAndLevels

  const DefaultLevels: seq<nat> := [0, 1, 2, 3]
  const MaxLevelDepth: nat := 6

  /**
   * The level indices taken: sorted ascending, with 0 put first when absent.
   * Repeated levels are kept, so each repetition selects its level again.
   */
  function ChosenLevels(levels: seq<nat>): (chosen: seq<int>)
    ensures |chosen| > 0 && chosen[0] == 0
    ensures forall i :: 0 <= i < |chosen| ==> chosen[i] >= 0
    ensures Ascending(chosen)
    ensures forall l :: l in chosen <==> l == 0 || l in levels
    ensures multiset(chosen) == if 0 in levels then multiset(levels) else multiset{0} + multiset(levels)
  {
    var sortedLevels := SortAscending(levels);
    ZeroFirst(levels, sortedLevels);
    if 0 in sortedLevels then sortedLevels else [0] + sortedLevels
  }

  lemma ZeroFirst(levels: seq<nat>, sortedLevels: seq<int>)
    requires Ascending(sortedLevels)
    requires forall i :: 0 <= i < |sortedLevels| ==> sortedLevels[i] in levels
    requires multiset(sortedLevels) == multiset(levels)
    ensures var chosen := if 0 in sortedLevels then sortedLevels else [0] + sortedLevels;
      && |chosen| > 0 && chosen[0] == 0
      && (forall i :: 0 <= i < |chosen| ==> chosen[i] >= 0)
      && Ascending(chosen)
      && (forall l :: l in chosen <==> l == 0 || l in levels)
      && multiset(chosen) == if 0 in levels then multiset(levels) else multiset{0} + multiset(levels)
  {
    var chosen := if 0 in sortedLevels then sortedLevels else [0] + sortedLevels;
    forall i | 0 <= i < |sortedLevels|
      ensures sortedLevels[i] >= 0
    {
      var k :| 0 <= k < |levels| && levels[k] == sortedLevels[i];
    }
    forall l | l in levels
      ensures l in sortedLevels
    {
      assert l in multiset(levels);
    }
    if 0 in sortedLevels {
      var k :| 0 <= k < |sortedLevels| && sortedLevels[k] == 0;
      assert sortedLevels[0] <= sortedLevels[k];
    } else {
      forall i, j | 0 <= i < j < |chosen|
        ensures chosen[i] <= chosen[j]
      {
        if i > 0 {
          assert chosen[i] == sortedLevels[i - 1] && chosen[j] == sortedLevels[j - 1];
        } else {
          assert chosen[j] == sortedLevels[j - 1];
        }
      }
    }
  }

  /** Levels already listed in ascending order and starting with 0 are taken as given. */
  lemma ChosenLevelsSorted(levels: seq<nat>)
    requires Ascending(levels) && |levels| > 0 && levels[0] == 0
    ensures ChosenLevels(levels) == levels
  {
    SortAscendingSorted(levels);
  }

  /** The levels of `full` at the given indices, in order. */
  function SelectLevels(full: Hierarchy, chosen: seq<int>): (h: Hierarchy)
    requires forall i :: 0 <= i < |chosen| ==> 0 <= chosen[i] < |full|
    ensures |h| == |chosen|
    ensures forall i :: 0 <= i < |chosen| ==> h[i] == full[chosen[i]]
  {
    seq(|chosen|, i requires 0 <= i < |chosen| => full[chosen[i]])
  }

  lemma SelectLevelsSnoc(full: Hierarchy, chosen: seq<int>, i: nat)
    requires i < |chosen|
    requires forall k :: 0 <= k <= i ==> 0 <= chosen[k] < |full|
    ensures SelectLevels(full, chosen[..i + 1]) == SelectLevels(full, chosen[..i]) + [full[chosen[i]]]
  {
    var a := SelectLevels(full, chosen[..i + 1]);
    var b := SelectLevels(full, chosen[..i]) + [full[chosen[i]]];
    forall k | 0 <= k < |a|
      ensures a[k] == b[k]
    {
      if k < i { assert a[k] == full[chosen[k]]; }
    }
  }

  /** The levels of `full` at the chosen indices; an index past its end is an IndexError. */
  function PickLevels(full: Hierarchy, chosen: seq<int>): Result<Hierarchy, Error>
    requires forall i :: 0 <= i < |chosen| ==> 0 <= chosen[i]
  {
    if exists i :: 0 <= i < |chosen| && chosen[i] >= |full| then Failure(LevelOutOfRange)
    else Success(SelectLevels(full, chosen))
  }

  /** The selection loop of offsetsFromTSAndLevels. */
  method PickLevelsInOrder(full: Hierarchy, chosen: seq<int>) returns (r: Result<Hierarchy, Error>)
    requires forall i :: 0 <= i < |chosen| ==> 0 <= chosen[i]
    ensures r == PickLevels(full, chosen)
  {
    var offsetsByLevel: Hierarchy := [];
    for i := 0 to |chosen|
      invariant forall j :: 0 <= j < i ==> chosen[j] < |full|
      invariant offsetsByLevel == SelectLevels(full, chosen[..i])
    {
      if chosen[i] >= |full| {
        return Failure(LevelOutOfRange);
      }
      SelectLevelsSnoc(full, chosen, i);
      offsetsByLevel := offsetsByLevel + [full[chosen[i]]];
    }
    assert chosen[..|chosen|] == chosen;
    return Success(offsetsByLevel);
  }

  /** offsetsFromTSAndLevels as a value (the full hierarchy down to 64th notes, then a selection). */
  function LevelsFromTS(ts: TimeSignature, levels: seq<nat>): Result<Hierarchy, Error>
  {
    if |levels| == 0 then Failure(NoLevels)
    else if Max(levels) > MaxLevelDepth then Failure(LevelTooDeep)
    else
      var chosen := ChosenLevels(levels);
      match HierarchyFromTS(ts, 64)
      case Failure(e) => Failure(e)
      case Success(full) => PickLevels(full, chosen)
  }

  /** offsetsFromTSAndLevels: check, sort, build the full hierarchy, then pick level by level. */
  method OffsetsFromTSAndLevels(timeSig: TimeSignature, levels: seq<nat>) returns (r: Result<Hierarchy, Error>)
    ensures r == LevelsFromTS(timeSig, levels)
  {
    if |levels| == 0 {
      return Failure(NoLevels);
    }
    if Max(levels) > MaxLevelDepth {
      return Failure(LevelTooDeep);
    }
    var chosen := SortAscending(levels);
    if 0 !in chosen {
      chosen := [0] + chosen;
    }
    assert chosen == ChosenLevels(levels);
    var fullHierarchy := OffsetHierarchyFromTS(timeSig, 64);
    if fullHierarchy.Failure? {
      return Failure(fullHierarchy.error);
    }
    r := PickLevelsInOrder(fullHierarchy.value, chosen);
  }

  // ---------------------------------------------------------------------------
  // offsetListFromPulseLengths

  /** The pulse at i is twice or three times the next one. */
  predicate RatioAt(pulses: seq<int>, i: nat)
    requires i + 1 < |pulses|
  {
    pulses[i] == 2 * pulses[i + 1] || pulses[i] == 3 * pulses[i + 1]
  }

  predicate TwoOrThree(pulses: seq<int>)
  {
    forall i: nat :: i + 1 < |pulses| ==> RatioAt(pulses, i)
  }

  /** One evenly stepped level per pulse length, all running to the same measure length. */
  function PulseGrids(measureLength: int, pulses: seq<int>): (h: Hierarchy)
    requires forall i :: 0 <= i < |pulses| ==> pulses[i] > 0
    ensures |h| == |pulses|
    ensures forall i :: 0 <= i < |pulses| ==> h[i] == PulseOffsets(measureLength, pulses[i])
    ensures forall i :: 0 <= i < |h| ==> |h[i]| > 0 && Last(h[i]) == measureLength
    ensures measureLength > 0 ==> forall i :: 0 <= i < |h| ==> h[i][0] == 0
  {
    seq(|pulses|, i requires 0 <= i < |pulses| => PulseOffsets(measureLength, pulses[i]))
  }

  lemma PulseGridsSnoc(measureLength: int, pulses: seq<int>, i: nat)
    requires forall k :: 0 <= k < |pulses| ==> pulses[k] > 0
    requires i < |pulses|
    ensures PulseGrids(measureLength, pulses[..i + 1])
         == PulseGrids(measureLength, pulses[..i]) + [PulseOffsets(measureLength, pulses[i])]
  {
    var a := PulseGrids(measureLength, pulses[..i + 1]);
    var b := PulseGrids(measureLength, pulses[..i]) + [PulseOffsets(measureLength, pulses[i])];
    forall k | 0 <= k < |a|
      ensures a[k] == b[k]
    {
      if k < i { assert a[k] == PulseOffsets(measureLength, pulses[k]); }
    }
  }

  lemma SortedPulsesPositive(pulseLengths: seq<int>)
    requires forall i :: 0 <= i < |pulseLengths| ==> pulseLengths[i] > 0
    ensures forall i :: 0 <= i < |SortDescending(pulseLengths)| ==> SortDescending(pulseLengths)[i] > 0
  {
    var pulses := SortDescending(pulseLengths);
    forall i | 0 <= i < |pulses|
      ensures pulses[i] > 0
    {
      var j :| 0 <= j < |pulseLengths| && pulseLengths[j] == pulses[i];
    }
  }

  /** The ratio loop of offsetListFromPulseLengths: stop at the first neighbouring pair that is not 2:1 or 3:1. */
  method CheckRatios(pulses: seq<int>) returns (ok: bool)
    ensures ok == TwoOrThree(pulses)
  {
    if |pulses| == 0 {
      return true;
    }
    for level := 0 to |pulses| - 1
      invariant forall k: nat :: k < level ==> RatioAt(pulses, k)
    {
      if !RatioAt(pulses, level) {
        return false;
      }
    }
    return true;
  }

  /** The level loop of offsetListFromPulseLengths: one offsetsFromLengths level per pulse. */
  method OffsetsFromPulses(measureLength: int, pulses: seq<int>) returns (offsetList: Hierarchy)
    requires forall i :: 0 <= i < |pulses| ==> pulses[i] > 0
    ensures offsetList == PulseGrids(measureLength, pulses)
  {
    offsetList := [];
    for i := 0 to |pulses|
      invariant offsetList == PulseGrids(measureLength, pulses[..i])
    {
      var offsets := OffsetsFromLengths(measureLength, pulses[i]);
      PulseGridsSnoc(measureLength, pulses, i);
      offsetList := offsetList + [offsets];
    }
    assert pulses[..|pulses|] == pulses;
  }

  /** offsetListFromPulseLengths as a value; a supplied measure length of 0 counts as none. */
  function PulseHierarchy(pulseLengths: seq<int>, measureLength: Option<int>, require2or3: bool): Result<Hierarchy, Error>
    requires forall i :: 0 <= i < |pulseLengths| ==> pulseLengths[i] > 0
  {
    var pulses := SortDescending(pulseLengths);
    SortedPulsesPositive(pulseLengths);
    var supplied := measureLength.Some? && measureLength.value != 0;
    if |pulses| == 0 then Failure(NoPulseLengths)
    else if supplied && pulses[0] > measureLength.value then Failure(PulseLongerThanMeasure)
    else if require2or3 && !TwoOrThree(pulses) then Failure(RatioNot2Or3)
    else
      var length := if supplied then measureLength.value else pulses[0];
      Success(PulseGrids(length, pulses))
  }

  /**
   * Pulses already listed longest first are used as given: the longest
   * is the measure length unless one is supplied.
   */
  lemma PulseHierarchySorted(pulseLengths: seq<int>, require2or3: bool)
    requires forall i :: 0 <= i < |pulseLengths| ==> pulseLengths[i] > 0
    requires Descending(pulseLengths) && |pulseLengths| > 0
    ensures PulseHierarchy(pulseLengths, None, require2or3)
         == if require2or3 && !TwoOrThree(pulseLengths) then Failure(RatioNot2Or3)
            else Success(PulseGrids(pulseLengths[0], pulseLengths))
  {
    SortDescendingSorted(pulseLengths);
  }

  /** The order in which the pulse lengths are listed makes no difference. */
  lemma PulseHierarchyOrderFree(pulseLengths: seq<int>, reordered: seq<int>, measureLength: Option<int>, require2or3: bool)
    requires forall i :: 0 <= i < |pulseLengths| ==> pulseLengths[i] > 0
    requires forall i :: 0 <= i < |reordered| ==> reordered[i] > 0
    requires multiset(pulseLengths) == multiset(reordered)
    ensures PulseHierarchy(pulseLengths, measureLength, require2or3) == PulseHierarchy(reordered, measureLength, require2or3)
  {
    SortDescendingOrderFree(pulseLengths, reordered);
  }

  /** offsetListFromPulseLengths: sort, check, then one offsetsFromLengths level per pulse. */
  method OffsetListFromPulseLengths(pulseLengths: seq<int>, measureLength: Option<int>, require2or3BetweenLevels: bool)
    returns (r: Result<Hierarchy, Error>)
    requires forall i :: 0 <= i < |pulseLengths| ==> pulseLengths[i] > 0
    ensures r == PulseHierarchy(pulseLengths, measureLength, require2or3BetweenLevels)
  {
    var pulses := SortDescending(pulseLengths);
    SortedPulsesPositive(pulseLengths);
    if |pulses| == 0 {
      return Failure(NoPulseLengths);
    }
    var length: int;
    if measureLength.None? || measureLength.value == 0 {
      length := pulses[0];
    } else {
      if pulses[0] > measureLength.value {
        return Failure(PulseLongerThanMeasure);
      }
      length := measureLength.value;
    }
    if require2or3BetweenLevels {
      var ratiosHold := CheckRatios(pulses);
      if !ratiosHold {
        return Failure(RatioNot2Or3);
      }
    }
    var offsetList := OffsetsFromPulses(length, pulses);
    return Success(offsetList);
  }

  // ---------------------------------------------------------------------------
  // The hierarchy source chosen by ReGrouper's constructor

  /**
   * An explicit hierarchy wins, then pulse lengths (ratio check off), then a
   * time signature with explicit levels, then a time signature with the
   * default levels; empty lists count as absent.
   */
  function HierarchySource(timeSignature: Option<TimeSignature>, levels: seq<nat>,
                           pulseLengths: seq<int>, offsetHierarchy: Hierarchy): Result<Hierarchy, Error>
    requires forall i :: 0 <= i < |pulseLengths| ==> pulseLengths[i] > 0
  {
    if |offsetHierarchy| > 0 then Success(offsetHierarchy)
    else if |pulseLengths| > 0 then PulseHierarchy(pulseLengths, None, false)
    else if |levels| > 0 then
      (if timeSignature.None? then Failure(LevelsWithoutTimeSignature)
       else LevelsFromTS(timeSignature.value, levels))
    else if timeSignature.None? then Failure(NoTimeSignature)
    else LevelsFromTS(timeSignature.value, DefaultLevels)
  }

  /** The chosen source, refused when it yields no levels at all. */
  function ChooseHierarchy(timeSignature: Option<TimeSignature>, levels: seq<nat>,
                           pulseLengths: seq<int>, offsetHierarchy: Hierarchy): Result<Hierarchy, Error>
    requires forall i :: 0 <= i < |pulseLengths| ==> pulseLengths[i] > 0
  {
    var chosen := HierarchySource(timeSignature, levels, pulseLengths, offsetHierarchy);
    if chosen.Success? && |chosen.value| == 0 then Failure(NoHierarchy) else chosen
  }

  /** The hierarchy-source part of ReGrouper's constructor. */
  method ResolveHierarchy(timeSignature: Option<TimeSignature>, levels: seq<nat>,
                          pulseLengths: seq<int>, offsetHierarchy: Hierarchy) returns (r: Result<Hierarchy, Error>)
    requires forall i :: 0 <= i < |pulseLengths| ==> pulseLengths[i] > 0
    ensures r == ChooseHierarchy(timeSignature, levels, pulseLengths, offsetHierarchy)
    ensures r.Success? ==> |r.value| > 0
  {
    r := ResolveSource(timeSignature, levels, pulseLengths, offsetHierarchy);
    if r.Success? && |r.value| == 0 {
      r := Failure(NoHierarchy);
    }
  }

  /** The if/elif chain that picks where the hierarchy comes from. */
  method ResolveSource(timeSignature: Option<TimeSignature>, levels: seq<nat>,
                       pulseLengths: seq<int>, offsetHierarchy: Hierarchy) returns (r: Result<Hierarchy, Error>)
    requires forall i :: 0 <= i < |pulseLengths| ==> pulseLengths[i] > 0
    ensures r == HierarchySource(timeSignature, levels, pulseLengths, offsetHierarchy)
  {
    if |offsetHierarchy| > 0 {
      r := Success(offsetHierarchy);
    } else if |pulseLengths| > 0 {
      r := OffsetListFromPulseLengths(pulseLengths, None, false);
    } else if |levels| > 0 {
      if timeSignature.None? {
        return Failure(LevelsWithoutTimeSignature);
      }
      r := OffsetsFromTSAndLevels(timeSignature.value, levels);
    } else {
      if timeSignature.None? {
        return Failure(NoTimeSignature);
      }
      r := OffsetsFromTSAndLevels(timeSignature.value, DefaultLevels);
    }
  }
}
