/**
 * What the hierarchy builders promise: the time-signature hierarchy is
 * well formed and spans the written measure, a level selection keeps that,
 * pulse-length hierarchies nest when each pulse divides the one above it,
 * and every hierarchy ReGrouper's constructor can derive is shaped for the
 * splitter.
 */
module HierarchyFacts {
  import opened Wrappers
  import opened Metre
  import opened OneLevel
  import opened HierarchyBuilder

  predicate Positive(xs: seq<nat>)
  {
    forall i :: 0 <= i < |xs| ==> xs[i] > 0
  }

  /** Neighbouring levels refine one another. */
  predicate Chained(h: Hierarchy)
  {
    forall k :: 0 <= k < |h| - 1 ==> Refines(h[k], h[k + 1])
  }

  /** Every level starts at 0, strictly increases and ends at the measure length. */
  predicate Spans(h: Hierarchy, measureLength: int)
  {
    forall k :: 0 <= k < |h| ==> |h[k]| > 0 && h[k][0] == 0 && Increasing(h[k]) && Last(h[k]) == measureLength
  }

  lemma ChainedConcat(a: Hierarchy, b: Hierarchy)
    requires Chained(a) && Chained(b)
    requires |a| > 0 && |b| > 0 ==> Refines(a[|a| - 1], b[0])
    ensures Chained(a + b)
  {
    var h := a + b;
    forall k | 0 <= k < |h| - 1
      ensures Refines(h[k], h[k + 1])
    {
      if k + 1 < |a| {
        assert h[k] == a[k] && h[k + 1] == a[k + 1];
      } else if k + 1 == |a| {
        assert h[k] == a[|a| - 1] && h[k + 1] == b[0];
      } else {
        assert h[k] == b[k - |a|] && h[k + 1] == b[k - |a| + 1];
      }
    }
  }

  lemma SpansConcat(a: Hierarchy, b: Hierarchy, measureLength: int)
    requires Spans(a, measureLength) && Spans(b, measureLength)
    ensures Spans(a + b, measureLength)
  {
    var h := a + b;
    forall k | 0 <= k < |h|
      ensures |h[k]| > 0 && h[k][0] == 0 && Increasing(h[k]) && Last(h[k]) == measureLength
    {
      if k < |a| { assert h[k] == a[k]; } else { assert h[k] == b[k - |a|]; }
    }
  }

  lemma MeasureSpans(measureLength: int)
    requires measureLength > 0
    ensures Spans([[0, measureLength]], measureLength)
  {
    var top: Level := [0, measureLength];
    assert Increasing(top);
  }

  /** A level from 0 to the measure length holds both ends of the measure. */
  lemma EndsRefine(measureLength: int, fine: Level)
    requires |fine| > 0 && fine[0] == 0 && Last(fine) == measureLength
    ensures Refines([0, measureLength], fine)
  {
    assert fine[|fine| - 1] == measureLength;
  }

  lemma SumPositive(xs: seq<nat>)
    requires |xs| > 0 && Positive(xs)
    ensures Sum(xs) > 0
  {
  }

  // ---------------------------------------------------------------------------
  // The grouping table

  lemma SumsOfTable()
    ensures Sum([2, 2]) == 4 && Sum([3, 3]) == 6 && Sum([3, 3, 3]) == 9
    ensures Sum([6, 6]) == 12 && Sum([3, 3, 3, 3]) == 12 && Sum([3, 3, 3, 3, 3]) == 15
    ensures Sum([6, 9]) == 15 && Sum([9, 6]) == 15
  {
    assert [2, 2][..1] == [2] && [3, 3][..1] == [3] && [6, 6][..1] == [6];
    assert [6, 9][..1] == [6] && [9, 6][..1] == [9];
    assert [3, 3, 3][..2] == [3, 3] && [3, 3, 3, 3][..3] == [3, 3, 3];
    assert [3, 3, 3, 3, 3][..4] == [3, 3, 3, 3];
    assert [2][..0] == [] && [3][..0] == [] && [6][..0] == [] && [9][..0] == [];
  }

  /**
   * Apart from 9+6, the regrouping keeps the measure: the beat count is the
   * numerators' sum and every hidden row adds up to it; there are at most
   * two hidden rows, of positive groups when the numerators are positive.
   */
  lemma RegroupKeepsTotals(numerators: seq<nat>)
    requires |numerators| > 0 && numerators != [9, 6]
    ensures GroupingBeats(Regroup(numerators)) == Sum(numerators)
    ensures |HiddenRows(Regroup(numerators))| <= 2
    ensures forall i :: 0 <= i < |HiddenRows(Regroup(numerators))| ==>
      Sum(HiddenRows(Regroup(numerators))[i]) == Sum(numerators)
  {
    RegroupIsLookup(numerators);
    SumsOfTable();
  }

  /** Positive numerators regroup into rows of positive groups. */
  lemma RegroupKeepsPositive(numerators: seq<nat>)
    requires Positive(numerators)
    ensures forall i :: 0 <= i < |HiddenRows(Regroup(numerators))| ==> Positive(HiddenRows(Regroup(numerators))[i])
  {
    RegroupIsLookup(numerators);
  }

  /**
   * The 9+6 entry regroups fifteen beats as 6+6 over five threes: the measure
   * shrinks to twelve beats while the second hidden row still covers fifteen.
   */
  lemma NineSixShrinksMeasure()
    ensures GroupingBeats(Regroup([9, 6])) == 12 && Sum([9, 6]) == 15
    ensures HiddenRows(Regroup([9, 6])) == [[6, 6], [3, 3, 3, 3, 3]]
    ensures Sum(HiddenRows(Regroup([9, 6]))[1]) == 15
  {
    RegroupIsLookup([9, 6]);
    SumsOfTable();
  }

  /** Each table grouping covers at least its own measure: used for shape. */
  lemma RegroupRowsReachMeasure(numerators: seq<nat>)
    requires |numerators| > 0
    ensures forall i :: 0 <= i < |HiddenRows(Regroup(numerators))| ==>
      Sum(HiddenRows(Regroup(numerators))[i]) >= GroupingBeats(Regroup(numerators))
  {
    if numerators == [9, 6] {
      NineSixShrinksMeasure();
    } else {
      RegroupKeepsTotals(numerators);
    }
  }

  lemma BeatOffsets66(unit: int)
    ensures BeatOffsets([6, 6], unit) == [0, 6 * unit, 12 * unit]
  {
    SumsOfTable();
    assert [6, 6][..0] == [] && [6, 6][..2] == [6, 6];
  }

  lemma BeatOffsets69(unit: int)
    ensures BeatOffsets([6, 9], unit) == [0, 6 * unit, 15 * unit]
  {
    SumsOfTable();
    assert [6, 9][..0] == [] && [6, 9][..2] == [6, 9];
  }

  lemma BeatOffsetsThrees(unit: int)
    ensures BeatOffsets([3, 3, 3, 3], unit) == [0, 3 * unit, 6 * unit, 9 * unit, 12 * unit]
    ensures BeatOffsets([3, 3, 3, 3, 3], unit) == [0, 3 * unit, 6 * unit, 9 * unit, 12 * unit, 15 * unit]
  {
    var t := [3, 3, 3, 3, 3];
    SumsOfTable();
    assert t[..0] == [] && t[..1] == [3] && t[..2] == [3, 3] && t[..3] == [3, 3, 3] && t[..4] == [3, 3, 3, 3];
    assert [3, 3, 3, 3][..0] == [] && [3, 3, 3, 3][..1] == [3] && [3, 3, 3, 3][..2] == [3, 3];
    assert [3, 3, 3, 3][..3] == [3, 3, 3] && [3, 3, 3, 3][..4] == [3, 3, 3, 3];
    assert Sum([3]) == 3;
  }

  /** The two rows of a layered grouping nest: the first row's boundaries are among the second's. */
  lemma HiddenRowsNest(numerators: seq<nat>, unit: int)
    requires |HiddenRows(Regroup(numerators))| == 2
    ensures Refines(BeatOffsets(HiddenRows(Regroup(numerators))[0], unit),
                    BeatOffsets(HiddenRows(Regroup(numerators))[1], unit))
  {
    RegroupIsLookup(numerators);
    BeatOffsetsThrees(unit);
    if numerators == [6, 9] {
      BeatOffsets69(unit);
    } else {
      BeatOffsets66(unit);
    }
  }

  // ---------------------------------------------------------------------------
  // offsetHierarchyFromTS

  predicate ValidSignature(ts: TimeSignature)
  {
    |ts.numerators| > 0 && Positive(ts.numerators) && ts.denominator in SupportedDenominators
  }

  lemma HiddenPartFacts(numerators: seq<nat>, unit: int)
    requires |numerators| > 0 && Positive(numerators) && numerators != [9, 6] && unit > 0
    ensures Spans(HiddenLevels(HiddenRows(Regroup(numerators)), unit), Sum(numerators) * unit)
    ensures Chained(HiddenLevels(HiddenRows(Regroup(numerators)), unit))
  {
    var rows := HiddenRows(Regroup(numerators));
    var hidden := HiddenLevels(rows, unit);
    RegroupKeepsTotals(numerators);
    RegroupKeepsPositive(numerators);
    forall k | 0 <= k < |hidden|
      ensures |hidden[k]| > 0 && hidden[k][0] == 0 && Increasing(hidden[k])
      ensures Last(hidden[k]) == Sum(numerators) * unit
    {
      BeatOffsetsIncreasing(rows[k], unit);
    }
    if |hidden| == 2 {
      HiddenRowsNest(numerators, unit);
    }
  }

  /** The pulse levels step through consecutive supported denominators, each dividing the last. */
  lemma PulsePartFacts(measureLength: int, denominator: int, minimumPulse: int)
    requires measureLength > 0
    requires denominator in SupportedDenominators && minimumPulse in SupportedDenominators
    ensures Spans(PulseLevels(measureLength, StepDenominators(denominator, minimumPulse)), measureLength)
    ensures Chained(PulseLevels(measureLength, StepDenominators(denominator, minimumPulse)))
  {
    var steps := StepDenominators(denominator, minimumPulse);
    var pulses := PulseLevels(measureLength, steps);
    var from := IndexOf(SupportedDenominators, denominator);
    forall k | 0 <= k < |pulses|
      ensures |pulses[k]| > 0 && pulses[k][0] == 0 && Increasing(pulses[k]) && Last(pulses[k]) == measureLength
    {
      PulseOffsetsGrid(measureLength, NoteTicks(steps[k]));
    }
    StepsEnds(denominator, minimumPulse);
    forall k | 0 <= k < |pulses| - 1
      ensures Refines(pulses[k], pulses[k + 1])
    {
      NoteTicksDivide(from + k, from + k + 1);
      PulseRefines(measureLength, NoteTicks(steps[k]), NoteTicks(steps[k + 1]));
    }
  }

  /** The stepped denominators run from the signature's own to minimumPulse, or are none. */
  lemma StepsEnds(denominator: int, minimumPulse: int)
    requires denominator in SupportedDenominators && minimumPulse in SupportedDenominators
    ensures var steps := StepDenominators(denominator, minimumPulse);
      var from := IndexOf(SupportedDenominators, denominator);
      var to := IndexOf(SupportedDenominators, minimumPulse);
      && |steps| == (if from <= to then to + 1 - from else 0)
      && (|steps| > 0 ==> steps[0] == denominator && steps[|steps| - 1] == minimumPulse)
      && (forall k :: 0 <= k < |steps| ==> steps[k] == SupportedDenominators[from + k])
  {
    var from := IndexOf(SupportedDenominators, denominator);
    var to := IndexOf(SupportedDenominators, minimumPulse);
    SliceRange(SupportedDenominators, from, to);
  }

  lemma SliceRange(s: seq<int>, from: nat, to: nat)
    requires to < |s|
    ensures var r := Slice(s, from, to + 1);
      && |r| == (if from <= to then to + 1 - from else 0)
      && (forall k :: 0 <= k < |r| ==> r[k] == s[from + k])
  {
  }

  /**
   * For a signature of positive numerators (other than 9+6) the hierarchy is
   * well formed and its measure is the sum of the numerators in units of
   * the denominator.
   */
  lemma TimeSignatureHierarchyWellFormed(ts: TimeSignature, minimumPulse: int)
    requires ValidSignature(ts) && ts.numerators != [9, 6]
    requires minimumPulse in SupportedDenominators
    ensures HierarchyFromTS(ts, minimumPulse).Success?
    ensures WellFormed(HierarchyFromTS(ts, minimumPulse).value)
    ensures MeasureLength(HierarchyFromTS(ts, minimumPulse).value) == Sum(ts.numerators) * NoteTicks(ts.denominator)
  {
    var measureLength := TimeSignatureChain(ts, minimumPulse);
    SpansShaped(HierarchyFromTS(ts, minimumPulse).value, measureLength);
  }

  lemma TimeSignatureChain(ts: TimeSignature, minimumPulse: int) returns (measureLength: int)
    requires ValidSignature(ts) && ts.numerators != [9, 6]
    requires minimumPulse in SupportedDenominators
    ensures measureLength == Sum(ts.numerators) * NoteTicks(ts.denominator) && measureLength > 0
    ensures HierarchyFromTS(ts, minimumPulse).Success?
    ensures var h := HierarchyFromTS(ts, minimumPulse).value;
      |h| > 0 && h[0] == [0, measureLength] && Spans(h, measureLength) && Chained(h)
  {
    var unit := NoteTicks(ts.denominator);
    var rows := HiddenRows(Regroup(ts.numerators));
    RegroupKeepsTotals(ts.numerators);
    SumPositive(ts.numerators);
    MulAtLeast(Sum(ts.numerators), unit);
    measureLength := Sum(ts.numerators) * unit;
    var top: Hierarchy := [[0, measureLength]];
    var hidden := HiddenLevels(rows, unit);
    var steps := StepDenominators(ts.denominator, minimumPulse);
    var pulses := PulseLevels(measureLength, steps);
    var h := top + hidden + pulses;
    assert HierarchyFromTS(ts, minimumPulse) == Success(h);

    HiddenPartFacts(ts.numerators, unit);
    PulsePartFacts(measureLength, ts.denominator, minimumPulse);
    if |hidden| > 0 {
      EndsRefine(measureLength, hidden[0]);
      if |pulses| > 0 {
        StepsEnds(ts.denominator, minimumPulse);
        DivModUnique(unit, unit, 1, 0);
        assert Sum(rows[|rows| - 1]) == Sum(ts.numerators);
        BeatsOnGrid(rows[|rows| - 1], unit, measureLength, unit);
      }
    } else if |pulses| > 0 {
      EndsRefine(measureLength, pulses[0]);
    }
    ChainedConcat(top, hidden);
    ChainedConcat(top + hidden, pulses);
    MeasureSpans(measureLength);
    SpansConcat(top, hidden, measureLength);
    SpansConcat(top + hidden, pulses, measureLength);
  }

  /**
   * Every hierarchy built from a time signature is shaped for the splitter,
   * 9+6 included: every level starts at 0 and reaches at least the measure
   * end. Apart from 9+6, whose finer hidden row overshoots the measure,
   * every level ends exactly at the measure end.
   */
  lemma TimeSignatureHierarchyShaped(ts: TimeSignature, minimumPulse: int)
    requires HierarchyFromTS(ts, minimumPulse).Success?
    ensures Shaped(HierarchyFromTS(ts, minimumPulse).value)
    ensures MeasureLength(HierarchyFromTS(ts, minimumPulse).value)
         == GroupingBeats(Regroup(ts.numerators)) * NoteTicks(ts.denominator)
    ensures FromZero(HierarchyFromTS(ts, minimumPulse).value,
                     GroupingBeats(Regroup(ts.numerators)) * NoteTicks(ts.denominator),
                     ts.numerators != [9, 6])
  {
    var unit := NoteTicks(ts.denominator);
    var g := Regroup(ts.numerators);
    var measureLength := GroupingBeats(g) * unit;
    var top: Hierarchy := [[0, measureLength]];
    var hidden := HiddenLevels(HiddenRows(g), unit);
    var pulses := PulseLevels(measureLength, StepDenominators(ts.denominator, minimumPulse));
    assert HierarchyFromTS(ts, minimumPulse).value == top + hidden + pulses;
    HiddenRowsReach(ts.numerators, unit);
    forall k | 0 <= k < |pulses|
      ensures |pulses[k]| > 0 && Last(pulses[k]) >= measureLength
    {
    }
    ReachesConcat(top, hidden, measureLength);
    ReachesConcat(top + hidden, pulses, measureLength);
    TimeSignatureStartsAndEnds(ts, minimumPulse);
  }

  lemma TimeSignatureStartsAndEnds(ts: TimeSignature, minimumPulse: int)
    requires HierarchyFromTS(ts, minimumPulse).Success?
    ensures FromZero(HierarchyFromTS(ts, minimumPulse).value,
                     GroupingBeats(Regroup(ts.numerators)) * NoteTicks(ts.denominator),
                     ts.numerators != [9, 6])
  {
    var unit := NoteTicks(ts.denominator);
    var g := Regroup(ts.numerators);
    var measureLength := GroupingBeats(g) * unit;
    var top: Hierarchy := [[0, measureLength]];
    var hidden := HiddenLevels(HiddenRows(g), unit);
    var pulses := PulseLevels(measureLength, StepDenominators(ts.denominator, minimumPulse));
    assert HierarchyFromTS(ts, minimumPulse).value == top + hidden + pulses;
    var exact := ts.numerators != [9, 6];
    if exact {
      RegroupKeepsTotals(ts.numerators);
    }
    HiddenStartsAndEnds(HiddenRows(g), unit, measureLength, exact);
    MulMonotone(GroupingBeats(g), GroupingBeats(g), unit);
    PulseStartsAtZero(measureLength, StepDenominators(ts.denominator, minimumPulse));
    StartsAndEndsConcat(top, hidden, pulses, measureLength, exact);
  }

  /** Every level is non-empty, starts at 0 and, when exact, ends at the measure end. */
  predicate FromZero(h: Hierarchy, measureLength: int, exact: bool)
  {
    forall k :: 0 <= k < |h| ==>
      |h[k]| > 0 && h[k][0] == 0 && (exact ==> Last(h[k]) == measureLength)
  }

  lemma HiddenStartsAndEnds(rows: seq<seq<nat>>, unit: int, measureLength: int, exact: bool)
    requires exact ==> forall i :: 0 <= i < |rows| ==> Sum(rows[i]) * unit == measureLength
    ensures FromZero(HiddenLevels(rows, unit), measureLength, exact)
  {
  }

  lemma PulseStartsAtZero(measureLength: int, denominators: seq<int>)
    requires measureLength >= 0
    requires forall d :: d in denominators ==> d in SupportedDenominators
    ensures FromZero(PulseLevels(measureLength, denominators), measureLength, true)
  {
    var pulses := PulseLevels(measureLength, denominators);
    if measureLength == 0 {
      forall k | 0 <= k < |pulses|
        ensures pulses[k][0] == 0
      {
        assert BelowCount(measureLength, NoteTicks(denominators[k])) == 0;
        assert |pulses[k]| == 1;
      }
    }
  }

  lemma StartsAndEndsConcat(top: Hierarchy, hidden: Hierarchy, pulses: Hierarchy, measureLength: int, exact: bool)
    requires top == [[0, measureLength]]
    requires FromZero(hidden, measureLength, exact) && FromZero(pulses, measureLength, true)
    ensures FromZero(top + hidden + pulses, measureLength, exact)
  {
    var h := top + hidden + pulses;
    forall k | 0 <= k < |h|
      ensures |h[k]| > 0 && h[k][0] == 0 && (exact ==> Last(h[k]) == measureLength)
    {
      if k == 0 {
        assert h[k] == top[0];
      } else if k < 1 + |hidden| {
        assert h[k] == hidden[k - 1];
      } else {
        assert h[k] == pulses[k - 1 - |hidden|];
      }
    }
  }

  /** Every level is non-empty and ends at or beyond the measure end. */
  predicate Reaches(h: Hierarchy, measureLength: int)
  {
    forall k :: 0 <= k < |h| ==> |h[k]| > 0 && Last(h[k]) >= measureLength
  }

  lemma ReachesConcat(a: Hierarchy, b: Hierarchy, measureLength: int)
    requires Reaches(a, measureLength) && Reaches(b, measureLength)
    ensures Reaches(a + b, measureLength)
  {
    var h := a + b;
    forall k | 0 <= k < |h|
      ensures |h[k]| > 0 && Last(h[k]) >= measureLength
    {
      if k < |a| { assert h[k] == a[k]; } else { assert h[k] == b[k - |a|]; }
    }
  }

  lemma HiddenRowsReach(numerators: seq<nat>, unit: int)
    requires unit > 0
    ensures Reaches(HiddenLevels(HiddenRows(Regroup(numerators)), unit), GroupingBeats(Regroup(numerators)) * unit)
  {
    var g := Regroup(numerators);
    var rows := HiddenRows(g);
    var hidden := HiddenLevels(rows, unit);
    if |rows| > 0 {
      RegroupIsLookup(numerators);
      RegroupRowsReachMeasure(numerators);
      forall k | 0 <= k < |hidden|
        ensures |hidden[k]| > 0 && Last(hidden[k]) >= GroupingBeats(g) * unit
      {
        MulMonotone(GroupingBeats(g), Sum(rows[k]), unit);
      }
    }
  }

  /**
   * Levels: the measure, at most two hidden levels, then one level per
   * denominator from the signature's own down to minimumPulse, so the
   * finest level is the minimumPulse grid; a minimumPulse longer than the
   * signature's unit adds no pulse level at all.
   */
  lemma TimeSignatureLevels(ts: TimeSignature, minimumPulse: int)
    requires HierarchyFromTS(ts, minimumPulse).Success?
    ensures var h := HierarchyFromTS(ts, minimumPulse).value;
      && |HiddenRows(Regroup(ts.numerators))| <= 2
      && (minimumPulse < ts.denominator ==> |h| == 1 + |HiddenRows(Regroup(ts.numerators))|)
      && (minimumPulse >= ts.denominator ==>
            && |h| == 1 + |HiddenRows(Regroup(ts.numerators))|
                        + IndexOf(SupportedDenominators, minimumPulse)
                        - IndexOf(SupportedDenominators, ts.denominator) + 1
            && h[|h| - 1] == PulseOffsets(MeasureLength(h), NoteTicks(minimumPulse)))
  {
    var unit := NoteTicks(ts.denominator);
    var g := Regroup(ts.numerators);
    var measureLength := GroupingBeats(g) * unit;
    var hidden := HiddenLevels(HiddenRows(g), unit);
    var steps := StepDenominators(ts.denominator, minimumPulse);
    var pulses := PulseLevels(measureLength, steps);
    var h := HierarchyFromTS(ts, minimumPulse).value;
    assert h == [[0, measureLength]] + hidden + pulses;
    AtMostTwoHiddenRows(ts.numerators);
    IndexOrder(minimumPulse, ts.denominator);
    StepsEnds(ts.denominator, minimumPulse);
    if |pulses| > 0 {
      assert h[|h| - 1] == pulses[|pulses| - 1];
    }
  }

  lemma AtMostTwoHiddenRows(numerators: seq<nat>)
    ensures |HiddenRows(Regroup(numerators))| <= 2
  {
    RegroupIsLookup(numerators);
  }

  /** The supported denominators are listed in increasing order. */
  lemma IndexOrder(a: int, b: int)
    requires a in SupportedDenominators && b in SupportedDenominators
    ensures a < b <==> IndexOf(SupportedDenominators, a) < IndexOf(SupportedDenominators, b)
  {
  }

  // ---------------------------------------------------------------------------
  // offsetsFromTSAndLevels

  /**
   * Picking levels in ascending order of strength, starting with level 0,
   * keeps a hierarchy's shape and its well-formedness.
   */
  lemma SelectionKeepsForm(full: Hierarchy, chosen: seq<int>)
    requires |chosen| > 0 && chosen[0] == 0 && Ascending(chosen)
    requires forall i :: 0 <= i < |chosen| ==> 0 <= chosen[i] < |full|
    ensures Shaped(full) ==> Shaped(SelectLevels(full, chosen))
    ensures WellFormed(full) ==> WellFormed(SelectLevels(full, chosen))
  {
    var h := SelectLevels(full, chosen);
    assert h[0] == full[0];
    if WellFormed(full) {
      forall i, j | 0 <= i <= j < |h|
        ensures Refines(h[i], h[j])
      {
        assert chosen[i] <= chosen[j];
      }
    }
  }

  /**
   * offsetsFromTSAndLevels keeps the measure level first and, for a
   * signature of positive numerators other than 9+6, returns a well-formed
   * hierarchy with one level per chosen index, duplicates included.
   */
  lemma LevelsFromTSWellFormed(ts: TimeSignature, levels: seq<nat>)
    requires ValidSignature(ts) && ts.numerators != [9, 6]
    requires LevelsFromTS(ts, levels).Success?
    ensures WellFormed(LevelsFromTS(ts, levels).value)
    ensures MeasureLength(LevelsFromTS(ts, levels).value) == Sum(ts.numerators) * NoteTicks(ts.denominator)
    ensures |LevelsFromTS(ts, levels).value| == |ChosenLevels(levels)|
  {
    TimeSignatureHierarchyWellFormed(ts, 64);
    var full := HierarchyFromTS(ts, 64).value;
    var chosen := SelectedFrom(ts, levels);
    SelectionKeepsForm(full, chosen);
  }

  /** A successful selection is SelectLevels over the full hierarchy down to 64th notes. */
  lemma SelectedFrom(ts: TimeSignature, levels: seq<nat>) returns (chosen: seq<int>)
    requires LevelsFromTS(ts, levels).Success?
    ensures chosen == ChosenLevels(levels)
    ensures HierarchyFromTS(ts, 64).Success?
    ensures forall i :: 0 <= i < |chosen| ==> 0 <= chosen[i] < |HierarchyFromTS(ts, 64).value|
    ensures LevelsFromTS(ts, levels).value == SelectLevels(HierarchyFromTS(ts, 64).value, chosen)
  {
    chosen := ChosenLevels(levels);
    var built := HierarchyFromTS(ts, 64);
    assert LevelsFromTS(ts, levels) == (match built case Failure(e) => Failure(e) case Success(full) => PickLevels(full, chosen));
  }

  /** Whatever the signature, a level selection that succeeds is shaped for the splitter. */
  lemma LevelsFromTSShaped(ts: TimeSignature, levels: seq<nat>)
    requires LevelsFromTS(ts, levels).Success?
    ensures Shaped(LevelsFromTS(ts, levels).value)
  {
    TimeSignatureHierarchyShaped(ts, 64);
    var chosen := SelectedFrom(ts, levels);
    SelectionKeepsForm(HierarchyFromTS(ts, 64).value, chosen);
  }

  // ---------------------------------------------------------------------------
  // offsetListFromPulseLengths

  predicate DividesAt(pulses: seq<int>, i: nat)
    requires i + 1 < |pulses|
  {
    pulses[i + 1] != 0 && pulses[i] % pulses[i + 1] == 0
  }

  /** Each pulse divides the one above it. */
  predicate DividesNext(pulses: seq<int>)
  {
    forall i: nat :: i + 1 < |pulses| ==> DividesAt(pulses, i)
  }

  /** The 2:1 or 3:1 check is a special case of each pulse dividing the one above. */
  lemma TwoOrThreeDivides(pulses: seq<int>)
    requires forall i :: 0 <= i < |pulses| ==> pulses[i] > 0
    requires TwoOrThree(pulses)
    ensures DividesNext(pulses)
  {
    forall i: nat | i + 1 < |pulses|
      ensures DividesAt(pulses, i)
    {
      assert RatioAt(pulses, i);
      if pulses[i] == 2 * pulses[i + 1] {
        DivModUnique(pulses[i], pulses[i + 1], 2, 0);
      } else {
        DivModUnique(pulses[i], pulses[i + 1], 3, 0);
      }
    }
  }

  /** The longest pulse, taken as the measure, gives the level [0, pulse]. */
  lemma WholePulse(pulse: int)
    requires pulse > 0
    ensures PulseOffsets(pulse, pulse) == [0, pulse]
  {
    assert BelowCount(pulse, pulse) == 1 + BelowCount(0, pulse);
  }

  lemma PulseGridsSpan(measureLength: int, pulses: seq<int>)
    requires forall i :: 0 <= i < |pulses| ==> pulses[i] > 0
    requires measureLength > 0
    ensures Spans(PulseGrids(measureLength, pulses), measureLength)
    ensures DividesNext(pulses) ==> Chained(PulseGrids(measureLength, pulses))
  {
    var h := PulseGrids(measureLength, pulses);
    forall k | 0 <= k < |h|
      ensures |h[k]| > 0 && h[k][0] == 0 && Increasing(h[k]) && Last(h[k]) == measureLength
    {
      PulseOffsetsGrid(measureLength, pulses[k]);
    }
    if DividesNext(pulses) {
      forall k | 0 <= k < |h| - 1
        ensures Refines(h[k], h[k + 1])
      {
        assert DividesAt(pulses, k);
        PulseRefines(measureLength, pulses[k], pulses[k + 1]);
      }
    }
  }

  /**
   * Without a measure length, the pulse hierarchy is one level per pulse,
   * longest first, the longest pulse being the measure; it is shaped, and
   * well formed when the 2:1/3:1 check ran or each pulse divides the one
   * above it.
   */
  lemma PulseHierarchyWellFormed(pulseLengths: seq<int>, require2or3: bool)
    requires forall i :: 0 <= i < |pulseLengths| ==> pulseLengths[i] > 0
    requires PulseHierarchy(pulseLengths, None, require2or3).Success?
    ensures var h := PulseHierarchy(pulseLengths, None, require2or3).value;
      && |h| == |pulseLengths|
      && Shaped(h)
      && h[0] == [0, SortDescending(pulseLengths)[0]]
      && (forall i :: 0 <= i < |pulseLengths| ==> pulseLengths[i] <= MeasureLength(h))
      && (require2or3 || DividesNext(SortDescending(pulseLengths)) ==> WellFormed(h))
  {
    var pulses := SortDescending(pulseLengths);
    SortedPulsesPositive(pulseLengths);
    var measureLength := pulses[0];
    var h := PulseGrids(measureLength, pulses);
    assert PulseHierarchy(pulseLengths, None, require2or3).value == h;
    WholePulse(measureLength);
    PulseGridsSpan(measureLength, pulses);
    LongestFirst(pulseLengths);
    if require2or3 {
      TwoOrThreeDivides(pulses);
    }
    SpansShaped(h, measureLength);
  }

  /** The first of the sorted pulses is the longest. */
  lemma LongestFirst(pulseLengths: seq<int>)
    requires |pulseLengths| > 0
    ensures forall i :: 0 <= i < |pulseLengths| ==> pulseLengths[i] <= SortDescending(pulseLengths)[0]
  {
    var pulses := SortDescending(pulseLengths);
    forall i | 0 <= i < |pulseLengths|
      ensures pulseLengths[i] <= pulses[0]
    {
      assert pulseLengths[i] in multiset(pulses);
      var k :| 0 <= k < |pulses| && pulses[k] == pulseLengths[i];
      if k > 0 {
        assert pulses[0] >= pulses[k];
      }
    }
  }

  /** A spanning hierarchy headed by [0, measure] is shaped, and well formed once chained. */
  lemma SpansShaped(h: Hierarchy, measureLength: int)
    requires |h| > 0 && h[0] == [0, measureLength] && measureLength > 0
    requires Spans(h, measureLength)
    ensures Shaped(h)
    ensures Chained(h) ==> WellFormed(h)
  {
    if Chained(h) {
      NestedFromNeighbours(h);
    }
  }

  /**
   * With a measure length supplied, every level runs from 0 to that length
   * in steps of its pulse, and the levels nest when each pulse divides the
   * one above it.
   */
  lemma PulseHierarchyWithMeasure(pulseLengths: seq<int>, measureLength: int, require2or3: bool)
    requires forall i :: 0 <= i < |pulseLengths| ==> pulseLengths[i] > 0
    requires measureLength != 0
    requires PulseHierarchy(pulseLengths, Some(measureLength), require2or3).Success?
    ensures var h := PulseHierarchy(pulseLengths, Some(measureLength), require2or3).value;
      && |h| == |pulseLengths|
      && Spans(h, measureLength)
      && (require2or3 || DividesNext(SortDescending(pulseLengths)) ==> Nested(h))
  {
    var pulses := SortDescending(pulseLengths);
    SortedPulsesPositive(pulseLengths);
    var h := PulseGrids(measureLength, pulses);
    assert PulseHierarchy(pulseLengths, Some(measureLength), require2or3).value == h;
    PulseGridsSpan(measureLength, pulses);
    if require2or3 {
      TwoOrThreeDivides(pulses);
    }
    if DividesNext(pulses) {
      NestedFromNeighbours(h);
    }
  }

  // ---------------------------------------------------------------------------
  // The constructor's choice of source

  /** Pulse lengths, when they are the source, never fail: the ratio check is off and no measure is given. */
  lemma PulseSourceSucceeds(timeSignature: Option<TimeSignature>, levels: seq<nat>, pulseLengths: seq<int>)
    requires forall i :: 0 <= i < |pulseLengths| ==> pulseLengths[i] > 0
    requires |pulseLengths| > 0
    ensures ChooseHierarchy(timeSignature, levels, pulseLengths, []).Success?
    ensures ChooseHierarchy(timeSignature, levels, pulseLengths, []) == PulseHierarchy(pulseLengths, None, false)
  {
    SortedPulsesPositive(pulseLengths);
    var pulses := SortDescending(pulseLengths);
    assert PulseHierarchy(pulseLengths, None, false) == Success(PulseGrids(pulses[0], pulses));
    assert HierarchySource(timeSignature, levels, pulseLengths, []) == PulseHierarchy(pulseLengths, None, false);
  }

  /** With levels and a time signature (and no pulses), the constructor uses offsetsFromTSAndLevels as it is. */
  lemma LevelsSource(ts: TimeSignature, levels: seq<nat>)
    requires |levels| > 0
    ensures ChooseHierarchy(Some(ts), levels, [], []) == LevelsFromTS(ts, levels)
  {
  }

  /** A time signature on its own is read with the levels 0-3, as if they had been given. */
  lemma TimeSignatureDefaults(ts: TimeSignature, defaults: seq<nat>)
    requires defaults == DefaultLevels
    ensures ChooseHierarchy(Some(ts), [], [], []) == ChooseHierarchy(Some(ts), defaults, [], [])
  {
  }

  /** Every hierarchy the constructor derives (rather than receives) is shaped for the splitter. */
  lemma DerivedHierarchyShaped(timeSignature: Option<TimeSignature>, levels: seq<nat>, pulseLengths: seq<int>)
    requires forall i :: 0 <= i < |pulseLengths| ==> pulseLengths[i] > 0
    requires ChooseHierarchy(timeSignature, levels, pulseLengths, []).Success?
    ensures Shaped(ChooseHierarchy(timeSignature, levels, pulseLengths, []).value)
  {
    if |pulseLengths| > 0 {
      PulseHierarchyWellFormed(pulseLengths, false);
    } else if |levels| > 0 {
      LevelsFromTSShaped(timeSignature.value, levels);
    } else {
      LevelsFromTSShaped(timeSignature.value, DefaultLevels);
    }
  }
}
