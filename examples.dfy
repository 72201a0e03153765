/**
 * The unit tests of breakItUp.py as lemma instances, in ticks (16 per
 * quarter): 6/8 is a 48-tick measure, an eighth 8 ticks.
 */
module BreakItUpExamples {
  import opened Wrappers
  import opened Metre
  import opened OneLevel
  import opened HierarchyBuilder
  import opened HierarchyFacts
  import opened ReGrouping

  /** Levels 0-3 of 6/8: the measure, the dotted quarters, the eighths, the sixteenths. */
  const SixEight: Hierarchy := [
    [0, 48],
    [0, 24, 48],
    [0, 8, 16, 24, 32, 40, 48],
    [0, 4, 8, 12, 16, 20, 24, 28, 32, 36, 40, 44, 48]
  ]

  lemma SixEightShaped()
    ensures Shaped(SixEight) && MeasureLength(SixEight) == 48
  {
  }

  // Where a fragment starting at an eighth may run to in 6/8.

  lemma SixEightFromEighth()
    ensures Shaped(SixEight)
    ensures NextBoundary(SixEight, false, 8) == 24
  {
    assert LevelOf(SixEight, 8) == 2;
  }

  lemma SixEightFromEighthSameLevel()
    ensures Shaped(SixEight)
    ensures NextBoundary(SixEight, true, 8) == 16
  {
    assert LevelOf(SixEight, 8) == 2;
  }

  lemma SixEightFromSecondEighthSameLevel()
    ensures Shaped(SixEight)
    ensures NextBoundary(SixEight, true, 16) == 24
  {
    assert LevelOf(SixEight, 16) == 2;
  }

  lemma SixEightFromBeat(splitSameLevel: bool)
    ensures Shaped(SixEight)
    ensures NextBoundary(SixEight, splitSameLevel, 24) == 48
  {
    assert LevelOf(SixEight, 24) == 1;
  }

  /** ReGrouper(0.5, 1, timeSignature='6/8'): one dotted quarter's worth from the second eighth, not split. */
  lemma SplitSixEightShort()
    ensures Fragments(SixEight, false, 8, 16) == [Fragment(8, 16)]
  {
    SixEightShaped();
    SixEightFromEighth();
    FragmentsWhole(SixEight, false, 8, 16);
  }

  /** The same note with splitSameLevel: split at the next eighth. */
  lemma SplitSixEightShortSameLevel()
    ensures Fragments(SixEight, true, 8, 16) == [Fragment(8, 8), Fragment(16, 8)]
  {
    SixEightShaped();
    SixEightFromEighthSameLevel();
    SixEightFromSecondEighthSameLevel();
    FragmentsSplit(SixEight, true, 8, 16);
    FragmentsWhole(SixEight, true, 16, 8);
  }

  /** ReGrouper(0.5, 2, timeSignature='6/8'): split at the second dotted quarter. */
  lemma SplitSixEightLong()
    ensures Fragments(SixEight, false, 8, 32) == [Fragment(8, 16), Fragment(24, 16)]
  {
    SixEightShaped();
    SixEightFromEighth();
    SixEightFromBeat(false);
    FragmentsSplit(SixEight, false, 8, 32);
    FragmentsWhole(SixEight, false, 24, 16);
  }

  /** The same note with splitSameLevel: split at the next eighth and at the dotted quarter. */
  lemma SplitSixEightLongSameLevel()
    ensures Fragments(SixEight, true, 8, 32) == [Fragment(8, 8), Fragment(16, 8), Fragment(24, 16)]
  {
    SixEightShaped();
    SixEightFromEighthSameLevel();
    SixEightFromSecondEighthSameLevel();
    SixEightFromBeat(true);
    FragmentsSplit(SixEight, true, 8, 32);
    FragmentsSplit(SixEight, true, 16, 24);
    FragmentsWhole(SixEight, true, 24, 16);
  }

  // The 6/8 hierarchy ReGrouper builds from timeSignature='6/8' with the default levels.

  lemma DefaultLevelsChosen(levels: seq<nat>)
    requires levels == DefaultLevels
    ensures ChosenLevels(levels) == [0, 1, 2, 3]
  {
    ChosenLevelsSorted(levels);
  }

  lemma DefaultLevelsShallow(levels: seq<nat>)
    requires levels == DefaultLevels
    ensures Max(levels) <= MaxLevelDepth
  {
    assert forall i :: 0 <= i < |levels| ==> levels[i] <= 3;
  }

  lemma SixEightGrouping()
    ensures Regroup([6]) == Flat([3, 3])
    ensures HiddenRows(Flat([3, 3])) == [[3, 3]]
    ensures GroupingBeats(Flat([3, 3])) == 6
    ensures NoteTicks(8) == 8
  {
    RegroupIsLookup([6]);
    assert Sum([3, 3]) == Sum([3]) + 3;
    assert Sum([3]) == Sum([]) + 3;
  }

  lemma EighthsDown()
    ensures StepDenominators(8, 64) == [8, 16, 32, 64]
  {
  }

  lemma SixEightBeatLevel()
    ensures BeatOffsets([3, 3], 8) == [0, 24, 48]
  {
  }

  lemma SixEightEighths()
    ensures PulseOffsets(48, 8) == [0, 8, 16, 24, 32, 40, 48]
  {
  }

  lemma SixEightSixteenths()
    ensures PulseOffsets(48, 4) == [0, 4, 8, 12, 16, 20, 24, 28, 32, 36, 40, 44, 48]
  {
  }

  /** offsetHierarchyFromTS('6/8', 64): the measure, one hidden level, four pulse levels. */
  lemma SixEightFull(ts: TimeSignature) returns (full: Hierarchy)
    requires ts == TimeSignature([6], 8)
    ensures HierarchyFromTS(ts, 64) == Success(full)
    ensures |full| == 6 && full[..4] == SixEight
  {
    SixEightGrouping();
    EighthsDown();
    full := [[0, 48]] + HiddenLevels([[3, 3]], 8) + PulseLevels(48, [8, 16, 32, 64]);
    SixEightTop(full);
  }

  /** Its first four levels are SixEight. */
  lemma SixEightTop(full: Hierarchy)
    requires full == [[0, 48]] + HiddenLevels([[3, 3]], 8) + PulseLevels(48, [8, 16, 32, 64])
    ensures |full| == 6 && full[..4] == SixEight
  {
    SixEightBeatLevel();
    SixEightEighths();
    SixEightSixteenths();
    assert full[1] == BeatOffsets([3, 3], 8);
    assert full[2] == PulseOffsets(48, NoteTicks(8));
    assert full[3] == PulseOffsets(48, NoteTicks(16));
  }

  /** Picking levels 0-3 of a deep enough hierarchy keeps its first four levels. */
  lemma FirstFourPicked(full: Hierarchy, chosen: seq<int>)
    requires |full| >= 4 && chosen == [0, 1, 2, 3]
    ensures PickLevels(full, chosen) == Success(full[..4])
  {
    assert SelectLevels(full, chosen) == full[..4];
  }

  /** offsetsFromTSAndLevels('6/8', [0, 1, 2, 3]) is SixEight. */
  lemma SixEightLevels(ts: TimeSignature, levels: seq<nat>)
    requires ts == TimeSignature([6], 8) && levels == DefaultLevels
    ensures LevelsFromTS(ts, levels) == Success(SixEight)
  {
    DefaultLevelsChosen(levels);
    DefaultLevelsShallow(levels);
    var full := SixEightFull(ts);
    FirstFourPicked(full, ChosenLevels(levels));
  }

  /** ReGrouper(..., timeSignature='6/8') works on SixEight. */
  lemma SixEightChosen(ts: TimeSignature, defaults: seq<nat>)
    requires ts == TimeSignature([6], 8) && defaults == DefaultLevels
    ensures ChooseHierarchy(Some(ts), [], [], []) == Success(SixEight)
  {
    TimeSignatureDefaults(ts, defaults);
    LevelsSource(ts, defaults);
    SixEightLevels(ts, defaults);
  }

  /** testSplitSameLevel: ReGrouper(0.5, 1 or 2, timeSignature='6/8'), without and with splitSameLevel. */
  lemma TestSplitSameLevel(ts: TimeSignature)
    requires ts == TimeSignature([6], 8)
    ensures var chosen := ChooseHierarchy(Some(ts), [], [], []);
      && chosen.Success?
      && Fragments(chosen.value, false, 8, 16) == [Fragment(8, 16)]
      && Fragments(chosen.value, true, 8, 16) == [Fragment(8, 8), Fragment(16, 8)]
      && Fragments(chosen.value, false, 8, 32) == [Fragment(8, 16), Fragment(24, 16)]
      && Fragments(chosen.value, true, 8, 32) == [Fragment(8, 8), Fragment(16, 8), Fragment(24, 16)]
  {
    SixEightChosen(ts, DefaultLevels);
    SplitSixEightShort();
    SplitSixEightShortSameLevel();
    SplitSixEightLong();
    SplitSixEightLongSameLevel();
  }

  // ---------------------------------------------------------------------------
  // testGetOffsetsFromTSAndLevels and testPulseLengthsToOffsetList

  /** Levels 0-2 of 4/4: the measure, the half notes, the quarters. */
  const FourFourTop: Hierarchy := [[0, 64], [0, 32, 64], [0, 16, 32, 48, 64]]

  lemma FourFourGrouping()
    ensures Regroup([4]) == Flat([2, 2])
    ensures HiddenRows(Flat([2, 2])) == [[2, 2]]
    ensures GroupingBeats(Flat([2, 2])) == 4
    ensures NoteTicks(4) == 16
  {
    RegroupIsLookup([4]);
    assert Sum([2, 2]) == Sum([2]) + 2;
    assert Sum([2]) == Sum([]) + 2;
  }

  lemma QuartersDown()
    ensures StepDenominators(4, 64) == [4, 8, 16, 32, 64]
  {
  }

  lemma FourFourHalves()
    ensures BeatOffsets([2, 2], 16) == [0, 32, 64]
  {
  }

  lemma FourFourQuarters()
    ensures PulseOffsets(64, 16) == [0, 16, 32, 48, 64]
  {
  }

  lemma FourFourEighths()
    ensures PulseOffsets(64, 8) == [0, 8, 16, 24, 32, 40, 48, 56, 64]
  {
  }

  /** offsetHierarchyFromTS('4/4', 64): the measure, the halves, then quarters down to 64ths. */
  lemma FourFourFull(ts: TimeSignature) returns (full: Hierarchy)
    requires ts == TimeSignature([4], 4)
    ensures HierarchyFromTS(ts, 64) == Success(full)
    ensures |full| == 7 && full[..3] == FourFourTop
    ensures full[3] == [0, 8, 16, 24, 32, 40, 48, 56, 64]
    ensures full[..4] == FourFour
  {
    FourFourGrouping();
    QuartersDown();
    full := [[0, 64]] + HiddenLevels([[2, 2]], 16) + PulseLevels(64, [4, 8, 16, 32, 64]);
    FourFourLevels(full);
  }

  lemma FourFourLevels(full: Hierarchy)
    requires full == [[0, 64]] + HiddenLevels([[2, 2]], 16) + PulseLevels(64, [4, 8, 16, 32, 64])
    ensures |full| == 7 && full[..3] == FourFourTop
    ensures full[3] == [0, 8, 16, 24, 32, 40, 48, 56, 64]
    ensures full[..4] == FourFour
  {
    FourFourHalves();
    FourFourQuarters();
    FourFourEighths();
    assert full[1] == BeatOffsets([2, 2], 16);
    assert full[2] == PulseOffsets(64, NoteTicks(4));
    assert full[3] == PulseOffsets(64, NoteTicks(8));
  }

  /** Levels given as [1, 2] are taken as [0, 1, 2]. */
  lemma OneTwoChosen(levels: seq<nat>)
    requires levels == [1, 2]
    ensures ChosenLevels(levels) == [0, 1, 2]
  {
    TwoAscending(levels);
    SortAscendingSorted(levels);
  }

  lemma TwoAscending(s: seq<int>)
    requires |s| == 2 && s[0] <= s[1]
    ensures Ascending(s)
  {
  }

  lemma OneTwoShallow(levels: seq<nat>)
    requires levels == [1, 2]
    ensures Max(levels) <= MaxLevelDepth
  {
    assert forall i :: 0 <= i < |levels| ==> levels[i] <= 2;
  }

  /** Levels given as [3] are taken as [0, 3]. */
  lemma ThreeChosen(levels: seq<nat>)
    requires levels == [3]
    ensures ChosenLevels(levels) == [0, 3]
    ensures Max(levels) <= MaxLevelDepth
  {
    SortAscendingSorted(levels);
  }

  lemma FirstThreePicked(full: Hierarchy, chosen: seq<int>)
    requires |full| >= 3 && chosen == [0, 1, 2]
    ensures PickLevels(full, chosen) == Success(full[..3])
  {
    assert SelectLevels(full, chosen) == full[..3];
  }

  lemma EndsPicked(full: Hierarchy, chosen: seq<int>)
    requires |full| >= 4 && chosen == [0, 3]
    ensures PickLevels(full, chosen) == Success([full[0], full[3]])
  {
    assert SelectLevels(full, chosen) == [full[0], full[3]];
  }

  /** offsetsFromTSAndLevels('4/4', [1, 2]). */
  lemma FourFourOneTwo(ts: TimeSignature, levels: seq<nat>)
    requires ts == TimeSignature([4], 4) && levels == [1, 2]
    ensures LevelsFromTS(ts, levels) == Success(FourFourTop)
  {
    OneTwoChosen(levels);
    OneTwoShallow(levels);
    var full := FourFourFull(ts);
    FirstThreePicked(full, ChosenLevels(levels));
  }

  /** offsetsFromTSAndLevels('4/4', [3]): the measure and the eighths. */
  lemma FourFourThree(ts: TimeSignature, levels: seq<nat>)
    requires ts == TimeSignature([4], 4) && levels == [3]
    ensures LevelsFromTS(ts, levels) == Success([[0, 64], [0, 8, 16, 24, 32, 40, 48, 56, 64]])
  {
    ThreeChosen(levels);
    var full := FourFourFull(ts);
    EndsPicked(full, ChosenLevels(levels));
    assert full[0] == FourFourTop[0];
  }

  /** offsetsFromTSAndLevels('6/8', [1, 2]). */
  lemma SixEightOneTwo(ts: TimeSignature, levels: seq<nat>)
    requires ts == TimeSignature([6], 8) && levels == [1, 2]
    ensures LevelsFromTS(ts, levels) == Success(SixEight[..3])
  {
    OneTwoChosen(levels);
    OneTwoShallow(levels);
    var full := SixEightFull(ts);
    FirstThreePicked(full, ChosenLevels(levels));
    ShorterPrefix(full, SixEight);
  }

  lemma FourFourHalfGrid()
    ensures PulseOffsets(64, 32) == [0, 32, 64]
  {
  }

  lemma SixEightBeatGrid()
    ensures PulseOffsets(48, 24) == [0, 24, 48]
  {
  }

  lemma ThreeGrids(measureLength: int, pulses: seq<int>)
    requires |pulses| == 3 && pulses[0] > 0 && pulses[1] > 0 && pulses[2] > 0
    ensures PulseGrids(measureLength, pulses)
         == [PulseOffsets(measureLength, pulses[0]), PulseOffsets(measureLength, pulses[1]),
             PulseOffsets(measureLength, pulses[2])]
  {
  }

  lemma ShorterPrefix(full: Hierarchy, top: Hierarchy)
    requires |full| >= 4 && full[..4] == top
    ensures full[..3] == top[..3]
  {
    assert full[..3] == full[..4][..3];
  }

  /** offsetListFromPulseLengths([4, 2, 1]) in ticks: the same levels as '4/4' with [1, 2]. */
  lemma FourFourPulses(pulseLengths: seq<int>)
    requires pulseLengths == [64, 32, 16]
    ensures PulseHierarchy(pulseLengths, None, false) == Success(FourFourTop)
  {
    ThreeDescending(pulseLengths);
    PulseHierarchySorted(pulseLengths, false);
    WholePulse(64);
    FourFourHalfGrid();
    FourFourQuarters();
    ThreeGrids(64, pulseLengths);
    assert PulseGrids(pulseLengths[0], pulseLengths) == [[0, 64], [0, 32, 64], [0, 16, 32, 48, 64]];
  }

  /** offsetListFromPulseLengths([3, 1.5, 0.5]) in ticks: the same levels as '6/8' with [1, 2]. */
  lemma SixEightPulses(pulseLengths: seq<int>)
    requires pulseLengths == [48, 24, 8]
    ensures PulseHierarchy(pulseLengths, None, false) == Success(SixEight[..3])
  {
    ThreeDescending(pulseLengths);
    PulseHierarchySorted(pulseLengths, false);
    WholePulse(48);
    SixEightBeatGrid();
    SixEightEighths();
    ThreeGrids(48, pulseLengths);
    assert PulseGrids(pulseLengths[0], pulseLengths) == [[0, 48], [0, 24, 48], [0, 8, 16, 24, 32, 40, 48]];
    SixEightPrefix();
  }

  lemma SixEightPrefix()
    ensures SixEight[..3] == [[0, 48], [0, 24, 48], [0, 8, 16, 24, 32, 40, 48]]
  {
  }

  /** testRequire2or3: pulses of 4 and 1 quarters are refused when the ratio check is on. */
  lemma TestRequire2or3(pulseLengths: seq<int>)
    requires pulseLengths == [64, 16]
    ensures PulseHierarchy(pulseLengths, None, true) == Failure(RatioNot2Or3)
  {
    TwoDescending(pulseLengths);
    PulseHierarchySorted(pulseLengths, true);
    assert !RatioAt(pulseLengths, 0);
  }

  lemma TwoDescending(p: seq<int>)
    requires |p| == 2 && p[0] >= p[1] > 0
    ensures Descending(p) && forall i :: 0 <= i < |p| ==> p[i] > 0
  {
  }

  lemma ThreeDescending(p: seq<int>)
    requires |p| == 3 && p[0] >= p[1] >= p[2] > 0
    ensures Descending(p) && forall i :: 0 <= i < |p| ==> p[i] > 0
  {
  }

  // ---------------------------------------------------------------------------
  // testOffsetHierarchyFromTS (entry '2/4', down to 32nd notes)

  lemma TwoFourGrouping()
    ensures Regroup([2]) == Flat([2])
    ensures HiddenRows(Flat([2])) == []
    ensures GroupingBeats(Flat([2])) == 2
  {
    RegroupIsLookup([2]);
    assert Sum([2]) == Sum([]) + 2;
  }

  lemma QuartersToThirtySeconds()
    ensures StepDenominators(4, 32) == [4, 8, 16, 32]
  {
  }

  lemma TwoFourQuarters()
    ensures PulseOffsets(32, 16) == [0, 16, 32]
  {
  }

  lemma TwoFourEighths()
    ensures PulseOffsets(32, 8) == [0, 8, 16, 24, 32]
  {
  }

  lemma TwoFourSixteenths()
    ensures PulseOffsets(32, 4) == [0, 4, 8, 12, 16, 20, 24, 28, 32]
  {
  }

  lemma TwoFourThirtySeconds()
    ensures PulseOffsets(32, 2) == [0, 2, 4, 6, 8, 10, 12, 14, 16, 18, 20, 22, 24, 26, 28, 30, 32]
  {
  }

  lemma TwoFourLevels(h: Hierarchy)
    requires h == [[0, 32]] + HiddenLevels([], 16) + PulseLevels(32, [4, 8, 16, 32])
    ensures h == [[0, 32], [0, 16, 32], [0, 8, 16, 24, 32], [0, 4, 8, 12, 16, 20, 24, 28, 32],
                  [0, 2, 4, 6, 8, 10, 12, 14, 16, 18, 20, 22, 24, 26, 28, 30, 32]]
  {
    TwoFourQuarters();
    TwoFourEighths();
    TwoFourSixteenths();
    TwoFourThirtySeconds();
    assert h[1] == PulseOffsets(32, NoteTicks(4));
    assert h[2] == PulseOffsets(32, NoteTicks(8));
    assert h[3] == PulseOffsets(32, NoteTicks(16));
    assert h[4] == PulseOffsets(32, NoteTicks(32));
  }

  /** offsetHierarchyFromTS('2/4', minimumPulse=32) is its entry in offsetHierarchyExamples. */
  lemma TwoFourExample(ts: TimeSignature)
    requires ts == TimeSignature([2], 4)
    ensures HierarchyFromTS(ts, 32)
         == Success([[0, 32], [0, 16, 32], [0, 8, 16, 24, 32], [0, 4, 8, 12, 16, 20, 24, 28, 32],
                     [0, 2, 4, 6, 8, 10, 12, 14, 16, 18, 20, 22, 24, 26, 28, 30, 32]])
  {
    TwoFourGrouping();
    QuartersToThirtySeconds();
    TwoFourLevels([[0, 32]] + HiddenLevels([], 16) + PulseLevels(32, [4, 8, 16, 32]));
  }

  // ---------------------------------------------------------------------------
  // The class documentation's 4/4 example: a half note starting on the
  // second 16th (offset 0.25, duration 2.0, levels 0-3).

  /** Levels 0-3 of 4/4. */
  const FourFour: Hierarchy := [
    [0, 64],
    [0, 32, 64],
    [0, 16, 32, 48, 64],
    [0, 8, 16, 24, 32, 40, 48, 56, 64]
  ]

  lemma FourFourShaped()
    ensures Shaped(FourFour) && MeasureLength(FourFour) == 64
  {
  }

  /** ReGrouper(..., timeSignature='4/4') works on FourFour. */
  lemma FourFourChosen(ts: TimeSignature, levels: seq<nat>)
    requires ts == TimeSignature([4], 4) && levels == DefaultLevels
    ensures LevelsFromTS(ts, levels) == Success(FourFour)
  {
    DefaultLevelsChosen(levels);
    DefaultLevelsShallow(levels);
    var full := FourFourFull(ts);
    FirstFourPicked(full, ChosenLevels(levels));
  }

  /** On no level: advance on the finest level, to the next eighth. */
  lemma FourFourFromSixteenth()
    ensures Shaped(FourFour)
    ensures NextBoundary(FourFour, false, 4) == 8
  {
    assert LevelOf(FourFour, 4) == 4;
  }

  lemma FourFourFromEighth()
    ensures Shaped(FourFour)
    ensures NextBoundary(FourFour, false, 8) == 16
  {
    assert LevelOf(FourFour, 8) == 3;
  }

  lemma FourFourFromQuarter()
    ensures Shaped(FourFour)
    ensures NextBoundary(FourFour, false, 16) == 32
  {
    assert LevelOf(FourFour, 16) == 2;
  }

  lemma FourFourFromHalf()
    ensures Shaped(FourFour)
    ensures NextBoundary(FourFour, false, 32) == 64
  {
    assert LevelOf(FourFour, 32) == 1;
  }

  /**
   * Each split moves up one level: (0.25, 0.25), (0.5, 0.5), (1.0, 1.0) and
   * the remaining 16th from the half-bar, (2.0, 0.25).
   */
  lemma DocumentedSplit()
    ensures Fragments(FourFour, false, 4, 32)
         == [Fragment(4, 4), Fragment(8, 8), Fragment(16, 16), Fragment(32, 4)]
  {
    FourFourShaped();
    FourFourFromSixteenth();
    FourFourFromEighth();
    FourFourFromQuarter();
    FourFourFromHalf();
    FragmentsSplit(FourFour, false, 4, 32);
    FragmentsSplit(FourFour, false, 8, 28);
    FragmentsSplit(FourFour, false, 16, 20);
    FragmentsWhole(FourFour, false, 32, 4);
  }

  // ---------------------------------------------------------------------------
  // testFromPulseLength, scaled from quarters to ticks (one quarter, 16 ticks)

  /** ReGrouper(0, 1, pulseLengths=[1]): a note on the downbeat is never split. */
  lemma PulseDownbeat(pulseLengths: seq<int>)
    requires pulseLengths == [16]
    ensures ChooseHierarchy(None, [], pulseLengths, []) == Success([[0, 16]])
    ensures Fragments([[0, 16]], false, 0, 16) == [Fragment(0, 16)]
  {
    PulseHierarchySorted(pulseLengths, false);
    WholePulse(16);
    assert PulseGrids(16, pulseLengths) == [PulseOffsets(16, 16)];
    FragmentsWhole([[0, 16]], false, 0, 16);
  }

  /** Three positive pulses listed in reverse: the same multiset. */
  lemma ReversedThree(p: seq<int>, q: seq<int>)
    requires |p| == 3 && p[0] > 0 && p[1] > 0 && p[2] > 0
    requires q == [p[2], p[1], p[0]]
    ensures forall i :: 0 <= i < |p| ==> p[i] > 0
    ensures forall i :: 0 <= i < |q| ==> q[i] > 0
    ensures multiset(p) == multiset(q)
  {
    assert p == [p[0], p[1], p[2]];
  }

  /** Pulses of 1, 2 and 4 quarters give the levels of 4/4 down to the quarter. */
  lemma QuarterHalfWhole(pulseLengths: seq<int>)
    requires pulseLengths == [16, 32, 64]
    ensures ChooseHierarchy(None, [], pulseLengths, []) == Success(FourFourTop)
  {
    var sorted := [64, 32, 16];
    ReversedThree(pulseLengths, sorted);
    PulseHierarchyOrderFree(pulseLengths, sorted, None, false);
    FourFourPulses(sorted);
  }

  lemma FourFourTopShaped()
    ensures Shaped(FourFourTop) && MeasureLength(FourFourTop) == 64
    ensures NextBoundary(FourFourTop, false, 16) == 32
  {
    assert LevelOf(FourFourTop, 16) == 2;
  }

  lemma FourFourTopFromHalf()
    ensures Shaped(FourFourTop)
    ensures NextBoundary(FourFourTop, false, 32) == 64
  {
    assert LevelOf(FourFourTop, 32) == 1;
  }

  /** ReGrouper(1, 3, pulseLengths=[1, 2, 4]) gives [(1, 1), (2, 2)]. */
  lemma PulseOneThree(pulseLengths: seq<int>)
    requires pulseLengths == [16, 32, 64]
    ensures ChooseHierarchy(None, [], pulseLengths, []) == Success(FourFourTop)
    ensures Fragments(FourFourTop, false, 16, 48) == [Fragment(16, 16), Fragment(32, 32)]
  {
    QuarterHalfWhole(pulseLengths);
    FourFourTopShaped();
    FourFourTopFromHalf();
    FragmentsSplit(FourFourTop, false, 16, 48);
    FragmentsWhole(FourFourTop, false, 32, 32);
  }

  /** Pulses of 1, 3 and 6 quarters: a compound measure of two dotted halves. */
  const DottedHalves: Hierarchy := [
    [0, 96],
    [0, 48, 96],
    [0, 16, 32, 48, 64, 80, 96]
  ]

  lemma DottedHalvesGrids()
    ensures PulseOffsets(96, 48) == [0, 48, 96]
    ensures PulseOffsets(96, 16) == [0, 16, 32, 48, 64, 80, 96]
  {
  }

  lemma DottedHalvesChosen(pulseLengths: seq<int>)
    requires pulseLengths == [16, 48, 96]
    ensures ChooseHierarchy(None, [], pulseLengths, []) == Success(DottedHalves)
  {
    var sorted := [96, 48, 16];
    ReversedThree(pulseLengths, sorted);
    PulseHierarchyOrderFree(pulseLengths, sorted, None, false);
    DottedHalvesPulses(sorted);
  }

  lemma DottedHalvesPulses(pulseLengths: seq<int>)
    requires pulseLengths == [96, 48, 16]
    ensures PulseHierarchy(pulseLengths, None, false) == Success(DottedHalves)
  {
    ThreeDescending(pulseLengths);
    PulseHierarchySorted(pulseLengths, false);
    WholePulse(96);
    DottedHalvesGrids();
    ThreeGrids(96, pulseLengths);
    assert PulseGrids(pulseLengths[0], pulseLengths) == [[0, 96], [0, 48, 96], [0, 16, 32, 48, 64, 80, 96]];
  }

  lemma DottedHalvesBoundaries()
    ensures Shaped(DottedHalves) && MeasureLength(DottedHalves) == 96
    ensures NextBoundary(DottedHalves, false, 32) == 48
  {
    assert LevelOf(DottedHalves, 32) == 2;
  }

  lemma DottedHalvesFromBeat()
    ensures Shaped(DottedHalves)
    ensures NextBoundary(DottedHalves, false, 48) == 96
  {
    assert LevelOf(DottedHalves, 48) == 1;
  }

  /** ReGrouper(2, 4, pulseLengths=[1, 3, 6]) gives [(2, 1), (3, 3)]. */
  lemma PulseTwoFour(pulseLengths: seq<int>)
    requires pulseLengths == [16, 48, 96]
    ensures ChooseHierarchy(None, [], pulseLengths, []) == Success(DottedHalves)
    ensures Fragments(DottedHalves, false, 32, 64) == [Fragment(32, 16), Fragment(48, 48)]
  {
    DottedHalvesChosen(pulseLengths);
    DottedHalvesBoundaries();
    DottedHalvesFromBeat();
    FragmentsSplit(DottedHalves, false, 32, 64);
    FragmentsWhole(DottedHalves, false, 48, 48);
  }
}
