# breakItUp — metrical note splitting, modelled in Dafny

`breakItUp.py` splits a note (or rest) that starts at some offset in a measure,
and lasts some length, into tied pieces. The cut points are the boundaries of
a *metrical hierarchy*: a list of levels, each a list of offsets from the start
of the measure. Level 0 is the whole measure `[0, measureLength]`. Each lower
level divides the one above it: beats, hidden beat groups, then every note
value down to a minimum pulse. Each piece the splitter emits stops at the next
boundary of the level it must not cross. So a syncopated note is written as
tied notes that "move up" the hierarchy one level at a time.

The model covers both halves of the program.

- **Building a hierarchy.** There are four ways in, chosen in this order:
  - an explicit hierarchy;
  - a list of pulse lengths (`offsetListFromPulseLengths`);
  - a time signature plus chosen levels (`offsetsFromTSAndLevels`);
  - a time signature alone, which takes levels 0-3.

  Underneath these sit `offsetHierarchyFromTS` and the two one-level
  converters, `offsetsFromLengths` and `offsetsFromBeatPattern`.
- **Splitting a note.** This is the `ReGrouper` class: its constructor,
  `levelPass` and `advanceOneStep`.

All offsets and durations are whole numbers of *ticks*. One tick is a 64th
note, so a quarter length is 16 ticks and a whole note 64. Every offset of a
hierarchy built from a time signature (down to 64th notes) is a whole number
of ticks, so there the source's floating-point membership tests
(`updatedOffset in thisLevel`) become exact integer tests. Pulse lengths,
explicit hierarchies and note offsets that are not whole 64ths (triplets, for
instance) are outside the model, as "## Left out" says.

The modules are:

- `Metre`: ticks, levels, the shape predicates, sorting.
- `OneLevel`: the one-level converters.
- `HierarchyBuilder`: the three hierarchy builders and the constructor's
  choice of source.
- `HierarchyFacts`: what the built hierarchies satisfy.
- `ReGrouping`: the splitter, as functions `Pass`/`Advance` and as the class
  `ReGrouper`, whose methods are proved to follow them.
- `BreakItUpExamples`: the module's unit tests and docstring examples, stated
  as lemmas.
- `Wrappers`: the `Option` and `Result` types.

Each exception the source raises is a `Failure` carrying an `Error` value.

## Model

| member | source | states |
|---|---|---|
| Metre.NoteTicks | breakItUp.py:377-379 | the note value 1/d lasts a positive number of ticks, with ticks × d = one whole note |
| Metre.NoteTicksDivide | breakItUp.py:377-380 | the length of each finer supported note value divides the length of each coarser one |
| Metre.IndexOf | breakItUp.py:374-375 | the index `list.index` returns is that of the first occurrence |
| Metre.Max | breakItUp.py:433 | `max(levels)` is one of the levels and at least every level |
| Metre.SortAscending | breakItUp.py:435 | `sorted` returns a permutation of its input, in ascending order |
| Metre.SortDescending | breakItUp.py:492 | `sorted(...)[::-1]` returns a permutation of its input, in descending order |
| Metre.Reverse | breakItUp.py:492 | `[::-1]` puts element i at position n-1-i and keeps the multiset |
| Metre.AscendingUnique | breakItUp.py:435 | two ascending orderings of the same multiset are equal, so the sort result is unique |
| Metre.SortAscendingSorted | breakItUp.py:435 | sorting an already ascending level list leaves it unchanged |
| Metre.SortDescendingSorted | breakItUp.py:492 | pulse lengths already listed longest first are left as given |
| Metre.SortDescendingAscending | breakItUp.py:492 | pulse lengths listed shortest first come out exactly reversed |
| Metre.SortDescendingOrderFree | breakItUp.py:492 | the sorted pulse list depends only on the multiset of pulse lengths, not their order |
| OneLevel.BelowCount | breakItUp.py:533-537 | the while loop appends n offsets: none when the measure length is not positive, else (n-1)·p < measure length ≤ n·p |
| OneLevel.PulseOffsets | breakItUp.py:533-540 | the grid ends with the measure length and, for a positive measure, starts at 0 |
| OneLevel.PulseOffsetsGrid | breakItUp.py:520-542 | the offsets strictly increase and are exactly the multiples of the pulse below the measure length, plus the measure length |
| OneLevel.OffsetsFromLengths | breakItUp.py:533-540 | the while loop with includeMeasureLength builds exactly that grid |
| OneLevel.PulseRefines | breakItUp.py:377-380 | a pulse grid contains every offset of any grid whose pulse is a whole multiple of its own |
| OneLevel.BeatOffsets | breakItUp.py:556-565 | one offset per beat group plus the closing total: it starts at 0 and ends at the total beat count in ticks |
| OneLevel.OffsetsFromBeatPattern | breakItUp.py:545-565 | the for loop over the beat list builds exactly the running totals × the length of the beat unit |
| OneLevel.BeatOffsetsIncreasing | breakItUp.py:556-565 | with positive groups the beat offsets strictly increase |
| OneLevel.BeatsOnGrid | breakItUp.py:364-380 | beat-group boundaries lie on every pulse grid whose pulse divides the beat unit, so the hidden levels nest over the pulse levels |
| HierarchyBuilder.RegroupIsLookup | breakItUp.py:337-349 | the rewrite loop maps [4], [6], [9], [12], [15], [6,9], [9,6] to their table groupings and leaves every other grouping as it is |
| HierarchyBuilder.HiddenLevels | breakItUp.py:364-371 | one hidden level per grouping row; each has one offset per group plus one, starts at 0 and ends at that row's beat total in ticks |
| HierarchyBuilder.OffsetsFromBeatRows | breakItUp.py:364-371 | the loop over hidden rows appends exactly those levels |
| HierarchyBuilder.PulseLevels | breakItUp.py:377-380 | one pulse level per stepped denominator; every level ends at the measure length and, for a positive measure, starts at 0 |
| HierarchyBuilder.OffsetsFromDenominators | breakItUp.py:377-380 | the loop over the denominator slice appends exactly those grids |
| HierarchyBuilder.OffsetHierarchyFromTS | breakItUp.py:260-382 | it fails on an unsupported denominator or minimum pulse, and otherwise returns the measure level, then the hidden levels, then the pulse levels |
| HierarchyBuilder.ChosenLevels | breakItUp.py:435-437 | the level list after sorting and prepending 0: ascending, non-negative, starting with 0, and as a multiset exactly the requested levels (duplicates kept) plus one 0 when none was requested |
| HierarchyBuilder.ChosenLevelsSorted | breakItUp.py:435-437 | an ascending list that already starts with 0 is used unchanged |
| HierarchyBuilder.PickLevelsInOrder | breakItUp.py:448-451 | the loop picks exactly those levels, and fails as an IndexError when a level is out of range |
| HierarchyBuilder.OffsetsFromTSAndLevels | breakItUp.py:385-453 | an empty or too-deep (> 6) level list fails, then the full 64th-note hierarchy is built and the chosen levels are picked from it |
| HierarchyBuilder.PulseGrids | breakItUp.py:509-511 | one grid per pulse, in the given order; every grid ends at the shared measure length and, for a positive measure, starts at 0 |
| HierarchyBuilder.CheckRatios | breakItUp.py:501-505 | the check passes exactly when each pulse is 2 or 3 times the next |
| HierarchyBuilder.OffsetsFromPulses | breakItUp.py:507-513 | the loop builds exactly those grids |
| HierarchyBuilder.OffsetListFromPulseLengths | breakItUp.py:456-513 | sort longest first; fail on no pulses, on a pulse longer than a supplied measure, or on a failed ratio check; otherwise return the grids across the supplied measure or the longest pulse |
| HierarchyBuilder.PulseHierarchySorted | breakItUp.py:492-513 | for pulses already longest first, with no measure length, the result is the ratio failure or the grids across the first pulse |
| HierarchyBuilder.PulseHierarchyOrderFree | breakItUp.py:492 | the hierarchy built from pulse lengths does not depend on the order they are listed in |
| HierarchyBuilder.ResolveSource | breakItUp.py:167-177 | the constructor's if/elif chain: explicit hierarchy, then pulse lengths (without the ratio check), then levels (which need a time signature), then the time signature with the default levels |
| HierarchyBuilder.ResolveHierarchy | breakItUp.py:166-181 | the chosen source, where an empty hierarchy is refused; on success the hierarchy has at least one level |
| HierarchyBuilder.ApplyMappings | breakItUp.py:347-349 | the rewrite loop over the mapping table; HierarchyBuilder.RegroupIsLookup proves that the loop comes to one table lookup |
| HierarchyBuilder.Regroup | breakItUp.py:337-349 | the grouping used for the numerators; HierarchyBuilder.RegroupIsLookup gives it as the table lookup, and HierarchyFacts.RegroupKeepsTotals shows it keeps the beat total |
| HierarchyBuilder.HiddenRows | breakItUp.py:364-371 | the grouping rows that become hidden levels, and only when there is more than one group; HierarchyFacts.AtMostTwoHiddenRows bounds them and HierarchyFacts.HiddenRowsNest shows that two rows nest |
| HierarchyBuilder.GroupingBeats | breakItUp.py:351-354 | the beat count of the measure; HierarchyFacts.RegroupKeepsTotals shows it equals the numerator total except for [9, 6] (HierarchyFacts.NineSixShrinksMeasure) |
| HierarchyBuilder.StepDenominators | breakItUp.py:374-377 | the note values stepped through, every one of them supported; HierarchyFacts.StepsEnds gives its first and last entries and its length |
| HierarchyBuilder.HierarchyFromTS | breakItUp.py:320-382 | specification of offsetHierarchyFromTS; HierarchyFacts.TimeSignatureHierarchyWellFormed, HierarchyFacts.TimeSignatureHierarchyShaped and HierarchyFacts.TimeSignatureLevels give its properties |
| HierarchyBuilder.PickLevels | breakItUp.py:448-451 | the selection, failing when a chosen level is out of range; HierarchyFacts.SelectionKeepsForm shows that a selection keeps a hierarchy shaped and well formed |
| HierarchyBuilder.LevelsFromTS | breakItUp.py:433-453 | specification of offsetsFromTSAndLevels; HierarchyFacts.LevelsFromTSWellFormed, HierarchyFacts.LevelsFromTSShaped and HierarchyFacts.SelectedFrom give its properties |
| HierarchyBuilder.TwoOrThree | breakItUp.py:501-505 | the ratio check; HierarchyFacts.TwoOrThreeDivides shows that each checked pulse divides the one before it |
| HierarchyBuilder.PulseHierarchy | breakItUp.py:492-513 | specification of offsetListFromPulseLengths; HierarchyFacts.PulseHierarchyWellFormed, HierarchyFacts.PulseHierarchyWithMeasure, HierarchyBuilder.PulseHierarchySorted and HierarchyBuilder.PulseHierarchyOrderFree give its properties |
| HierarchyBuilder.HierarchySource | breakItUp.py:167-177 | the constructor's choice of source; HierarchyFacts.PulseSourceSucceeds, HierarchyFacts.LevelsSource and HierarchyFacts.TimeSignatureDefaults give each branch |
| HierarchyBuilder.ChooseHierarchy | breakItUp.py:167-181 | the chosen source, with an empty hierarchy refused; HierarchyFacts.DerivedHierarchyShaped shows that every hierarchy the constructor derives itself is shaped |
| HierarchyFacts.RegroupKeepsTotals | breakItUp.py:337-356 | apart from [9,6], regrouping keeps the beat total, and every hidden row sums to the numerator total |
| HierarchyFacts.RegroupKeepsPositive | breakItUp.py:337-349 | regrouping positive groups gives positive hidden rows |
| HierarchyFacts.NineSixShrinksMeasure | breakItUp.py:344-356 | the [9,6] row of the table makes a 12-beat measure for a 15-beat signature, while its finer hidden row still spans 15 beats |
| HierarchyFacts.RegroupRowsReachMeasure | breakItUp.py:337-371 | every hidden row reaches at least the measure length computed from the regrouped numerators |
| HierarchyFacts.HiddenRowsNest | breakItUp.py:341-344 | of two hidden rows, the boundaries of the first are among those of the second |
| HierarchyFacts.HiddenPartFacts | breakItUp.py:363-371 | the hidden levels start at 0, end at the measure length and nest level by level |
| HierarchyFacts.PulsePartFacts | breakItUp.py:373-380 | the pulse levels start at 0, end at the measure length and nest level by level |
| HierarchyFacts.StepsEnds | breakItUp.py:374-377 | the denominator slice runs from the denominator to the minimum pulse, and is empty when the minimum pulse is coarser |
| HierarchyFacts.TimeSignatureHierarchyWellFormed | breakItUp.py:320-382 | for a valid signature other than [9,6], the hierarchy succeeds, its levels strictly increase and nest, and its measure is the numerator total in ticks of the denominator |
| HierarchyFacts.TimeSignatureHierarchyShaped | breakItUp.py:351-382 | every built hierarchy begins with [0, measure length], the measure is the regrouped beat total in ticks, and every level is non-empty, starts at 0 and reaches at least the measure length, [9,6] included; for every signature other than [9,6] every level ends exactly at the measure length |
| HierarchyFacts.TimeSignatureLevels | breakItUp.py:361-380 | at most two hidden rows; when the minimum pulse is coarser than the denominator there are no pulse levels, so the count is 1 + hidden rows; otherwise the count is 1 + hidden rows + note values from the denominator to the minimum pulse, and the last level is the minimum-pulse grid |
| HierarchyFacts.AtMostTwoHiddenRows | breakItUp.py:337-371 | no time signature produces more than two hidden levels |
| HierarchyFacts.IndexOrder | breakItUp.py:327 | a finer denominator stands later in the supported list |
| HierarchyFacts.SelectionKeepsForm | breakItUp.py:448-451 | picking ascending levels that start with 0 keeps a hierarchy shaped and well formed |
| HierarchyFacts.LevelsFromTSWellFormed | breakItUp.py:385-453 | a successful level selection is well formed, keeps the signature's measure length, and has one level per chosen index |
| HierarchyFacts.SelectedFrom | breakItUp.py:449-451 | a successful selection is the full 64th-note hierarchy picked at the chosen levels |
| HierarchyFacts.LevelsFromTSShaped | breakItUp.py:385-453 | every successful level selection is shaped |
| HierarchyFacts.TwoOrThreeDivides | breakItUp.py:501-505 | pulses that pass the 2-or-3 check each divide the previous one |
| HierarchyFacts.WholePulse | breakItUp.py:494-495 | the longest pulse taken as the measure gives the level [0, measure] |
| HierarchyFacts.PulseGridsSpan | breakItUp.py:507-511 | pulse grids start at 0 and end at the measure, and nest when each pulse divides the previous |
| HierarchyFacts.PulseHierarchyWellFormed | breakItUp.py:492-513 | without a measure length: one level per pulse, shaped, level 0 is [0, longest pulse], no pulse exceeds the measure, and well formed once the ratio check holds |
| HierarchyFacts.LongestFirst | breakItUp.py:492-495 | the first pulse after sorting is the longest |
| HierarchyFacts.PulseHierarchyWithMeasure | breakItUp.py:493-513 | with a measure length: one level per pulse, each spanning that measure, nested once the ratio check holds |
| HierarchyFacts.PulseSourceSucceeds | breakItUp.py:169-171 | given pulse lengths and no hierarchy, the constructor's hierarchy is the unchecked pulse hierarchy, and it always succeeds |
| HierarchyFacts.LevelsSource | breakItUp.py:172-175 | given levels and a time signature, the constructor uses offsetsFromTSAndLevels on them |
| HierarchyFacts.TimeSignatureDefaults | breakItUp.py:176-177 | a time signature alone behaves as that signature with levels [0, 1, 2, 3], the default at line 386 |
| HierarchyFacts.DerivedHierarchyShaped | breakItUp.py:166-181 | any hierarchy the constructor derives itself is shaped |
| ReGrouping.LevelOf | breakItUp.py:210-217 | the first level holding the offset, with no earlier level holding it; the length of the hierarchy when none does |
| ReGrouping.FirstAfter | breakItUp.py:239-240 | the first position after the cursor, with all earlier positions at or before it |
| ReGrouping.Guard | breakItUp.py:217-229 | the level a piece must not cross is always one of the hierarchy's levels |
| ReGrouping.NextBoundary | breakItUp.py:239-241 | inside the measure there is always a boundary of the guard level after the cursor |
| ReGrouping.NextBoundaryNearest | breakItUp.py:239-241 | it is the nearest such boundary |
| ReGrouping.Pass | breakItUp.py:195-231 | specification of levelPass: it keeps the earlier pieces as a prefix and never increases the length still to place; ReGrouping.PassSpends, ReGrouping.PassAppends and ReGrouping.FragmentsTile give the rest |
| ReGrouping.Advance | breakItUp.py:233-255 | specification of advanceOneStep: it keeps the earlier pieces as a prefix and never increases the length still to place; ReGrouping.AdvanceSpends and ReGrouping.AdvanceAppends give the rest |
| ReGrouping.Fragments | breakItUp.py:183-191 | the pieces the constructor leaves in offsetDurationPairs; ReGrouping.FragmentsTile, ReGrouping.FragmentsRespectLevels, ReGrouping.FragmentsWhole and ReGrouping.FragmentsSplit give their properties |
| ReGrouping.ReGrouper.constructor | breakItUp.py:183-191 | records the note, starts the cursor at it, and after levelPass the pieces are exactly the specified ones and tile the note |
| ReGrouping.ReGrouper.Create | breakItUp.py:157-191 | fails exactly when the hierarchy source fails, with the same error, and otherwise returns a fresh splitter on the chosen hierarchy holding the specified pieces |
| ReGrouping.ReGrouper.LevelPass | breakItUp.py:195-231 | the object's cursor and pieces move exactly as the specification Pass says |
| ReGrouping.ReGrouper.AdvanceOneStep | breakItUp.py:233-255 | the object's cursor and pieces move exactly as the specification Advance says |
| ReGrouping.PassSpends | breakItUp.py:210-231 | away from the downbeat, a pass inside the measure uses up the whole length, which ends the loop in levelPass |
| ReGrouping.AdvanceSpends | breakItUp.py:242-255 | a step along a level reaching the measure end uses up the whole length |
| ReGrouping.PassAppends | breakItUp.py:217-250 | a pass only appends pieces: the earlier ones are kept in front |
| ReGrouping.AdvanceAppends | breakItUp.py:243-250 | a step only appends pieces |
| ReGrouping.FragmentsWhole | breakItUp.py:217-247 | a note on the downbeat, or one ending by the next guard boundary, stays one piece |
| ReGrouping.FragmentsSplit | breakItUp.py:248-255 | otherwise the first piece runs to the next guard boundary and the rest is split from there |
| ReGrouping.TilesFacts | breakItUp.py:241-253 | tiling pieces are positive, contiguous, start at the note start, end at its end and sum to its length |
| ReGrouping.FragmentsTile | breakItUp.py:195-255 | the pieces of a note inside the measure tile it exactly; a non-positive length gives no pieces |
| ReGrouping.FirstFragmentRespects | breakItUp.py:222-247 | a piece ending by the next guard boundary crosses no boundary of its guard level or any stronger level |
| ReGrouping.KeepsToLevelsCons | breakItUp.py:248-254 | a respecting first piece ending on a guard boundary, followed by respecting pieces, keeps to the levels |
| ReGrouping.FragmentsRespectLevels | breakItUp.py:195-255 | in a well-formed hierarchy, no piece crosses a boundary of its guard level or any stronger level, and every piece but the last ends on a boundary of its guard level |
| BreakItUpExamples.SplitSixEightShort | breakItUp.py:873-874 | in 6/8, a quarter starting on the second eighth stays whole |
| BreakItUpExamples.SplitSixEightShortSameLevel | breakItUp.py:875-876 | with splitSameLevel it becomes two eighths |
| BreakItUpExamples.SplitSixEightLong | breakItUp.py:878-879 | a half note from the second eighth becomes quarter + quarter |
| BreakItUpExamples.SplitSixEightLongSameLevel | breakItUp.py:880-881 | with splitSameLevel it becomes eighth + eighth + quarter |
| BreakItUpExamples.SixEightChosen | breakItUp.py:176-177 | a 6/8 signature alone gives levels 0-3 of 6/8 |
| BreakItUpExamples.TestSplitSameLevel | breakItUp.py:869-881 | all four splitSameLevel cases, on the hierarchy the constructor itself builds from '6/8' |
| BreakItUpExamples.FourFourOneTwo | breakItUp.py:748-753 | '4/4' with levels [1, 2] gives the measure, half and quarter levels, as testGetOffsetsFromTSAndLevels expects |
| BreakItUpExamples.FourFourThree | breakItUp.py:754-758 | '4/4' with level [3] gives the measure and eighth levels, as testGetOffsetsFromTSAndLevels expects |
| BreakItUpExamples.SixEightOneTwo | breakItUp.py:759-763 | '6/8' with levels [1, 2] gives the measure, dotted-quarter and eighth levels, as testGetOffsetsFromTSAndLevels expects |
| BreakItUpExamples.FourFourPulses | breakItUp.py:777-781 | pulses 4, 2, 1 (quarters) give the same 4/4 levels as the fixture at line 751 |
| BreakItUpExamples.SixEightPulses | breakItUp.py:777-781 | pulses 3, 1.5, 0.5 give the same 6/8 levels as the fixture at line 761 |
| BreakItUpExamples.TestRequire2or3 | breakItUp.py:783-790 | pulses 4 and 1 with the ratio check fail with the ratio error |
| BreakItUpExamples.TwoFourExample | breakItUp.py:617-622 | '2/4' down to 32nd notes gives the listed five levels |
| BreakItUpExamples.FourFourChosen | breakItUp.py:82-86 | levels 0-3 of 4/4 are the measure, halves, quarters and eighths |
| BreakItUpExamples.DocumentedSplit | breakItUp.py:88-99 | in 4/4, a half note at 0.25 becomes (0.25, 0.25), (0.5, 0.5), (1.0, 1.0), (2.0, 0.25) |
| BreakItUpExamples.PulseDownbeat | breakItUp.py:826 | pulse [1]: a quarter on the downbeat stays whole |
| BreakItUpExamples.PulseOneThree | breakItUp.py:824 | pulses [1, 2, 4]: a dotted half at 1 becomes (1, 1), (2, 2) |
| BreakItUpExamples.PulseTwoFour | breakItUp.py:844 | pulses [1, 3, 6]: a whole note at 2 becomes (2, 1), (3, 3) |

## Left out

- The music21 branch of `offsetsFromTSAndLevels` (lines 441-447) is not modelled: music21 is an external library. The model follows the `useMusic21=False` path that the rest of the module uses.
- The numpy branch of `offsetsFromLengths` (line 531) is not modelled separately. For the exact tick values here, `np.arange` gives the same offsets as the while loop that is modelled.
- Parsing of the time-signature string (lines 322-324) is not modelled. A signature is given already read, as a list of numerator groups and a denominator. A numerator that `int()` cannot read shows up only as the empty group list (`MalformedSignature`). The compound form `4/4+3/8` is marked TODO in the source and is not handled there either.
- Floating-point quarter lengths are replaced by integer ticks (16 per quarter). Offsets that are not multiples of a 64th note, and float rounding in `4 / denominator`, are outside the model. Such offsets arise from pulse lengths like 1/3, from explicit hierarchies and from note starts such as triplets.
- HierarchyBuilder.ChosenLevels and HierarchyBuilder.OffsetsFromTSAndLevels take level indices as natural numbers. Negative level indices are not modelled. The source accepts `levels=[-1]`: it passes the depth check at line 433, becomes `[0, -1]` at lines 436-437, and Python's negative indexing at line 451 picks the finest level.
- HierarchyBuilder.TimeSignature holds its numerator groups as natural numbers. A negative numerator, which `int('-3')` produces at line 323, is not modelled.
- `includeMeasureLength=False` of `offsetsFromLengths` and `offsetsFromBeatPattern` is not modelled, because every caller in the module uses the default `True`.
- ReGrouping.ReGrouper.constructor and ReGrouping.ReGrouper.Create require the note to lie inside the measure (`Fits`) and the hierarchy to be `Shaped`. Outside the measure the source behaves in ways the model does not follow:
  - with a start at or past the measure end, `levelPass` recurses without end;
  - a note running past the measure end is split in ways the model does not describe.
- HierarchyBuilder.OffsetListFromPulseLengths and ReGrouping.ReGrouper.Create require positive pulse lengths. The model's grid follows the while branch of `offsetsFromLengths` (lines 533-537), which never ends for a non-positive pulse once the measure length is positive. With no measure length and only non-positive pulses, lines 494-495 make the measure the longest of them, so the loop does not run at all. The numpy branch that the callers at lines 380 and 510 actually run (the default `useNumpy=True`, line 531) behaves differently: a negative pulse gives an empty range, so that level is just `[measureLength]`, and a zero pulse raises an error. Neither behaviour is modelled.
- HierarchyFacts.TimeSignatureHierarchyWellFormed and HierarchyFacts.LevelsFromTSWellFormed exclude the numerators [9, 6]. That table row gives a 12-beat measure level over a 15-beat hidden row (HierarchyFacts.NineSixShrinksMeasure), so the result is not well formed. The model keeps the table exactly as written.
- Of the `offsetHierarchyExamples` table (lines 574-737) only the '2/4' entry is stated as a lemma. Of `testFromPulseLength` (lines 820-861) only the three rows at lines 824, 826 and 844 are stated. The other entries are instances of the same general lemmas.
- Where the class docstring and the code disagree, the model follows the code:
  - the docstring's 4/4 example ends with the piece (1.0, 0.25) at line 99, but the code produces (2.0, 0.25), as its own explanation at line 93 says;
  - the docstring says a time signature alone uses all levels of its hierarchy (lines 118-119), but the code uses levels `[0, 1, 2, 3]` (lines 177 and 386);
  - pulse lengths passed to the constructor are never ratio-checked (line 171).
- An explicit `offsetHierarchy` is taken as given. The source performs no check on it; the model asks it to be shaped (every level from 0 to the measure length) so that the splitter terminates.
