/**
 * The ReGrouper splitter of breakItUp.py: a note (or rest) that starts at
 * noteStartOffset and lasts noteLength ticks is cut into tied
 * (offset, duration) fragments at the boundaries of a metrical hierarchy,
 * so that no fragment crosses a boundary stronger than the one it starts on.
 *
 * Pass and Advance are the specification of levelPass and advanceOneStep;
 * the class ReGrouper carries the source's mutable cursor and is proved to
 * follow them.
 */
module ReGrouping {
  import opened Wrappers
  import opened Metre
  import opened HierarchyBuilder
  import HierarchyFacts

  /** One tied piece of the split note: where it starts and how long it lasts, in ticks. */
  datatype Fragment = Fragment(offset: int, duration: int)

  /** The splitter's working state: the fragments so far, the cursor offset and the length still to place. */
  datatype Cursor = Cursor(pairs: seq<Fragment>, offset: int, remaining: int)

  // ---------------------------------------------------------------------------
  // Searching levels

  /** The first level, from index k on, that holds the offset; |h| when none does. */
  function LevelFrom(h: Hierarchy, offset: int, k: nat): (i: nat)
    requires k <= |h|
    ensures k <= i <= |h|
    ensures forall j :: k <= j < i ==> offset !in h[j]
    ensures i < |h| ==> offset in h[i]
    decreases |h| - k
  {
    if k == |h| then k
    else if offset in h[k] then k
    else LevelFrom(h, offset, k + 1)
  }

  /** The strongest level holding the offset; |h| when the offset is on no boundary at all. */
  function LevelOf(h: Hierarchy, offset: int): (i: nat)
    ensures i <= |h|
    ensures forall j :: 0 <= j < i ==> offset !in h[j]
    ensures i < |h| ==> offset in h[i]
  {
    LevelFrom(h, offset, 0)
  }

  /** The first position, from index k on, lying strictly after the offset; |positions| when none does. */
  function FirstAfter(positions: Level, offset: int, k: nat): (i: nat)
    requires k <= |positions|
    ensures k <= i <= |positions|
    ensures forall j :: k <= j < i ==> positions[j] <= offset
    ensures i < |positions| ==> positions[i] > offset
    decreases |positions| - k
  {
    if k == |positions| then k
    else if positions[k] > offset then k
    else FirstAfter(positions, offset, k + 1)
  }

  /**
   * The level advanceOneStep is given once the cursor has been found on
   * level i > 0: the level above, or level i itself when splitting at the
   * same level; the finest level when the cursor is on no boundary.
   */
  function TargetLevel(h: Hierarchy, splitSameLevel: bool, i: nat): (t: nat)
    requires 0 < i <= |h|
    ensures t < |h|
    ensures i < |h| && !splitSameLevel ==> t == i - 1
    ensures i < |h| && splitSameLevel ==> t == i
    ensures i == |h| ==> t == |h| - 1
  {
    if i == |h| then |h| - 1
    else if splitSameLevel then i
    else i - 1
  }

  /** The termination measure: the length still to place, or 0 once it is used up. */
  function Budget(remaining: int): nat
  {
    if remaining > 0 then remaining else 0
  }

  // ---------------------------------------------------------------------------
  // The splitter as functions of the cursor

  /**
   * levelPass: stop when nothing is left; emit the rest whole when the
   * cursor is on level 0 (the downbeat); otherwise advance along the level
   * chosen by TargetLevel.
   */
  function Pass(h: Hierarchy, splitSameLevel: bool, c: Cursor): (r: Cursor)
    requires |h| > 0
    ensures |c.pairs| <= |r.pairs| && r.pairs[..|c.pairs|] == c.pairs
    ensures r.remaining <= c.remaining
    decreases Budget(c.remaining), 1
  {
    if c.remaining <= 0 then c
    else
      var i := LevelOf(h, c.offset);
      if i == 0 then c.(pairs := c.pairs + [Fragment(c.offset, c.remaining)])
      else Advance(h, splitSameLevel, c, h[TargetLevel(h, splitSameLevel, i)])
  }

  /**
   * advanceOneStep: find the first position after the cursor; if the rest
   * of the note ends there or before, emit it and use up the length,
   * otherwise emit the piece up to that position, move the cursor onto it
   * and pass again. With no position after the cursor nothing happens.
   */
  function Advance(h: Hierarchy, splitSameLevel: bool, c: Cursor, positions: Level): (r: Cursor)
    requires |h| > 0
    ensures |c.pairs| <= |r.pairs| && r.pairs[..|c.pairs|] == c.pairs
    ensures r.remaining <= c.remaining
    decreases Budget(c.remaining), 0
  {
    var k := FirstAfter(positions, c.offset, 0);
    if k == |positions| then c
    else
      var gap := positions[k] - c.offset;
      if c.remaining <= gap then
        Cursor(c.pairs + [Fragment(c.offset, c.remaining)], c.offset, c.remaining - gap)
      else
        Pass(h, splitSameLevel, Cursor(c.pairs + [Fragment(c.offset, gap)], positions[k], c.remaining - gap))
  }

  /** The fragments a ReGrouper built for this note holds in offsetDurationPairs. */
  function Fragments(h: Hierarchy, splitSameLevel: bool, start: int, length: int): seq<Fragment>
    requires |h| > 0
  {
    Pass(h, splitSameLevel, Cursor([], start, length)).pairs
  }

  /** The note lies inside the measure (vacuous once nothing is left to place). */
  predicate Fits(h: Hierarchy, offset: int, remaining: int)
    requires |h| > 0 && |h[0]| > 0
  {
    remaining > 0 ==> 0 <= offset && offset + remaining <= MeasureLength(h)
  }

  // ---------------------------------------------------------------------------
  // The source's class

  class ReGrouper {
    const offsetHierarchy: Hierarchy
    const noteStartOffset: int
    const noteLength: int
    const splitSameLevel: bool
    var offsetDurationPairs: seq<Fragment>
    var updatedOffset: int
    var remainingLength: int

    /** The mutable part of the object, as a cursor. */
    function State(): Cursor
      reads this
    {
      Cursor(offsetDurationPairs, updatedOffset, remainingLength)
    }

    /**
     * The constructor given an already chosen hierarchy: it records the note,
     * starts the cursor at the note and runs levelPass. The fragments then
     * tile the note exactly.
     */
    constructor (noteStartOffset: int, noteLength: int, offsetHierarchy: Hierarchy, splitSameLevel: bool)
      requires Shaped(offsetHierarchy) && Fits(offsetHierarchy, noteStartOffset, noteLength)
      ensures this.offsetHierarchy == offsetHierarchy && this.splitSameLevel == splitSameLevel
      ensures this.noteStartOffset == noteStartOffset && this.noteLength == noteLength
      ensures State() == Pass(offsetHierarchy, splitSameLevel, Cursor([], noteStartOffset, noteLength))
      ensures noteLength <= 0 ==> offsetDurationPairs == []
      ensures noteLength > 0 ==> Tiles(offsetDurationPairs, noteStartOffset, noteLength)
    {
      this.offsetHierarchy := offsetHierarchy;
      this.noteStartOffset := noteStartOffset;
      this.noteLength := noteLength;
      this.splitSameLevel := splitSameLevel;
      offsetDurationPairs := [];
      updatedOffset := noteStartOffset;
      remainingLength := noteLength;
      new;
      LevelPass();
      FragmentsTile(offsetHierarchy, splitSameLevel, noteStartOffset, noteLength);
    }

    /**
     * The full constructor: choose the hierarchy (explicit hierarchy, pulse
     * lengths, levels with a time signature, or a time signature with the
     * default levels), fail as the source raises, else split the note.
     */
    static method Create(noteStartOffset: int, noteLength: int, timeSignature: Option<TimeSignature>,
                         levels: seq<nat>, pulseLengths: seq<int>, offsetHierarchy: Hierarchy,
                         splitSameLevel: bool) returns (r: Result<ReGrouper, Error>)
      requires forall i :: 0 <= i < |pulseLengths| ==> pulseLengths[i] > 0
      requires |offsetHierarchy| > 0 ==> Shaped(offsetHierarchy)
      requires var chosen := ChooseHierarchy(timeSignature, levels, pulseLengths, offsetHierarchy);
        chosen.Success? && Shaped(chosen.value) ==> Fits(chosen.value, noteStartOffset, noteLength)
      ensures var chosen := ChooseHierarchy(timeSignature, levels, pulseLengths, offsetHierarchy);
        && (r.Failure? <==> chosen.Failure?)
        && (r.Failure? ==> r.error == chosen.error)
        && (r.Success? ==>
              && fresh(r.value)
              && r.value.offsetHierarchy == chosen.value
              && r.value.offsetDurationPairs
                 == Fragments(chosen.value, splitSameLevel, noteStartOffset, noteLength))
    {
      var chosen := ResolveHierarchy(timeSignature, levels, pulseLengths, offsetHierarchy);
      if chosen.Failure? {
        return Failure(chosen.error);
      }
      if |offsetHierarchy| == 0 {
        HierarchyFacts.DerivedHierarchyShaped(timeSignature, levels, pulseLengths);
      }
      var grouper := new ReGrouper(noteStartOffset, noteLength, chosen.value, splitSameLevel);
      return Success(grouper);
    }

    /**
     * levelPass: scan the levels strongest first; on the first one holding
     * the cursor, emit the rest whole (level 0) or advance one step; with the
     * cursor on no boundary, advance along the finest level and pass again.
     */
    method LevelPass()
      requires Shaped(offsetHierarchy) && Fits(offsetHierarchy, updatedOffset, remainingLength)
      modifies this
      ensures State() == Pass(offsetHierarchy, splitSameLevel, old(State()))
      decreases Budget(remainingLength), 1
    {
      for levelIndex := 0 to |offsetHierarchy|
        invariant
          || (State() == old(State()) && LevelOf(offsetHierarchy, updatedOffset) >= levelIndex)
          || (remainingLength <= 0 && State() == Pass(offsetHierarchy, splitSameLevel, old(State())))
      {
        if remainingLength <= 0 {
          return;
        }
        var thisLevel := offsetHierarchy[levelIndex];
        if updatedOffset in thisLevel {
          if levelIndex == 0 {
            offsetDurationPairs := offsetDurationPairs + [Fragment(updatedOffset, remainingLength)];
            return;
          } else {
            ghost var target := offsetHierarchy[TargetLevel(offsetHierarchy, splitSameLevel, levelIndex)];
            if splitSameLevel {
              AdvanceOneStep(thisLevel);
            } else {
              AdvanceOneStep(offsetHierarchy[levelIndex - 1]);
            }
            AdvanceSpends(offsetHierarchy, splitSameLevel, old(State()), target);
          }
        }
      }
      if remainingLength > 0 {
        AdvanceOneStep(offsetHierarchy[|offsetHierarchy| - 1]);
        AdvanceSpends(offsetHierarchy, splitSameLevel, old(State()), offsetHierarchy[|offsetHierarchy| - 1]);
        LevelPass();
      }
    }

    /**
     * advanceOneStep: walk the positions to the first one after the cursor
     * and take one step towards it, as Advance describes.
     */
    method AdvanceOneStep(positionsList: Level)
      requires Shaped(offsetHierarchy) && Fits(offsetHierarchy, updatedOffset, remainingLength)
      modifies this
      ensures State() == Advance(offsetHierarchy, splitSameLevel, old(State()), positionsList)
      decreases Budget(remainingLength), 0
    {
      for i := 0 to |positionsList|
        invariant State() == old(State())
        invariant forall j :: 0 <= j < i ==> positionsList[j] <= updatedOffset
      {
        var p := positionsList[i];
        if p > updatedOffset {
          assert FirstAfter(positionsList, updatedOffset, 0) == i;
          var durationToNextPosition := p - updatedOffset;
          if remainingLength <= durationToNextPosition {
            offsetDurationPairs := offsetDurationPairs + [Fragment(updatedOffset, remainingLength)];
            remainingLength := remainingLength - durationToNextPosition;
            return;
          } else {
            offsetDurationPairs := offsetDurationPairs + [Fragment(updatedOffset, durationToNextPosition)];
            updatedOffset := p;
            remainingLength := remainingLength - durationToNextPosition;
            LevelPass();
            return;
          }
        }
      }
    }
  }

  // ---------------------------------------------------------------------------
  // Termination of the process

  /**
   * Away from the downbeat, a pass inside the measure uses the whole length
   * up, which is what ends the scan in levelPass.
   */
  lemma {:induction false} PassSpends(h: Hierarchy, splitSameLevel: bool, c: Cursor)
    requires Shaped(h) && Fits(h, c.offset, c.remaining)
    requires c.remaining > 0 ==> c.offset > 0
    ensures Pass(h, splitSameLevel, c).remaining <= 0
    decreases Budget(c.remaining), 1
  {
    if c.remaining > 0 {
      assert c.offset !in h[0] by {
        assert h[0] == [0, MeasureLength(h)];
      }
      var i := LevelOf(h, c.offset);
      AdvanceSpends(h, splitSameLevel, c, h[TargetLevel(h, splitSameLevel, i)]);
    }
  }

  /** One step along a level that reaches the measure end uses the whole length up. */
  lemma {:induction false} AdvanceSpends(h: Hierarchy, splitSameLevel: bool, c: Cursor, positions: Level)
    requires Shaped(h) && Fits(h, c.offset, c.remaining)
    requires |positions| > 0 && Last(positions) >= MeasureLength(h)
    ensures Advance(h, splitSameLevel, c, positions).remaining <= 0
    decreases Budget(c.remaining), 0
  {
    var k := FirstAfter(positions, c.offset, 0);
    if c.remaining > 0 {
      assert positions[|positions| - 1] > c.offset;
      var gap := positions[k] - c.offset;
      if c.remaining > gap {
        PassSpends(h, splitSameLevel, Cursor(c.pairs + [Fragment(c.offset, gap)], positions[k], c.remaining - gap));
      }
    }
  }

  // ---------------------------------------------------------------------------
  // What the fragments are

  /** The cursor r with prefix placed before the fragments it emitted. */
  function After(prefix: seq<Fragment>, r: Cursor): Cursor
  {
    r.(pairs := prefix + r.pairs)
  }

  /** A pass only appends: the fragments already emitted stay in front, untouched. */
  lemma {:induction false} PassAppends(h: Hierarchy, splitSameLevel: bool, c: Cursor)
    requires |h| > 0
    ensures Pass(h, splitSameLevel, c) == After(c.pairs, Pass(h, splitSameLevel, c.(pairs := [])))
    decreases Budget(c.remaining), 1
  {
    if c.remaining > 0 {
      var i := LevelOf(h, c.offset);
      if i == 0 {
        assert [] + [Fragment(c.offset, c.remaining)] == [Fragment(c.offset, c.remaining)];
      } else {
        AdvanceAppends(h, splitSameLevel, c, h[TargetLevel(h, splitSameLevel, i)]);
      }
    }
  }

  lemma {:induction false} AdvanceAppends(h: Hierarchy, splitSameLevel: bool, c: Cursor, positions: Level)
    requires |h| > 0
    ensures Advance(h, splitSameLevel, c, positions)
            == After(c.pairs, Advance(h, splitSameLevel, c.(pairs := []), positions))
    decreases Budget(c.remaining), 0
  {
    var k := FirstAfter(positions, c.offset, 0);
    if k < |positions| {
      var gap := positions[k] - c.offset;
      var f := Fragment(c.offset, gap);
      if c.remaining <= gap {
        assert [] + [Fragment(c.offset, c.remaining)] == [Fragment(c.offset, c.remaining)];
      } else {
        var next := Cursor([], positions[k], c.remaining - gap);
        PassAppends(h, splitSameLevel, next.(pairs := c.pairs + [f]));
        PassAppends(h, splitSameLevel, next.(pairs := [f]));
        var x := Pass(h, splitSameLevel, next);
        assert (c.pairs + [f]) + x.pairs == c.pairs + ([f] + x.pairs);
        assert [] + [f] == [f];
      }
    }
  }

  /**
   * The strongest level a fragment starting at the offset must not cross:
   * level 0 on the downbeat, otherwise the level advanceOneStep is given.
   */
  function Guard(h: Hierarchy, splitSameLevel: bool, offset: int): (g: nat)
    requires |h| > 0
    ensures g < |h|
  {
    var i := LevelOf(h, offset);
    if i == 0 then 0 else TargetLevel(h, splitSameLevel, i)
  }

  /** The first boundary of the guard level after the offset: where a fragment starting there ends at the latest. */
  function NextBoundary(h: Hierarchy, splitSameLevel: bool, offset: int): (p: int)
    requires Shaped(h) && 0 <= offset < MeasureLength(h)
    ensures offset < p && p in h[Guard(h, splitSameLevel, offset)]
  {
    var level := h[Guard(h, splitSameLevel, offset)];
    var k := FirstAfter(level, offset, 0);
    assert level[|level| - 1] > offset;
    level[k]
  }

  /** In increasing levels, NextBoundary is the nearest boundary of the guard level after the offset. */
  lemma NextBoundaryNearest(h: Hierarchy, splitSameLevel: bool, offset: int)
    requires WellFormed(h) && 0 <= offset < MeasureLength(h)
    ensures forall x :: x in h[Guard(h, splitSameLevel, offset)] && offset < x ==>
              NextBoundary(h, splitSameLevel, offset) <= x
  {
    var level := h[Guard(h, splitSameLevel, offset)];
    var k := FirstAfter(level, offset, 0);
    assert Increasing(level);
    forall x | x in level && offset < x
      ensures level[k] <= x
    {
      var m :| 0 <= m < |level| && level[m] == x;
      assert k <= m;
    }
  }

  /**
   * A note that starts on the downbeat, or ends no later than the next
   * boundary of its guard level, is emitted whole.
   */
  lemma FragmentsWhole(h: Hierarchy, splitSameLevel: bool, start: int, length: int)
    requires Shaped(h) && 0 <= start && 0 < length && start + length <= MeasureLength(h)
    requires start == 0 || length <= NextBoundary(h, splitSameLevel, start) - start
    ensures Fragments(h, splitSameLevel, start, length) == [Fragment(start, length)]
  {
    if start > 0 {
      assert start !in h[0] by {
        assert h[0] == [0, MeasureLength(h)];
      }
      var c := Cursor([], start, length);
      assert Pass(h, splitSameLevel, c) == Advance(h, splitSameLevel, c, h[Guard(h, splitSameLevel, start)]);
    }
  }

  /**
   * Otherwise the first fragment runs to the next boundary p of the guard
   * level and the rest of the note is split afresh from p.
   */
  lemma FragmentsSplit(h: Hierarchy, splitSameLevel: bool, start: int, length: int)
    requires Shaped(h) && 0 < start && 0 < length && start + length <= MeasureLength(h)
    requires length > NextBoundary(h, splitSameLevel, start) - start
    ensures var p := NextBoundary(h, splitSameLevel, start);
      Fragments(h, splitSameLevel, start, length)
      == [Fragment(start, p - start)] + Fragments(h, splitSameLevel, p, length - (p - start))
  {
    assert start !in h[0] by {
      assert h[0] == [0, MeasureLength(h)];
    }
    var c := Cursor([], start, length);
    var level := h[Guard(h, splitSameLevel, start)];
    assert Pass(h, splitSameLevel, c) == Advance(h, splitSameLevel, c, level);
    var p := NextBoundary(h, splitSameLevel, start);
    var f := Fragment(start, p - start);
    assert [] + [f] == [f];
    var next := Cursor([f], p, length - (p - start));
    assert Advance(h, splitSameLevel, c, level) == Pass(h, splitSameLevel, next);
    PassAppends(h, splitSameLevel, next);
  }

  /** Fragments that start at from, have positive durations, abut one another and end at from + length. */
  predicate Tiles(fs: seq<Fragment>, from: int, length: int)
    decreases |fs|
  {
    && |fs| > 0
    && fs[0].offset == from
    && 0 < fs[0].duration
    && if |fs| == 1 then fs[0].duration == length
       else fs[0].duration < length && Tiles(fs[1..], from + fs[0].duration, length - fs[0].duration)
  }

  /** The durations added up. */
  function TotalDuration(fs: seq<Fragment>): int
  {
    if |fs| == 0 then 0 else fs[0].duration + TotalDuration(fs[1..])
  }

  /**
   * Conservation and contiguity: a tiling starts at from, every fragment
   * is positive, each starts where the previous one ends, and the durations
   * add up to the length.
   */
  lemma {:induction false} TilesFacts(fs: seq<Fragment>, from: int, length: int)
    requires Tiles(fs, from, length)
    ensures |fs| > 0 && fs[0].offset == from
    ensures forall i :: 0 <= i < |fs| ==> fs[i].duration > 0
    ensures forall i :: 0 <= i < |fs| - 1 ==> fs[i + 1].offset == fs[i].offset + fs[i].duration
    ensures fs[|fs| - 1].offset + fs[|fs| - 1].duration == from + length
    ensures TotalDuration(fs) == length
    decreases |fs|
  {
    if |fs| > 1 {
      var d := fs[0].duration;
      TilesFacts(fs[1..], from + d, length - d);
      forall i | 1 <= i < |fs|
        ensures fs[i].duration > 0
      {
        assert fs[i] == fs[1..][i - 1];
      }
      forall i | 1 <= i < |fs| - 1
        ensures fs[i + 1].offset == fs[i].offset + fs[i].duration
      {
        assert fs[i] == fs[1..][i - 1] && fs[i + 1] == fs[1..][i];
      }
    }
  }

  /**
   * Inside the measure the splitter emits nothing for a length of zero or
   * less, and otherwise fragments that tile the note exactly.
   */
  lemma {:induction false} FragmentsTile(h: Hierarchy, splitSameLevel: bool, start: int, length: int)
    requires Shaped(h) && Fits(h, start, length)
    ensures length <= 0 ==> Fragments(h, splitSameLevel, start, length) == []
    ensures length > 0 ==> Tiles(Fragments(h, splitSameLevel, start, length), start, length)
    decreases Budget(length)
  {
    if length > 0 {
      var p := NextBoundary(h, splitSameLevel, start);
      if start == 0 || length <= p - start {
        FragmentsWhole(h, splitSameLevel, start, length);
      } else {
        FragmentsSplit(h, splitSameLevel, start, length);
        FragmentsTile(h, splitSameLevel, p, length - (p - start));
        var fs := Fragments(h, splitSameLevel, start, length);
        assert fs[1..] == Fragments(h, splitSameLevel, p, length - (p - start));
      }
    }
  }

  /**
   * No boundary of the guard level, nor of any stronger level, lies strictly
   * inside the fragment.
   */
  predicate Respects(h: Hierarchy, splitSameLevel: bool, f: Fragment)
    requires |h| > 0
  {
    forall j, x :: 0 <= j <= Guard(h, splitSameLevel, f.offset) && x in h[j] ==>
      !(f.offset < x < f.offset + f.duration)
  }

  /**
   * Every fragment respects its guard level, and every fragment but the last
   * ends exactly on a boundary of its guard level.
   */
  predicate KeepsToLevels(h: Hierarchy, splitSameLevel: bool, fs: seq<Fragment>)
    requires |h| > 0
  {
    && (forall i :: 0 <= i < |fs| ==> Respects(h, splitSameLevel, fs[i]))
    && (forall i :: 0 <= i < |fs| - 1 ==>
          fs[i].offset + fs[i].duration in h[Guard(h, splitSameLevel, fs[i].offset)])
  }

  /** A fragment that stops at or before NextBoundary respects its guard level and every level above it. */
  lemma FirstFragmentRespects(h: Hierarchy, splitSameLevel: bool, start: int, duration: int)
    requires WellFormed(h) && 0 <= start < MeasureLength(h)
    requires start + duration <= NextBoundary(h, splitSameLevel, start)
    ensures Respects(h, splitSameLevel, Fragment(start, duration))
  {
    var g := Guard(h, splitSameLevel, start);
    NextBoundaryNearest(h, splitSameLevel, start);
    forall j, x | 0 <= j <= g && x in h[j]
      ensures !(start < x < start + duration)
    {
      assert Refines(h[j], h[g]);
    }
  }

  lemma KeepsToLevelsOne(h: Hierarchy, splitSameLevel: bool, f: Fragment)
    requires |h| > 0 && Respects(h, splitSameLevel, f)
    ensures KeepsToLevels(h, splitSameLevel, [f])
  {
  }

  /** A fragment running from start to the boundary p, followed by fragments that keep to their levels. */
  lemma KeepsToLevelsCons(h: Hierarchy, splitSameLevel: bool, start: int, p: int, rest: seq<Fragment>)
    requires |h| > 0
    requires Respects(h, splitSameLevel, Fragment(start, p - start)) && KeepsToLevels(h, splitSameLevel, rest)
    requires p in h[Guard(h, splitSameLevel, start)]
    ensures KeepsToLevels(h, splitSameLevel, [Fragment(start, p - start)] + rest)
  {
    var fs := [Fragment(start, p - start)] + rest;
    forall i | 1 <= i < |fs|
      ensures Respects(h, splitSameLevel, fs[i])
    {
      assert fs[i] == rest[i - 1];
    }
    forall i | 0 <= i < |fs| - 1
      ensures fs[i].offset + fs[i].duration in h[Guard(h, splitSameLevel, fs[i].offset)]
    {
      if i > 0 {
        assert fs[i] == rest[i - 1];
      }
    }
  }

  /**
   * Boundary respect: in a well-formed hierarchy every fragment keeps clear
   * of the boundaries of its guard level and the levels above it, and every
   * fragment but the last ends exactly on a boundary of its guard level.
   * Without splitSameLevel the guard of an offset found on level i is level
   * i - 1, so no fragment crosses a boundary stronger than its start.
   */
  lemma {:induction false} FragmentsRespectLevels(h: Hierarchy, splitSameLevel: bool, start: int, length: int)
    requires WellFormed(h) && Fits(h, start, length)
    ensures KeepsToLevels(h, splitSameLevel, Fragments(h, splitSameLevel, start, length))
    decreases Budget(length)
  {
    if length > 0 {
      var p := NextBoundary(h, splitSameLevel, start);
      if start == 0 || length <= p - start {
        WholeKeepsToLevels(h, splitSameLevel, start, length);
      } else {
        FragmentsRespectLevels(h, splitSameLevel, p, length - (p - start));
        SplitKeepsToLevels(h, splitSameLevel, start, length);
      }
    }
  }

  /** The base case of FragmentsRespectLevels: a note emitted whole. */
  lemma WholeKeepsToLevels(h: Hierarchy, splitSameLevel: bool, start: int, length: int)
    requires WellFormed(h) && 0 <= start && 0 < length && start + length <= MeasureLength(h)
    requires start == 0 || length <= NextBoundary(h, splitSameLevel, start) - start
    ensures KeepsToLevels(h, splitSameLevel, Fragments(h, splitSameLevel, start, length))
  {
    if start == 0 {
      assert h[0] == [0, MeasureLength(h)];
    }
    FragmentsWhole(h, splitSameLevel, start, length);
    FirstFragmentRespects(h, splitSameLevel, start, length);
    KeepsToLevelsOne(h, splitSameLevel, Fragment(start, length));
  }

  /** The step case of FragmentsRespectLevels: one fragment to the next boundary, then the rest. */
  lemma SplitKeepsToLevels(h: Hierarchy, splitSameLevel: bool, start: int, length: int)
    requires WellFormed(h) && 0 < start && 0 < length && start + length <= MeasureLength(h)
    requires length > NextBoundary(h, splitSameLevel, start) - start
    requires var p := NextBoundary(h, splitSameLevel, start);
      KeepsToLevels(h, splitSameLevel, Fragments(h, splitSameLevel, p, length - (p - start)))
    ensures KeepsToLevels(h, splitSameLevel, Fragments(h, splitSameLevel, start, length))
  {
    var p := NextBoundary(h, splitSameLevel, start);
    FragmentsSplit(h, splitSameLevel, start, length);
    FirstFragmentRespects(h, splitSameLevel, start, p - start);
    KeepsToLevelsCons(h, splitSameLevel, start, p, Fragments(h, splitSameLevel, p, length - (p - start)));
  }
}
