/**
 * Offsets, levels and hierarchies of one measure.
 *
 * Offsets are exact: an offset is a whole number of ticks, one tick being a
 * 64th note (16 ticks per quarter length), so the membership tests that the
 * splitter relies on are integer comparisons.
 */
module Metre {

  /** Ticks in a quarter length and in a whole note. */
  const TicksPerQuarter: int := 16
  const TicksPerWhole: int := 64

  /** The denominators (note values) a time signature may use, coarsest first. */
  const SupportedDenominators: seq<int> := [1, 2, 4, 8, 16, 32, 64]

  /** Length in ticks of the note value 1/d (a quarter, d = 4, is 16 ticks). */
  function NoteTicks(d: int): (t: int)
    requires d in SupportedDenominators
    ensures t > 0 && t * d == TicksPerWhole
  {
    TicksPerWhole / d
  }

  /** Each supported note value splits evenly into every shorter one. */
  lemma NoteTicksDivide(i: nat, j: nat)
    requires i <= j < |SupportedDenominators|
    ensures NoteTicks(SupportedDenominators[i]) % NoteTicks(SupportedDenominators[j]) == 0
  {
  }

  /** Position of x in s (Python's list.index). */
  function IndexOf(s: seq<int>, x: int): (i: nat)
    requires x in s
    ensures i < |s| && s[i] == x && x !in s[..i]
  {
    if s[0] == x then 0 else 1 + IndexOf(s[1..], x)
  }

  /** A level: the boundary offsets visible at one degree of metrical strength. */
  type Level = seq<int>

  /** Levels from strongest (index 0, the whole measure) to weakest. */
  type Hierarchy = seq<Level>

  function Last(level: Level): int
    requires |level| > 0
  {
    level[|level| - 1]
  }

  predicate Increasing(level: Level)
  {
    forall i, j :: 0 <= i < j < |level| ==> level[i] < level[j]
  }

  /** Every boundary of the coarse level is also a boundary of the fine one. */
  predicate Refines(coarse: Level, fine: Level)
  {
    forall x :: x in coarse ==> x in fine
  }

  /** Monotone refinement: each level holds every boundary of every stronger level. */
  predicate Nested(h: Hierarchy)
  {
    forall i, j :: 0 <= i <= j < |h| ==> Refines(h[i], h[j])
  }

  /**
   * What the splitter needs to run to completion: level 0 is the pair
   * [0, measure length] and every level reaches at least the measure end.
   */
  predicate Shaped(h: Hierarchy)
  {
    && |h| > 0
    && |h[0]| == 2
    && h[0][0] == 0
    && forall k :: 0 <= k < |h| ==> |h[k]| > 0 && Last(h[k]) >= h[0][1]
  }

  function MeasureLength(h: Hierarchy): int
    requires |h| > 0 && |h[0]| > 0
  {
    Last(h[0])
  }

  /**
   * A hierarchy as the builders and the splitter use it: every level strictly increasing
   * and ending at the (positive) measure length, finer levels refining
   * coarser ones.
   */
  predicate WellFormed(h: Hierarchy)
  {
    && Shaped(h)
    && MeasureLength(h) > 0
    && (forall k :: 0 <= k < |h| ==> Increasing(h[k]) && Last(h[k]) == MeasureLength(h))
    && Nested(h)
  }

  lemma {:induction false} RefinesAcross(h: Hierarchy, i: nat, j: nat)
    requires forall k :: 0 <= k < |h| - 1 ==> Refines(h[k], h[k + 1])
    requires i <= j < |h|
    ensures Refines(h[i], h[j])
    decreases j - i
  {
    if i < j {
      RefinesAcross(h, i + 1, j);
      assert Refines(h[i], h[i + 1]);
    }
  }

  /** Refinement between neighbours is enough for refinement between all pairs. */
  lemma NestedFromNeighbours(h: Hierarchy)
    requires forall k :: 0 <= k < |h| - 1 ==> Refines(h[k], h[k + 1])
    ensures Nested(h)
  {
    forall i, j | 0 <= i <= j < |h|
      ensures Refines(h[i], h[j])
    {
      RefinesAcross(h, i, j);
    }
  }

  // ---------------------------------------------------------------------------
  // Python built-ins the builders use: sum, max, sorted, reversal.

  /** sum() of a list of beat counts. */
  function Sum(xs: seq<nat>): nat
  {
    if |xs| == 0 then 0 else Sum(xs[..|xs| - 1]) + xs[|xs| - 1]
  }

  /** max() of a non-empty list. */
  function Max(xs: seq<nat>): (m: nat)
    requires |xs| > 0
    ensures m in xs
    ensures forall i :: 0 <= i < |xs| ==> xs[i] <= m
  {
    if |xs| == 1 then xs[0]
    else
      var rest := Max(xs[1..]);
      assert forall i :: 1 <= i < |xs| ==> xs[i] == xs[1..][i - 1];
      if xs[0] >= rest then xs[0] else rest
  }

  predicate Ascending(s: seq<int>)
  {
    forall i, j :: 0 <= i < j < |s| ==> s[i] <= s[j]
  }

  predicate Descending(s: seq<int>)
  {
    forall i, j :: 0 <= i < j < |s| ==> s[i] >= s[j]
  }

  function Insert(x: int, s: seq<int>): (r: seq<int>)
    requires Ascending(s)
    ensures |r| == |s| + 1
    ensures forall i :: 0 <= i < |r| ==> r[i] == x || r[i] in s
    ensures Ascending(r)
    ensures multiset(r) == multiset(s) + multiset{x}
  {
    if s == [] || x <= s[0] then
      InsertFront(x, s);
      [x] + s
    else
      var rest := Insert(x, s[1..]);
      InsertBehind(x, s, rest);
      [s[0]] + rest
  }

  lemma InsertFront(x: int, s: seq<int>)
    requires Ascending(s) && (s == [] || x <= s[0])
    ensures Ascending([x] + s)
  {
    var r := [x] + s;
    forall i, j | 0 <= i < j < |r|
      ensures r[i] <= r[j]
    {
      if i > 0 {
        assert r[i] == s[i - 1] && r[j] == s[j - 1];
      } else {
        assert r[j] == s[j - 1];
      }
    }
  }

  lemma InsertBehind(x: int, s: seq<int>, rest: seq<int>)
    requires Ascending(s) && |s| > 0 && s[0] < x
    requires forall i :: 0 <= i < |rest| ==> rest[i] == x || rest[i] in s[1..]
    requires Ascending(rest)
    requires multiset(rest) == multiset(s[1..]) + multiset{x}
    ensures Ascending([s[0]] + rest)
    ensures forall i :: 0 <= i < |rest| + 1 ==> ([s[0]] + rest)[i] == x || ([s[0]] + rest)[i] in s
    ensures multiset([s[0]] + rest) == multiset(s) + multiset{x}
  {
    var r := [s[0]] + rest;
    assert s == [s[0]] + s[1..];
    forall i | 0 <= i < |r|
      ensures r[i] == x || r[i] in s
    {
      if i > 0 && rest[i - 1] != x {
        var k :| 0 <= k < |s[1..]| && s[1..][k] == rest[i - 1];
        assert s[k + 1] == r[i];
      }
    }
    forall i, j | 0 <= i < j < |r|
      ensures r[i] <= r[j]
    {
      if i > 0 {
        assert r[i] == rest[i - 1] && r[j] == rest[j - 1];
      } else if rest[j - 1] != x {
        var k :| 0 <= k < |s[1..]| && s[1..][k] == rest[j - 1];
        assert s[k + 1] == rest[j - 1];
      }
    }
  }

  /** sorted(): ascending, a permutation of the input. */
  function SortAscending(s: seq<int>): (r: seq<int>)
    ensures |r| == |s|
    ensures forall i :: 0 <= i < |r| ==> r[i] in s
    ensures Ascending(r)
    ensures multiset(r) == multiset(s)
  {
    if s == [] then []
    else
      assert s == [s[0]] + s[1..];
      Insert(s[0], SortAscending(s[1..]))
  }

  /** The slice s[::-1]. */
  function Reverse(s: seq<int>): (r: seq<int>)
    ensures |r| == |s|
    ensures forall i {:trigger r[i]} :: 0 <= i < |s| ==> r[i] == s[|s| - 1 - i]
    ensures multiset(r) == multiset(s)
  {
    if s == [] then []
    else
      assert s == [s[0]] + s[1..];
      Reverse(s[1..]) + [s[0]]
  }

  /** sorted(s)[::-1]: largest first, a permutation of the input. */
  function SortDescending(s: seq<int>): (r: seq<int>)
    ensures |r| == |s|
    ensures forall i :: 0 <= i < |r| ==> r[i] in s
    ensures Descending(r)
    ensures multiset(r) == multiset(s)
  {
    ReverseAscending(s, SortAscending(s));
    Reverse(SortAscending(s))
  }

  lemma ReverseAscending(s: seq<int>, up: seq<int>)
    requires Ascending(up)
    requires forall i :: 0 <= i < |up| ==> up[i] in s
    ensures Descending(Reverse(up))
    ensures forall i :: 0 <= i < |up| ==> Reverse(up)[i] in s
  {
    Mirror(s, up, Reverse(up));
  }

  /** A mirror image of an ascending list descends and keeps its elements. */
  lemma Mirror(s: seq<int>, up: seq<int>, r: seq<int>)
    requires Ascending(up)
    requires forall i :: 0 <= i < |up| ==> up[i] in s
    requires |r| == |up|
    requires forall i {:trigger r[i]} :: 0 <= i < |r| ==> r[i] == up[|up| - 1 - i]
    ensures Descending(r)
    ensures forall i :: 0 <= i < |r| ==> r[i] in s
  {
    forall i, j | 0 <= i < j < |r|
      ensures r[i] >= r[j]
    {
      var a, b := |up| - 1 - j, |up| - 1 - i;
      assert r[i] == up[b] && r[j] == up[a];
    }
    forall i | 0 <= i < |r|
      ensures r[i] in s
    {
      assert r[i] == up[|up| - 1 - i];
    }
  }

  /** An ascending list is fixed by its elements: two with the same multiset are equal. */
  lemma {:induction false} AscendingUnique(a: seq<int>, b: seq<int>)
    requires Ascending(a) && Ascending(b)
    requires multiset(a) == multiset(b)
    ensures a == b
    decreases |a|
  {
    assert |a| == |multiset(a)| && |b| == |multiset(b)|;
    if |a| > 0 {
      SameLeast(a, b);
      DropHead(a);
      DropHead(b);
      AscendingUnique(a[1..], b[1..]);
      assert a == [a[0]] + a[1..] && b == [b[0]] + b[1..];
    }
  }

  /** Two ascending lists with the same elements start with the same (least) one. */
  lemma SameLeast(a: seq<int>, b: seq<int>)
    requires Ascending(a) && Ascending(b) && |a| > 0 && |b| > 0
    requires multiset(a) == multiset(b)
    ensures a[0] == b[0]
  {
    assert a[0] in multiset(b) && b[0] in multiset(a);
    var k :| 0 <= k < |b| && b[k] == a[0];
    var m :| 0 <= m < |a| && a[m] == b[0];
    assert b[0] <= b[k] && a[0] <= a[m];
  }

  /** Dropping the head keeps the list ascending and removes one copy of it. */
  lemma DropHead(a: seq<int>)
    requires Ascending(a) && |a| > 0
    ensures Ascending(a[1..])
    ensures multiset(a[1..]) == multiset(a) - multiset{a[0]}
  {
    assert a == [a[0]] + a[1..];
  }

  /** sorted() leaves an already ascending list as it is. */
  lemma SortAscendingSorted(s: seq<int>)
    requires Ascending(s)
    ensures SortAscending(s) == s
  {
    AscendingUnique(SortAscending(s), s);
  }

  /** sorted(s)[::-1] leaves an already descending list as it is. */
  lemma SortDescendingSorted(s: seq<int>)
    requires Descending(s)
    ensures SortDescending(s) == s
  {
    var up := Reverse(s);
    MirrorUp(s, up);
    AscendingUnique(SortAscending(s), up);
    ReverseTwice(s, up, Reverse(up));
  }

  /** sorted(s)[::-1] of an ascending list is its mirror image. */
  lemma SortDescendingAscending(s: seq<int>)
    requires Ascending(s)
    ensures SortDescending(s) == Reverse(s)
  {
    SortAscendingSorted(s);
  }

  /** sorted(s)[::-1] depends only on the elements of s, not on their order. */
  lemma SortDescendingOrderFree(s: seq<int>, t: seq<int>)
    requires multiset(s) == multiset(t)
    ensures SortDescending(s) == SortDescending(t)
  {
    AscendingUnique(SortAscending(s), SortAscending(t));
  }

  /** The mirror image of a descending list ascends. */
  lemma MirrorUp(s: seq<int>, up: seq<int>)
    requires Descending(s) && |up| == |s|
    requires forall i {:trigger up[i]} :: 0 <= i < |s| ==> up[i] == s[|s| - 1 - i]
    ensures Ascending(up)
  {
    forall i, j | 0 <= i < j < |up|
      ensures up[i] <= up[j]
    {
      var a, b := |s| - 1 - j, |s| - 1 - i;
      assert up[i] == s[b] && up[j] == s[a];
    }
  }

  /** Mirroring twice gives the list back. */
  lemma ReverseTwice(s: seq<int>, up: seq<int>, r: seq<int>)
    requires |up| == |s| && |r| == |s|
    requires forall i {:trigger up[i]} :: 0 <= i < |s| ==> up[i] == s[|s| - 1 - i]
    requires forall i {:trigger r[i]} :: 0 <= i < |s| ==> r[i] == up[|up| - 1 - i]
    ensures r == s
  {
    forall i | 0 <= i < |s|
      ensures r[i] == s[i]
    {
      var k := |s| - 1 - i;
      assert r[i] == up[k];
    }
  }

}
