/**
 * The one-level converters of breakItUp.py: offsetsFromLengths (an evenly
 * spaced pulse stream across a measure) and offsetsFromBeatPattern (the
 * boundaries of a sequence of beat groups).
 */
module OneLevel {
  import opened Metre

  // ---------------------------------------------------------------------------
  // Integer facts the grid proofs rest on.

  lemma MulStrict(a: int, b: int, p: int)
    requires p > 0 && a < b
    ensures a * p < b * p
  {
    assert b * p - a * p == (b - a) * p;
  }

  lemma MulAtLeast(k: int, q: int)
    requires q > 0 && k >= 1
    ensures k * q >= q
  {
    assert k * q == (k - 1) * q + q;
    assert (k - 1) * q >= 0;
  }

  /** Euclidean division has one quotient and one remainder. */
  lemma DivModUnique(a: int, q: int, d: int, r: int)
    requires q > 0 && 0 <= r < q && a == d * q + r
    ensures a % q == r
  {
    var d0, r0 := a / q, a % q;
    assert a == d0 * q + r0;
    assert (d - d0) * q == r0 - r;
    if d - d0 >= 1 {
      MulAtLeast(d - d0, q);
    } else if d0 - d >= 1 {
      MulAtLeast(d0 - d, q);
    }
  }

  lemma MulOfMultiple(a: int, b: int, q: int)
    requires q > 0 && b % q == 0
    ensures (a * b) % q == 0
  {
    var k := b / q;
    assert b == k * q;
    assert a * b == (a * k) * q + 0;
    DivModUnique(a * b, q, a * k, 0);
  }

  // ---------------------------------------------------------------------------
  // offsetsFromLengths

  /** How many of 0, pulse, 2*pulse, ... lie strictly below length. */
  function BelowCount(length: int, pulse: int): (n: nat)
    requires pulse > 0
    ensures n == 0 <==> length <= 0
    ensures length > 0 ==> (n - 1) * pulse < length <= n * pulse
    decreases length
  {
    if length <= 0 then 0 else 1 + BelowCount(length - pulse, pulse)
  }

  /** The grid point i * pulse, for i below the count, is a multiple of pulse inside the measure. */
  lemma GridPoint(measureLength: int, pulse: int, i: int)
    requires pulse > 0 && 0 <= i < BelowCount(measureLength, pulse)
    ensures 0 <= i * pulse < measureLength && (i * pulse) % pulse == 0
  {
    var n := BelowCount(measureLength, pulse);
    if i < n - 1 { MulStrict(i, n - 1, pulse); }
    MulOfMultiple(i, pulse, pulse);
  }

  /** Every multiple of pulse inside the measure is a grid point below the count. */
  lemma GridIndex(measureLength: int, pulse: int, x: int) returns (i: nat)
    requires pulse > 0 && 0 <= x < measureLength && x % pulse == 0
    ensures i < BelowCount(measureLength, pulse) && i * pulse == x
  {
    var n := BelowCount(measureLength, pulse);
    i := x / pulse;
    assert x == i * pulse + x % pulse;
    if i > n {
      MulStrict(n, i, pulse);
    }
  }

  /**
   * offsetsFromLengths (its loop branch): the pulse grid 0, p, 2p, ... below
   * the measure length, closed by the measure length itself.
   */
  function PulseOffsets(measureLength: int, pulseLength: int): (r: Level)
    requires pulseLength > 0
    ensures |r| > 0 && Last(r) == measureLength
    ensures measureLength > 0 ==> r[0] == 0
  {
    seq(BelowCount(measureLength, pulseLength), i => i * pulseLength) + [measureLength]
  }

  /**
   * The grid strictly increases, and its offsets are exactly the multiples
   * of the pulse inside the measure plus the measure length.
   */
  lemma PulseOffsetsGrid(measureLength: int, pulseLength: int)
    requires pulseLength > 0
    ensures Increasing(PulseOffsets(measureLength, pulseLength))
    ensures forall x :: x in PulseOffsets(measureLength, pulseLength) <==>
      x == measureLength || (0 <= x < measureLength && x % pulseLength == 0)
  {
    var p := pulseLength;
    var n := BelowCount(measureLength, p);
    var r := PulseOffsets(measureLength, p);
    assert r == seq(n, i => i * p) + [measureLength];
    forall i, j | 0 <= i < j < |r|
      ensures r[i] < r[j]
    {
      if j < n {
        MulStrict(i, j, p);
      } else {
        GridPoint(measureLength, p, i);
      }
    }
    forall x | x in r
      ensures x == measureLength || (0 <= x < measureLength && x % p == 0)
    {
      var i :| 0 <= i < |r| && r[i] == x;
      if i < n { GridPoint(measureLength, p, i); }
    }
    forall x | 0 <= x < measureLength && x % p == 0
      ensures x in r
    {
      var i := GridIndex(measureLength, p, x);
      assert r[i] == x;
    }
  }

  /** The loop of offsetsFromLengths: count up from 0 in pulse steps while below the measure length. */
  method OffsetsFromLengths(measureLength: int, pulseLength: int) returns (offsets: Level)
    requires pulseLength > 0
    ensures offsets == PulseOffsets(measureLength, pulseLength)
  {
    var currentIndex := 0;
    offsets := [];
    while currentIndex < measureLength
      invariant currentIndex == |offsets| * pulseLength
      invariant offsets == seq(|offsets|, i => i * pulseLength)
      invariant BelowCount(measureLength, pulseLength)
                == |offsets| + BelowCount(measureLength - currentIndex, pulseLength)
      decreases measureLength - currentIndex
    {
      GridSnoc(|offsets|, pulseLength);
      offsets := offsets + [currentIndex];
      currentIndex := currentIndex + pulseLength;
    }
    offsets := offsets + [measureLength];
  }

  /** One more grid point: the next multiple of the pulse, pulse ticks after the last. */
  lemma GridSnoc(n: nat, pulse: int)
    ensures seq(n + 1, i => i * pulse) == seq(n, i => i * pulse) + [n * pulse]
    ensures (n + 1) * pulse == n * pulse + pulse
  {
  }

  /** A pulse grid refines any grid whose pulse is a whole multiple of its own. */
  lemma PulseRefines(measureLength: int, coarse: int, fine: int)
    requires fine > 0 && coarse > 0 && coarse % fine == 0
    ensures Refines(PulseOffsets(measureLength, coarse), PulseOffsets(measureLength, fine))
  {
    PulseOffsetsGrid(measureLength, coarse);
    PulseOffsetsGrid(measureLength, fine);
    forall x | x in PulseOffsets(measureLength, coarse)
      ensures x in PulseOffsets(measureLength, fine)
    {
      if x != measureLength {
        MultipleOfMultiple(x, coarse, fine);
      }
    }
  }

  /** A multiple of coarse is a multiple of every divisor of coarse. */
  lemma MultipleOfMultiple(x: int, coarse: int, fine: int)
    requires coarse > 0 && fine > 0 && x % coarse == 0 && coarse % fine == 0
    ensures x % fine == 0
  {
    var k := x / coarse;
    assert x == k * coarse;
    MulOfMultiple(k, coarse, fine);
  }

  // ---------------------------------------------------------------------------
  // offsetsFromBeatPattern

  lemma SumPrefix(xs: seq<nat>, i: nat)
    requires i < |xs|
    ensures Sum(xs[..i + 1]) == Sum(xs[..i]) + xs[i]
  {
    assert xs[..i + 1][..i] == xs[..i];
  }

  lemma {:induction false} SumPrefixBounded(xs: seq<nat>, i: nat)
    requires i <= |xs|
    ensures Sum(xs[..i]) <= Sum(xs)
    decreases |xs| - i
  {
    if i == |xs| {
      assert xs[..i] == xs;
    } else {
      SumPrefix(xs, i);
      SumPrefixBounded(xs, i + 1);
    }
  }

  lemma {:induction false} SumPrefixIncreasing(xs: seq<nat>, i: nat, j: nat)
    requires i < j <= |xs|
    requires forall k :: 0 <= k < |xs| ==> xs[k] > 0
    ensures Sum(xs[..i]) < Sum(xs[..j])
    decreases j - i
  {
    SumPrefix(xs, j - 1);
    if i < j - 1 {
      SumPrefixIncreasing(xs, i, j - 1);
    }
  }

  /**
   * offsetsFromBeatPattern: the running beat count before each group and,
   * last, the total, each scaled to ticks by unit (the ticks of one beat).
   */
  function BeatOffsets(beats: seq<nat>, unit: int): (r: Level)
    ensures |r| == |beats| + 1
    ensures r[0] == 0 && Last(r) == Sum(beats) * unit
  {
    assert beats[..|beats|] == beats;
    seq(|beats| + 1, i requires 0 <= i <= |beats| => Sum(beats[..i]) * unit)
  }

  /** The loop of offsetsFromBeatPattern, with count * 4 / denominator quarters as count beats of NoteTicks(denominator). */
  method OffsetsFromBeatPattern(beatList: seq<nat>, denominator: int) returns (offsets: Level)
    requires denominator in SupportedDenominators
    ensures offsets == BeatOffsets(beatList, NoteTicks(denominator))
  {
    var unit := NoteTicks(denominator);
    offsets := [];
    var count := 0;
    for i := 0 to |beatList|
      invariant count == Sum(beatList[..i])
      invariant offsets == seq(i, j requires 0 <= j < i => Sum(beatList[..j]) * unit)
    {
      offsets := offsets + [count * unit];
      SumPrefix(beatList, i);
      count := count + beatList[i];
    }
    assert beatList[..|beatList|] == beatList;
    offsets := offsets + [count * unit];
  }

  /** With positive groups the beat boundaries strictly increase. */
  lemma BeatOffsetsIncreasing(beats: seq<nat>, unit: int)
    requires unit > 0
    requires forall k :: 0 <= k < |beats| ==> beats[k] > 0
    ensures Increasing(BeatOffsets(beats, unit))
  {
    var r := BeatOffsets(beats, unit);
    forall i, j | 0 <= i < j < |r|
      ensures r[i] < r[j]
    {
      SumPrefixIncreasing(beats, i, j);
      MulStrict(Sum(beats[..i]), Sum(beats[..j]), unit);
    }
  }

  /**
   * Beat boundaries lie on every pulse grid whose pulse divides the beat,
   * as long as the groups do not run past the measure.
   */
  lemma BeatsOnGrid(beats: seq<nat>, unit: int, measureLength: int, pulse: int)
    requires unit > 0 && pulse > 0 && unit % pulse == 0
    requires Sum(beats) * unit <= measureLength
    ensures Refines(BeatOffsets(beats, unit), PulseOffsets(measureLength, pulse))
  {
    var r := BeatOffsets(beats, unit);
    PulseOffsetsGrid(measureLength, pulse);
    forall i | 0 <= i < |r|
      ensures r[i] in PulseOffsets(measureLength, pulse)
    {
      var s := Sum(beats[..i]);
      SumPrefixBounded(beats, i);
      MulMonotone(s, Sum(beats), unit);
      MulOfMultiple(s, unit, pulse);
      assert r[i] == s * unit;
    }
  }

  lemma MulMonotone(a: int, b: int, p: int)
    requires p > 0 && 0 <= a <= b
    ensures 0 <= a * p <= b * p
  {
    if a < b { MulStrict(a, b, p); }
  }
}
