/** The minimum delay between two failovers, in Go's machine arithmetic, and what a
    sequence of events that respects such a delay can look like in any time window.

    Instants are nanoseconds since the epoch. Saved time stamps are whole seconds: a
    `metav1.Time` is serialised with a resolution of one second. */
module Throttle {
  import opened Wrappers

  const SECOND: int := 1_000_000_000
  const MAX_INT64: int := 0x7fff_ffff_ffff_ffff
  const MIN_INT64: int := -0x8000_0000_0000_0000

  type int32 = x: int | -0x8000_0000 <= x < 0x8000_0000

  const DEFAULT_INTERVAL: int32 := 300

  /** Two's complement wrap-around of a 64-bit result. */
  function Wrap64(x: int): int {
    (x - MIN_INT64) % 0x1_0000_0000_0000_0000 + MIN_INT64
  }

  /** `time.Duration(seconds) * time.Second`: a 64-bit product. */
  function Duration(seconds: int32): int {
    Wrap64(seconds * SECOND)
  }

  /** `time.Since`: the difference of two instants, saturated to 64 bits. */
  function Since(now: int, past: int): int {
    var d := now - past;
    if d > MAX_INT64 then MAX_INT64 else if d < MIN_INT64 then MIN_INT64 else d
  }

  function Interval(minimum: Option<int32>): int32 {
    minimum.GetOr(DEFAULT_INTERVAL)
  }

  /** The throttle shared by the manual and the automatic trigger. */
  predicate TooSoon(last: Option<int>, minimum: Option<int32>, now: int) {
    && last.Some?
    && Since(now, last.value * SECOND) < Duration(Interval(minimum))
  }

  /** The declared interval is over since the last failover, five minutes where none is declared. */
  predicate IntervalOver(last: Option<int>, minimum: Option<int32>, now: int) {
    last.None? || now >= (last.value + (if minimum.Some? then minimum.value else 300)) * 1_000_000_000
  }

  /** Wrap-around and saturation never show: the throttle is the comparison over the integers. */
  lemma ThrottleIsExact(last: Option<int>, minimum: Option<int32>, now: int)
    ensures TooSoon(last, minimum, now) <==> !IntervalOver(last, minimum, now)
  {
  }

  /** Consecutive stamps are at least `gap` seconds apart. */
  ghost predicate Spaced(stamps: seq<int>, gap: int) {
    forall i | 0 < i < |stamps| :: stamps[i] - stamps[i - 1] >= gap
  }

  /** How many stamps lie in the closed window [lo, hi]. */
  function CountIn(stamps: seq<int>, lo: int, hi: int): nat {
    if stamps == [] then 0
    else CountIn(stamps[..|stamps| - 1], lo, hi)
         + if lo <= stamps[|stamps| - 1] <= hi then 1 else 0
  }

  lemma {:induction false} SpacedIsSorted(stamps: seq<int>, gap: nat, i: nat)
    requires Spaced(stamps, gap) && i < |stamps|
    ensures stamps[i] <= stamps[|stamps| - 1] - (if i == |stamps| - 1 then 0 else gap)
    decreases |stamps| - i
  {
    if i < |stamps| - 1 {
      SpacedIsSorted(stamps, gap, i + 1);
      assert stamps[i + 1] - stamps[i] >= gap;
    }
  }

  /** Stamps that all lie below a bound are counted alike by every window that reaches it,
      and stamps below the window are not counted. */
  lemma {:induction false} CountBelow(stamps: seq<int>, lo: int, hi: int, top: int)
    requires forall i | 0 <= i < |stamps| :: stamps[i] <= top
    requires top <= hi
    ensures CountIn(stamps, lo, hi) == CountIn(stamps, lo, top)
    ensures top < lo ==> CountIn(stamps, lo, hi) == 0
  {
    if stamps != [] {
      CountBelow(stamps[..|stamps| - 1], lo, hi, top);
    }
  }

  lemma OneMore(n: int, gap: int)
    ensures n * gap == (n - 1) * gap + gap
  {
  }

  lemma {:induction false} WindowBound(stamps: seq<int>, gap: nat, lo: int, hi: int)
    requires Spaced(stamps, gap) && lo <= hi
    ensures CountIn(stamps, lo, hi) > 0 ==> (CountIn(stamps, lo, hi) - 1) * gap <= hi - lo
  {
    if stamps != [] {
      var init, x := stamps[..|stamps| - 1], stamps[|stamps| - 1];
      forall i | 0 <= i < |init| ensures init[i] <= x - gap {
        SpacedIsSorted(stamps, gap, i);
      }
      if x > hi {
        WindowBound(init, gap, lo, hi);
      } else if x < lo {
        CountBelow(init, lo, hi, x - gap);
      } else {
        CountBelow(init, lo, hi, x - gap);
        if lo <= x - gap {
          WindowBound(init, gap, lo, x - gap);
          OneMore(CountIn(init, lo, x - gap), gap);
        }
      }
    }
  }

  /** Any window of `hi - lo` seconds holds at most (hi - lo) / gap + 1 spaced stamps. */
  lemma RateBound(stamps: seq<int>, gap: int, lo: int, hi: int)
    requires gap > 0 && Spaced(stamps, gap) && lo <= hi
    ensures CountIn(stamps, lo, hi) <= (hi - lo) / gap + 1
  {
    WindowBound(stamps, gap, lo, hi);
    var n := CountIn(stamps, lo, hi);
    if n > 0 {
      MulBelowDiv(n - 1, gap, hi - lo);
    }
  }

  lemma MulMonotone(a: int, b: int, d: int)
    requires a >= b && d > 0
    ensures a * d >= b * d
  {
  }

  lemma MulBelowDiv(n: int, d: int, x: int)
    requires d > 0 && n * d <= x
    ensures n <= x / d
  {
    assert x == x / d * d + x % d;
    assert n * d < (x / d + 1) * d;
    if n > x / d {
      MulMonotone(n, x / d + 1, d);
    }
  }
}
