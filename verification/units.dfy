/** Arithmetic shared by the three speed-test variants: the bytes-and-time
    to megabits-per-second conversion, JavaScript's `Math.round`, and sums
    and means over sample sequences. Numbers are exact reals, not IEEE
    doubles. */
module Units {

  /** Bytes in a mebibyte; every variant divides bits by 1024 * 1024 and calls the result "Mbps". */
  const MiB: nat := 1024 * 1024

  /** The conversion's denominator `1024 * 1024 * seconds` is positive for a positive duration. */
  lemma DenominatorPositive(seconds: real)
    requires seconds > 0.0
    ensures MiB as real * seconds > 0.0
  {
    assert MiB as real == 1048576.0;
  }

  /** A positive elapsed wall-clock time in milliseconds, a difference of two `performance.now()` readings. */
  type Millis = r: real | r > 0.0 witness 1.0

  /** Milliseconds to seconds, the `/ 1000` every variant applies to a duration. */
  function Seconds(ms: Millis): (s: real)
    ensures s > 0.0
    ensures s * 1000.0 == ms
  {
    ms / 1000.0
  }

  /** Megabits per second for `bytes` moved in `seconds`: the rate that,
      sustained for `seconds`, moves exactly `bytes * 8` bits (in units of 2^20 bits). */
  function Mbps(bytes: nat, seconds: real): (r: real)
    requires seconds > 0.0
    ensures r * (MiB as real * seconds) == (bytes * 8) as real
    ensures r >= 0.0
    ensures r == 0.0 <==> bytes == 0
  {
    (bytes * 8) as real / (MiB as real * seconds)
  }

  /** Moving more bytes in the same time is a strictly higher rate. */
  lemma MbpsGrowsWithBytes(b1: nat, b2: nat, seconds: real)
    requires seconds > 0.0 && b1 < b2
    ensures Mbps(b1, seconds) < Mbps(b2, seconds)
  {
    DenominatorPositive(seconds);
    DivideKeepsOrder((b1 * 8) as real, (b2 * 8) as real, MiB as real * seconds);
  }

  /** Taking longer for the same non-empty payload is a strictly lower rate. */
  lemma MbpsShrinksWithTime(bytes: nat, s1: real, s2: real)
    requires bytes > 0 && 0.0 < s1 < s2
    ensures Mbps(bytes, s2) < Mbps(bytes, s1)
  {
    DenominatorPositive(s1);
    assert MiB as real == 1048576.0;
    DivideByLarger((bytes * 8) as real, MiB as real * s1, MiB as real * s2);
  }

  lemma DivideKeepsOrder(x: real, y: real, d: real)
    requires d > 0.0 && x < y
    ensures x / d < y / d
  {
  }

  lemma DivideByLarger(x: real, d1: real, d2: real)
    requires x > 0.0 && 0.0 < d1 < d2
    ensures x / d2 < x / d1
  {
  }

  /** JavaScript's `Math.round` on a finite number: the integer nearest `x`,
      with halves rounding up (towards positive infinity). */
  function MathRound(x: real): (n: int)
    ensures x - 0.5 < n as real <= x + 0.5
    ensures x >= 0.0 ==> n >= 0
  {
    (x + 0.5).Floor
  }

  /** Rounding never reorders: a larger argument never rounds lower. */
  lemma MathRoundMonotone(x: real, y: real)
    requires x <= y
    ensures MathRound(x) <= MathRound(y)
  {
    assert (x + 0.5).Floor <= (y + 0.5).Floor;
  }

  /** Sum of a sequence of reals, first element first. */
  function Sum(xs: seq<real>): real
  {
    if xs == [] then 0.0 else xs[0] + Sum(xs[1..])
  }

  /** Sum of a sequence of integers, first element first. */
  function IntSum(xs: seq<int>): int
  {
    if xs == [] then 0 else xs[0] + IntSum(xs[1..])
  }

  /** Arithmetic mean of a non-empty sequence. */
  function Mean(xs: seq<real>): real
    requires |xs| > 0
  {
    Sum(xs) / |xs| as real
  }

  lemma {:induction false} SumAppend(xs: seq<real>, ys: seq<real>)
    ensures Sum(xs + ys) == Sum(xs) + Sum(ys)
  {
    if xs == [] {
      assert xs + ys == ys;
    } else {
      assert (xs + ys)[1..] == xs[1..] + ys;
      SumAppend(xs[1..], ys);
    }
  }

  lemma {:induction false} IntSumAppend(xs: seq<int>, ys: seq<int>)
    ensures IntSum(xs + ys) == IntSum(xs) + IntSum(ys)
  {
    if xs == [] {
      assert xs + ys == ys;
    } else {
      assert (xs + ys)[1..] == xs[1..] + ys;
      IntSumAppend(xs[1..], ys);
    }
  }

  /** A sum of values within [lo, hi] lies within [n * lo, n * hi]. */
  lemma {:induction false} SumBetween(xs: seq<real>, lo: real, hi: real)
    requires forall i :: 0 <= i < |xs| ==> lo <= xs[i] <= hi
    ensures |xs| as real * lo <= Sum(xs) <= |xs| as real * hi
  {
    if xs != [] {
      SumBetween(xs[1..], lo, hi);
    }
  }

  /** The mean of values within [lo, hi] lies within [lo, hi]. */
  lemma MeanBetween(xs: seq<real>, lo: real, hi: real)
    requires |xs| > 0
    requires forall i :: 0 <= i < |xs| ==> lo <= xs[i] <= hi
    ensures lo <= Mean(xs) <= hi
  {
    SumBetween(xs, lo, hi);
    var n := |xs| as real;
    assert Mean(xs) * n == Sum(xs);
  }

  /** A non-empty sum of positive values is positive. */
  lemma {:induction false} SumPositive(xs: seq<real>)
    requires |xs| > 0
    requires forall i :: 0 <= i < |xs| ==> xs[i] > 0.0
    ensures Sum(xs) > 0.0
  {
    if |xs| > 1 {
      SumPositive(xs[1..]);
    }
  }

  /** A sum of non-negative integers is non-negative. */
  lemma {:induction false} IntSumNonNegative(xs: seq<int>)
    requires forall i :: 0 <= i < |xs| ==> xs[i] >= 0
    ensures IntSum(xs) >= 0
  {
    if xs != [] {
      IntSumNonNegative(xs[1..]);
    }
  }

  /** A sum of integers within [lo, hi] lies within [n * lo, n * hi]. */
  lemma {:induction false} IntSumBetween(xs: seq<int>, lo: int, hi: int)
    requires forall i :: 0 <= i < |xs| ==> lo <= xs[i] <= hi
    ensures |xs| * lo <= IntSum(xs) <= |xs| * hi
  {
    if xs != [] {
      IntSumBetween(xs[1..], lo, hi);
    }
  }

  /** The mean of a sum bounded by [n * lo, n * hi] lies within [lo, hi]. */
  lemma MeanOfBoundedSum(total: int, n: nat, lo: int, hi: int)
    requires n > 0 && n * lo <= total <= n * hi
    ensures lo as real <= total as real / n as real <= hi as real
  {
    var m := total as real / n as real;
    assert m * n as real == total as real;
    assert (n * lo) as real == n as real * lo as real;
    assert (n * hi) as real == n as real * hi as real;
  }
}
