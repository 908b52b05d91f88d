/** What the offset estimator reports for two identical, in-phase signals:
    the correlation of a signal with itself peaks at lag 0, and for a signal
    that is not all silence the peak is strict, so `get_offset` reports an
    offset of exactly 0. An all-silent signal correlates to zero everywhere
    and the first-maximum rule then reports the most negative lag. */
module Autocorrelation {
  import opened Correlation

  /** Sample `i` of `x`, with silence outside the signal. */
  function At(x: seq<int>, i: int): int
  {
    if 0 <= i < |x| then x[i] else 0
  }

  /** The energy of samples `a .. b-1` of `x` (silence outside `x`). */
  function SqSum(x: seq<int>, a: int, b: int): int
    decreases b - a
  {
    if b <= a then 0 else SqSum(x, a, b - 1) + At(x, b - 1) * At(x, b - 1)
  }

  function Energy(x: seq<int>): int
  {
    SqSum(x, 0, |x|)
  }

  /** The squared distance, over the first `m` samples, between `x` and `x`
      moved later by `lag` samples. */
  function DiffSum(x: seq<int>, lag: int, m: nat): int
  {
    if m == 0 then 0
    else DiffSum(x, lag, m - 1) + (At(x, m - 1) - At(x, m - 1 - lag)) * (At(x, m - 1) - At(x, m - 1 - lag))
  }

  predicate Silent(x: seq<int>)
  {
    forall l :: 0 <= l < |x| ==> x[l] == 0
  }

  lemma {:induction false} SqSumNonNegative(x: seq<int>, a: int, b: int)
    ensures SqSum(x, a, b) >= 0
    decreases b - a
  {
    if b > a {
      SqSumNonNegative(x, a, b - 1);
    }
  }

  lemma {:induction false} SqSumSplit(x: seq<int>, a: int, b: int, c: int)
    requires a <= b <= c
    ensures SqSum(x, a, c) == SqSum(x, a, b) + SqSum(x, b, c)
    decreases c - b
  {
    if c > b {
      SqSumSplit(x, a, b, c - 1);
    }
  }

  lemma {:induction false} SqSumOutside(x: seq<int>, a: int, b: int)
    requires b <= 0 || a >= |x|
    ensures SqSum(x, a, b) == 0
    decreases b - a
  {
    if b > a {
      SqSumOutside(x, a, b - 1);
    }
  }

  /** No window of samples holds more energy than the whole signal. */
  lemma SqSumAtMostEnergy(x: seq<int>, a: int, b: int)
    ensures SqSum(x, a, b) <= Energy(x)
  {
    SqSumNonNegative(x, 0, |x|);
    if a < b {
      var lo := if a < 0 then a else 0;
      var hi := if b > |x| then b else |x|;
      SqSumSplit(x, lo, a, b);
      SqSumSplit(x, lo, b, hi);
      SqSumNonNegative(x, lo, a);
      SqSumNonNegative(x, b, hi);
      SqSumSplit(x, lo, 0, hi);
      SqSumSplit(x, 0, |x|, hi);
      SqSumOutside(x, lo, 0);
      SqSumOutside(x, |x|, hi);
    }
  }

  /** Expanding the squares of `DiffSum` splits it into the energy of the
      first `m` samples, the energy of the window they are compared with, and
      twice the partial correlation at that lag. */
  lemma {:induction false} DiffSumExpansion(x: seq<int>, lag: int, m: nat)
    requires m <= |x|
    ensures DiffSum(x, lag, m) == SqSum(x, 0, m) + SqSum(x, -lag, m - lag) - 2 * PartialSum(x, x, lag + |x| - 1, m)
  {
    if m > 0 {
      DiffSumExpansion(x, lag, m - 1);
      var u, v := At(x, m - 1), At(x, m - 1 - lag);
      var k := lag + |x| - 1;
      assert DiffSum(x, lag, m) == DiffSum(x, lag, m - 1) + (u - v) * (u - v);
      assert SqSum(x, 0, m) == SqSum(x, 0, m - 1) + u * u;
      assert SqSum(x, -lag, m - lag) == SqSum(x, -lag, m - 1 - lag) + v * v;
      assert PartialSum(x, x, k, m) == PartialSum(x, x, k, m - 1) + Term(x, x, k, m - 1);
      assert Term(x, x, k, m - 1) == u * v;
      SquareOfDifference(u, v);
    }
  }

  lemma SquareOfDifference(u: int, v: int)
    ensures (u - v) * (u - v) == u * u + v * v - 2 * (u * v)
  {
  }

  lemma {:induction false} DiffSumNonNegative(x: seq<int>, lag: int, m: nat)
    ensures DiffSum(x, lag, m) >= 0
  {
    if m > 0 {
      DiffSumNonNegative(x, lag, m - 1);
    }
  }

  lemma {:induction false} DiffSumZero(x: seq<int>, lag: int, m: nat)
    requires DiffSum(x, lag, m) == 0
    ensures forall l :: 0 <= l < m ==> At(x, l) == At(x, l - lag)
  {
    if m > 0 {
      DiffSumNonNegative(x, lag, m - 1);
      var d := At(x, m - 1) - At(x, m - 1 - lag);
      assert d * d >= 0;
      DiffSumZero(x, lag, m - 1);
    }
  }

  /** A signal that equals itself moved by a non-zero lag, with silence
      shifted in at one end, is silent throughout. */
  lemma {:induction false} PeriodicIsSilent(x: seq<int>, lag: int, l: nat)
    requires lag != 0 && l < |x|
    requires forall i :: 0 <= i < |x| ==> At(x, i) == At(x, i - lag)
    ensures x[l] == 0
    decreases if lag > 0 then l else |x| - l
  {
    assert At(x, l) == At(x, l - lag);
    if lag > 0 && l - lag >= 0 {
      PeriodicIsSilent(x, lag, l - lag);
    } else if lag < 0 && l - lag < |x| {
      PeriodicIsSilent(x, lag, l - lag);
    }
  }

  lemma {:induction false} ZeroLagIsEnergy(x: seq<int>, m: nat)
    requires m <= |x|
    ensures PartialSum(x, x, |x| - 1, m) == SqSum(x, 0, m)
  {
    if m > 0 {
      ZeroLagIsEnergy(x, m - 1);
    }
  }

  /** A signal correlates with itself at most as strongly as at lag 0, where
      the correlation is its energy; any other lag is strictly weaker unless
      the signal is silent. */
  lemma SelfCorrelationPeak(x: seq<int>, k: int)
    requires |x| > 0
    ensures CorrAt(x, x, |x| - 1) == Energy(x)
    ensures CorrAt(x, x, k) <= Energy(x)
    ensures k != |x| - 1 && !Silent(x) ==> CorrAt(x, x, k) < Energy(x)
  {
    var n, lag := |x|, k - (|x| - 1);
    ZeroLagIsEnergy(x, n);
    DiffSumExpansion(x, lag, n);
    DiffSumNonNegative(x, lag, n);
    SqSumAtMostEnergy(x, -lag, n - lag);
    if k != n - 1 && CorrAt(x, x, k) == Energy(x) {
      DiffSumZero(x, lag, n);
      forall l | 0 <= l < n ensures x[l] == 0 {
        PeriodicIsSilent(x, lag, l);
      }
    }
  }

  /** Two identical signals that are not silent are estimated to be exactly
      in sync. */
  lemma IdenticalSignalsInSync(rate: int, x: seq<int>)
    requires rate > 0 && |x| > 0 && !Silent(x)
    ensures GetOffset(rate, x, rate, x) == Ok(0.0)
  {
    var n := |x|;
    assert x[..n] == x;
    var lag := Lag(x, x);
    SelfCorrelationPeak(x, lag + n - 1);
    SelfCorrelationPeak(x, n - 1);
    assert lag == 0;
  }

  /** A silent first signal correlates to zero with anything at every lag;
      the first maximum is then the first entry, and the estimate is the most
      negative lag the correlation covers, `-(n - 1) / rate`. */
  lemma SilentSignalsMostNegative(rate: int, x: seq<int>, y: seq<int>)
    requires rate > 0 && |x| == |y| > 0 && Silent(x)
    ensures GetOffset(rate, x, rate, y) == Ok(-(|x| - 1) as real / rate as real)
  {
    var n := |x|;
    assert x[..n] == x && y[..n] == y;
    forall k | 0 <= k < 2 * n - 1 ensures CorrAt(x, y, k) == 0 {
      SilentPartialSum(x, y, k, n);
    }
    assert CorrAt(x, y, 0) == 0;
  }

  lemma {:induction false} SilentPartialSum(x: seq<int>, y: seq<int>, k: int, m: nat)
    requires |x| == |y| && m <= |x| && Silent(x)
    ensures PartialSum(x, y, k, m) == 0
  {
    if m > 0 {
      SilentPartialSum(x, y, k, m - 1);
    }
  }
}
