/** The offset estimator of `wis.py`: truncate both mono signals to their
    common length, take their full cross-correlation, and convert the lag of
    its first maximum into seconds. Samples are exact integers and the
    correlation is an exact sum, so the estimate is a pure function of the
    two signals and their sample rates. */
module Correlation {

  datatype OffsetError =
    | RateMismatch   // the `ValueError` raised when the two sample rates differ
    | EmptySignal    // nothing left to correlate after truncation

  datatype Estimate = Ok(offset: real) | Err(error: OffsetError)

  /** Term `l` of entry `k` of the full cross-correlation of two signals of
      the same length `n`: `x[l] * y[l - k + n - 1]`, zero where the second
      index falls outside `y`. */
  function Term(x: seq<int>, y: seq<int>, k: int, l: nat): int
    requires |x| == |y| && l < |x|
  {
    var m := l - k + |y| - 1;
    if 0 <= m < |y| then x[l] * y[m] else 0
  }

  /** The sum of the first `m` terms of entry `k`. */
  function PartialSum(x: seq<int>, y: seq<int>, k: int, m: nat): int
    requires |x| == |y| && m <= |x|
  {
    if m == 0 then 0 else PartialSum(x, y, k, m - 1) + Term(x, y, k, m - 1)
  }

  /** Entry `k` of the full cross-correlation. */
  function CorrAt(x: seq<int>, y: seq<int>, k: int): int
    requires |x| == |y|
  {
    PartialSum(x, y, k, |x|)
  }

  /** The full cross-correlation of two signals of length `n >= 1`: `2n - 1`
      entries, entry `k` belonging to the lag `k - (n - 1)`. */
  function Correlate(x: seq<int>, y: seq<int>): (c: seq<int>)
    requires |x| == |y| > 0
    ensures |c| == 2 * |x| - 1
    ensures forall k :: 0 <= k < |c| ==> c[k] == CorrAt(x, y, k)
  {
    seq(2 * |x| - 1, k => CorrAt(x, y, k))
  }

  /** The index of the first maximum of a non-empty sequence. */
  function FirstArgmax(s: seq<int>): (k: nat)
    requires |s| > 0
    ensures k < |s|
    ensures forall j :: 0 <= j < |s| ==> s[j] <= s[k]
    ensures forall j :: 0 <= j < k ==> s[j] < s[k]
  {
    if |s| == 1 then 0
    else
      var k := FirstArgmax(s[..|s| - 1]);
      if s[|s| - 1] > s[k] then |s| - 1 else k
  }

  /** The lag, in samples, at which two equal-length signals correlate best:
      the first maximum of the correlation, shifted so that lag 0 is the
      middle entry. */
  function Lag(x: seq<int>, y: seq<int>): (lag: int)
    requires |x| == |y| > 0
    ensures -(|x| - 1) <= lag <= |x| - 1
    ensures forall k :: 0 <= k < 2 * |x| - 1 ==> CorrAt(x, y, k) <= CorrAt(x, y, lag + |x| - 1)
    ensures forall k :: 0 <= k < lag + |x| - 1 ==> CorrAt(x, y, k) < CorrAt(x, y, lag + |x| - 1)
  {
    FirstArgmax(Correlate(x, y)) - (|y| - 1)
  }

  function MinLength(x: seq<int>, y: seq<int>): (n: nat)
    ensures n <= |x| && n <= |y| && (n == |x| || n == |y|)
  {
    if |x| < |y| then |x| else |y|
  }

  /** `get_offset`: the offset in seconds of the second signal against the
      first. Rates are positive, as in every WAV header. */
  function GetOffset(rate1: int, data1: seq<int>, rate2: int, data2: seq<int>): (r: Estimate)
    requires rate1 > 0 && rate2 > 0
    ensures r == Err(RateMismatch) <==> rate1 != rate2
    ensures r == Err(EmptySignal) <==> rate1 == rate2 && (|data1| == 0 || |data2| == 0)
    ensures r.Ok? ==> var n := MinLength(data1, data2);
      n > 0 &&
      r.offset * rate1 as real == Lag(data1[..n], data2[..n]) as real &&
      -(n - 1) as real <= r.offset * rate1 as real <= (n - 1) as real
  {
    if rate1 != rate2 then Err(RateMismatch)
    else
      var n := MinLength(data1, data2);
      if n == 0 then Err(EmptySignal)
      else
        var lag := Lag(data1[..n], data2[..n]);
        Ok(lag as real / rate1 as real)
  }

  /** Only the common prefix of the two signals takes part: samples past the
      shorter signal's end never change the estimate. */
  lemma OnlyCommonPrefixCounts(rate: int, data1: seq<int>, data2: seq<int>, extra: seq<int>)
    requires rate > 0 && |data1| == |data2|
    ensures GetOffset(rate, data1 + extra, rate, data2) == GetOffset(rate, data1, rate, data2)
    ensures GetOffset(rate, data1, rate, data2 + extra) == GetOffset(rate, data1, rate, data2)
  {
    assert (data1 + extra)[..|data1|] == data1[..|data1|];
    assert (data2 + extra)[..|data2|] == data2[..|data2|];
  }

  /** A signal of `n` samples, silent except for one unit sample at `i`. */
  function Impulse(n: nat, i: nat): (s: seq<int>)
    requires i < n
    ensures |s| == n && s[i] == 1
    ensures forall l :: 0 <= l < n && l != i ==> s[l] == 0
  {
    seq(n, l => if l == i then 1 else 0)
  }

  lemma {:induction false} ImpulsePartialSum(n: nat, i: nat, j: nat, k: int, m: nat)
    requires i < n && j < n && m <= n
    ensures PartialSum(Impulse(n, i), Impulse(n, j), k, m) == if i < m && k == i - j + n - 1 then 1 else 0
  {
    if m > 0 {
      ImpulsePartialSum(n, i, j, k, m - 1);
    }
  }

  /** The sign convention of the estimator: when the first signal's event
      sits at sample `i` and the second's at sample `j`, the offset is
      `(i - j) / rate`, positive exactly when the second signal's event comes
      earlier than the first's. */
  lemma {:induction false} ImpulseOffset(rate: int, n: nat, i: nat, j: nat)
    requires rate > 0 && i < n && j < n
    ensures GetOffset(rate, Impulse(n, i), rate, Impulse(n, j)) == Ok((i - j) as real / rate as real)
  {
    var x, y := Impulse(n, i), Impulse(n, j);
    assert x[..n] == x && y[..n] == y;
    var peak := i - j + n - 1;
    forall k | 0 <= k < 2 * n - 1
      ensures CorrAt(x, y, k) == if k == peak then 1 else 0
    {
      ImpulsePartialSum(n, i, j, k, n);
    }
    var lag := Lag(x, y);
    assert CorrAt(x, y, lag + n - 1) >= CorrAt(x, y, peak);
  }
}
