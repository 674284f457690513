/** Per-channel summary statistics computed in one pass over a capture:
    minimum, maximum, peak-to-peak and the mean square (the square of the
    RMS value). */
module Statistics {

  /** The numeric fields of a channel summary. The source stores
      rms = sqrt(meanSquare); the square root is not modelled, so the record
      keeps its square. */
  datatype Stats = Stats(min: real, max: real, p2p: real, meanSquare: real)

  /** Sum of the squares of the first n samples. */
  function SumSquares(s: seq<real>, n: nat): (r: real)
    requires n <= |s|
    ensures r >= 0.0
  {
    if n == 0 then 0.0
    else
      var x := s[n - 1];
      assert x * x >= 0.0;
      SumSquares(s, n - 1) + x * x
  }

  /** Java's Math.min and Math.max on two ordered values (NaN is not modelled). */
  function Min(a: real, b: real): (m: real)
    ensures m <= a && m <= b && (m == a || m == b)
  {
    if b < a then b else a
  }

  function Max(a: real, b: real): (m: real)
    ensures a <= m && b <= m && (m == a || m == b)
  {
    if b > a then b else a
  }

  /** Running minimum after the first n samples. The source starts from
      +infinity; the first sample replaces it, so starting from s[0] yields the
      same value at every n >= 1. */
  function MinUpTo(s: seq<real>, n: nat): real
    requires 0 < |s| && n <= |s|
  {
    if n == 0 then s[0] else Min(MinUpTo(s, n - 1), s[n - 1])
  }

  /** Running maximum after the first n samples, starting from s[0] in place
      of -infinity. */
  function MaxUpTo(s: seq<real>, n: nat): real
    requires 0 < |s| && n <= |s|
  {
    if n == 0 then s[0] else Max(MaxUpTo(s, n - 1), s[n - 1])
  }

  /** The summary of a whole non-empty capture, as the loop below computes it. */
  function Summary(s: seq<real>): Stats
    requires |s| > 0
  {
    var lo, hi := MinUpTo(s, |s|), MaxUpTo(s, |s|);
    Stats(lo, hi, hi - lo, SumSquares(s, |s|) / |s| as real)
  }

  /** One pass over v keeping a running minimum, maximum and sum of squares,
      then the mean square. An empty capture is excluded: the source would
      divide zero by zero for the RMS. */
  method Compute(v: array<real>) returns (s: Stats)
    requires v.Length > 0
    ensures s == Summary(v[..])
  {
    var min, max, sumSq := v[0], v[0], 0.0;
    for i := 0 to v.Length
      invariant min == MinUpTo(v[..], i)
      invariant max == MaxUpTo(v[..], i)
      invariant sumSq == SumSquares(v[..], i)
    {
      var x := v[i];
      min := Min(min, x);
      max := Max(max, x);
      sumSq := sumSq + x * x;
    }
    s := Stats(min, max, max - min, sumSq / v.Length as real);
  }

  /** Every sample lies between the running minimum and maximum of any prefix
      that contains it, and both extremes are samples of that prefix. */
  lemma {:induction false} RunningExtremes(s: seq<real>, n: nat)
    requires 0 < |s| && n <= |s|
    ensures forall k :: 0 <= k < n ==> MinUpTo(s, n) <= s[k] <= MaxUpTo(s, n)
    ensures MinUpTo(s, n) <= MaxUpTo(s, n)
    ensures exists k :: 0 <= k < |s| && k <= n && s[k] == MinUpTo(s, n)
    ensures exists k :: 0 <= k < |s| && k <= n && s[k] == MaxUpTo(s, n)
  {
    if n == 0 {
      assert s[0] == MinUpTo(s, n) == MaxUpTo(s, n);
    } else {
      RunningExtremes(s, n - 1);
      var lo, hi := MinUpTo(s, n - 1), MaxUpTo(s, n - 1);
      var ka :| 0 <= ka < |s| && ka <= n - 1 && s[ka] == lo;
      var kb :| 0 <= kb < |s| && kb <= n - 1 && s[kb] == hi;
      if s[n - 1] < lo {
        assert s[n - 1] == MinUpTo(s, n);
      } else {
        assert s[ka] == MinUpTo(s, n);
      }
      if s[n - 1] > hi {
        assert s[n - 1] == MaxUpTo(s, n);
      } else {
        assert s[kb] == MaxUpTo(s, n);
      }
    }
  }

  /** The summary's minimum and maximum bound every sample and are attained,
      and the peak-to-peak value is their non-negative difference. */
  lemma SummaryExtremes(s: seq<real>)
    requires |s| > 0
    ensures forall i :: 0 <= i < |s| ==> Summary(s).min <= s[i] <= Summary(s).max
    ensures exists i :: 0 <= i < |s| && s[i] == Summary(s).min
    ensures exists i :: 0 <= i < |s| && s[i] == Summary(s).max
    ensures Summary(s).p2p == Summary(s).max - Summary(s).min >= 0.0
  {
    RunningExtremes(s, |s|);
  }

  /** The summary's mean square recovers the sum of squares, never exceeds the
      larger squared extreme, and a constant capture c has min = max = c,
      peak-to-peak 0 and mean square c². */
  lemma SummaryMeanSquare(s: seq<real>)
    requires |s| > 0
    ensures Summary(s).meanSquare * |s| as real == SumSquares(s, |s|)
    ensures Summary(s).meanSquare <= PeakSquare(Summary(s).min, Summary(s).max)
    ensures (forall i :: 0 <= i < |s| ==> s[i] == s[0]) ==>
      Summary(s).min == Summary(s).max == s[0] && Summary(s).p2p == 0.0 &&
      Summary(s).meanSquare == s[0] * s[0]
  {
    RunningExtremes(s, |s|);
    MeanSquareFacts(s, MinUpTo(s, |s|), MaxUpTo(s, |s|));
  }

  /** What the mean square of a non-empty capture whose samples lie in
      [lo, hi] satisfies: it recovers the sum of squares, stays below the
      larger squared bound, and is c² for a constant capture c. */
  lemma MeanSquareFacts(s: seq<real>, lo: real, hi: real)
    requires |s| > 0
    requires forall i :: 0 <= i < |s| ==> lo <= s[i] <= hi
    ensures SumSquares(s, |s|) / |s| as real * |s| as real == SumSquares(s, |s|)
    ensures SumSquares(s, |s|) / |s| as real <= PeakSquare(lo, hi)
    ensures (forall i :: 0 <= i < |s| ==> s[i] == s[0]) ==>
      SumSquares(s, |s|) / |s| as real == s[0] * s[0]
  {
    var total, n, c := SumSquares(s, |s|), |s| as real, s[0];
    SumSquaresBounded(s, |s|, lo, hi);
    if forall i :: 0 <= i < |s| ==> s[i] == c {
      ConstantSumSquares(s, |s|, c);
    }
    QuotientFacts(total, n, PeakSquare(lo, hi), c * c);
  }

  /** The mean total / n of n > 0 values: it recovers the total, respects an
      upper bound n·p on the total, and is c when the total is c·n. */
  lemma QuotientFacts(total: real, n: real, p: real, c: real)
    requires n > 0.0 && total <= n * p
    ensures (total / n) * n == total
    ensures total / n <= p
    ensures total == c * n ==> total / n == c
  {
    var m := total / n;
    assert m * n == total;
    CancelPositive(m, p, n);
    if total == c * n {
      CancelPositive(m, c, n);
      CancelPositive(c, m, n);
    }
  }

  /** A constant capture c has sum of squares n·c², so its mean square is c². */
  lemma {:induction false} ConstantSumSquares(s: seq<real>, n: nat, c: real)
    requires n <= |s|
    requires forall i :: 0 <= i < |s| ==> s[i] == c
    ensures SumSquares(s, n) == (c * c) * n as real
  {
    if n > 0 {
      ConstantSumSquares(s, n - 1, c);
      var sq := c * c;
      assert sq * (n - 1) as real + sq == sq * n as real;
    }
  }

  /** The RMS never exceeds the larger magnitude of the extremes: every
      sample's square is at most max(min², max²), so the mean square is too. */
  lemma {:induction false} SumSquaresBounded(s: seq<real>, n: nat, lo: real, hi: real)
    requires n <= |s|
    requires forall i :: 0 <= i < |s| ==> lo <= s[i] <= hi
    ensures SumSquares(s, n) <= n as real * PeakSquare(lo, hi)
  {
    if n > 0 {
      SumSquaresBounded(s, n - 1, lo, hi);
      SquareBelowPeak(lo, hi, s[n - 1]);
      var p := PeakSquare(lo, hi);
      assert (n - 1) as real * p + p == n as real * p;
    }
  }

  /** Dividing both sides of x·n <= y·n by a positive n. */
  lemma CancelPositive(x: real, y: real, n: real)
    requires n > 0.0 && x * n <= y * n
    ensures x <= y
  {
  }

  /** The larger of the squares of two bounds. */
  function PeakSquare(lo: real, hi: real): real {
    if lo * lo >= hi * hi then lo * lo else hi * hi
  }

  lemma SquareBelowPeak(lo: real, hi: real, x: real)
    requires lo <= x <= hi
    ensures x * x <= PeakSquare(lo, hi)
  {
    if x >= 0.0 {
      assert x * x <= hi * hi by {
        assert hi >= x >= 0.0;
        assert hi * hi - x * x == (hi - x) * (hi + x);
      }
    } else {
      assert x * x <= lo * lo by {
        assert lo <= x < 0.0;
        assert lo * lo - x * x == (x - lo) * (-x - lo);
      }
    }
  }
}
