/** Reconstruction of the B-H loop from two captured signals: decimation by a
    stride, classification of each decimated sample by the direction in which
    x moved, accumulation of the y values into 150 bins along x per
    direction, and averaging of each non-empty bin into two branch curves. */
module LoopReconstruction {
  import Acquisition
  import SignalProcessing

  /** Number of bins along the x axis. */
  const Bins: int := 150
  /** Smallest change of x that counts as a movement. */
  const NoiseFloor: real := 0.000000001
  /** Range of Java's int, where (int) on a double saturates. */
  const IntMax: int := 0x7fff_ffff
  const IntMin: int := -0x8000_0000

  datatype Option<T> = None | Some(value: T)

  // ---------------------------------------------------------------------
  // Decimation and classification

  /** Decimation stride max(1, len / DefaultPlotPoints) in integer division:
      the largest stride whose multiples of DefaultPlotPoints fit in len, and
      never below 1. */
  function Stride(len: nat): (step: int)
    ensures step >= 1
    ensures step == 1 || step * Acquisition.DefaultPlotPoints <= len
    ensures len < (step + 1) * Acquisition.DefaultPlotPoints
  {
    var q := len / Acquisition.DefaultPlotPoints;
    if q > 1 then q else 1
  }

  /** The direction in which x moved between two decimated samples. */
  datatype Direction = Rising | Falling

  /** One decimated sample that moved: its coordinates and direction. */
  datatype ScatterPoint = ScatterPoint(x: real, y: real, dir: Direction)

  function Abs(r: real): (a: real)
    ensures a >= 0.0 && (a == r || a == -r)
  {
    if r < 0.0 then -r else r
  }

  /** A strictly positive change is rising; a negative one is falling. */
  function DirectionOf(d: real): (dir: Direction)
    ensures dir == Rising <==> d > 0.0
    ensures dir == Falling <==> d <= 0.0
  {
    if d > 0.0 then Rising else Falling
  }

  /** Whether sample k moved by at least the noise floor since sample k − step. */
  predicate Moves(x: seq<real>, step: int, k: int)
    requires 1 <= step <= k < |x|
    ensures Moves(x, step, k) <==> x[k] - x[k - step] >= NoiseFloor || x[k - step] - x[k] >= NoiseFloor
  {
    Abs(x[k] - x[k - step]) >= NoiseFloor
  }

  /** The scatter point that sample k becomes. */
  function PointAt(x: seq<real>, y: seq<real>, step: int, k: int): (p: ScatterPoint)
    requires 1 <= step <= k < |x| <= |y|
    ensures p.x == x[k] && p.y == y[k]
    ensures p.dir == Rising <==> x[k - step] < x[k]
    ensures Moves(x, step, k) ==> (p.dir == Falling <==> x[k] < x[k - step])
  {
    ScatterPoint(x[k], y[k], DirectionOf(x[k] - x[k - step]))
  }

  /** The m-th decimated index counted from `start`. */
  function NthIndex(start: int, step: int, m: nat): int {
    start + m * step
  }

  /** The scatter points of samples i, i + step, i + 2·step, ... below |x|, in
      acquisition order, skipping those that did not move. */
  function ScatterFrom(x: seq<real>, y: seq<real>, step: int, i: int): seq<ScatterPoint>
    requires |x| <= |y| && 1 <= step <= i
    decreases |x| - i
  {
    if i >= |x| then []
    else if Moves(x, step, i) then [PointAt(x, y, step, i)] + ScatterFrom(x, y, step, i + step)
    else ScatterFrom(x, y, step, i + step)
  }

  /** The scatter of a whole capture, starting one stride in. */
  function Scatter(x: seq<real>, y: seq<real>): seq<ScatterPoint>
    requires |x| <= |y|
  {
    ScatterFrom(x, y, Stride(|x|), Stride(|x|))
  }

  /** The decimation loop: visits i = step, 2·step, ... below the length of
      xSig and appends a point for each sample that moved. */
  method CollectScatter(xSig: array<real>, ySig: array<real>, step: int) returns (points: seq<ScatterPoint>)
    requires xSig.Length <= ySig.Length && step >= 1
    ensures points == ScatterFrom(xSig[..], ySig[..], step, step)
  {
    points := [];
    var i := step;
    while i < xSig.Length
      invariant step <= i
      invariant points + ScatterFrom(xSig[..], ySig[..], step, i) == ScatterFrom(xSig[..], ySig[..], step, step)
      decreases xSig.Length - i
    {
      var d := xSig[i] - xSig[i - step];
      if Abs(d) >= NoiseFloor {
        var p := ScatterPoint(xSig[i], ySig[i], if d > 0.0 then Rising else Falling);
        assert points + [p] + ScatterFrom(xSig[..], ySig[..], step, i + step)
            == points + ([p] + ScatterFrom(xSig[..], ySig[..], step, i + step));
        points := points + [p];
      }
      i := i + step;
    }
  }

  /** Soundness of the scatter: every point comes from a decimated sample that
      moved, carrying its coordinates and the direction of its move. */
  lemma {:induction false} ScatterSound(x: seq<real>, y: seq<real>, step: int, i: int, p: ScatterPoint)
    requires |x| <= |y| && 1 <= step <= i
    requires p in ScatterFrom(x, y, step, i)
    ensures exists m: nat ::
              NthIndex(i, step, m) < |x| && Moves(x, step, NthIndex(i, step, m)) &&
              p == PointAt(x, y, step, NthIndex(i, step, m))
    decreases |x| - i
  {
    if Moves(x, step, i) && p == PointAt(x, y, step, i) {
      assert NthIndex(i, step, 0) == i;
    } else {
      ScatterSound(x, y, step, i + step, p);
      var m: nat :| NthIndex(i + step, step, m) < |x| && Moves(x, step, NthIndex(i + step, step, m)) &&
        p == PointAt(x, y, step, NthIndex(i + step, step, m));
      assert NthIndex(i, step, m + 1) == NthIndex(i + step, step, m);
    }
  }

  /** Completeness of the scatter: every decimated sample that moved is
      there. */
  lemma {:induction false} ScatterComplete(x: seq<real>, y: seq<real>, step: int, i: int, m: nat)
    requires |x| <= |y| && 1 <= step <= i
    requires NthIndex(i, step, m) < |x| && Moves(x, step, NthIndex(i, step, m))
    ensures PointAt(x, y, step, NthIndex(i, step, m)) in ScatterFrom(x, y, step, i)
    decreases m
  {
    if m > 0 {
      assert NthIndex(i, step, m) == NthIndex(i + step, step, m - 1);
      ScatterComplete(x, y, step, i + step, m - 1);
    }
  }

  /** A signal whose x never moves by the noise floor between decimated
      samples gives no scatter point at all. */
  lemma {:induction false} QuietSignalGivesNoScatter(x: seq<real>, y: seq<real>, step: int, i: int)
    requires |x| <= |y| && 1 <= step <= i
    requires forall k :: step <= k < |x| ==> Abs(x[k] - x[k - step]) < NoiseFloor
    ensures ScatterFrom(x, y, step, i) == []
    decreases |x| - i
  {
    if i < |x| {
      QuietSignalGivesNoScatter(x, y, step, i + step);
    }
  }

  /** On a signal whose x climbs by at least the noise floor over every
      stride, every scatter point is rising, and the scatter is non-empty as
      soon as one sample is visited. */
  lemma {:induction false} ClimbingSignalIsRising(x: seq<real>, y: seq<real>, step: int, i: int)
    requires |x| <= |y| && 1 <= step <= i
    requires forall k :: step <= k < |x| ==> x[k] - x[k - step] >= NoiseFloor
    ensures forall j :: 0 <= j < |ScatterFrom(x, y, step, i)| ==> ScatterFrom(x, y, step, i)[j].dir == Rising
    ensures i < |x| ==> ScatterFrom(x, y, step, i) != []
    decreases |x| - i
  {
    if i < |x| {
      ClimbingSignalIsRising(x, y, step, i + step);
      assert Moves(x, step, i);
    }
  }

  /** On a signal whose x increases over every stride, every scatter point
      is rising, however small the increase. */
  lemma {:induction false} IncreasingSignalIsRising(x: seq<real>, y: seq<real>, step: int, i: int)
    requires |x| <= |y| && 1 <= step <= i
    requires forall k :: step <= k < |x| ==> x[k - step] < x[k]
    ensures forall j :: 0 <= j < |ScatterFrom(x, y, step, i)| ==> ScatterFrom(x, y, step, i)[j].dir == Rising
    decreases |x| - i
  {
    if i < |x| {
      IncreasingSignalIsRising(x, y, step, i + step);
    }
  }

  // ---------------------------------------------------------------------
  // Binning along x

  /** Smallest x of a non-empty scatter. */
  function MinX(pts: seq<ScatterPoint>): (m: real)
    requires |pts| > 0
    ensures forall j :: 0 <= j < |pts| ==> m <= pts[j].x
    ensures exists j :: 0 <= j < |pts| && pts[j].x == m
  {
    if |pts| == 1 then pts[0].x
    else
      var m0 := MinX(pts[..|pts| - 1]);
      assert forall j :: 0 <= j < |pts| - 1 ==> pts[..|pts| - 1][j] == pts[j];
      if pts[|pts| - 1].x < m0 then pts[|pts| - 1].x else m0
  }

  /** Largest x of a non-empty scatter. */
  function MaxX(pts: seq<ScatterPoint>): (m: real)
    requires |pts| > 0
    ensures forall j :: 0 <= j < |pts| ==> pts[j].x <= m
    ensures exists j :: 0 <= j < |pts| && pts[j].x == m
  {
    if |pts| == 1 then pts[0].x
    else
      var m0 := MaxX(pts[..|pts| - 1]);
      assert forall j :: 0 <= j < |pts| - 1 ==> pts[..|pts| - 1][j] == pts[j];
      if pts[|pts| - 1].x > m0 then pts[|pts| - 1].x else m0
  }

  /** Bin width (xmax − xmin) / (Bins − 1): the Bins bin edges xmin + i·dx
      run from xmin to xmax. */
  function BinWidth(xmin: real, xmax: real): (dx: real)
    ensures dx * (Bins - 1) as real == xmax - xmin
    ensures xmin <= xmax ==> dx >= 0.0
    ensures xmin == xmax <==> dx == 0.0
  {
    (xmax - xmin) / (Bins - 1) as real
  }

  /** Java's (int) cast of a finite double: truncation toward zero, saturating
      at the bounds of int. */
  function TruncToInt(r: real): (n: int)
    ensures IntMin <= n <= IntMax
    ensures r >= 0.0 ==> 0 <= n && n as real <= r && (r < IntMax as real ==> r < n as real + 1.0)
    ensures r < 0.0 ==> n <= 0 && r <= n as real && (r > IntMin as real ==> n as real - 1.0 < r)
  {
    if r >= IntMax as real then IntMax
    else if r <= IntMin as real then IntMin
    else if r >= 0.0 then r.Floor
    else -((-r).Floor)
  }

  /** Bin of a point at x: (int)((x − xmin) / dx). With dx = 0 the quotient is
      0/0 = NaN for x == xmin, which Java casts to 0, and ±infinity otherwise,
      which it casts to the int bounds. */
  function BinIndex(x: real, xmin: real, dx: real): (b: int)
    ensures IntMin <= b <= IntMax
    ensures dx == 0.0 ==> (b == 0 <==> x == xmin)
    ensures dx == 0.0 && x > xmin ==> b == IntMax
    ensures dx == 0.0 && x < xmin ==> b == IntMin
    ensures dx > 0.0 && xmin <= x ==> 0 <= b
    ensures dx > 0.0 && xmin <= x && b < IntMax ==> BinEdge(xmin, dx, b) <= x < BinEdge(xmin, dx, b + 1)
  {
    if dx == 0.0 then
      (if x == xmin then 0 else if x > xmin then IntMax else IntMin)
    else
      var q := (x - xmin) / dx;
      var n := TruncToInt(q);
      if dx > 0.0 && xmin <= x && n < IntMax then
        FloorBracket(x - xmin, dx, q, n);
        n
      else n
  }

  /** A quotient q = num / den with n <= q < n + 1 puts num between n·den
      and (n + 1)·den. */
  lemma FloorBracket(num: real, den: real, q: real, n: int)
    requires den > 0.0 && q * den == num
    requires n as real <= q < n as real + 1.0
    ensures n as real * den <= num < (n + 1) as real * den
  {
    assert (q - n as real) * den >= 0.0;
    assert ((n + 1) as real - q) * den > 0.0;
  }

  /** Every point between xmin and xmax falls in one of the Bins bins: a
      proper bin when xmax > xmin, and bin 0 when they coincide. */
  lemma BinInRange(x: real, xmin: real, xmax: real)
    requires xmin <= x <= xmax
    ensures 0 <= BinIndex(x, xmin, BinWidth(xmin, xmax)) < Bins
    ensures xmin == xmax ==> BinIndex(x, xmin, BinWidth(xmin, xmax)) == 0
  {
    var dx := BinWidth(xmin, xmax);
    if dx != 0.0 {
      var top := (Bins - 1) as real;
      assert top * dx == xmax - xmin;
      QuotientBounds(x - xmin, dx, top);
    }
  }

  /** A quotient num / den with 0 <= num <= top·den and den > 0 lies in [0, top]. */
  lemma QuotientBounds(num: real, den: real, top: real)
    requires den > 0.0 && 0.0 <= num <= top * den
    ensures 0.0 <= num / den <= top
  {
    var q := num / den;
    assert q * den == num;
    if q > top {
      assert (q - top) * den > 0.0;
    }
  }

  /** Whether point p is counted in bin b of direction d. */
  predicate InBin(p: ScatterPoint, d: Direction, xmin: real, dx: real, b: int) {
    p.dir == d && BinIndex(p.x, xmin, dx) == b
  }

  /** How many of the first n points land in bin b of direction d. */
  function BinCount(pts: seq<ScatterPoint>, d: Direction, xmin: real, dx: real, b: int, n: nat): nat
    requires n <= |pts|
  {
    if n == 0 then 0
    else BinCount(pts, d, xmin, dx, b, n - 1) + (if InBin(pts[n - 1], d, xmin, dx, b) then 1 else 0)
  }

  /** Sum of the y values of the first n points that land in bin b of
      direction d. */
  function BinSum(pts: seq<ScatterPoint>, d: Direction, xmin: real, dx: real, b: int, n: nat): real
    requires n <= |pts|
  {
    if n == 0 then 0.0
    else BinSum(pts, d, xmin, dx, b, n - 1) + (if InBin(pts[n - 1], d, xmin, dx, b) then pts[n - 1].y else 0.0)
  }

  /** The accumulation loop: each point whose bin index lies in [0, Bins)
      adds its y to the sum and 1 to the count of its bin and direction;
      points outside are skipped. All four arrays start at zero. */
  method Accumulate(points: seq<ScatterPoint>, xmin: real, dx: real)
    returns (sumRising: array<real>, sumFalling: array<real>, countRising: array<int>, countFalling: array<int>)
    ensures fresh(sumRising) && fresh(sumFalling) && fresh(countRising) && fresh(countFalling)
    ensures sumRising.Length == Bins && sumFalling.Length == Bins
    ensures countRising.Length == Bins && countFalling.Length == Bins
    ensures forall b :: 0 <= b < Bins ==>
      sumRising[b] == BinSum(points, Rising, xmin, dx, b, |points|) &&
      countRising[b] == BinCount(points, Rising, xmin, dx, b, |points|)
    ensures forall b :: 0 <= b < Bins ==>
      sumFalling[b] == BinSum(points, Falling, xmin, dx, b, |points|) &&
      countFalling[b] == BinCount(points, Falling, xmin, dx, b, |points|)
  {
    sumRising := new real[Bins](_ => 0.0);
    sumFalling := new real[Bins](_ => 0.0);
    countRising := new int[Bins](_ => 0);
    countFalling := new int[Bins](_ => 0);
    for j := 0 to |points|
      invariant forall b :: 0 <= b < Bins ==>
        sumRising[b] == BinSum(points, Rising, xmin, dx, b, j) &&
        countRising[b] == BinCount(points, Rising, xmin, dx, b, j)
      invariant forall b :: 0 <= b < Bins ==>
        sumFalling[b] == BinSum(points, Falling, xmin, dx, b, j) &&
        countFalling[b] == BinCount(points, Falling, xmin, dx, b, j)
    {
      var p := points[j];
      var b := BinIndex(p.x, xmin, dx);
      if 0 <= b < Bins {
        if p.dir == Rising {
          sumRising[b] := sumRising[b] + p.y;
          countRising[b] := countRising[b] + 1;
        } else {
          sumFalling[b] := sumFalling[b] + p.y;
          countFalling[b] := countFalling[b] + 1;
        }
      }
    }
  }

  /** Whether point p has direction d and a bin index in [0, nb). */
  predicate CountedBelow(p: ScatterPoint, d: Direction, xmin: real, dx: real, nb: int) {
    p.dir == d && 0 <= BinIndex(p.x, xmin, dx) < nb
  }

  /** How many of the first n points of direction d have a bin index in [0, nb). */
  function InRangeCount(pts: seq<ScatterPoint>, d: Direction, xmin: real, dx: real, nb: int, n: nat): nat
    requires n <= |pts|
  {
    if n == 0 then 0
    else InRangeCount(pts, d, xmin, dx, nb, n - 1) + (if CountedBelow(pts[n - 1], d, xmin, dx, nb) then 1 else 0)
  }

  /** Sum of the y values of those points. */
  function InRangeSum(pts: seq<ScatterPoint>, d: Direction, xmin: real, dx: real, nb: int, n: nat): real
    requires n <= |pts|
  {
    if n == 0 then 0.0
    else InRangeSum(pts, d, xmin, dx, nb, n - 1) + (if CountedBelow(pts[n - 1], d, xmin, dx, nb) then pts[n - 1].y else 0.0)
  }

  /** Total of the per-bin counts of bins 0 .. nb − 1. */
  function CountOverBins(pts: seq<ScatterPoint>, d: Direction, xmin: real, dx: real, nb: nat, n: nat): nat
    requires n <= |pts|
  {
    if nb == 0 then 0
    else CountOverBins(pts, d, xmin, dx, nb - 1, n) + BinCount(pts, d, xmin, dx, nb - 1, n)
  }

  /** Total of the per-bin sums of bins 0 .. nb − 1. */
  function SumOverBins(pts: seq<ScatterPoint>, d: Direction, xmin: real, dx: real, nb: nat, n: nat): real
    requires n <= |pts|
  {
    if nb == 0 then 0.0
    else SumOverBins(pts, d, xmin, dx, nb - 1, n) + BinSum(pts, d, xmin, dx, nb - 1, n)
  }

  /** Adding point n − 1 raises the totals over bins 0 .. nb − 1 by that
      point's share: one and its y when its bin is among them, nothing
      otherwise. */
  lemma {:induction false} OverBinsStep(pts: seq<ScatterPoint>, d: Direction, xmin: real, dx: real, nb: nat, n: nat)
    requires 0 < n <= |pts|
    ensures CountOverBins(pts, d, xmin, dx, nb, n) ==
      CountOverBins(pts, d, xmin, dx, nb, n - 1) + (if CountedBelow(pts[n - 1], d, xmin, dx, nb) then 1 else 0)
    ensures SumOverBins(pts, d, xmin, dx, nb, n) ==
      SumOverBins(pts, d, xmin, dx, nb, n - 1) + (if CountedBelow(pts[n - 1], d, xmin, dx, nb) then pts[n - 1].y else 0.0)
  {
    if nb > 0 {
      OverBinsStep(pts, d, xmin, dx, nb - 1, n);
    }
  }

  /** Conservation: the per-bin counts of a direction add up to the number
      of its points whose bin index is in range, and the per-bin sums to the
      sum of their y values. */
  lemma {:induction false} Conservation(pts: seq<ScatterPoint>, d: Direction, xmin: real, dx: real, n: nat)
    requires n <= |pts|
    ensures CountOverBins(pts, d, xmin, dx, Bins, n) == InRangeCount(pts, d, xmin, dx, Bins, n)
    ensures SumOverBins(pts, d, xmin, dx, Bins, n) == InRangeSum(pts, d, xmin, dx, Bins, n)
  {
    if n == 0 {
      NoPointsOverBins(pts, d, xmin, dx, Bins);
    } else {
      Conservation(pts, d, xmin, dx, n - 1);
      OverBinsStep(pts, d, xmin, dx, Bins, n);
    }
  }

  /** Before any point is added every bin is empty. */
  lemma {:induction false} NoPointsOverBins(pts: seq<ScatterPoint>, d: Direction, xmin: real, dx: real, nb: nat)
    ensures CountOverBins(pts, d, xmin, dx, nb, 0) == 0
    ensures SumOverBins(pts, d, xmin, dx, nb, 0) == 0.0
  {
    if nb > 0 {
      NoPointsOverBins(pts, d, xmin, dx, nb - 1);
    }
  }

  /** How many of the first n points have direction d. */
  function DirCount(pts: seq<ScatterPoint>, d: Direction, n: nat): nat
    requires n <= |pts|
  {
    if n == 0 then 0 else DirCount(pts, d, n - 1) + (if pts[n - 1].dir == d then 1 else 0)
  }

  /** Sum of the y values of the first n points of direction d. */
  function DirSum(pts: seq<ScatterPoint>, d: Direction, n: nat): real
    requires n <= |pts|
  {
    if n == 0 then 0.0 else DirSum(pts, d, n - 1) + (if pts[n - 1].dir == d then pts[n - 1].y else 0.0)
  }

  /** When the bins span the scatter's own extremes no point is skipped: the
      in-range count and sum of a direction are its full count and sum. */
  lemma {:induction false} NothingSkipped(pts: seq<ScatterPoint>, d: Direction, xmin: real, xmax: real, n: nat)
    requires n <= |pts|
    requires forall j :: 0 <= j < |pts| ==> xmin <= pts[j].x <= xmax
    ensures InRangeCount(pts, d, xmin, BinWidth(xmin, xmax), Bins, n) == DirCount(pts, d, n)
    ensures InRangeSum(pts, d, xmin, BinWidth(xmin, xmax), Bins, n) == DirSum(pts, d, n)
  {
    if n > 0 {
      NothingSkipped(pts, d, xmin, xmax, n - 1);
      BinInRange(pts[n - 1].x, xmin, xmax);
    }
  }

  /** Every scatter point is counted exactly once: with the bins spanning
      MinX .. MaxX, the counts of each direction add up to the number of its
      points and the sums to the total of their y values. */
  lemma BinsConserveScatter(pts: seq<ScatterPoint>, d: Direction)
    requires |pts| > 0
    ensures var xmin, xmax := MinX(pts), MaxX(pts);
      CountOverBins(pts, d, xmin, BinWidth(xmin, xmax), Bins, |pts|) == DirCount(pts, d, |pts|) &&
      SumOverBins(pts, d, xmin, BinWidth(xmin, xmax), Bins, |pts|) == DirSum(pts, d, |pts|)
  {
    var xmin, xmax := MinX(pts), MaxX(pts);
    Conservation(pts, d, xmin, BinWidth(xmin, xmax), |pts|);
    NothingSkipped(pts, d, xmin, xmax, |pts|);
  }

  // ---------------------------------------------------------------------
  // Averaging into branch curves

  /** A branch curve: parallel lists of abscissae and ordinates. */
  datatype Curve = Curve(xs: seq<real>, ys: seq<real>)

  /** Left edge xmin + i·dx of bin i. */
  function BinEdge(xmin: real, dx: real, i: int): real {
    xmin + i as real * dx
  }

  lemma EdgeStep(xmin: real, dx: real, i: int)
    ensures BinEdge(xmin, dx, i + 1) == BinEdge(xmin, dx, i) + dx
  {
    assert (i + 1) as real * dx == i as real * dx + dx;
  }

  /** The branch built from bins 0 .. n − 1: one point per bin with a
      positive count, at the bin's left edge, with the bin's mean y. */
  function BranchUpTo(count: seq<int>, sum: seq<real>, xmin: real, dx: real, n: nat): Curve
    requires n <= |count| && n <= |sum|
  {
    if n == 0 then Curve([], [])
    else
      var c := BranchUpTo(count, sum, xmin, dx, n - 1);
      if count[n - 1] > 0 then
        Curve(c.xs + [BinEdge(xmin, dx, n - 1)], c.ys + [sum[n - 1] / count[n - 1] as real])
      else c
  }

  /** Number of bins among 0 .. n − 1 with a positive count. */
  function NonEmptyBins(count: seq<int>, n: nat): nat
    requires n <= |count|
  {
    if n == 0 then 0 else NonEmptyBins(count, n - 1) + (if count[n - 1] > 0 then 1 else 0)
  }

  /** The averaging loop: for each bin in increasing order, append the bin
      edge and the mean y to the branch of every direction whose count there
      is positive. */
  method Average(sumRising: array<real>, sumFalling: array<real>, countRising: array<int>, countFalling: array<int>,
                 xmin: real, dx: real)
    returns (rising: Curve, falling: Curve)
    requires sumRising.Length == Bins && sumFalling.Length == Bins
    requires countRising.Length == Bins && countFalling.Length == Bins
    ensures rising == BranchUpTo(countRising[..], sumRising[..], xmin, dx, countRising.Length)
    ensures falling == BranchUpTo(countFalling[..], sumFalling[..], xmin, dx, countFalling.Length)
  {
    var risingX, risingY, fallingX, fallingY := [], [], [], [];
    var n := countRising.Length;
    for i := 0 to n
      invariant Curve(risingX, risingY) == BranchUpTo(countRising[..], sumRising[..], xmin, dx, i)
      invariant Curve(fallingX, fallingY) == BranchUpTo(countFalling[..], sumFalling[..], xmin, dx, i)
    {
      var x := BinEdge(xmin, dx, i);
      ghost var cr, sr := countRising[..], sumRising[..];
      ghost var cf, sf := countFalling[..], sumFalling[..];
      assert cr[i] == countRising[i] && sr[i] == sumRising[i];
      assert cf[i] == countFalling[i] && sf[i] == sumFalling[i];
      if countRising[i] > 0 {
        risingX := risingX + [x];
        risingY := risingY + [sumRising[i] / countRising[i] as real];
      }
      assert Curve(risingX, risingY) == BranchUpTo(cr, sr, xmin, dx, i + 1);
      if countFalling[i] > 0 {
        fallingX := fallingX + [x];
        fallingY := fallingY + [sumFalling[i] / countFalling[i] as real];
      }
      assert Curve(fallingX, fallingY) == BranchUpTo(cf, sf, xmin, dx, i + 1);
    }
    rising := Curve(risingX, risingY);
    falling := Curve(fallingX, fallingY);
  }

  /** The two lists of a branch have equal length: one entry per non-empty
      bin, so at most one per bin. */
  lemma {:induction false} BranchShape(count: seq<int>, sum: seq<real>, xmin: real, dx: real, n: nat)
    requires n <= |count| && n <= |sum|
    ensures |BranchUpTo(count, sum, xmin, dx, n).xs| == |BranchUpTo(count, sum, xmin, dx, n).ys|
    ensures |BranchUpTo(count, sum, xmin, dx, n).xs| == NonEmptyBins(count, n) <= n
  {
    if n > 0 {
      BranchShape(count, sum, xmin, dx, n - 1);
    }
  }

  /** With a positive bin width the abscissae of a branch strictly increase,
      and all lie below the edge of bin n. */
  lemma {:induction false} BranchIncreasing(count: seq<int>, sum: seq<real>, xmin: real, dx: real, n: nat)
    requires n <= |count| && n <= |sum| && dx > 0.0
    ensures SignalProcessing.StrictlyIncreasing(BranchUpTo(count, sum, xmin, dx, n).xs)
    ensures forall j :: 0 <= j < |BranchUpTo(count, sum, xmin, dx, n).xs| ==>
      BranchUpTo(count, sum, xmin, dx, n).xs[j] < BinEdge(xmin, dx, n)
  {
    if n > 0 {
      BranchIncreasing(count, sum, xmin, dx, n - 1);
      EdgeStep(xmin, dx, n - 1);
      var c := BranchUpTo(count, sum, xmin, dx, n - 1);
      var xs := BranchUpTo(count, sum, xmin, dx, n).xs;
      if count[n - 1] > 0 {
        assert xs == c.xs + [BinEdge(xmin, dx, n - 1)];
        forall j, k | 0 <= j < k < |xs|
          ensures xs[j] < xs[k]
        {
          if k == |c.xs| {
            assert c.xs[j] < BinEdge(xmin, dx, n - 1);
          }
        }
      }
    }
  }

  /** Every entry of a branch is the edge and mean of a non-empty bin below n. */
  lemma {:induction false} BranchEntriesSound(count: seq<int>, sum: seq<real>, xmin: real, dx: real, n: nat, j: nat)
    requires n <= |count| && n <= |sum|
    requires j < |BranchUpTo(count, sum, xmin, dx, n).xs| && j < |BranchUpTo(count, sum, xmin, dx, n).ys|
    ensures exists b ::
              0 <= b < n && count[b] > 0 &&
              BranchUpTo(count, sum, xmin, dx, n).xs[j] == BinEdge(xmin, dx, b) &&
              BranchUpTo(count, sum, xmin, dx, n).ys[j] == sum[b] / count[b] as real
  {
    var c := BranchUpTo(count, sum, xmin, dx, n - 1);
    BranchShape(count, sum, xmin, dx, n - 1);
    if j < |c.xs| {
      BranchEntriesSound(count, sum, xmin, dx, n - 1, j);
    } else {
      assert count[n - 1] > 0;
    }
  }

  /** Every non-empty bin below n has its entry in the branch. */
  lemma {:induction false} BranchEntriesComplete(count: seq<int>, sum: seq<real>, xmin: real, dx: real, n: nat, b: nat)
    requires b < n <= |count| && n <= |sum| && count[b] > 0
    ensures exists j ::
              0 <= j < |BranchUpTo(count, sum, xmin, dx, n).xs| &&
              j < |BranchUpTo(count, sum, xmin, dx, n).ys| &&
              BranchUpTo(count, sum, xmin, dx, n).xs[j] == BinEdge(xmin, dx, b) &&
              BranchUpTo(count, sum, xmin, dx, n).ys[j] == sum[b] / count[b] as real
  {
    BranchShape(count, sum, xmin, dx, n - 1);
    var c := BranchUpTo(count, sum, xmin, dx, n - 1);
    if b < n - 1 {
      BranchEntriesComplete(count, sum, xmin, dx, n - 1, b);
      var j :| 0 <= j < |c.xs| && j < |c.ys| && c.xs[j] == BinEdge(xmin, dx, b) && c.ys[j] == sum[b] / count[b] as real;
      assert BranchUpTo(count, sum, xmin, dx, n).xs[j] == c.xs[j];
      assert BranchUpTo(count, sum, xmin, dx, n).ys[j] == c.ys[j];
    } else {
      assert BranchUpTo(count, sum, xmin, dx, n).xs[|c.xs|] == BinEdge(xmin, dx, b);
    }
  }

  // ---------------------------------------------------------------------
  // The whole reconstruction

  /** Per-bin counts of direction d over the whole scatter. */
  function Counts(pts: seq<ScatterPoint>, d: Direction, xmin: real, dx: real): (c: seq<int>)
    ensures |c| == Bins
  {
    seq(Bins, b => BinCount(pts, d, xmin, dx, b, |pts|))
  }

  /** Per-bin sums of direction d over the whole scatter. */
  function Sums(pts: seq<ScatterPoint>, d: Direction, xmin: real, dx: real): (s: seq<real>)
    ensures |s| == Bins
  {
    seq(Bins, b => BinSum(pts, d, xmin, dx, b, |pts|))
  }

  /** Bin width of a non-empty scatter, spanning its own extremes. */
  function ScatterBinWidth(pts: seq<ScatterPoint>): real
    requires |pts| > 0
  {
    BinWidth(MinX(pts), MaxX(pts))
  }

  /** The averaged branch of direction d of a non-empty scatter, binned
      between its own extremes. */
  function Branch(pts: seq<ScatterPoint>, d: Direction): Curve
    requires |pts| > 0
  {
    var xmin := MinX(pts);
    var dx := ScatterBinWidth(pts);
    var count := Counts(pts, d, xmin, dx);
    BranchUpTo(count, Sums(pts, d, xmin, dx), xmin, dx, |count|)
  }

  /** The rising and falling branches of a capture, or None when no
      decimated sample moved. */
  function Reconstruct(x: seq<real>, y: seq<real>): Option<(Curve, Curve)>
    requires |x| <= |y|
  {
    var pts := Scatter(x, y);
    if |pts| == 0 then None else Some((Branch(pts, Rising), Branch(pts, Falling)))
  }

  /** The loop reconstruction shared by the XY chart and the canvas drawing:
      decimate and classify, return early with no branches when nothing
      moved, otherwise bin between the scatter's extremes and average. */
  method ReconstructLoop(xSig: array<real>, ySig: array<real>)
    returns (points: seq<ScatterPoint>, branches: Option<(Curve, Curve)>)
    requires xSig.Length <= ySig.Length
    ensures points == Scatter(xSig[..], ySig[..])
    ensures branches == Reconstruct(xSig[..], ySig[..])
    ensures branches.None? <==> points == []
  {
    var step := Stride(xSig.Length);
    points := CollectScatter(xSig, ySig, step);
    if |points| == 0 {
      return points, None;
    }
    var xmin := MinX(points);
    var xmax := MaxX(points);
    var dx := BinWidth(xmin, xmax);
    var sumRising, sumFalling, countRising, countFalling := Accumulate(points, xmin, dx);
    assert countRising[..] == Counts(points, Rising, xmin, dx);
    assert sumRising[..] == Sums(points, Rising, xmin, dx);
    assert countFalling[..] == Counts(points, Falling, xmin, dx);
    assert sumFalling[..] == Sums(points, Falling, xmin, dx);
    var rising, falling := Average(sumRising, sumFalling, countRising, countFalling, xmin, dx);
    branches := Some((rising, falling));
  }

  /** A reconstructed branch has as many ordinates as abscissae: one pair per
      non-empty bin, so at most Bins. */
  lemma BranchSize(pts: seq<ScatterPoint>, d: Direction)
    requires |pts| > 0
    ensures |Branch(pts, d).xs| == |Branch(pts, d).ys| <= Bins
  {
    var xmin := MinX(pts);
    var dx := ScatterBinWidth(pts);
    var count := Counts(pts, d, xmin, dx);
    BranchShape(count, Sums(pts, d, xmin, dx), xmin, dx, |count|);
  }

  /** The mean y of the points of direction d in bin b. */
  function BinMean(pts: seq<ScatterPoint>, d: Direction, xmin: real, dx: real, b: int): real
    requires BinCount(pts, d, xmin, dx, b, |pts|) > 0
  {
    BinSum(pts, d, xmin, dx, b, |pts|) / BinCount(pts, d, xmin, dx, b, |pts|) as real
  }

  /** Point j of a reconstructed branch sits at the left edge of a bin that
      holds points of that direction, and its y is the mean of their y
      values. */
  lemma BranchPointIsBinMean(pts: seq<ScatterPoint>, d: Direction, j: nat)
    requires |pts| > 0 && j < |Branch(pts, d).xs| && j < |Branch(pts, d).ys|
    ensures exists b ::
              0 <= b < Bins && BinCount(pts, d, MinX(pts), ScatterBinWidth(pts), b, |pts|) > 0 &&
              Branch(pts, d).xs[j] == BinEdge(MinX(pts), ScatterBinWidth(pts), b) &&
              Branch(pts, d).ys[j] == BinMean(pts, d, MinX(pts), ScatterBinWidth(pts), b)
  {
    var xmin := MinX(pts);
    var dx := ScatterBinWidth(pts);
    var count, sum := Counts(pts, d, xmin, dx), Sums(pts, d, xmin, dx);
    var c := Branch(pts, d);
    assert c == BranchUpTo(count, sum, xmin, dx, |count|);
    BranchEntriesSound(count, sum, xmin, dx, |count|, j);
    var b :| 0 <= b < |count| && count[b] > 0 &&
      c.xs[j] == BinEdge(xmin, dx, b) && c.ys[j] == sum[b] / count[b] as real;
    assert count[b] == BinCount(pts, d, xmin, dx, b, |pts|) && sum[b] == BinSum(pts, d, xmin, dx, b, |pts|);
  }

  /** Every bin that holds points of direction d contributes its edge and
      mean to that branch. */
  lemma BinMeanInBranch(pts: seq<ScatterPoint>, d: Direction, b: nat)
    requires |pts| > 0 && b < Bins
    requires BinCount(pts, d, MinX(pts), ScatterBinWidth(pts), b, |pts|) > 0
    ensures exists j ::
              0 <= j < |Branch(pts, d).xs| && j < |Branch(pts, d).ys| &&
              Branch(pts, d).xs[j] == BinEdge(MinX(pts), ScatterBinWidth(pts), b) &&
              Branch(pts, d).ys[j] == BinMean(pts, d, MinX(pts), ScatterBinWidth(pts), b)
  {
    var xmin := MinX(pts);
    var dx := ScatterBinWidth(pts);
    var count, sum := Counts(pts, d, xmin, dx), Sums(pts, d, xmin, dx);
    var c := Branch(pts, d);
    assert c == BranchUpTo(count, sum, xmin, dx, |count|);
    assert count[b] == BinCount(pts, d, xmin, dx, b, |pts|) && sum[b] == BinSum(pts, d, xmin, dx, b, |pts|);
    BranchEntriesComplete(count, sum, xmin, dx, |count|, b);
    var j :| 0 <= j < |c.xs| && j < |c.ys| && c.xs[j] == BinEdge(xmin, dx, b) && c.ys[j] == sum[b] / count[b] as real;
    assert c.ys[j] == BinMean(pts, d, xmin, dx, b);
  }

  /** When the scatter spans a proper interval of x, the abscissae of both
      reconstructed branches strictly increase. */
  lemma BranchesIncreasing(pts: seq<ScatterPoint>, d: Direction)
    requires |pts| > 0 && MinX(pts) < MaxX(pts)
    ensures SignalProcessing.StrictlyIncreasing(Branch(pts, d).xs)
  {
    var xmin := MinX(pts);
    var dx := ScatterBinWidth(pts);
    var count := Counts(pts, d, xmin, dx);
    BranchIncreasing(count, Sums(pts, d, xmin, dx), xmin, dx, |count|);
  }

  /** When every scatter point has the same x, the bin width is 0, every
      point lands in bin 0 and each branch has at most one point, at that x. */
  lemma DegenerateScatterOneBin(pts: seq<ScatterPoint>, d: Direction)
    requires |pts| > 0 && MinX(pts) == MaxX(pts)
    ensures |Branch(pts, d).xs| <= 1
    ensures forall j :: 0 <= j < |Branch(pts, d).xs| ==> Branch(pts, d).xs[j] == MinX(pts)
  {
    var xmin := MinX(pts);
    var dx := ScatterBinWidth(pts);
    var count, sum := Counts(pts, d, xmin, dx), Sums(pts, d, xmin, dx);
    forall b | 1 <= b < Bins
      ensures count[b] == 0
    {
      OnlyBinZero(pts, d, xmin, dx, b, |pts|);
    }
    OnlyFirstBin(count, sum, xmin, dx, |count|);
  }

  /** With every x equal to xmin and a zero width, no point lands in a bin
      other than 0. */
  lemma {:induction false} OnlyBinZero(pts: seq<ScatterPoint>, d: Direction, xmin: real, dx: real, b: int, n: nat)
    requires n <= |pts| && dx == 0.0 && b != 0
    requires forall j :: 0 <= j < |pts| ==> pts[j].x == xmin
    ensures BinCount(pts, d, xmin, dx, b, n) == 0
  {
    if n > 0 {
      OnlyBinZero(pts, d, xmin, dx, b, n - 1);
    }
  }

  /** A branch over counts that vanish beyond bin 0 has at most the point of
      bin 0, at its edge. */
  lemma {:induction false} OnlyFirstBin(count: seq<int>, sum: seq<real>, xmin: real, dx: real, n: nat)
    requires n <= |count| && n <= |sum|
    requires forall b :: 1 <= b < n ==> count[b] == 0
    ensures |BranchUpTo(count, sum, xmin, dx, n).xs| <= 1
    ensures forall j :: 0 <= j < |BranchUpTo(count, sum, xmin, dx, n).xs| ==>
      BranchUpTo(count, sum, xmin, dx, n).xs[j] == BinEdge(xmin, dx, 0)
  {
    if n > 0 {
      OnlyFirstBin(count, sum, xmin, dx, n - 1);
    }
  }

  /** A point of direction d that lands in bin b makes that bin's count of d
      positive. */
  lemma {:induction false} PointCounted(pts: seq<ScatterPoint>, d: Direction, xmin: real, dx: real, b: int, n: nat, j: nat)
    requires j < n <= |pts|
    requires InBin(pts[j], d, xmin, dx, b)
    ensures BinCount(pts, d, xmin, dx, b, n) > 0
  {
    if j < n - 1 {
      PointCounted(pts, d, xmin, dx, b, n - 1, j);
    }
  }

  /** A direction no point has leaves every one of its bins empty. */
  lemma {:induction false} AbsentDirectionCounts(pts: seq<ScatterPoint>, d: Direction, xmin: real, dx: real, b: int, n: nat)
    requires n <= |pts|
    requires forall j :: 0 <= j < |pts| ==> pts[j].dir != d
    ensures BinCount(pts, d, xmin, dx, b, n) == 0
  {
    if n > 0 {
      AbsentDirectionCounts(pts, d, xmin, dx, b, n - 1);
    }
  }

  /** Bins that are all empty give an empty branch. */
  lemma {:induction false} EmptyBinsEmptyBranch(count: seq<int>, sum: seq<real>, xmin: real, dx: real, n: nat)
    requires n <= |count| && n <= |sum|
    requires forall b :: 0 <= b < n ==> count[b] == 0
    ensures BranchUpTo(count, sum, xmin, dx, n) == Curve([], [])
  {
    if n > 0 {
      EmptyBinsEmptyBranch(count, sum, xmin, dx, n - 1);
    }
  }

  /** A non-empty scatter whose points all have direction d reconstructs to a
      non-empty branch of d and an empty branch of the other direction e. */
  lemma SingleDirectionBranches(pts: seq<ScatterPoint>, d: Direction, e: Direction)
    requires |pts| > 0 && d != e
    requires forall j :: 0 <= j < |pts| ==> pts[j].dir == d
    ensures Branch(pts, d).xs != []
    ensures Branch(pts, e) == Curve([], [])
  {
    var xmin, xmax := MinX(pts), MaxX(pts);
    var dx := ScatterBinWidth(pts);
    var b := BinIndex(pts[0].x, xmin, dx);
    BinInRange(pts[0].x, xmin, xmax);
    PointCounted(pts, d, xmin, dx, b, |pts|, 0);
    BinMeanInBranch(pts, d, b);
    var count := Counts(pts, e, xmin, dx);
    forall b' | 0 <= b' < |count|
      ensures count[b'] == 0
    {
      AbsentDirectionCounts(pts, e, xmin, dx, b', |pts|);
    }
    EmptyBinsEmptyBranch(count, Sums(pts, e, xmin, dx), xmin, dx, |count|);
  }

  /** A capture whose x increases over every stride reconstructs, as soon as
      one decimated sample moved by the noise floor, to a non-empty rising
      branch and an empty falling branch. */
  lemma IncreasingSignalOneBranch(x: seq<real>, y: seq<real>)
    requires |x| <= |y|
    requires forall k :: Stride(|x|) <= k < |x| ==> x[k - Stride(|x|)] < x[k]
    requires Scatter(x, y) != []
    ensures Reconstruct(x, y).Some?
    ensures Reconstruct(x, y).value.0.xs != []
    ensures Reconstruct(x, y).value.1 == Curve([], [])
  {
    var pts := Scatter(x, y);
    IncreasingSignalIsRising(x, y, Stride(|x|), Stride(|x|));
    SingleDirectionBranches(pts, Rising, Falling);
  }

  /** A capture longer than one stride whose x climbs by at least the noise
      floor over every stride always has branches: a non-empty rising one
      and an empty falling one. */
  lemma ClimbingSignalOneBranch(x: seq<real>, y: seq<real>)
    requires |x| <= |y| && Stride(|x|) < |x|
    requires forall k :: Stride(|x|) <= k < |x| ==> x[k] - x[k - Stride(|x|)] >= NoiseFloor
    ensures Reconstruct(x, y).Some?
    ensures Reconstruct(x, y).value.0.xs != []
    ensures Reconstruct(x, y).value.1 == Curve([], [])
  {
    ClimbingSignalIsRising(x, y, Stride(|x|), Stride(|x|));
    IncreasingSignalOneBranch(x, y);
  }
}
