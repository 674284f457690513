/** Digital processing of the captured channels: the trapezoidal-rule RC
    integrator that recovers a B-proportional signal from the sense-coil
    voltage, and the linear interpolation used to read Br and Hc off a branch
    of the loop. */
module SignalProcessing {

  /** Time constant of the simulated RC filter: 800 ohm times 470 nF. */
  const Tau: real := 800.0 * 470e-9

  /** Sampling period 1 / sampleRateHz. A zero rate is a division by zero. */
  function Period(sampleRateHz: int): (dt: real)
    requires sampleRateHz != 0
    ensures dt * sampleRateHz as real == 1.0
    ensures sampleRateHz > 0 <==> dt > 0.0
  {
    1.0 / sampleRateHz as real
  }

  /** For every integer rate other than zero the filter denominator 2τ + dt is
      non-zero: only the non-integer rate −1/(2τ) ≈ −1329.8 would cancel it. */
  lemma DenominatorNonZero(sampleRateHz: int)
    requires sampleRateHz != 0
    ensures 2.0 * Tau + Period(sampleRateHz) != 0.0
  {
    var r := sampleRateHz as real;
    var dt := Period(sampleRateHz);
    if sampleRateHz <= -1330 {
      // dt = 1/r lies in [−1/1330, 0), and 1/1330 < 2τ
      assert dt * r == 1.0;
      assert dt * 1330.0 >= -1.0 by {
        assert dt < 0.0;
        assert dt * r >= dt * (-1330.0) by {
          assert r <= -1330.0;
        }
      }
      assert 2.0 * Tau * 1330.0 > 1.0;
    } else if sampleRateHz < 0 {
      // dt = 1/r lies in [−1, −1/1329], and 1/1329 > 2τ
      assert -1329.0 <= r <= -1.0;
      assert dt * r == 1.0;
      assert dt * 1329.0 <= -1.0 by {
        assert dt < 0.0;
        assert dt * r <= dt * (-1329.0);
      }
      assert 2.0 * Tau * 1329.0 < 1.0;
    }
  }

  /** The filter coefficients (a, b) = ((2τ − dt)/(2τ + dt), dt/(2τ + dt)).
      Their defining identity a + 2b = 1 is what makes a constant input settle
      at its own value. */
  function Coefficients(sampleRateHz: int): (ab: (real, real))
    requires sampleRateHz != 0
    ensures ab.0 + 2.0 * ab.1 == 1.0
    ensures ab.1 * (2.0 * Tau + Period(sampleRateHz)) == Period(sampleRateHz)
  {
    DenominatorNonZero(sampleRateHz);
    var dt := Period(sampleRateHz);
    ((2.0 * Tau - dt) / (2.0 * Tau + dt), dt / (2.0 * Tau + dt))
  }

  /** Stability: for a positive rate the input gain b is positive and the
      feedback a lies strictly between −1 and 1, so the filter is stable for
      every positive sample rate. */
  lemma CoefficientsStable(sampleRateHz: int)
    requires sampleRateHz > 0
    ensures 0.0 < Coefficients(sampleRateHz).1 < 1.0
    ensures -1.0 < Coefficients(sampleRateHz).0 < 1.0
  {
    var dt := Period(sampleRateHz);
    var (a, b) := Coefficients(sampleRateHz);
    var den := 2.0 * Tau + dt;
    assert dt > 0.0 && den > dt;
    assert b * den == dt;
    QuotientInUnit(dt, den, b);
  }

  /** q = num / den with 0 < num <= den lies in (0, 1]. */
  lemma QuotientInUnit(num: real, den: real, q: real)
    requires 0.0 < num <= den && q * den == num
    ensures 0.0 < q <= 1.0
  {
    if q <= 0.0 {
      MulMonotone(q, 0.0, den);
    }
    if q > 1.0 {
      MulMonotone(1.0, q, den);
    }
  }

  /** Multiplying both sides of x <= y by a non-negative factor keeps the order. */
  lemma MulMonotone(x: real, y: real, c: real)
    requires x <= y && c >= 0.0
    ensures x * c <= y * c
  {
    assert y * c - x * c == (y - x) * c;
  }

  /** Output of the recurrence y[n] = a·y[n−1] + b·(x[n] + x[n−1]) after the
      first n samples of v have been consumed, with y[−1] = x[−1] = 0: the
      filter starts at rest on every call. Output(a, b, v, i + 1) is y[i]. */
  function Output(a: real, b: real, v: seq<real>, n: nat): real
    requires n <= |v|
  {
    if n == 0 then 0.0
    else a * Output(a, b, v, n - 1) + b * (v[n - 1] + (if n >= 2 then v[n - 2] else 0.0))
  }

  /** Digital RC integration of a sampled channel. Returns a new array of the
      input's length whose i-th entry is y[i]; the input is only read. */
  method Integrate(v: array<real>, sampleRateHz: int) returns (out: array<real>)
    requires sampleRateHz != 0
    ensures fresh(out) && out.Length == v.Length
    ensures forall i :: 0 <= i < v.Length ==>
      out[i] == Output(Coefficients(sampleRateHz).0, Coefficients(sampleRateHz).1, v[..], i + 1)
  {
    var (a, b) := Coefficients(sampleRateHz);
    out := new real[v.Length];
    var yPrev, xPrev := 0.0, 0.0;
    for i := 0 to v.Length
      invariant yPrev == Output(a, b, v[..], i)
      invariant xPrev == if i == 0 then 0.0 else v[i - 1]
      invariant forall k :: 0 <= k < i ==> out[k] == Output(a, b, v[..], k + 1)
    {
      var y := a * yPrev + b * (v[i] + xPrev);
      out[i] := y;
      yPrev := y;
      xPrev := v[i];
    }
  }

  /** The first output is b·v[0]. */
  lemma FirstOutput(a: real, b: real, v: seq<real>)
    requires |v| > 0
    ensures Output(a, b, v, 1) == b * v[0]
  {
  }

  /** A filter at rest fed with silence stays at zero. */
  lemma {:induction false} SilenceStaysZero(a: real, b: real, v: seq<real>, n: nat)
    requires n <= |v|
    requires forall i :: 0 <= i < |v| ==> v[i] == 0.0
    ensures Output(a, b, v, n) == 0.0
  {
    if n > 0 {
      SilenceStaysZero(a, b, v, n - 1);
    }
  }

  /** Pointwise sum of two equally long signals. */
  function Add(u: seq<real>, w: seq<real>): (s: seq<real>)
    requires |u| == |w|
    ensures |s| == |u| && forall i :: 0 <= i < |s| ==> s[i] == u[i] + w[i]
  {
    seq(|u|, i requires 0 <= i < |u| => u[i] + w[i])
  }

  /** Superposition: the response to a sum of inputs is the sum of the
      responses. Together with SilenceStaysZero this is the linearity of the
      filter. */
  lemma {:induction false} Superposition(a: real, b: real, u: seq<real>, w: seq<real>, n: nat)
    requires |u| == |w| && n <= |u|
    ensures Output(a, b, Add(u, w), n) == Output(a, b, u, n) + Output(a, b, w, n)
  {
    if n > 0 {
      Superposition(a, b, u, w, n - 1);
      var s := Add(u, w);
      var pu := if n >= 2 then u[n - 2] else 0.0;
      var pw := if n >= 2 then w[n - 2] else 0.0;
      var ps := if n >= 2 then s[n - 2] else 0.0;
      var yu, yw := Output(a, b, u, n - 1), Output(a, b, w, n - 1);
      assert ps == pu + pw && s[n - 1] == u[n - 1] + w[n - 1];
      assert Output(a, b, s, n) == a * (yu + yw) + b * ((u[n - 1] + pu) + (w[n - 1] + pw));
      Distribute(a, yu, yw);
      Distribute(b, u[n - 1] + pu, w[n - 1] + pw);
    }
  }

  /** Division undone by multiplication. */
  lemma DivCancel(num: real, den: real)
    requires den != 0.0
    ensures (num / den) * den == num
  {
  }

  lemma Distribute(k: real, x: real, y: real)
    ensures k * (x + y) == k * x + k * y
  {
  }

  /** No drift on a constant input c: from the second sample on, the distance
      of the output from c shrinks by the factor a at each step, which for a
      positive rate has magnitude below 1 (CoefficientsStable). */
  lemma ConstantInputSettles(sampleRateHz: int, v: seq<real>, c: real, n: nat)
    requires sampleRateHz != 0
    requires 2 <= n <= |v|
    requires forall i :: 0 <= i < |v| ==> v[i] == c
    ensures var (a, b) := Coefficients(sampleRateHz);
      Output(a, b, v, n) - c == a * (Output(a, b, v, n - 1) - c)
  {
    var (a, b) := Coefficients(sampleRateHz);
    var prev := Output(a, b, v, n - 1);
    assert v[n - 1] == c && v[n - 2] == c;
    calc {
      Output(a, b, v, n) - c;
      a * prev + b * (c + c) - c;
      a * prev + (2.0 * b) * c - c;
      { assert 2.0 * b == 1.0 - a; }
      a * prev + (1.0 - a) * c - c;
      a * (prev - c);
    }
  }

  // ---------------------------------------------------------------------
  // Linear interpolation on a branch curve

  /** The result of a double-valued interpolation: a real number, or NaN when
      Java evaluates 0.0 / 0.0 on a degenerate segment. */
  datatype Double = Finite(value: real) | NaN

  /** z lies between p and q, in either order. */
  predicate Brackets(p: real, q: real, z: real) {
    (p <= z && q >= z) || (p >= z && q <= z)
  }

  /** v lies between v0 and v1, in either order. */
  predicate Between(v0: real, v1: real, v: real) {
    (v0 <= v <= v1) || (v1 <= v <= v0)
  }

  /** Linear interpolation at key z on the segment from (k0, v0) to (k1, v1),
      evaluated as v0 + t·(v1 − v0) with t = (z − k0)/(k1 − k0). On a segment
      whose two keys coincide, bracketing forces z == k0 and t is 0/0 = NaN. */
  function Lerp(k0: real, k1: real, v0: real, v1: real, z: real): (r: Double)
    requires Brackets(k0, k1, z)
    ensures k0 == k1 <==> r == NaN
    ensures r.Finite? ==> Between(v0, v1, r.value)
    ensures k0 != k1 && z == k0 ==> r == Finite(v0)
    ensures k0 != k1 && z == k1 ==> r == Finite(v1)
  {
    if k1 == k0 then NaN
    else
      var t := (z - k0) / (k1 - k0);
      SegmentParameter(k0, k1, z);
      BlendBetween(v0, v1, t);
      Finite(v0 + t * (v1 - v0))
  }

  /** The parameter t = (z − k0)/(k1 − k0) of a bracketed z lies in [0, 1],
      and is 0 at k0 and 1 at k1. */
  lemma SegmentParameter(k0: real, k1: real, z: real)
    requires Brackets(k0, k1, z) && k0 != k1
    ensures 0.0 <= (z - k0) / (k1 - k0) <= 1.0
    ensures z == k0 ==> (z - k0) / (k1 - k0) == 0.0
    ensures z == k1 ==> (z - k0) / (k1 - k0) == 1.0
  {
    var t := (z - k0) / (k1 - k0);
    DivCancel(z - k0, k1 - k0);
    if z != k0 {
      if k0 < k1 {
        QuotientInUnit(z - k0, k1 - k0, t);
      } else {
        assert t * (k0 - k1) == k0 - z;
        QuotientInUnit(k0 - z, k0 - k1, t);
      }
    }
    if z == k1 {
      assert (t - 1.0) * (k1 - k0) == 0.0;
    }
  }

  /** A blend v0 + t·(v1 − v0) with t in [0, 1] lies between v0 and v1. */
  lemma BlendBetween(v0: real, v1: real, t: real)
    requires 0.0 <= t <= 1.0
    ensures Between(v0, v1, v0 + t * (v1 - v0))
  {
    var c := if v0 <= v1 then v1 - v0 else v0 - v1;
    MulMonotone(0.0, t, c);
    MulMonotone(t, 1.0, c);
    assert 0.0 * c == 0.0 && 1.0 * c == c;
    assert 0.0 <= t * c <= c;
    var r := v0 + t * (v1 - v0);
    if v0 <= v1 {
      assert r == v0 + t * c;
      assert v0 <= r <= v1;
    } else {
      assert r == v0 - t * c;
      assert v1 <= r <= v0;
    }
  }

  /** The scan over consecutive pairs (i − 1, i) for i = from, from + 1, ...:
      interpolation on the first pair whose keys bracket z, or the sentinel 0
      when no remaining pair does. */
  function ScanFrom(keys: seq<real>, vals: seq<real>, z: real, from: nat): Double
    requires |keys| == |vals| && from >= 1
    decreases |keys| - from
  {
    if from >= |keys| then Finite(0.0)
    else if Brackets(keys[from - 1], keys[from], z) then
      Lerp(keys[from - 1], keys[from], vals[from - 1], vals[from], z)
    else ScanFrom(keys, vals, z, from + 1)
  }

  /** Interpolation of vals at key z along the polyline (keys[i], vals[i]). */
  function Interpolate(keys: seq<real>, vals: seq<real>, z: real): Double
    requires |keys| == |vals|
  {
    ScanFrom(keys, vals, z, 1)
  }

  /** y at x0 on the curve (x, y): the loop over i = 1 .. |x| − 1 that
      returns on the first pair (x[i − 1], x[i]) bracketing x0, and the
      sentinel 0 after the loop. */
  method InterpolateAtX(x: seq<real>, y: seq<real>, x0: real) returns (r: Double)
    requires |x| == |y|
    ensures r == Interpolate(x, y, x0)
  {
    var i := 1;
    while i < |x|
      invariant 1 <= i
      invariant ScanFrom(x, y, x0, i) == Interpolate(x, y, x0)
      decreases |x| - i
    {
      if Brackets(x[i - 1], x[i], x0) {
        return Lerp(x[i - 1], x[i], y[i - 1], y[i], x0);
      }
      i := i + 1;
    }
    return Finite(0.0);
  }

  /** x at y0 on the curve (x, y): the same loop with the roles of the two
      lists exchanged, scanning the y values. */
  method InterpolateAtY(x: seq<real>, y: seq<real>, y0: real) returns (r: Double)
    requires |x| == |y|
    ensures r == Interpolate(y, x, y0)
  {
    var i := 1;
    while i < |y|
      invariant 1 <= i
      invariant ScanFrom(y, x, y0, i) == Interpolate(y, x, y0)
      decreases |y| - i
    {
      if Brackets(y[i - 1], y[i], y0) {
        return Lerp(y[i - 1], y[i], x[i - 1], x[i], y0);
      }
      i := i + 1;
    }
    return Finite(0.0);
  }

  /** No consecutive pair at or after `from` brackets z. */
  predicate NoBracketFrom(keys: seq<real>, z: real, from: nat)
    requires from >= 1
  {
    forall i :: from <= i < |keys| ==> !Brackets(keys[i - 1], keys[i], z)
  }

  /** Miss: when no segment brackets z, the result is the sentinel 0. */
  lemma {:induction false} MissGivesZero(keys: seq<real>, vals: seq<real>, z: real, from: nat)
    requires |keys| == |vals| && from >= 1
    requires NoBracketFrom(keys, z, from)
    ensures ScanFrom(keys, vals, z, from) == Finite(0.0)
    decreases |keys| - from
  {
    if from < |keys| {
      MissGivesZero(keys, vals, z, from + 1);
    }
  }

  /** Hit: when pair k is the first one bracketing z, the result is the
      interpolation on that pair. */
  lemma {:induction false} FirstBracketWins(keys: seq<real>, vals: seq<real>, z: real, from: nat, k: nat)
    requires |keys| == |vals| && 1 <= from <= k < |keys|
    requires Brackets(keys[k - 1], keys[k], z)
    requires forall i :: from <= i < k ==> !Brackets(keys[i - 1], keys[i], z)
    ensures ScanFrom(keys, vals, z, from) == Lerp(keys[k - 1], keys[k], vals[k - 1], vals[k], z)
    decreases k - from
  {
    if from < k {
      FirstBracketWins(keys, vals, z, from + 1, k);
    }
  }

  /** Sentinel in both directions: the result is the sentinel 0 when nothing
      brackets z, and otherwise a value taken from the first bracketing pair,
      lying between that pair's two values unless the pair is degenerate. */
  lemma InterpolateCases(keys: seq<real>, vals: seq<real>, z: real)
    requires |keys| == |vals|
    ensures NoBracketFrom(keys, z, 1) ==> Interpolate(keys, vals, z) == Finite(0.0)
    ensures !NoBracketFrom(keys, z, 1) ==>
      exists k :: 1 <= k < |keys| && Brackets(keys[k - 1], keys[k], z) &&
        (forall i :: 1 <= i < k ==> !Brackets(keys[i - 1], keys[i], z)) &&
        Interpolate(keys, vals, z) == Lerp(keys[k - 1], keys[k], vals[k - 1], vals[k], z)
  {
    if NoBracketFrom(keys, z, 1) {
      MissGivesZero(keys, vals, z, 1);
    } else {
      var k := FirstBracket(keys, z, 1);
      FirstBracketWins(keys, vals, z, 1, k);
    }
  }

  /** Index of the first bracketing pair at or after `from`, given that one exists. */
  function FirstBracket(keys: seq<real>, z: real, from: nat): (k: nat)
    requires from >= 1 && !NoBracketFrom(keys, z, from)
    ensures from <= k < |keys| && Brackets(keys[k - 1], keys[k], z)
    ensures forall i :: from <= i < k ==> !Brackets(keys[i - 1], keys[i], z)
    decreases |keys| - from
  {
    if from < |keys| && Brackets(keys[from - 1], keys[from], z) then from
    else FirstBracket(keys, z, from + 1)
  }

  /** Outside the range of the keys there is nothing to interpolate: the
      result is the sentinel 0. */
  lemma OutOfRangeGivesZero(keys: seq<real>, vals: seq<real>, z: real)
    requires |keys| == |vals|
    requires (forall i :: 0 <= i < |keys| ==> z < keys[i]) || (forall i :: 0 <= i < |keys| ==> keys[i] < z)
    ensures Interpolate(keys, vals, z) == Finite(0.0)
  {
    MissGivesZero(keys, vals, z, 1);
  }

  predicate StrictlyIncreasing(s: seq<real>) {
    forall i, j :: 0 <= i < j < |s| ==> s[i] < s[j]
  }

  /** Zero error at the nodes: on a strictly increasing key list of at least
      two points, interpolating at a key returns exactly its value. */
  lemma NodeExact(keys: seq<real>, vals: seq<real>, k: nat)
    requires |keys| == |vals| && 2 <= |keys| && k < |keys|
    requires StrictlyIncreasing(keys)
    ensures Interpolate(keys, vals, keys[k]) == Finite(vals[k])
  {
    var z := keys[k];
    if k == 0 {
      assert Brackets(keys[0], keys[1], z);
      FirstBracketWins(keys, vals, z, 1, 1);
    } else {
      forall i | 1 <= i < k
        ensures !Brackets(keys[i - 1], keys[i], z)
      {
        assert keys[i - 1] < z && keys[i] < z;
      }
      FirstBracketWins(keys, vals, z, 1, k);
    }
  }

  /** A single-point curve has no segment: even at its own node the result is
      the sentinel 0, not the node's value. */
  lemma SinglePointMisses(k0: real, v0: real)
    ensures Interpolate([k0], [v0], k0) == Finite(0.0)
  {
  }
}
