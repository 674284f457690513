/** The numeric part of the main window's controller: keeping the buffer
    length within its limits when the acquisition time or the sample rate
    changes, decimating the time charts, reconstructing the B-H loop and
    extracting its scalars Bsat, Br and Hc. */
module Controller {
  import Acquisition
  import PhysicalParams
  import SignalProcessing
  import LoopReconstruction
  import Statistics

  /** Sample rate the controller falls back to when the configured one is
      not positive. */
  const FallbackSampleRateHz: int := 1000

  /** Clamp of a computed buffer length into [MinBufferSize, MaxBufferSize]. */
  function ClampBuffer(n: int): (m: int)
    ensures Acquisition.MinBufferSize <= m <= Acquisition.MaxBufferSize
    ensures Acquisition.MinBufferSize <= n <= Acquisition.MaxBufferSize ==> m == n
  {
    if n < Acquisition.MinBufferSize then Acquisition.MinBufferSize
    else if n > Acquisition.MaxBufferSize then Acquisition.MaxBufferSize
    else n
  }

  /** The clamp picks the admissible length nearest to the computed one, and
      clamping twice changes nothing. */
  lemma ClampNearest(n: int, k: int)
    requires Acquisition.MinBufferSize <= k <= Acquisition.MaxBufferSize
    ensures LoopReconstruction.Abs((ClampBuffer(n) - n) as real) <= LoopReconstruction.Abs((k - n) as real)
    ensures ClampBuffer(ClampBuffer(n)) == ClampBuffer(n)
  {
  }

  /** Bsat, Br and Hc of a reconstructed loop. Br and Hc come out of the
      interpolation and may be NaN. */
  datatype HysteresisStats = HysteresisStats(bsat: real, br: SignalProcessing.Double, hc: SignalProcessing.Double)

  /** A double times a scale factor; NaN stays NaN. */
  function Scale(v: SignalProcessing.Double, k: real): (r: SignalProcessing.Double)
    ensures r.NaN? <==> v.NaN?
    ensures v.Finite? && k > 0.0 ==> (r.value > 0.0 <==> v.value > 0.0) && (r.value == 0.0 <==> v.value == 0.0)
    ensures v.Finite? && k != 0.0 ==> r.value / k == v.value
  {
    match v
    case NaN => SignalProcessing.NaN
    case Finite(r) => SignalProcessing.Finite(r * k)
  }

  /** The points a time chart shows: (p, ch[i]) for i = start, start + step,
      ... below |ch|, numbered from p. */
  function TimeSeries(ch: seq<real>, step: int, i: int, p: int): seq<(int, real)>
    requires step >= 1 && 0 <= i
    decreases |ch| - i
  {
    if i >= |ch| then [] else [(p, ch[i])] + TimeSeries(ch, step, i + step, p + 1)
  }

  /** Entry k of a time series is point number p + k, showing sample
      i + k·step; the series stops at the first index past the end. */
  lemma {:induction false} TimeSeriesEntries(ch: seq<real>, step: int, i: int, p: int, k: nat)
    requires step >= 1 && 0 <= i
    requires k < |TimeSeries(ch, step, i, p)|
    ensures LoopReconstruction.NthIndex(i, step, k) < |ch|
    ensures TimeSeries(ch, step, i, p)[k] == (p + k, ch[LoopReconstruction.NthIndex(i, step, k)])
    decreases |ch| - i
  {
    if k > 0 {
      TimeSeriesEntries(ch, step, i + step, p + 1, k - 1);
      assert LoopReconstruction.NthIndex(i, step, k) == LoopReconstruction.NthIndex(i + step, step, k - 1);
    }
  }

  /** A time series covers the whole channel: the index one stride past its
      last entry lies beyond the end. */
  lemma {:induction false} TimeSeriesCovers(ch: seq<real>, step: int, i: int, p: int)
    requires step >= 1 && 0 <= i
    ensures LoopReconstruction.NthIndex(i, step, |TimeSeries(ch, step, i, p)|) >= |ch|
    decreases |ch| - i
  {
    if i < |ch| {
      TimeSeriesCovers(ch, step, i + step, p + 1);
      var m := |TimeSeries(ch, step, i + step, p + 1)|;
      assert LoopReconstruction.NthIndex(i, step, m + 1) == LoopReconstruction.NthIndex(i + step, step, m);
    }
  }

  /** |y·k|, the magnitude of an ordinate in physical units. */
  function Magnitude(y: real, k: real): real {
    LoopReconstruction.Abs(y * k)
  }

  /** The saturation fold: the largest |y·bScale| over the ordinates of both
      branches, starting from 0, so 0 when both are empty. */
  method Saturation(ry: seq<real>, fy: seq<real>, bScale: real) returns (bsat: real)
    ensures bsat >= 0.0
    ensures forall k :: 0 <= k < |ry| ==> Magnitude(ry[k], bScale) <= bsat
    ensures forall k :: 0 <= k < |fy| ==> Magnitude(fy[k], bScale) <= bsat
    ensures bsat == 0.0 ||
      (exists k :: 0 <= k < |ry| && Magnitude(ry[k], bScale) == bsat) ||
      (exists k :: 0 <= k < |fy| && Magnitude(fy[k], bScale) == bsat)
  {
    bsat := 0.0;
    for j := 0 to |ry|
      invariant bsat >= 0.0
      invariant forall k :: 0 <= k < j ==> Magnitude(ry[k], bScale) <= bsat
      invariant bsat == 0.0 || exists k :: 0 <= k < j && Magnitude(ry[k], bScale) == bsat
    {
      bsat := Statistics.Max(bsat, Magnitude(ry[j], bScale));
    }
    for j := 0 to |fy|
      invariant bsat >= 0.0
      invariant forall k :: 0 <= k < |ry| ==> Magnitude(ry[k], bScale) <= bsat
      invariant forall k :: 0 <= k < j ==> Magnitude(fy[k], bScale) <= bsat
      invariant bsat == 0.0 ||
        (exists k :: 0 <= k < |ry| && Magnitude(ry[k], bScale) == bsat) ||
        (exists k :: 0 <= k < j && Magnitude(fy[k], bScale) == bsat)
    {
      bsat := Statistics.Max(bsat, Magnitude(fy[j], bScale));
    }
  }

  class MainController {
    var config: Acquisition.AcquisitionConfig
    var physicalParams: PhysicalParams.PhysicalParameters

    /** Initialisation: a default configuration and default physical
        constants. */
    constructor ()
      ensures fresh(config) && fresh(physicalParams)
      ensures config.sampleRateHz == 10000 && config.bufferSize == 4000
      ensures config.acquisitionTime == 0.4 && config.inputRangeV == Acquisition.DefaultInputRangeV
      ensures physicalParams.turnsExc == PhysicalParams.DefaultTurnsExc
      ensures physicalParams.pathLen == PhysicalParams.DefaultPathLen
      ensures physicalParams.shunt == PhysicalParams.DefaultShunt
      ensures physicalParams.turnsB == PhysicalParams.DefaultTurnsB
      ensures physicalParams.area == PhysicalParams.DefaultArea
    {
      config := new Acquisition.AcquisitionConfig();
      physicalParams := new PhysicalParams.PhysicalParameters();
    }

    /** Recomputes the buffer length from the acquisition time, clamped to
        the buffer limits; nothing else in the configuration changes. */
    method CalculateBufferFromTime()
      modifies config
      ensures config.bufferSize == ClampBuffer(old(config.CalculateBufferFromTime()))
      ensures Acquisition.MinBufferSize <= config.bufferSize <= Acquisition.MaxBufferSize
      ensures config.sampleRateHz == old(config.sampleRateHz)
      ensures config.acquisitionTime == old(config.acquisitionTime)
      ensures config.inputRangeV == old(config.inputRangeV)
    {
      var calculatedBuffer := config.CalculateBufferFromTime();
      if calculatedBuffer < Acquisition.MinBufferSize {
        calculatedBuffer := Acquisition.MinBufferSize;
      } else if calculatedBuffer > Acquisition.MaxBufferSize {
        calculatedBuffer := Acquisition.MaxBufferSize;
      }
      config.SetBufferSize(calculatedBuffer);
    }

    /** Recomputes the acquisition time from the buffer length; afterwards
        converting the time back gives the same buffer length. */
    method CalculateTimeFromBuffer()
      requires config.sampleRateHz != 0
      modifies config
      ensures config.acquisitionTime * config.sampleRateHz as real == config.bufferSize as real
      ensures config.CalculateBufferFromTime() == config.bufferSize
      ensures config.sampleRateHz == old(config.sampleRateHz)
      ensures config.bufferSize == old(config.bufferSize)
      ensures config.inputRangeV == old(config.inputRangeV)
    {
      var time := config.CalculateTimeFromBuffer();
      config.SetAcquisitionTime(time);
      Acquisition.BufferTimeRoundTrip(config.bufferSize, config.sampleRateHz);
    }

    /** Guards the sample rate, replacing a non-positive one by 1000 Hz, then
        recomputes the clamped buffer length. Afterwards the rate is positive,
        so the buffer's duration is defined. */
    method UpdateAcquisitionParameters()
      modifies config
      ensures config.sampleRateHz == if old(config.sampleRateHz) <= 0 then FallbackSampleRateHz else old(config.sampleRateHz)
      ensures config.sampleRateHz > 0
      ensures config.bufferSize ==
        ClampBuffer(Acquisition.RoundHalfUp(old(config.acquisitionTime) * config.sampleRateHz as real))
      ensures Acquisition.MinBufferSize <= config.bufferSize <= Acquisition.MaxBufferSize
      ensures config.acquisitionTime == old(config.acquisitionTime)
      ensures config.inputRangeV == old(config.inputRangeV)
    {
      if config.sampleRateHz <= 0 {
        config.SetSampleRateHz(FallbackSampleRateHz);
      }
      CalculateBufferFromTime();
    }

    /** Bsat, Br and Hc from the averaged branches. Bsat is the largest
        |y·bScale| over the ordinates of both branches, or 0 when both are
        empty; Br is the rising branch's y at x = 0 times bScale and Hc its x
        at y = 0 times hScale. The falling branch enters Bsat only. */
    method ComputeHysteresisStats(rx: seq<real>, ry: seq<real>, fx: seq<real>, fy: seq<real>)
      returns (stats: HysteresisStats)
      requires |rx| == |ry|
      requires physicalParams.pathLen * physicalParams.shunt != 0.0
      requires physicalParams.turnsB * physicalParams.area != 0.0
      ensures stats.bsat >= 0.0
      ensures forall k :: 0 <= k < |ry| ==> Magnitude(ry[k], physicalParams.BScale()) <= stats.bsat
      ensures forall k :: 0 <= k < |fy| ==> Magnitude(fy[k], physicalParams.BScale()) <= stats.bsat
      ensures stats.bsat == 0.0 ||
        (exists k :: 0 <= k < |ry| && Magnitude(ry[k], physicalParams.BScale()) == stats.bsat) ||
        (exists k :: 0 <= k < |fy| && Magnitude(fy[k], physicalParams.BScale()) == stats.bsat)
      ensures stats.br == Scale(SignalProcessing.Interpolate(rx, ry, 0.0), physicalParams.BScale())
      ensures stats.hc == Scale(SignalProcessing.Interpolate(ry, rx, 0.0), physicalParams.HScale())
    {
      var hScale := physicalParams.HScale();
      var bScale := physicalParams.BScale();
      var bsat := Saturation(ry, fy, bScale);
      var br := SignalProcessing.InterpolateAtX(rx, ry, 0.0);
      var hc := SignalProcessing.InterpolateAtY(rx, ry, 0.0);
      stats := HysteresisStats(bsat, Scale(br, bScale), Scale(hc, hScale));
    }

    /** The XY chart: reconstructs the loop and, unless no decimated sample
        moved (the early return, leaving both branches empty and no scalars
        computed), computes the hysteresis scalars from the branches. */
    method UpdateXYChart(xSig: array<real>, ySig: array<real>)
      returns (points: seq<LoopReconstruction.ScatterPoint>, rising: LoopReconstruction.Curve,
               falling: LoopReconstruction.Curve, stats: LoopReconstruction.Option<HysteresisStats>)
      requires xSig.Length <= ySig.Length
      requires physicalParams.pathLen * physicalParams.shunt != 0.0
      requires physicalParams.turnsB * physicalParams.area != 0.0
      ensures points == LoopReconstruction.Scatter(xSig[..], ySig[..])
      ensures stats.None? <==> points == []
      ensures stats.None? ==> rising == falling == LoopReconstruction.Curve([], [])
      ensures stats.Some? ==> |rising.xs| == |rising.ys|
      ensures stats.Some? ==>
        LoopReconstruction.Reconstruct(xSig[..], ySig[..]) == LoopReconstruction.Some((rising, falling)) &&
        stats.value.br == Scale(SignalProcessing.Interpolate(rising.xs, rising.ys, 0.0), physicalParams.BScale()) &&
        stats.value.hc == Scale(SignalProcessing.Interpolate(rising.ys, rising.xs, 0.0), physicalParams.HScale())
      ensures stats.Some? ==> stats.value.bsat >= 0.0
      ensures stats.Some? ==> forall k :: 0 <= k < |rising.ys| ==> Magnitude(rising.ys[k], physicalParams.BScale()) <= stats.value.bsat
      ensures stats.Some? ==> forall k :: 0 <= k < |falling.ys| ==> Magnitude(falling.ys[k], physicalParams.BScale()) <= stats.value.bsat
      ensures stats.Some? ==>
        (stats.value.bsat == 0.0 ||
         (exists k :: 0 <= k < |rising.ys| && Magnitude(rising.ys[k], physicalParams.BScale()) == stats.value.bsat) ||
         (exists k :: 0 <= k < |falling.ys| && Magnitude(falling.ys[k], physicalParams.BScale()) == stats.value.bsat))
    {
      var branches;
      points, branches := LoopReconstruction.ReconstructLoop(xSig, ySig);
      if branches.None? {
        return points, LoopReconstruction.Curve([], []), LoopReconstruction.Curve([], []), LoopReconstruction.None;
      }
      rising, falling := branches.value.0, branches.value.1;
      LoopReconstruction.BranchSize(points, LoopReconstruction.Rising);
      var s := ComputeHysteresisStats(rising.xs, rising.ys, falling.xs, falling.ys);
      stats := LoopReconstruction.Some(s);
    }

    /** The time charts: every step-th sample of both channels, numbered
        0, 1, 2, ..., with step = Stride(length of ch0). */
    method UpdateTimeChart(ch0: array<real>, ch1: array<real>) returns (series0: seq<(int, real)>, series1: seq<(int, real)>)
      requires ch0.Length <= ch1.Length
      ensures series0 == TimeSeries(ch0[..], LoopReconstruction.Stride(ch0.Length), 0, 0)
      ensures series1 == TimeSeries(ch1[..ch0.Length], LoopReconstruction.Stride(ch0.Length), 0, 0)
    {
      var step := LoopReconstruction.Stride(ch0.Length);
      series0, series1 := [], [];
      var i, p := 0, 0;
      while i < ch0.Length
        invariant 0 <= i
        invariant series0 + TimeSeries(ch0[..], step, i, p) == TimeSeries(ch0[..], step, 0, 0)
        invariant series1 + TimeSeries(ch1[..ch0.Length], step, i, p) == TimeSeries(ch1[..ch0.Length], step, 0, 0)
        decreases ch0.Length - i
      {
        assert series0 + [(p, ch0[i])] + TimeSeries(ch0[..], step, i + step, p + 1)
            == series0 + ([(p, ch0[i])] + TimeSeries(ch0[..], step, i + step, p + 1));
        assert series1 + [(p, ch1[i])] + TimeSeries(ch1[..ch0.Length], step, i + step, p + 1)
            == series1 + ([(p, ch1[i])] + TimeSeries(ch1[..ch0.Length], step, i + step, p + 1));
        series0 := series0 + [(p, ch0[i])];
        series1 := series1 + [(p, ch1[i])];
        i, p := i + step, p + 1;
      }
    }
  }
}
