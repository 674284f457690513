/** Acquisition settings of the two-channel capture: sample rate, buffer
    length, acquisition time and input range, with the conversions between
    buffer length and acquisition time. */
module Acquisition {

  const DefaultInputRangeV: real := 25.0
  /** Number of points the charts aim for; the decimation stride derives from it. */
  const DefaultPlotPoints: int := 10000
  const MinAcquisitionTime: real := 0.01
  const MaxAcquisitionTime: real := 10.0
  const MinBufferSize: int := 100
  const MaxBufferSize: int := 10000

  /** Java's Math.round on a double: the nearest integer, ties rounded up. */
  function RoundHalfUp(x: real): (n: int)
    ensures x - 0.5 < n as real <= x + 0.5
  {
    (x + 0.5).Floor
  }

  class AcquisitionConfig {
    var sampleRateHz: int
    var bufferSize: int
    /** Acquisition time in seconds. */
    var acquisitionTime: real
    /** Input range of both channels in volts. */
    var inputRangeV: real

    constructor ()
      ensures sampleRateHz == 10000 && bufferSize == 4000
      ensures acquisitionTime == 0.4 && inputRangeV == DefaultInputRangeV
    {
      sampleRateHz := 10000;
      bufferSize := 4000;
      acquisitionTime := 0.4;
      inputRangeV := DefaultInputRangeV;
    }

    method SetSampleRateHz(v: int)
      modifies this
      ensures sampleRateHz == v
      ensures bufferSize == old(bufferSize) && acquisitionTime == old(acquisitionTime) && inputRangeV == old(inputRangeV)
    {
      sampleRateHz := v;
    }

    method SetBufferSize(v: int)
      modifies this
      ensures bufferSize == v
      ensures sampleRateHz == old(sampleRateHz) && acquisitionTime == old(acquisitionTime) && inputRangeV == old(inputRangeV)
    {
      bufferSize := v;
    }

    method SetAcquisitionTime(v: real)
      modifies this
      ensures acquisitionTime == v
      ensures sampleRateHz == old(sampleRateHz) && bufferSize == old(bufferSize) && inputRangeV == old(inputRangeV)
    {
      acquisitionTime := v;
    }

    method SetInputRangeV(v: real)
      modifies this
      ensures inputRangeV == v
      ensures sampleRateHz == old(sampleRateHz) && bufferSize == old(bufferSize) && acquisitionTime == old(acquisitionTime)
    {
      inputRangeV := v;
    }

    /** Samples needed to cover the acquisition time: the nearest integer to
        time * rate. */
    function CalculateBufferFromTime(): (n: int)
      reads this
      ensures n as real - 0.5 <= acquisitionTime * sampleRateHz as real < n as real + 0.5
    {
      RoundHalfUp(acquisitionTime * sampleRateHz as real)
    }

    /** Seconds the buffer lasts at the sample rate. A zero rate is a division
        by zero in Java's double arithmetic and is excluded. */
    function CalculateTimeFromBuffer(): (t: real)
      reads this
      requires sampleRateHz != 0
      ensures t * sampleRateHz as real == bufferSize as real
      ensures sampleRateHz > 0 && bufferSize >= 0 ==> t >= 0.0
    {
      bufferSize as real / sampleRateHz as real
    }
  }

  /** The constants bound sensible intervals, and the constructor's defaults
      lie inside them and agree with each other: 4000 samples at 10 kHz last
      0.4 s. */
  lemma DefaultsConsistent(c: AcquisitionConfig)
    requires c.sampleRateHz == 10000 && c.bufferSize == 4000 && c.acquisitionTime == 0.4
    ensures MinBufferSize <= c.bufferSize <= MaxBufferSize
    ensures MinAcquisitionTime <= c.acquisitionTime <= MaxAcquisitionTime
    ensures c.CalculateTimeFromBuffer() == c.acquisitionTime
    ensures c.CalculateBufferFromTime() == c.bufferSize
  {
  }

  /** Converting a buffer length to a time and back gives the buffer length
      again, for every non-zero rate (exact arithmetic). */
  lemma BufferTimeRoundTrip(bufferSize: int, sampleRateHz: int)
    requires sampleRateHz != 0
    ensures RoundHalfUp((bufferSize as real / sampleRateHz as real) * sampleRateHz as real) == bufferSize
  {
    var r := sampleRateHz as real;
    assert (bufferSize as real / r) * r == bufferSize as real;
  }
}
