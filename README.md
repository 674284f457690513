# B-H hysteresis pipeline, modelled in Dafny

This project models the offline part of a magnetic-hysteresis measurement
station. Two voltage channels are captured from the measurement device.
The pipeline turns them into a B-H loop:

- The sense-coil channel is integrated by a digital RC filter, a first-order
  recurrence run with the trapezoidal rule.
- Per-channel statistics are computed: minimum, maximum, peak-to-peak and
  RMS.
- The two signals are decimated by a stride.
- Every decimated sample whose x moved by at least 1e-9 becomes a scatter
  point, classified as rising or falling.
- The scatter is binned into 150 bins along x for each direction.
- Each non-empty bin is averaged into a point of the rising or the falling
  branch.
- Three scalars are read off the branches: Bsat, Br and Hc. Bsat is the
  largest |B|. Br is the branch's y at x = 0 and Hc its x at y = 0, both
  found by linear interpolation.
- Two configuration records supply the numbers. One holds the five physical
  constants that scale volts to H and B. The other holds the acquisition
  settings, whose buffer length and acquisition time are kept consistent
  within fixed limits.

Java `double` is modelled as `real`, in exact arithmetic. NaN appears in the
model only where the code computes 0/0:

- when linear interpolation hits a segment whose two keys are equal and equal
  to the query (`SignalProcessing.Double.NaN`);
- in the bin index when every scatter point has the same x, so the bin width
  is 0 and Java's `(int)NaN` sends every point to bin 0.

Java's `(int)` cast is modelled by truncation toward zero with saturation
(`LoopReconstruction.TruncToInt`).

Notes on the code as written:

- The XY chart and the hysteresis scalars are called with x = the integrated
  channel 0 and y = channel 1. The integrator's own documentation calls its
  output proportional to B, but the averaging and `computeHysteresisStats`
  treat x as H: Hc is x at y = 0 times hScale, and Br is y at x = 0 times
  bScale. The model reproduces the code as written. Which quantity each
  channel carries depends on the wiring of the set-up, which the code does
  not show.
- The bracketing check of the interpolation lets through a segment with
  x[i − 1] == x[i] == x0, and the code then divides 0 by 0. `Lerp` returns
  NaN exactly when the two keys are equal.
- A one-point curve has no segment, so the interpolation returns the
  sentinel 0 even at its only node. `NodeExact` needs at least two points,
  and `SinglePointMisses` states the one-point case.
- A capture whose x increases gives a non-empty rising branch and an empty
  falling branch only when some decimated sample moved by at least 1e-9.
  If x creeps up by less than that over every stride, or the capture is no
  longer than one stride, the scatter is empty and the code returns before
  building any branch. `IncreasingSignalOneBranch` and
  `ClimbingSignalOneBranch` state the two cases that do give branches.
- The code validates nothing eagerly: a non-positive sample rate,
  non-positive physical constants and an empty capture reach the arithmetic
  unchecked. The model leaves these inputs to preconditions where Java
  would produce NaN or infinity.

The modules follow the Java files:

- `physical_parameters.dfy`: `PhysicalParams`.
- `acquisition_config.dfy`: `Acquisition`.
- `signal_processing.dfy`: `SignalProcessing`, the integrator and
  interpolation.
- `statistics.dfy`: `Statistics`.
- `loop_reconstruction.dfy`: `LoopReconstruction`, the decimate, classify,
  bin and average block that `updateXYChart` and `drawHysteresisLoop` share.
- `main_controller.dfy`: `Controller`, the `MainController` class and its
  numeric methods.

Methods that loop in the source are Dafny methods with loops. Most are
proved equal to a recursive specification function, and the properties are
proved about those functions. `Controller.Saturation` is the exception: its
contract states outright that the result is the maximum magnitude, 0 when
both branches are empty.

## Model

| member | source | states |
|---|---|---|
| PhysicalParams.PhysicalParameters.constructor | demo2/src/main/java/org/example/demo2/model/PhysicalParameters.java:61-120 | fields start at turnsExc 100, pathLen 0.1, shunt 1.0, turnsB 50, area 1e-4 |
| PhysicalParams.PhysicalParameters.HScale | demo2/src/main/java/org/example/demo2/model/PhysicalParameters.java:131-136 | hScale·(pathLen·shunt) = turnsExc for a non-zero denominator; positive when the three constants are positive |
| PhysicalParams.PhysicalParameters.BScale | demo2/src/main/java/org/example/demo2/model/PhysicalParameters.java:144-149 | bScale·(turnsB·area) = 1 for a non-zero denominator; positive when both constants are positive |
| PhysicalParams.PhysicalParameters.SetTurnsExc | demo2/src/main/java/org/example/demo2/model/PhysicalParameters.java:157-159 | sets turnsExc, so the getter returns the value set; the other four fields are unchanged |
| PhysicalParams.PhysicalParameters.SetPathLen | demo2/src/main/java/org/example/demo2/model/PhysicalParameters.java:165-167 | sets pathLen only |
| PhysicalParams.PhysicalParameters.SetShunt | demo2/src/main/java/org/example/demo2/model/PhysicalParameters.java:173-175 | sets shunt only |
| PhysicalParams.PhysicalParameters.SetTurnsB | demo2/src/main/java/org/example/demo2/model/PhysicalParameters.java:181-183 | sets turnsB only |
| PhysicalParams.PhysicalParameters.SetArea | demo2/src/main/java/org/example/demo2/model/PhysicalParameters.java:189-191 | sets area only |
| PhysicalParams.DefaultScales | demo2/src/main/java/org/example/demo2/model/PhysicalParameters.java:131-149 | at the defaults all constants are positive, hScale = 1000 and bScale = 200 |
| Acquisition.RoundHalfUp | demo2/src/main/java/org/example/demo2/model/AcquisitionConfig.java:118 | Math.round gives an integer within half a unit of its argument, ties rounded up |
| Acquisition.AcquisitionConfig.constructor | demo2/src/main/java/org/example/demo2/model/AcquisitionConfig.java:65-77 | defaults 10000 Hz, 4000 samples, 0.4 s, 25 V |
| Acquisition.AcquisitionConfig.SetSampleRateHz | demo2/src/main/java/org/example/demo2/model/AcquisitionConfig.java:85-87 | sets the rate only |
| Acquisition.AcquisitionConfig.SetBufferSize | demo2/src/main/java/org/example/demo2/model/AcquisitionConfig.java:93-95 | sets the buffer length only |
| Acquisition.AcquisitionConfig.SetAcquisitionTime | demo2/src/main/java/org/example/demo2/model/AcquisitionConfig.java:101-103 | sets the acquisition time only |
| Acquisition.AcquisitionConfig.SetInputRangeV | demo2/src/main/java/org/example/demo2/model/AcquisitionConfig.java:109-111 | sets the input range only |
| Acquisition.AcquisitionConfig.CalculateBufferFromTime | demo2/src/main/java/org/example/demo2/model/AcquisitionConfig.java:114-119 | the buffer length is the nearest integer to time·rate |
| Acquisition.AcquisitionConfig.CalculateTimeFromBuffer | demo2/src/main/java/org/example/demo2/model/AcquisitionConfig.java:121-126 | time·rate = buffer length for a non-zero rate; non-negative for a positive rate |
| Acquisition.DefaultsConsistent | demo2/src/main/java/org/example/demo2/model/AcquisitionConfig.java:43-77 | the default buffer and time lie within the limits and convert into each other (4000 samples at 10 kHz = 0.4 s) |
| Acquisition.BufferTimeRoundTrip | demo2/src/main/java/org/example/demo2/model/AcquisitionConfig.java:114-126 | buffer → time → buffer returns the original length for every non-zero rate |
| SignalProcessing.Period | demo2/src/main/java/org/example/demo2/service/SignalProcessingService.java:134 | dt·rate = 1, and dt > 0 exactly when the rate is positive |
| SignalProcessing.DenominatorNonZero | demo2/src/main/java/org/example/demo2/service/SignalProcessingService.java:130-146 | 2τ + dt ≠ 0 for every non-zero integer rate, so the coefficients are defined |
| SignalProcessing.Coefficients | demo2/src/main/java/org/example/demo2/service/SignalProcessingService.java:139-146 | a + 2b = 1 and b·(2τ + dt) = dt |
| SignalProcessing.CoefficientsStable | demo2/src/main/java/org/example/demo2/service/SignalProcessingService.java:95-146 | for a positive rate 0 < b < 1 and −1 < a < 1 |
| SignalProcessing.Integrate | demo2/src/main/java/org/example/demo2/service/SignalProcessingService.java:124-190 | a fresh array of the input's length whose entry i is y[i] of the recurrence from rest; the input is only read |
| SignalProcessing.FirstOutput | demo2/src/main/java/org/example/demo2/service/SignalProcessingService.java:152-174 | y[0] = b·v[0] |
| SignalProcessing.SilenceStaysZero | demo2/src/main/java/org/example/demo2/service/SignalProcessingService.java:152-181 | an all-zero input gives an all-zero output |
| SignalProcessing.Superposition | demo2/src/main/java/org/example/demo2/service/SignalProcessingService.java:160-181 | the response to u + w is the sum of the responses |
| SignalProcessing.ConstantInputSettles | demo2/src/main/java/org/example/demo2/service/SignalProcessingService.java:141-181 | on a constant input c the distance y[n] − c shrinks by the factor a at each step |
| SignalProcessing.Lerp | demo2/src/main/java/org/example/demo2/service/SignalProcessingService.java:207-219 | NaN exactly on equal keys; otherwise a value between the segment's two values, equal to them at its two ends |
| SignalProcessing.SegmentParameter | demo2/src/main/java/org/example/demo2/service/SignalProcessingService.java:216 | t lies in [0, 1] for a bracketed query, 0 at the first key and 1 at the second |
| SignalProcessing.BlendBetween | demo2/src/main/java/org/example/demo2/service/SignalProcessingService.java:219 | v0 + t·(v1 − v0) with t in [0, 1] lies between v0 and v1 |
| SignalProcessing.InterpolateAtX | demo2/src/main/java/org/example/demo2/service/SignalProcessingService.java:199-226 | the scanning loop returns the first-bracket interpolation of y at x0, or the sentinel 0 |
| SignalProcessing.InterpolateAtY | demo2/src/main/java/org/example/demo2/service/SignalProcessingService.java:232-258 | the mirror image: interpolation of x at y0 scanning the y list |
| SignalProcessing.MissGivesZero | demo2/src/main/java/org/example/demo2/service/SignalProcessingService.java:202-225 | with no bracketing pair the result is the sentinel 0 |
| SignalProcessing.FirstBracketWins | demo2/src/main/java/org/example/demo2/service/SignalProcessingService.java:202-219 | the first bracketing pair decides the result |
| SignalProcessing.InterpolateCases | demo2/src/main/java/org/example/demo2/service/SignalProcessingService.java:199-226 | both directions: sentinel 0 when nothing brackets, otherwise the interpolation on the lowest bracketing pair |
| SignalProcessing.FirstBracket | demo2/src/main/java/org/example/demo2/service/SignalProcessingService.java:202-207 | the index found brackets the query and no earlier pair does |
| SignalProcessing.OutOfRangeGivesZero | demo2/src/main/java/org/example/demo2/service/SignalProcessingService.java:222-225 | a query outside the range of the keys gives 0 |
| SignalProcessing.NodeExact | demo2/src/main/java/org/example/demo2/service/SignalProcessingService.java:202-219 | on strictly increasing keys of at least two points, interpolating at a key gives exactly its value |
| SignalProcessing.SinglePointMisses | demo2/src/main/java/org/example/demo2/service/SignalProcessingService.java:202-225 | a one-point curve gives 0 even at its node |
| Statistics.SumSquares | demo2/src/main/java/org/example/demo2/service/StatisticsService.java:41-46 | the running sum of squares is non-negative |
| Statistics.Min | demo2/src/main/java/org/example/demo2/service/StatisticsService.java:44 | Math.min is at most both arguments and equals one of them |
| Statistics.Max | demo2/src/main/java/org/example/demo2/service/StatisticsService.java:45 | Math.max is at least both arguments and equals one of them |
| Statistics.Compute | demo2/src/main/java/org/example/demo2/service/StatisticsService.java:38-52 | the one-pass loop yields the summary of the whole array |
| Statistics.RunningExtremes | demo2/src/main/java/org/example/demo2/service/StatisticsService.java:39-46 | the running min and max of a prefix bound every sample of it and are samples of it |
| Statistics.SummaryExtremes | demo2/src/main/java/org/example/demo2/service/StatisticsService.java:38-50 | min ≤ every sample ≤ max, both are attained, and p2p = max − min ≥ 0 |
| Statistics.SummaryMeanSquare | demo2/src/main/java/org/example/demo2/service/StatisticsService.java:41-50 | rms²·n = sum of squares, rms² ≤ max(min², max²), and a constant c gives min = max = c, p2p 0, rms² = c² |
| Statistics.MeanSquareFacts | demo2/src/main/java/org/example/demo2/service/StatisticsService.java:49 | the mean square recovers the sum, respects the peak bound and is c² for a constant capture |
| Statistics.ConstantSumSquares | demo2/src/main/java/org/example/demo2/service/StatisticsService.java:41-46 | a constant capture c has sum of squares n·c² |
| Statistics.SumSquaresBounded | demo2/src/main/java/org/example/demo2/service/StatisticsService.java:41-46 | the sum of squares is at most n·max(min², max²) |
| LoopReconstruction.Stride | demo2/src/main/java/org/example/demo2/controller/MainController.java:376 | the stride is at least 1 and the largest whose multiple of 10000 fits the length |
| LoopReconstruction.CollectScatter | demo2/src/main/java/org/example/demo2/controller/MainController.java:385-400 | the decimation loop yields the scatter of samples step, 2·step, ... in acquisition order |
| LoopReconstruction.DirectionOf | demo2/src/main/java/org/example/demo2/controller/MainController.java:394 | a change is rising exactly when it is positive, falling otherwise |
| LoopReconstruction.Moves | demo2/src/main/java/org/example/demo2/controller/MainController.java:388-390 | a sample moved exactly when x changed by at least 1e-9 up or down over one stride |
| LoopReconstruction.PointAt | demo2/src/main/java/org/example/demo2/controller/MainController.java:388-396 | the point keeps the sample's x and y; it is rising exactly when x increased, and a moving point is falling exactly when x decreased |
| LoopReconstruction.ScatterSound | demo2/src/main/java/org/example/demo2/controller/MainController.java:387-396 | every scatter point is a decimated sample that moved at least 1e-9, rising iff its change is positive |
| LoopReconstruction.ScatterComplete | demo2/src/main/java/org/example/demo2/controller/MainController.java:387-396 | every decimated sample that moved is in the scatter |
| LoopReconstruction.QuietSignalGivesNoScatter | demo2/src/main/java/org/example/demo2/controller/MainController.java:387-390 | if x never moves by 1e-9 over a stride the scatter is empty |
| LoopReconstruction.ClimbingSignalIsRising | demo2/src/main/java/org/example/demo2/controller/MainController.java:387-396 | if x climbs by at least 1e-9 over every stride, every point is rising and none is skipped |
| LoopReconstruction.IncreasingSignalIsRising | demo2/src/main/java/org/example/demo2/controller/MainController.java:387-396 | if x increases over every stride, every scatter point is rising |
| LoopReconstruction.PointCounted | demo2/src/main/java/org/example/demo2/controller/MainController.java:415-424 | a point landing in bin b of its direction makes that bin's count positive |
| LoopReconstruction.AbsentDirectionCounts | demo2/src/main/java/org/example/demo2/controller/MainController.java:415-424 | a direction no point has leaves all its bins empty |
| LoopReconstruction.EmptyBinsEmptyBranch | demo2/src/main/java/org/example/demo2/controller/MainController.java:428-440 | all-empty bins give an empty branch |
| LoopReconstruction.SingleDirectionBranches | demo2/src/main/java/org/example/demo2/controller/MainController.java:405-446 | a non-empty scatter of a single direction gives a non-empty branch of it and an empty branch of the other |
| LoopReconstruction.IncreasingSignalOneBranch | demo2/src/main/java/org/example/demo2/controller/MainController.java:376-446 | an x that increases over every stride, with at least one sample moving by 1e-9, gives a non-empty rising branch and an empty falling branch |
| LoopReconstruction.ClimbingSignalOneBranch | demo2/src/main/java/org/example/demo2/controller/MainController.java:376-446 | an x that climbs by at least 1e-9 over every stride, on a capture longer than one stride, always has branches: non-empty rising, empty falling |
| LoopReconstruction.MinX | demo2/src/main/java/org/example/demo2/controller/MainController.java:406 | xmin bounds every scatter x from below and is attained |
| LoopReconstruction.MaxX | demo2/src/main/java/org/example/demo2/controller/MainController.java:407 | xmax bounds every scatter x from above and is attained |
| LoopReconstruction.BinWidth | demo2/src/main/java/org/example/demo2/controller/MainController.java:408 | dx·149 = xmax − xmin; dx ≥ 0 and dx = 0 exactly when xmin = xmax |
| LoopReconstruction.TruncToInt | demo2/src/main/java/org/example/demo2/controller/MainController.java:416 | the (int) cast truncates toward zero and saturates at the int bounds |
| LoopReconstruction.BinIndex | demo2/src/main/java/org/example/demo2/controller/MainController.java:416 | an int; with dx = 0, bin 0 exactly at xmin (the (int)NaN case) and the int bounds for ±infinity; with dx > 0, x ≥ xmin lands in the non-negative bin whose edges bracket it |
| LoopReconstruction.BinInRange | demo2/src/main/java/org/example/demo2/controller/MainController.java:405-417 | every x in [xmin, xmax] gets a bin in [0, 149]; bin 0 when xmin = xmax (the NaN case) |
| LoopReconstruction.Accumulate | demo2/src/main/java/org/example/demo2/controller/MainController.java:411-425 | four fresh 150-entry arrays hold, per bin and direction, the count and the y-sum of the points binned there; out-of-range indices are skipped |
| LoopReconstruction.OverBinsStep | demo2/src/main/java/org/example/demo2/controller/MainController.java:416-424 | one point raises the totals over the bins by one and its y exactly when its bin is in range |
| LoopReconstruction.NoPointsOverBins | demo2/src/main/java/org/example/demo2/controller/MainController.java:411-412 | all bins start empty |
| LoopReconstruction.Conservation | demo2/src/main/java/org/example/demo2/controller/MainController.java:413-425 | the per-bin counts of a direction sum to its in-range point count, and the per-bin sums to their y total |
| LoopReconstruction.NothingSkipped | demo2/src/main/java/org/example/demo2/controller/MainController.java:405-417 | with bins spanning xmin..xmax no point is out of range |
| LoopReconstruction.BinsConserveScatter | demo2/src/main/java/org/example/demo2/controller/MainController.java:405-425 | every scatter point is counted exactly once: bin counts and sums add up to the direction's totals |
| LoopReconstruction.EdgeStep | demo2/src/main/java/org/example/demo2/controller/MainController.java:430 | consecutive bin edges are dx apart |
| LoopReconstruction.Average | demo2/src/main/java/org/example/demo2/controller/MainController.java:428-446 | the averaging loop builds the two branch curves from the bin arrays |
| LoopReconstruction.BranchShape | demo2/src/main/java/org/example/demo2/controller/MainController.java:428-446 | a branch has equally many x and y values: one per non-empty bin, at most one per bin |
| LoopReconstruction.BranchIncreasing | demo2/src/main/java/org/example/demo2/controller/MainController.java:429-440 | with dx > 0 the branch abscissae strictly increase |
| LoopReconstruction.BranchEntriesSound | demo2/src/main/java/org/example/demo2/controller/MainController.java:429-440 | each branch point is the edge and sum/count of a non-empty bin |
| LoopReconstruction.BranchEntriesComplete | demo2/src/main/java/org/example/demo2/controller/MainController.java:429-440 | each non-empty bin has its branch point |
| LoopReconstruction.Counts | demo2/src/main/java/org/example/demo2/controller/MainController.java:412 | one count per bin |
| LoopReconstruction.Sums | demo2/src/main/java/org/example/demo2/controller/MainController.java:411 | one sum per bin |
| LoopReconstruction.ReconstructLoop | demo2/src/main/java/org/example/demo2/controller/MainController.java:376-446 | scatter, then no branches iff the scatter is empty (early return), else the binned and averaged branches; drawHysteresisLoop (lines 487-546) repeats this block |
| LoopReconstruction.BranchSize | demo2/src/main/java/org/example/demo2/controller/MainController.java:428-446 | a reconstructed branch has equal list lengths, at most 150 |
| LoopReconstruction.BranchPointIsBinMean | demo2/src/main/java/org/example/demo2/controller/MainController.java:428-440 | each branch point sits at a bin edge and its y is the mean of that bin's y values |
| LoopReconstruction.BinMeanInBranch | demo2/src/main/java/org/example/demo2/controller/MainController.java:428-440 | every bin holding points of a direction contributes its mean to that branch |
| LoopReconstruction.BranchesIncreasing | demo2/src/main/java/org/example/demo2/controller/MainController.java:406-440 | when the scatter spans a proper x interval, both branches have strictly increasing x |
| LoopReconstruction.DegenerateScatterOneBin | demo2/src/main/java/org/example/demo2/controller/MainController.java:406-440 | when all scatter x coincide, each branch has at most one point, at that x |
| LoopReconstruction.OnlyBinZero | demo2/src/main/java/org/example/demo2/controller/MainController.java:416 | with dx = 0 and every x equal to xmin no point lands outside bin 0 |
| LoopReconstruction.OnlyFirstBin | demo2/src/main/java/org/example/demo2/controller/MainController.java:428-440 | counts vanishing beyond bin 0 give at most one branch point, at xmin |
| Controller.ClampBuffer | demo2/src/main/java/org/example/demo2/controller/MainController.java:222-230 | the clamped length lies in [100, 10000] and equals the computed one when that is in range |
| Controller.ClampNearest | demo2/src/main/java/org/example/demo2/controller/MainController.java:222-230 | the clamp is the admissible length nearest to the computed one, and clamping is idempotent |
| Controller.TimeSeriesEntries | demo2/src/main/java/org/example/demo2/controller/MainController.java:365-367 | entry k of a time chart is point k showing sample k·step |
| Controller.TimeSeriesCovers | demo2/src/main/java/org/example/demo2/controller/MainController.java:365 | the time chart stops only past the end of the channel |
| Controller.Scale | demo2/src/main/java/org/example/demo2/controller/MainController.java:648-651 | NaN stays NaN; a positive scale keeps the sign of a finite value, and a non-zero one can be divided back out |
| Controller.Saturation | demo2/src/main/java/org/example/demo2/controller/MainController.java:643-645 | Bsat ≥ 0 bounds every \|y·bScale\| of both branches and is 0 or attained by one of them |
| Controller.MainController.constructor | demo2/src/main/java/org/example/demo2/controller/MainController.java:79-82 | a fresh default configuration and fresh default physical constants |
| Controller.MainController.CalculateBufferFromTime | demo2/src/main/java/org/example/demo2/controller/MainController.java:218-235 | the buffer becomes the clamp of round(time·rate), within [100, 10000]; the method's own body leaves rate, time and range as they were (the spinner listeners it triggers are not modelled) |
| Controller.MainController.CalculateTimeFromBuffer | demo2/src/main/java/org/example/demo2/controller/MainController.java:237-243 | time·rate = buffer, and converting back gives the same buffer |
| Controller.MainController.UpdateAcquisitionParameters | demo2/src/main/java/org/example/demo2/controller/MainController.java:245-253 | a non-positive rate becomes 1000 Hz, the rate ends positive and the buffer is the clamp of round(time·rate) |
| Controller.MainController.ComputeHysteresisStats | demo2/src/main/java/org/example/demo2/controller/MainController.java:634-651 | Bsat is the max of \|y·bScale\| over both branches (0 if empty); Br and Hc are the rising branch's interpolations at 0 scaled by bScale and hScale |
| Controller.MainController.UpdateXYChart | demo2/src/main/java/org/example/demo2/controller/MainController.java:371-474 | no scalars and empty branches iff the scatter is empty; otherwise the reconstructed branches, Bsat ≥ 0 bounding every \|y·bScale\| of both branches and 0 or attained, and Br and Hc as the rising branch's scaled interpolations at 0 |
| Controller.MainController.UpdateTimeChart | demo2/src/main/java/org/example/demo2/controller/MainController.java:356-369 | both time charts show every step-th sample of the first channel's length, numbered from 0 |

## Left out

- Statistics.Compute: states the mean square (rms²) instead of rms, because `Math.sqrt` is not modelled.
- Statistics.Compute: requires a non-empty capture. On an empty one Java leaves min and max at ±infinity and the rms at NaN.
- Acquisition.AcquisitionConfig.CalculateTimeFromBuffer: requires a non-zero rate. Java would return an infinity or NaN at rate 0. Every caller keeps the rate positive: the sample-rate spinner starts at 100 and `updateAcquisitionParameters` resets a non-positive rate to 1000.
- SignalProcessing.Integrate: requires a non-zero rate. At rate 0 Java's dt is infinite and the output is NaN.
- PhysicalParams.PhysicalParameters.HScale: requires a non-zero pathLen·shunt. Java would return an infinity or NaN.
- PhysicalParams.PhysicalParameters.BScale: requires a non-zero turnsB·area, for the same reason.
- SignalProcessing.InterpolateAtX: requires the two lists to have equal length. The branch lists are built in lockstep, and a shorter y list would throw.
- Acquisition.RoundHalfUp: `Math.round` returns a long that the code casts to int. The wrap-around for results beyond the int range is not modelled.
- Controller.MainController.CalculateBufferFromTime: does not model the spinner updates at MainController.java lines 224, 228 and 233, or the listeners they trigger. Setting the buffer spinner at line 233 fires its listener (lines 160-162) whenever the value changed. That listener stores the buffer and runs `calculateTimeFromBuffer` (lines 237-241), which rewrites the acquisition time to buffer / rate. So after the Java call the time has generally moved, while the model keeps it. Running `Controller.MainController.CalculateTimeFromBuffer` after this method gives the state that chain produces. The time-spinner corrections at lines 224 and 228 re-enter through the time listener (lines 148-150) in the same way. The info-label refresh is not modelled either.
- Controller.MainController.UpdateAcquisitionParameters: the sample-rate spinner update and the label refresh are not modelled.
- Controller.MainController.ComputeHysteresisStats: `updatePhysicalParameters` is not modelled. It parses text fields with `Double.parseDouble`, so the method uses the current physical constants. The label formatting is not modelled either.
- Controller.MainController.UpdateXYChart: the chart series (raw points and the interleaved averaged points) and the node styling on the JavaFX thread are not modelled. The method returns the scatter, the branches and the scalars instead.
- IEEE-754 arithmetic is not modelled. Values are exact reals. NaN and infinity appear only in the two 0/0 cases and in the saturated cast. `Math.min` and `Math.max` are modelled on ordered values, without NaN or signed zeros.
- `drawHysteresisLoop` shares `ReconstructLoop`. Its canvas drawing and debug printing are presentation and are not modelled.
- `updateStats` only applies `Statistics.Compute` to both channels and formats labels, so it is not modelled separately. The `Stats` string getters are formatting.
- Getters of both configuration classes are plain field reads in the model.
- Device I/O, the acquisition thread and `Platform.runLater` are not modelled; the captured arrays are parameters. The data holder `HysteresisData`, the device scripts and the generator configuration are outside the model.
- `updatePhysicalParameters` and the spinners' own range limits are not modelled, because they are UI parsing and widget configuration.
