# SpiralDummyDetector, modelled in Dafny

`SpiralDummyDetector` is a TrackMate example detector that analyses no image.
It is built from a region of interest (ROI), a calibration and a frame number.
Its `process()` then emits synthetic spots along a spiral that starts at the
ROI centre, and a new arm starts every ten frames. The loop runs `t = frame,
frame - 10, ...` while `t >= 0`. It counts arms in `nspiral`, and at each step
it appends one spot to the result list:

- the spiral radius is `r = 3 t` pixels (`RADIAL_SPEED`);
- the angle is `phi = t pi/10 + nspiral pi/4` (`ANGULAR_SPEED` plus the arm's phase);
- the position is `((x0 + r cos phi) cal[0], (y0 + r sin phi) cal[1], 0)`;
- the radius is `SPOT_RADIUS = 1`;
- the quality is `1 / (nspiral + 1)`.

The model has three modules:

- `JavaArith` covers the Java integer semantics of the centre
  `(int) (width / 2 + xstart)`. Division truncates toward zero, `long`
  addition wraps around, and the `(int)` cast keeps the low 32 bits.
- `Spiral` holds the `Spot` record and the constants. It also defines the spots
  the loop emits, as a function `SpotsFrom(sc, t, arm)` of the loop state: none
  when `t < 0`, otherwise the spot for `t` followed by `SpotsFrom(sc, t - 10, arm + 1)`.
  `Spots(sc, frame) = SpotsFrom(sc, frame, 0)` is a whole detection. The lemmas
  give its length, each element, the quality profile, the spot shape and the
  centre spot. `Math.cos` and `Math.sin` are arbitrary functions held in a
  `Trig` value, so no lemma depends on what they return.
- `Detector` holds the class `SpiralDummyDetector`:
  - the ROI, calibration, frame and trigonometric functions are `const` fields;
  - `spots`, `errorMessage` and `processingTime` are mutable fields;
  - a Java `null` is `None`;
  - `Process` runs the source's `while` loop and appends to the `spots` field
    at each step. It is proved against `Spots`.
  - `Valid()` is the object invariant. The ROI, frame and processing time have their Java widths, no
    error message is ever set, and a stored result is the one `Process` computes.

The constants (`RADIAL_SPEED = 3`, `ANGULAR_SPEED = PI / 10`, `SPOT_RADIUS = 1`)
come from src/main/java/plugin/trackmate/examples/detector/SpiralDummyDetector.java
lines 13-19. `PI` is 3.141592653589793, the decimal Java prints for `Math.PI`; the double itself differs in later digits.

One point where a plain description and the code differ: the centre is
sometimes described as `floor(width / 2) + xstart`. The code divides a `long`
by 2, which truncates toward zero. The model follows the code, and
`JavaArith.CentreOfNegativeExtent` shows the two disagree for a negative odd
width. Constructing the ROI through imglib2 normally gives a width of zero or more.

## Model

| member | source | states |
|---|---|---|
| `JavaArith.TruncDiv2` | src/main/java/plugin/trackmate/examples/detector/SpiralDummyDetector.java:93-94 | Java's `/ 2` on a `long`: the remainder is -1, 0 or 1 and has the dividend's sign (rounding toward zero). It agrees with floor division for non-negative values and stays in `long` range. |
| `JavaArith.Int64` | src/main/java/plugin/trackmate/examples/detector/SpiralDummyDetector.java:93-94 | `long` addition wraps: the result is in `long` range, congruent to the exact sum modulo 2^64, and equal to it when no overflow occurs |
| `JavaArith.Int32` | src/main/java/plugin/trackmate/examples/detector/SpiralDummyDetector.java:93-94 | the `(int)` narrowing cast: the result is in `int` range, congruent modulo 2^32, and the identity on values that already fit |
| `JavaArith.Centre` | src/main/java/plugin/trackmate/examples/detector/SpiralDummyDetector.java:93-94 | the pixel centre `(int) (extent / 2 + start)` is an `int`, and it equals the truncated half-extent plus start whenever that fits |
| `JavaArith.CentreOfRegion` | src/main/java/plugin/trackmate/examples/detector/SpiralDummyDetector.java:93-94 | for a non-negative extent the centre is `start + extent / 2` rounded down, so `2 (c - start)` is the extent or one less |
| `JavaArith.CentreOfNegativeExtent` | src/main/java/plugin/trackmate/examples/detector/SpiralDummyDetector.java:93-94 | for a negative extent the centre rounds toward zero, one above floor division when the extent is odd |
| `Spiral.ArmQuality` | src/main/java/plugin/trackmate/examples/detector/SpiralDummyDetector.java:114 | the quality `1 / (nspiral + 1)` lies in (0, 1] and is 1 exactly on arm 0 |
| `Spiral.SpotAt` | src/main/java/plugin/trackmate/examples/detector/SpiralDummyDetector.java:100-114 | the spot built in one iteration has z = 0, radius `SPOT_RADIUS` and its arm's quality. At `t = 0` its position is the calibrated centre `(x0 cal[0], y0 cal[1])` whatever cos and sin return. |
| `Spiral.SpotsFromStep` | src/main/java/plugin/trackmate/examples/detector/SpiralDummyDetector.java:113-119 | one loop iteration keeps "list so far + spots still to come = whole result": it appends the spot for `t` and moves to `t - 10` on the next arm |
| `Spiral.SpotsFromLength` | src/main/java/plugin/trackmate/examples/detector/SpiralDummyDetector.java:96-120 | from loop state `t` the loop emits `t / 10 + 1` spots when `t >= 0` and none otherwise (by induction on `t`) |
| `Spiral.SpotsFromAt` | src/main/java/plugin/trackmate/examples/detector/SpiralDummyDetector.java:96-119 | element `i` of what the loop emits from `(t, arm)` is the spot for time `t - 10 i >= 0` on arm `arm + i` (by induction) |
| `Spiral.SpotsCount` | src/main/java/plugin/trackmate/examples/detector/SpiralDummyDetector.java:96-120 | a detection gives `frame / 10 + 1` spots for `frame >= 0` and an empty list for a negative frame |
| `Spiral.SpotsAt` | src/main/java/plugin/trackmate/examples/detector/SpiralDummyDetector.java:96-119 | spot `i` is produced with `t = frame - 10 i`, which lies in `[0, frame]`, and with arm index `nspiral = i` |
| `Spiral.SpotsOutermostFirst` | src/main/java/plugin/trackmate/examples/detector/SpiralDummyDetector.java:96-102 | the list runs from the outermost point inward: for list positions `i < j`, spots `i` and `j` are the spots for `t = frame - 10 i` and `t = frame - 10 j`, and the spiral radius `3 t` of spot `j` is non-negative and strictly smaller than that of spot `i` |
| `Spiral.SpotsQuality` | src/main/java/plugin/trackmate/examples/detector/SpiralDummyDetector.java:114 | spot `i` has quality `1 / (i + 1)`, which lies in (0, 1], and the first spot has quality 1 |
| `Spiral.SpotsQualityDecreasing` | src/main/java/plugin/trackmate/examples/detector/SpiralDummyDetector.java:114-119 | quality strictly decreases along the list |
| `Spiral.SpotsShape` | src/main/java/plugin/trackmate/examples/detector/SpiralDummyDetector.java:111-114 | every spot has radius `SPOT_RADIUS = 1` and z = 0 |
| `Spiral.SpotsLast` | src/main/java/plugin/trackmate/examples/detector/SpiralDummyDetector.java:96-120 | for `frame >= 0` the list is non-empty, and its last spot has `t = frame % 10` and lies on arm `frame / 10` |
| `Spiral.SpotsEndAtCentre` | src/main/java/plugin/trackmate/examples/detector/SpiralDummyDetector.java:100-111 | when `frame` is a non-negative multiple of 10, the last spot is exactly `(x0 cal[0], y0 cal[1], 0)` with radius 1 and quality `1 / (frame/10 + 1)`, for any cos and sin |
| `Spiral.SpotsFrame25` | src/main/java/plugin/trackmate/examples/detector/SpiralDummyDetector.java:96-120 | frame 25 gives exactly the spots for t = 25, 15 and 5, on arms 0, 1 and 2; the last has quality 1/3 |
| `Detector.SpiralDummyDetector.Scene` | src/main/java/plugin/trackmate/examples/detector/SpiralDummyDetector.java:93-94 | the loop's inputs: the region centre, which fits in an `int`, together with the stored calibration and trigonometry |
| `Detector.SpiralDummyDetector.constructor` | src/main/java/plugin/trackmate/examples/detector/SpiralDummyDetector.java:52-63 | stores ROI, calibration and frame unchanged. Starts with no result, no error message and processing time 0, and establishes the invariant. |
| `Detector.SpiralDummyDetector.GetResult` | src/main/java/plugin/trackmate/examples/detector/SpiralDummyDetector.java:70-73 | returns the `spots` field: `None` before `Process`, afterwards the list `Process` computes |
| `Detector.SpiralDummyDetector.CheckInput` | src/main/java/plugin/trackmate/examples/detector/SpiralDummyDetector.java:76-80 | always succeeds |
| `Detector.SpiralDummyDetector.Process` | src/main/java/plugin/trackmate/examples/detector/SpiralDummyDetector.java:83-125 | always returns true. Replaces `spots` with exactly `Spots(Scene(), frame)`, which has `SpotCount(frame)` elements and does not depend on any earlier result. Sets the processing time, leaves the error message alone and keeps the invariant. |
| `Detector.SpiralDummyDetector.GetErrorMessage` | src/main/java/plugin/trackmate/examples/detector/SpiralDummyDetector.java:128-135 | always `None`, because nothing assigns the error message |
| `Detector.SpiralDummyDetector.GetProcessingTime` | src/main/java/plugin/trackmate/examples/detector/SpiralDummyDetector.java:138-141 | returns the recorded processing time, a `long` |
| `Detector.ProcessTwice` | src/main/java/plugin/trackmate/examples/detector/SpiralDummyDetector.java:83-125 | two calls of `Process` on the same detector produce the same spot list |

## Left out

- Floating point: doubles are modelled as reals. Rounding in `t * RADIAL_SPEED`, in the angle, in the products and in `1d / (nspiral + 1d)` is not modelled.
- `Math.cos` and `Math.sin` are not modelled. They are arbitrary functions supplied to the constructor, and every property holds for any choice of them.
- `Math.PI` is the decimal 3.141592653589793, not the exact double. Nothing proved depends on its value.
- `System.currentTimeMillis()` is not modelled. `Process` receives the elapsed time as a parameter and stores it in `processingTime`.
- Detector.SpiralDummyDetector.Process: requires at least two calibration values when `frame >= 0`. The `ArrayIndexOutOfBoundsException` that the source would throw on a shorter array is not modelled.
- The calibration is a value captured at construction. The source keeps a reference to the caller's `double[]`, so later changes by the caller would be visible to the source; this aliasing is not modelled.
- The result list is a value. The `ArrayList` object's identity is not modelled, so a caller that mutates the list returned by `getResult()` is not captured.
- The imglib2 `Interval` is not modelled: it becomes the four `long`s width, height, xstart and ystart. The `RealType`/`NativeType` type parameters and the `SpotDetector` interface are not part of this model.
- `Spot` is TrackMate's class; it is not part of this model and is represented by a record of x, y, z, radius and quality.
