/**
 * The detector object: the region, calibration and frame captured at
 * construction, the result list that `Process` replaces, the error message
 * nothing ever sets, and the processing time. A Java `null` is `None`.
 */
module Detector {

  import opened JavaArith
  import opened Spiral

  datatype Option<T> = None | Some(value: T)

  class SpiralDummyDetector {
    /** The region of interest, as `long`s: its size and its lower corner. */
    const width: int
    const height: int
    const xstart: int
    const ystart: int
    /** Pixel size along each axis; only the first two are read. */
    const calibration: seq<real>
    /** The frame detection runs in, an `int`. */
    const frame: int
    /** `Math.cos` and `Math.sin`. */
    const trig: Trig

    /** The result of the last `Process`, `None` before the first. */
    var spots: Option<seq<Spot>>
    var errorMessage: Option<string>
    var processingTime: int

    /** What the loop reads: the region centre in pixels, calibration and trigonometry. */
    function Scene(): (sc: Spiral.Scene)
      requires InLong(width) && InLong(height) && InLong(xstart) && InLong(ystart)
      ensures InInt(sc.x0) && InInt(sc.y0)
      ensures sc.calibration == calibration && sc.trig == trig
    {
      Spiral.Scene(Centre(width, xstart), Centre(height, ystart), calibration, trig)
    }

    /** The result every call of `Process` produces. */
    function Expected(): (spots: seq<Spot>)
      requires InLong(width) && InLong(height) && InLong(xstart) && InLong(ystart)
      requires frame >= 0 ==> |calibration| >= 2
    {
      Spots(Scene(), frame)
    }

    /**
     * The object invariant: the fields have their Java widths, nobody has set
     * an error message, and a result, once there, is the one `Process` computes.
     */
    ghost predicate Valid()
      reads this
    {
      && InLong(width) && InLong(height) && InLong(xstart) && InLong(ystart)
      && InInt(frame) && InLong(processingTime)
      && errorMessage == None
      && (spots.Some? ==> (frame >= 0 ==> |calibration| >= 2) && spots.value == Expected())
    }

    constructor (width: int, height: int, xstart: int, ystart: int,
                 calibration: seq<real>, frame: int, trig: Trig)
      requires InLong(width) && InLong(height) && InLong(xstart) && InLong(ystart)
      requires InInt(frame)
      ensures Valid()
      ensures this.width == width && this.height == height
      ensures this.xstart == xstart && this.ystart == ystart
      ensures this.calibration == calibration && this.frame == frame && this.trig == trig
      ensures spots == None && errorMessage == None && processingTime == 0
    {
      this.width := width;
      this.height := height;
      this.xstart := xstart;
      this.ystart := ystart;
      this.calibration := calibration;
      this.frame := frame;
      this.trig := trig;
      spots := None;
      errorMessage := None;
      processingTime := 0;
    }

    method GetResult() returns (r: Option<seq<Spot>>)
      requires Valid()
      ensures r == spots
      ensures r.Some? ==> r.value == Expected()
    {
      r := spots;
    }

    /** There is nothing to check: any region, calibration and frame is accepted. */
    method CheckInput() returns (ok: bool)
      ensures ok
    {
      ok := true;
    }

    /**
     * Runs the detection: replaces the result with a fresh list, appends one
     * spot per value of `t = frame, frame - 10, ...` that is not negative,
     * and records `elapsed` (the wall-clock difference the source measures)
     * as the processing time. It always succeeds.
     */
    method Process(elapsed: int) returns (ok: bool)
      requires Valid()
      requires frame >= 0 ==> |calibration| >= 2
      requires InLong(elapsed)
      modifies this
      ensures Valid() && ok
      ensures spots == Some(Expected())
      ensures |spots.value| == SpotCount(frame)
      ensures processingTime == elapsed && errorMessage == old(errorMessage)
    {
      spots := Some([]);

      // the pixel centre of the region, (int) (width / 2 + xstart) and likewise for y
      var x0 := Centre(width, xstart);
      var y0 := Centre(height, ystart);
      var sc := Spiral.Scene(x0, y0, calibration, trig);
      assert sc == Scene();

      var t := frame;
      var nspiral: nat := 0;
      while t >= 0
        invariant t == frame - FRAMES_PER_ARM * nspiral
        invariant spots.Some?
        invariant errorMessage == old(errorMessage)
        invariant spots.value + SpotsFrom(sc, t, nspiral) == SpotsFrom(sc, frame, 0)
        decreases t
      {
        // the spot of time t on arm nspiral: radius, angle, pixel then calibrated position
        var spot := SpotAt(sc, t, nspiral);
        SpotsFromStep(sc, t, nspiral, spots.value, SpotsFrom(sc, frame, 0));
        spots := Some(spots.value + [spot]);

        t := t - FRAMES_PER_ARM;
        nspiral := nspiral + 1;
      }
      SpotsFromLength(sc, frame, 0);

      processingTime := elapsed;
      ok := true;
    }

    /** No code path sets an error message, so there never is one. */
    method GetErrorMessage() returns (m: Option<string>)
      requires Valid()
      ensures m == None
    {
      m := errorMessage;
    }

    method GetProcessingTime() returns (ms: int)
      requires Valid()
      ensures ms == processingTime && InLong(ms)
    {
      ms := processingTime;
    }
  }

  /**
   * Processing twice with the same fields gives the same spots: each call
   * replaces the result wholesale and depends on nothing the previous call left.
   */
  method ProcessTwice(d: SpiralDummyDetector, e1: int, e2: int)
    returns (first: seq<Spot>, second: seq<Spot>)
    requires d.Valid()
    requires d.frame >= 0 ==> |d.calibration| >= 2
    requires InLong(e1) && InLong(e2)
    modifies d
    ensures first == second
  {
    var ok1 := d.Process(e1);
    var r1 := d.GetResult();
    first := r1.value;
    var ok2 := d.Process(e2);
    var r2 := d.GetResult();
    second := r2.value;
  }
}
