/**
 * The spots the spiral detector produces, as values: the spot record, the
 * detector's constants, and the sequence of spots its loop emits, defined
 * recursively on the loop state (`t`, arm index). The lemmas state what the
 * loop produces without running it: how many spots, which `t` and arm each
 * spot comes from, the quality profile, and the exact position of a spot
 * at the centre of the spiral.
 *
 * Doubles are modelled as reals; `Math.cos` and `Math.sin` are arbitrary
 * functions supplied in a `Trig` value, so nothing proved here depends on
 * what they return.
 */
module Spiral {

  /** Pixels per frame. */
  const RADIAL_SPEED: real := 3.0

  /** `Math.PI`, as the decimal Java prints for it (the double itself differs in later digits). */
  const PI: real := 3.141592653589793

  /** Radians per frame. */
  const ANGULAR_SPEED: real := PI / 10.0

  /** Radius of every spot, in image units. */
  const SPOT_RADIUS: real := 1.0

  /** Frames between two successive arms of the spiral (the loop's step). */
  const FRAMES_PER_ARM: int := 10

  /** A detection: position in physical units, radius and quality. */
  datatype Spot = Spot(x: real, y: real, z: real, radius: real, quality: real)

  /** The trigonometric functions the detector calls, left unspecified. */
  datatype Trig = Trig(cos: real -> real, sin: real -> real)

  /**
   * What the loop reads besides its own counters: the pixel centre of the
   * region, the calibration and the trigonometric functions.
   */
  datatype Scene = Scene(x0: int, y0: int, calibration: seq<real>, trig: Trig)

  /** The quality of every spot of arm `arm`. */
  function ArmQuality(arm: nat): (q: real)
    ensures 0.0 < q <= 1.0
    ensures arm == 0 <==> q == 1.0
  {
    1.0 / (arm as real + 1.0)
  }

  /** The spot the loop emits at time `t` on arm `arm`. */
  function SpotAt(sc: Scene, t: int, arm: nat): (s: Spot)
    requires |sc.calibration| >= 2
    ensures s.z == 0.0 && s.radius == SPOT_RADIUS
    ensures s.quality == ArmQuality(arm)
    // at t = 0 the spiral has radius 0: the spot sits on the region centre
    ensures t == 0 ==> s.x == sc.x0 as real * sc.calibration[0]
    ensures t == 0 ==> s.y == sc.y0 as real * sc.calibration[1]
  {
    var r := t as real * RADIAL_SPEED;
    var phi0 := arm as real * PI / 4.0;
    var phi := t as real * ANGULAR_SPEED + phi0;
    var x := sc.x0 as real + r * sc.trig.cos(phi);
    var y := sc.y0 as real + r * sc.trig.sin(phi);
    Spot(x * sc.calibration[0], y * sc.calibration[1], 0.0, SPOT_RADIUS, ArmQuality(arm))
  }

  /**
   * The spots the loop still emits when its counters are `t` and `arm`:
   * none once `t` is negative, else the spot for `t` followed by those of
   * the next arm, ten frames earlier.
   */
  function SpotsFrom(sc: Scene, t: int, arm: nat): (spots: seq<Spot>)
    requires t >= 0 ==> |sc.calibration| >= 2
    decreases t
  {
    if t < 0 then [] else [SpotAt(sc, t, arm)] + SpotsFrom(sc, t - FRAMES_PER_ARM, arm + 1)
  }

  /**
   * One iteration of the loop: when `done` followed by the spots still to
   * come from `(t, arm)` is the whole result, so is `done` with the spot for
   * `t` appended followed by the spots from the next arm.
   */
  lemma SpotsFromStep(sc: Scene, t: int, arm: nat, done: seq<Spot>, all: seq<Spot>)
    requires t >= 0 && |sc.calibration| >= 2
    requires done + SpotsFrom(sc, t, arm) == all
    ensures (done + [SpotAt(sc, t, arm)]) + SpotsFrom(sc, t - FRAMES_PER_ARM, arm + 1) == all
  {
  }

  /** The whole result of one detection in frame `frame`. */
  function Spots(sc: Scene, frame: int): (spots: seq<Spot>)
    requires frame >= 0 ==> |sc.calibration| >= 2
  {
    SpotsFrom(sc, frame, 0)
  }

  /** Number of spots the detector emits in frame `frame`. */
  function SpotCount(frame: int): (n: nat)
  {
    if frame < 0 then 0 else frame / FRAMES_PER_ARM + 1
  }

  lemma {:induction false} SpotsFromLength(sc: Scene, t: int, arm: nat)
    requires t >= 0 ==> |sc.calibration| >= 2
    ensures |SpotsFrom(sc, t, arm)| == SpotCount(t)
    decreases t
  {
    if t >= 0 {
      SpotsFromLength(sc, t - FRAMES_PER_ARM, arm + 1);
    }
  }

  /** Element `i` of the remaining spots comes from time `t - 10 i` on arm `arm + i`. */
  lemma {:induction false} SpotsFromAt(sc: Scene, t: int, arm: nat, i: nat)
    requires t >= 0 ==> |sc.calibration| >= 2
    requires i < |SpotsFrom(sc, t, arm)|
    ensures 0 <= t - FRAMES_PER_ARM * i
    ensures SpotsFrom(sc, t, arm)[i] == SpotAt(sc, t - FRAMES_PER_ARM * i, arm + i)
    decreases t
  {
    if i > 0 {
      SpotsFromAt(sc, t - FRAMES_PER_ARM, arm + 1, i - 1);
    }
  }

  /** A frame yields `frame / 10 + 1` spots, and none for a negative frame. */
  lemma SpotsCount(sc: Scene, frame: int)
    requires frame >= 0 ==> |sc.calibration| >= 2
    ensures frame < 0 ==> Spots(sc, frame) == []
    ensures frame >= 0 ==> |Spots(sc, frame)| == frame / FRAMES_PER_ARM + 1
  {
    SpotsFromLength(sc, frame, 0);
  }

  /**
   * Spot `i` is the one the loop builds in its `i`-th iteration: time
   * `frame - 10 i`, never negative, on arm `i`.
   */
  lemma SpotsAt(sc: Scene, frame: int, i: nat)
    requires frame >= 0 ==> |sc.calibration| >= 2
    requires i < |Spots(sc, frame)|
    ensures 0 <= frame - FRAMES_PER_ARM * i <= frame
    ensures Spots(sc, frame)[i] == SpotAt(sc, frame - FRAMES_PER_ARM * i, i)
  {
    SpotsFromAt(sc, frame, 0, i);
  }

  /**
   * The list runs from the outermost point inward: the spiral radius
   * `t * RADIAL_SPEED` strictly decreases along it.
   */
  lemma SpotsOutermostFirst(sc: Scene, frame: int, i: nat, j: nat)
    requires frame >= 0 ==> |sc.calibration| >= 2
    requires i < j < |Spots(sc, frame)|
    ensures Spots(sc, frame)[i] == SpotAt(sc, frame - FRAMES_PER_ARM * i, i)
    ensures Spots(sc, frame)[j] == SpotAt(sc, frame - FRAMES_PER_ARM * j, j)
    ensures 0.0 <= (frame - FRAMES_PER_ARM * j) as real * RADIAL_SPEED
                 < (frame - FRAMES_PER_ARM * i) as real * RADIAL_SPEED
  {
    SpotsAt(sc, frame, i);
    SpotsAt(sc, frame, j);
  }

  /** Spot `i` has quality `1 / (i + 1)`: the first has quality 1. */
  lemma SpotsQuality(sc: Scene, frame: int, i: nat)
    requires frame >= 0 ==> |sc.calibration| >= 2
    requires i < |Spots(sc, frame)|
    ensures Spots(sc, frame)[i].quality == 1.0 / (i as real + 1.0)
    ensures 0.0 < Spots(sc, frame)[i].quality <= 1.0
    ensures i == 0 ==> Spots(sc, frame)[i].quality == 1.0
  {
    SpotsAt(sc, frame, i);
  }

  /** Quality strictly decreases along the list. */
  lemma SpotsQualityDecreasing(sc: Scene, frame: int, i: nat, j: nat)
    requires frame >= 0 ==> |sc.calibration| >= 2
    requires i < j < |Spots(sc, frame)|
    ensures Spots(sc, frame)[i].quality > Spots(sc, frame)[j].quality
  {
    SpotsQuality(sc, frame, i);
    SpotsQuality(sc, frame, j);
    ReciprocalDecreasing(i as real + 1.0, j as real + 1.0);
  }

  lemma ReciprocalDecreasing(a: real, b: real)
    requires 0.0 < a < b
    ensures 1.0 / a > 1.0 / b
  {
    var p, q := 1.0 / a, 1.0 / b;
    assert p * a == 1.0 && q * b == 1.0;
    assert q > 0.0;
    assert q * a < q * b;
    assert q * a < p * a;
  }

  /** Every spot has the fixed radius and lies in the plane z = 0. */
  lemma SpotsShape(sc: Scene, frame: int)
    requires frame >= 0 ==> |sc.calibration| >= 2
    ensures forall s | s in Spots(sc, frame) :: s.radius == SPOT_RADIUS == 1.0 && s.z == 0.0
  {
    forall s | s in Spots(sc, frame) ensures s.radius == 1.0 && s.z == 0.0 {
      var i :| 0 <= i < |Spots(sc, frame)| && Spots(sc, frame)[i] == s;
      SpotsAt(sc, frame, i);
    }
  }

  /** The last spot is the one for `t = frame % 10`, on arm `frame / 10`. */
  lemma SpotsLast(sc: Scene, frame: int)
    requires frame >= 0 && |sc.calibration| >= 2
    ensures |Spots(sc, frame)| > 0
    ensures Spots(sc, frame)[|Spots(sc, frame)| - 1]
         == SpotAt(sc, frame % FRAMES_PER_ARM, frame / FRAMES_PER_ARM)
  {
    SpotsCount(sc, frame);
    SpotsAt(sc, frame, frame / FRAMES_PER_ARM);
  }

  /**
   * When the frame is a multiple of ten the last spot has `t = 0`: it lies
   * exactly on the calibrated region centre, whatever the trigonometric
   * functions return.
   */
  lemma SpotsEndAtCentre(sc: Scene, frame: int)
    requires frame >= 0 && frame % FRAMES_PER_ARM == 0 && |sc.calibration| >= 2
    ensures |Spots(sc, frame)| > 0
    ensures Spots(sc, frame)[|Spots(sc, frame)| - 1]
         == Spot(sc.x0 as real * sc.calibration[0], sc.y0 as real * sc.calibration[1], 0.0,
                 1.0, 1.0 / ((frame / FRAMES_PER_ARM) as real + 1.0))
  {
    SpotsLast(sc, frame);
  }

  /** Frame 25 yields the spots for t = 25, 15 and 5, of qualities 1, 1/2 and 1/3. */
  lemma SpotsFrame25(sc: Scene)
    requires |sc.calibration| >= 2
    ensures Spots(sc, 25) == [SpotAt(sc, 25, 0), SpotAt(sc, 15, 1), SpotAt(sc, 5, 2)]
    ensures Spots(sc, 25)[2].quality == 1.0 / 3.0
  {
    assert SpotsFrom(sc, -5, 3) == [];
    assert SpotsFrom(sc, 5, 2) == [SpotAt(sc, 5, 2)];
    assert SpotsFrom(sc, 15, 1) == [SpotAt(sc, 15, 1), SpotAt(sc, 5, 2)];
  }
}
