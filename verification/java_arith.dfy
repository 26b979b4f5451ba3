/**
 * The fragment of Java's integer semantics that the detector's centre
 * computation relies on: `long` and `int` ranges, division that truncates
 * toward zero, the wrap-around of `long` addition and the narrowing `(int)`
 * cast. Dafny's own `/` is Euclidean and its integers are unbounded, so
 * each of these is written out.
 */
module JavaArith {

  const INT_MIN: int := -0x8000_0000
  const INT_MAX: int := 0x7fff_ffff
  const LONG_MIN: int := -0x8000_0000_0000_0000
  const LONG_MAX: int := 0x7fff_ffff_ffff_ffff

  predicate InInt(v: int) { INT_MIN <= v <= INT_MAX }

  predicate InLong(v: int) { LONG_MIN <= v <= LONG_MAX }

  /** Java's `a / 2` on integers: the quotient rounded toward zero. */
  function TruncDiv2(a: int): (q: int)
    ensures a >= 0 ==> q == a / 2
    ensures -1 <= a - 2 * q <= 1
    // the remainder, when there is one, has the sign of the dividend
    ensures a - 2 * q != 0 ==> (a - 2 * q < 0 <==> a < 0)
    ensures InLong(a) ==> InLong(q)
  {
    if a >= 0 then a / 2 else -((-a) / 2)
  }

  /** The `long` that two's-complement arithmetic leaves for the exact value `v`. */
  function Int64(v: int): (r: int)
    ensures InLong(r)
    ensures (v - r) % 0x1_0000_0000_0000_0000 == 0
    ensures InLong(v) ==> r == v
  {
    (v - LONG_MIN) % 0x1_0000_0000_0000_0000 + LONG_MIN
  }

  /** Java's narrowing cast `(int) v` of a `long`: keep the low 32 bits, signed. */
  function Int32(v: int): (r: int)
    ensures InInt(r)
    ensures (v - r) % 0x1_0000_0000 == 0
    ensures InInt(v) ==> r == v
  {
    (v - INT_MIN) % 0x1_0000_0000 + INT_MIN
  }

  /**
   * One coordinate of the pixel centre of the region, `(int) (extent / 2 + start)`
   * evaluated on `long` operands.
   */
  function Centre(extent: int, start: int): (c: int)
    requires InLong(extent) && InLong(start)
    ensures InInt(c)
    ensures InInt(TruncDiv2(extent) + start) ==> c == TruncDiv2(extent) + start
  {
    Int32(Int64(TruncDiv2(extent) + start))
  }

  /**
   * For a non-negative extent and a centre that fits in an `int`, the centre
   * is the start plus half the extent rounded down.
   */
  lemma CentreOfRegion(extent: int, start: int)
    requires InLong(extent) && InLong(start) && extent >= 0
    requires InInt(extent / 2 + start)
    ensures Centre(extent, start) == extent / 2 + start
    ensures extent <= 2 * (Centre(extent, start) - start) + 1
    ensures 2 * (Centre(extent, start) - start) <= extent
  {
  }

  /** For a negative extent Java rounds toward zero, not down as Dafny's `/` does. */
  lemma CentreOfNegativeExtent(extent: int, start: int)
    requires InLong(extent) && InLong(start) && extent < 0
    requires InInt(TruncDiv2(extent) + start)
    ensures Centre(extent, start) == -((-extent) / 2) + start
    ensures extent % 2 == 1 ==> Centre(extent, start) == extent / 2 + 1 + start
  {
  }
}
