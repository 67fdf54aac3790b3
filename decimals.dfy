/** Exact decimal amounts, shaped like java.math.BigDecimal: an unscaled
    integer and a scale, so that the value is unscaled / 10^scale.  The
    salary engine only adds amounts and compares them with zero, and both
    operations are exact here, as they are for BigDecimal. */
module Decimals {

  datatype Decimal = Decimal(unscaled: int, scale: nat)

  /** BigDecimal.ZERO: unscaled 0, scale 0. */
  const Zero: Decimal := Decimal(0, 0)

  function Pow10(n: nat): (r: nat)
    ensures r >= 1
  {
    if n == 0 then 1 else 10 * Pow10(n - 1)
  }

  /** a * 10^k, computed by k multiplications by ten.  Shifting keeps the
      sign of a. */
  function Shift(a: int, k: nat): (r: int)
    ensures a > 0 ==> r > 0
    ensures a == 0 ==> r == 0
    ensures a < 0 ==> r < 0
  {
    if k == 0 then a else Shift(a, k - 1) * 10
  }

  /** Shifting by j and then by k is shifting by j + k. */
  lemma {:induction false} ShiftAdd(a: int, j: nat, k: nat)
    ensures Shift(Shift(a, j), k) == Shift(a, j + k)
  {
    if k > 0 {
      ShiftAdd(a, j, k - 1);
    }
  }

  /** Shifting distributes over addition. */
  lemma {:induction false} ShiftSum(a: int, b: int, k: nat)
    ensures Shift(a + b, k) == Shift(a, k) + Shift(b, k)
  {
    if k > 0 {
      ShiftSum(a, b, k - 1);
    }
  }

  /** Shifting is multiplying by the power of ten. */
  lemma {:induction false} ShiftIsProduct(a: int, k: nat)
    ensures Shift(a, k) == a * Pow10(k)
  {
    if k > 0 {
      ShiftIsProduct(a, k - 1);
      assert a * Pow10(k) == a * Pow10(k - 1) * 10;
    }
  }

  function Max(a: nat, b: nat): nat { if a < b then b else a }

  /** The value of d counted in units of 10^-s. */
  function ValueAt(d: Decimal, s: nat): int
    requires d.scale <= s
  {
    Shift(d.unscaled, s - d.scale)
  }

  /** BigDecimal.add: the result has the larger of the two scales and the
      exact sum as value. */
  function Add(a: Decimal, b: Decimal): (r: Decimal)
    ensures r.scale == Max(a.scale, b.scale)
  {
    var s := Max(a.scale, b.scale);
    Decimal(ValueAt(a, s) + ValueAt(b, s), s)
  }

  /** Rescaling to a finer unit shifts by the difference. */
  lemma ValueAtRescale(d: Decimal, s: nat, t: nat)
    requires d.scale <= s <= t
    ensures ValueAt(d, t) == Shift(ValueAt(d, s), t - s)
  {
    ShiftAdd(d.unscaled, s - d.scale, t - s);
  }

  /** Addition is exact: at every common unit the value of the sum is the sum
      of the values. */
  lemma AddExact(a: Decimal, b: Decimal, t: nat)
    requires a.scale <= t && b.scale <= t
    ensures ValueAt(Add(a, b), t) == ValueAt(a, t) + ValueAt(b, t)
  {
    var s := Max(a.scale, b.scale);
    ValueAtRescale(a, s, t);
    ValueAtRescale(b, s, t);
    ShiftSum(ValueAt(a, s), ValueAt(b, s), t - s);
  }

  lemma AddCommutes(a: Decimal, b: Decimal)
    ensures Add(a, b) == Add(b, a)
  {
  }

  lemma AddZeroRight(a: Decimal)
    ensures Add(a, Zero) == a
  {
  }

  lemma AddZeroLeft(a: Decimal)
    ensures Add(Zero, a) == a
  {
  }

  lemma {:induction false} AddAssociates(a: Decimal, b: Decimal, c: Decimal)
    ensures Add(Add(a, b), c) == Add(a, Add(b, c))
  {
    var t := Max(Max(a.scale, b.scale), c.scale);
    assert Max(a.scale, Max(b.scale, c.scale)) == t;
    AddExact(Add(a, b), c, t);
    AddExact(a, b, t);
    AddExact(a, Add(b, c), t);
    AddExact(b, c, t);
  }

  /** The sign of a BigDecimal, i.e. compareTo(BigDecimal.ZERO). */
  function Signum(d: Decimal): (r: int)
    ensures r == 0 <==> ValueAt(d, d.scale) == 0
    ensures r > 0 <==> ValueAt(d, d.scale) > 0
    ensures r < 0 <==> ValueAt(d, d.scale) < 0
  {
    if d.unscaled > 0 then 1 else if d.unscaled < 0 then -1 else 0
  }

  /** Adding a non-negative amount never makes a non-negative total
      negative nor a positive total zero. */
  lemma {:induction false} AddMonotone(a: Decimal, b: Decimal)
    requires Signum(b) >= 0
    ensures Signum(a) >= 0 ==> Signum(Add(a, b)) >= 0
    ensures Signum(a) > 0 ==> Signum(Add(a, b)) > 0
  {
    var s := Max(a.scale, b.scale);
    assert ValueAt(b, s) >= 0;
  }
}
