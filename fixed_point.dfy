/** Values in hundredths of a unit, printed by the resource handlers as the
    two C integers `x / 100` and `x % 100` (`"%d.%02d"`). */
module FixedPoint {
  import opened CInt

  /** The two printed fields. */
  datatype Fields = Fields(whole: int, hundredths: int)

  /** `x / 100` and `x % 100` with C's truncating operators. The fields
      recombine to x, the second is below 100 in magnitude, and both take
      the sign of x. */
  function Hundredths(x: int): (f: Fields)
    ensures 100 * f.whole + f.hundredths == x
    ensures -100 < f.hundredths < 100
    ensures x >= 0 ==> f.whole >= 0 && f.hundredths >= 0
    ensures x < 0 ==> f.whole <= 0 && f.hundredths <= 0
  {
    CDivRem(x, 100);
    Fields(CDiv(x, 100), CRem(x, 100))
  }

  /** The fields are the only pair that recombines to x with a second field
      of x's sign and below 100 in magnitude. */
  lemma HundredthsUnique(x: int, f: Fields)
    requires 100 * f.whole + f.hundredths == x
    requires x >= 0 ==> 0 <= f.hundredths < 100
    requires x < 0 ==> -100 < f.hundredths <= 0
    ensures f == Hundredths(x)
  {
    var g := Hundredths(x);
    assert 100 * (f.whole - g.whole) == g.hundredths - f.hundredths;
  }
}
