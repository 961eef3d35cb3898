/** Go's integer arithmetic where it differs from Dafny's.

    Dafny's `/` on `int` is Euclidean (the remainder is never negative); Go's
    `/` truncates the quotient toward zero, so the remainder takes the sign of
    the dividend. The Go Programming Language Specification ("Arithmetic
    operators") states that q = x / y and r = x % y satisfy x == q * y + r and
    |r| < |y|, with q truncated toward zero. This module rephrases the
    truncation as a condition on r: r is zero or has the sign of x.
 */
module GoInt {

  function Abs(x: int): (r: nat)
    ensures r == x || r == -x
  {
    if x < 0 then -x else x
  }

  /** The Go specification's law for the quotient `q` of `x / y`. */
  predicate IsTruncQuotient(x: int, y: int, q: int)
    requires y != 0
  {
    var r := x - q * y;
    Abs(r) < Abs(y) && (r == 0 || (r < 0) == (x < 0))
  }

  /** Go's `x / y` on integers: the quotient truncated toward zero. */
  function TruncDiv(x: int, y: int): (q: int)
    requires y != 0
    ensures IsTruncQuotient(x, y, q)
  {
    var m := Abs(x) / Abs(y);
    QuotientOfAbs(x, y);
    if (x < 0) == (y < 0) then m else -m
  }

  /** Helper for TruncDiv: the Euclidean quotient of the magnitudes,
      signed, meets the Go law. */
  lemma QuotientOfAbs(x: int, y: int)
    requires y != 0
    ensures var m := Abs(x) / Abs(y);
            IsTruncQuotient(x, y, if (x < 0) == (y < 0) then m else -m)
  {
    var m := Abs(x) / Abs(y);
    EuclideanRemainder(Abs(x), Abs(y));
    SignedQuotient(x, y, m);
  }

  lemma EuclideanRemainder(a: nat, b: nat)
    requires b > 0
    ensures 0 <= a - (a / b) * b < b
  {
  }

  /** A quotient of the magnitudes, signed, whose remainder is in range,
      meets the Go law. */
  lemma SignedQuotient(x: int, y: int, m: int)
    requires y != 0 && 0 <= Abs(x) - m * Abs(y) < Abs(y)
    ensures IsTruncQuotient(x, y, if (x < 0) == (y < 0) then m else -m)
  {
    var rm := Abs(x) - m * Abs(y);
    var q := if (x < 0) == (y < 0) then m else -m;
    if x < 0 && y < 0 {
      assert x - q * y == -rm;
    } else if x < 0 {
      assert x - q * y == -rm;
    } else if y < 0 {
      assert x - q * y == rm;
    } else {
      assert x - q * y == rm;
    }
  }

  /** The law determines the quotient: whatever satisfies it is TruncDiv. */
  lemma TruncQuotientUnique(x: int, y: int, q1: int, q2: int)
    requires y != 0
    requires IsTruncQuotient(x, y, q1) && IsTruncQuotient(x, y, q2)
    ensures q1 == q2
  {
    var r1, r2 := x - q1 * y, x - q2 * y;
    // both remainders lie on the same side of zero, inside (-|y|, |y|)
    assert Abs(r1 - r2) < Abs(y);
    assert r1 - r2 == (q2 - q1) * y;
    if q1 != q2 {
      MagnitudeOfMultiple(q2 - q1, y);
    }
  }

  lemma MagnitudeOfMultiple(k: int, y: int)
    requires k != 0 && y != 0
    ensures Abs(k * y) >= Abs(y)
  {
    var ak: int, ay: int := Abs(k), Abs(y);
    assert ak >= 1;
    assert Abs(k * y) == ak * ay by {
      if k < 0 && y < 0 { assert k * y == (-k) * (-y); }
      else if k < 0 { assert k * y == -((-k) * y); }
      else if y < 0 { assert k * y == -(k * (-y)); }
    }
    assert ak * ay == ay + (ak - 1) * ay;
    assert (ak - 1) * ay >= 0;
  }

  /** A reference reading of truncation for a positive divisor: the number of
      whole divisors that fit in the magnitude of the dividend, counted by
      repeated subtraction. */
  function WholeUnits(a: nat, y: int): nat
    requires y > 0
    decreases a
  {
    if a < y then 0 else 1 + WholeUnits(a - y, y)
  }

  /** What is left after taking the whole units out is less than one unit. */
  lemma {:induction false} WholeUnitsRemainder(a: nat, y: int)
    requires y > 0
    ensures 0 <= a - WholeUnits(a, y) * y < y
  {
    if a >= y {
      WholeUnitsRemainder(a - y, y);
      assert WholeUnits(a, y) * y == WholeUnits(a - y, y) * y + y;
    }
  }

  /** Go's quotient by a positive divisor is the count of whole units in the
      dividend's magnitude, with the dividend's sign: it rounds toward zero. */
  lemma TruncDivCountsWholeUnits(x: int, y: int)
    requires y > 0
    ensures TruncDiv(x, y) == if x >= 0 then WholeUnits(x, y) else -(WholeUnits(-x, y) as int)
  {
    var q := if x >= 0 then WholeUnits(x, y) else -(WholeUnits(-x, y) as int);
    WholeUnitsRemainder(Abs(x), y);
    if x < 0 {
      assert x - q * y == -(Abs(x) - WholeUnits(Abs(x), y) * y);
    }
    assert IsTruncQuotient(x, y, q);
    TruncQuotientUnique(x, y, TruncDiv(x, y), q);
  }

  /** On a non-negative dividend and positive divisor Go and Dafny agree. */
  lemma TruncDivOfNatural(x: int, y: int)
    requires x >= 0 && y > 0
    ensures TruncDiv(x, y) == x / y
  {
    assert IsTruncQuotient(x, y, x / y);
    TruncQuotientUnique(x, y, TruncDiv(x, y), x / y);
  }

  /** On a negative dividend that the divisor does not divide, Go's quotient is
      one more than Dafny's. */
  lemma TruncDivOfNegative(x: int, y: int)
    requires x < 0 && y > 0 && x % y != 0
    ensures TruncDiv(x, y) == x / y + 1
  {
    var q := x / y + 1;
    assert x - q * y == x % y - y;
    assert IsTruncQuotient(x, y, q);
    TruncQuotientUnique(x, y, TruncDiv(x, y), q);
  }

  /** The case that matters for the duration sentinel: Go gives 0 where
      Dafny's own operator gives -1. */
  lemma MinusOneOverMillion()
    ensures TruncDiv(-1, 1000000) == 0
    ensures -1 / 1000000 == -1
  {
    TruncDivOfNegative(-1, 1000000);
  }
}
