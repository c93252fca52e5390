/** The two pieces of C# arithmetic the overlay relies on whose meaning differs
    from Dafny's: integer division, which truncates toward zero (Dafny's `/` is
    Euclidean), and the cast from a floating-point value to `int`, which also
    truncates toward zero.  Floating-point values are modelled as exact reals. */
module CSharpNumbers {

  function Abs(a: int): nat {
    if a < 0 then -a else a
  }

  function Max(a: int, b: int): (m: int)
    ensures m >= a && m >= b
    ensures m == a || m == b
  {
    if a >= b then a else b
  }

  /** C#'s `a / b` on `int`: the quotient rounded toward zero.  What that
      means is stated by `QuotRemainder`. */
  function Quot(a: int, b: int): int
    requires b != 0
  {
    if b > 0 then
      if a >= 0 then a / b else -((-a) / b)
    else
      if a >= 0 then -(a / -b) else (-a) / -b
  }

  /** Truncated division characterised by its remainder: the remainder is
      smaller than the divisor in size and never has the opposite sign of
      the dividend. */
  lemma QuotRemainder(a: int, b: int)
    requires b != 0
    ensures a >= 0 ==> 0 <= a - Quot(a, b) * b < Abs(b)
    ensures a < 0 ==> -(Abs(b) as int) < a - Quot(a, b) * b <= 0
  {
    var q := Quot(a, b);
    if b > 0 && a >= 0 {
      EuclidRemainder(a, b);
    } else if b > 0 {
      EuclidRemainder(-a, b);
      assert q * b == -(((-a) / b) * b);
    } else if a >= 0 {
      EuclidRemainder(a, -b);
      assert q * b == (a / -b) * -b;
    } else {
      EuclidRemainder(-a, -b);
      assert q * b == -(((-a) / -b) * -b);
    }
  }

  lemma EuclidRemainder(a: int, b: int)
    requires a >= 0 && b > 0
    ensures 0 <= a - (a / b) * b < b
  {
  }

  /** C#'s cast `(int) x` of a floating-point value, on an exact real: the
      integer part, rounding toward zero. */
  function Trunc(x: real): int {
    if x >= 0.0 then x.Floor else -((-x).Floor)
  }

  /** The cast drops the fractional part: the result is the integer next to
      `x` on the side of zero. */
  lemma TruncBounds(x: real)
    ensures x >= 0.0 ==> Trunc(x) as real <= x < Trunc(x) as real + 1.0
    ensures x < 0.0 ==> Trunc(x) as real - 1.0 < x <= Trunc(x) as real
  {
  }

  /** Casting the exact quotient of two integers to `int` is the same as
      dividing them with C#'s integer division. */
  lemma TruncOfQuotient(a: int, b: int)
    requires b != 0
    ensures Trunc(a as real / b as real) == Quot(a, b)
  {
    if b > 0 {
      TruncOfQuotientPositive(a, b);
    } else {
      assert a as real / b as real == (-a) as real / (-b) as real;
      assert Quot(a, b) == Quot(-a, -b);
      TruncOfQuotientPositive(-a, -b);
    }
  }

  lemma TruncOfQuotientPositive(a: int, b: int)
    requires b > 0
    ensures Trunc(a as real / b as real) == Quot(a, b)
  {
    var x := a as real / b as real;
    var q := Quot(a, b);
    QuotRemainder(a, b);
    if a >= 0 {
      QuotientBounds(a, b, q);
      assert x >= 0.0 by { ProductSign(x, b as real); }
      TruncUnique(x, q);
    } else {
      QuotientBounds(-a, b, -q);
      assert (-a) as real / b as real == -x;
      assert -x > 0.0 by { ProductSignStrict(-x, b as real); }
      TruncUniqueNegative(x, q);
    }
  }

  /** Dividing `q * b <= a < q * b + b` by a positive `b` in the reals. */
  lemma QuotientBounds(a: int, b: int, q: int)
    requires b > 0 && q * b <= a < q * b + b
    ensures q as real <= a as real / b as real < q as real + 1.0
  {
    var x := a as real / b as real;
    var br := b as real;
    assert x * br == a as real;
    assert (q * b) as real == q as real * br;
    var below := x - q as real;
    assert below * br == a as real - q as real * br;
    ProductSign(below, br);
    var above := q as real + 1.0 - x;
    assert above * br == q as real * br + br - a as real;
    ProductSignStrict(above, br);
  }

  lemma ProductSign(d: real, b: real)
    requires b > 0.0 && d * b >= 0.0
    ensures d >= 0.0
  {
  }

  lemma ProductSignStrict(d: real, b: real)
    requires b > 0.0 && d * b > 0.0
    ensures d > 0.0
  {
  }

  lemma TruncUnique(x: real, q: int)
    requires x >= 0.0 && q as real <= x < q as real + 1.0
    ensures Trunc(x) == q
  {
  }

  lemma TruncUniqueNegative(x: real, q: int)
    requires x < 0.0 && q as real - 1.0 < x <= q as real
    ensures Trunc(x) == q
  {
  }

  /** Truncating an integer-valued real gives that integer back. */
  lemma TruncOfInt(n: int)
    ensures Trunc(n as real) == n
  {
  }

  /** Truncation toward zero never reverses the order of two values. */
  lemma TruncMonotone(x: real, y: real)
    requires x <= y
    ensures Trunc(x) <= Trunc(y)
  {
  }

  /** C#'s integer division by a positive divisor is monotone in the dividend,
      on both sides of zero. */
  lemma QuotMonotone(a: int, b: int, m: int)
    requires a <= b && m > 0
    ensures Quot(a, m) <= Quot(b, m)
  {
    var x := a as real / m as real;
    var y := b as real / m as real;
    assert (y - x) * m as real == (b - a) as real;
    ProductSign(y - x, m as real);
    TruncMonotone(x, y);
    TruncOfQuotient(a, m);
    TruncOfQuotient(b, m);
  }

  lemma MulMonotone(a: int, b: int, c: int)
    requires a <= b && c >= 0
    ensures a * c <= b * c
  {
  }

  lemma IntProductSign(d: int, m: int)
    requires m > 0 && d * m <= 0
    ensures d <= 0
  {
  }

  lemma IntProductSignStrict(d: int, m: int)
    requires m > 0 && d * m > 0
    ensures d > 0
  {
  }

  /** Taking a fraction `h / m` in [0, 1] of a non-negative `w` with C#'s
      integer division stays within [0, w], and is 0 when `h` is. */
  lemma QuotOfFraction(w: int, h: int, m: int)
    requires w >= 0 && 0 <= h <= m && m > 0
    ensures 0 <= Quot(w * h, m) <= w
    ensures h == 0 ==> Quot(w * h, m) == 0
  {
    var q := Quot(w * h, m);
    QuotRemainder(w * h, m);
    assert 0 <= w * h <= w * m by {
      MulMonotone(0, h, w);
      MulMonotone(h, m, w);
    }
    assert q * m <= w * h < q * m + m;
    assert q <= w by {
      assert (q - w) * m == q * m - w * m;
      IntProductSign(q - w, m);
    }
    assert q >= 0 by {
      assert (q + 1) * m == q * m + m;
      IntProductSignStrict(q + 1, m);
    }
  }

  /** Scaling an exact quotient of integers is the quotient of the scaled
      dividend. */
  lemma ScaleQuotient(a: int, m: int, c: int)
    requires m != 0
    ensures (a as real / m as real) * c as real == (a * c) as real / m as real
    ensures c as real * (a as real / m as real) == (c * a) as real / m as real
  {
    var x := a as real / m as real;
    assert x * m as real == a as real;
    assert (x * c as real) * m as real == (a * c) as real;
  }
}
