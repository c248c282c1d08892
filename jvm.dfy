/**
 * JVM integer and floating-point conversions the Kotlin sources rely on, written out over
 * unbounded integers and reals.
 */
module Jvm {

  /** Int / Long division on the JVM: the quotient is truncated toward zero. */
  function Div(a: int, b: int): (q: int)
    requires b != 0
    ensures a >= 0 && b > 0 ==> q == a / b
    ensures (a >= 0) == (b > 0) || a == 0 ==> q >= 0
    ensures (a >= 0) != (b > 0) && a != 0 ==> q <= 0
  {
    if a >= 0 && b > 0 then a / b
    else if a < 0 && b > 0 then -((-a) / b)
    else if a >= 0 then -(a / (-b))
    else (-a) / (-b)
  }

  /** `Div` is the truncated quotient: `|b * q| <= |a| < |b * (q + sign)|`, the remainder having the sign of `a`. */
  lemma DivTruncates(a: int, b: int)
    requires b != 0
    ensures var r := a - b * Div(a, b); (a >= 0 ==> 0 <= r < Abs(b)) && (a < 0 ==> -Abs(b) < r <= 0)
  {
    var q := Div(a, b);
    if a >= 0 && b > 0 {
    } else if a < 0 && b > 0 {
      assert (-a) - b * ((-a) / b) < b;
    } else if a >= 0 {
      assert a - (-b) * (a / (-b)) < -b;
    } else {
      assert (-a) - (-b) * ((-a) / (-b)) >= 0;
    }
  }

  function Abs(x: int): (r: int)
    ensures r >= 0 && (r == x || r == -x)
  {
    if x < 0 then -x else x
  }

  /** Kotlin `roundToInt` on a finite Double: ties are rounded toward positive infinity. */
  function RoundToInt(x: real): (r: int)
    ensures r as real - 0.5 <= x < r as real + 0.5
  {
    (x + 0.5).Floor
  }

  /** Rounding an integer-valued real gives the integer, and rounding is monotone. */
  lemma RoundToIntProperties(n: int, x: real, y: real)
    ensures RoundToInt(n as real) == n
    ensures x <= y ==> RoundToInt(x) <= RoundToInt(y)
  {
  }

  /** Scaling a non-negative integer by a factor in [0, 1] and rounding stays within [0, n]. */
  lemma RoundScaledWithin(n: int, g: real)
    requires 0 <= n && 0.0 <= g <= 1.0
    ensures 0 <= RoundToInt(n as real * g) <= n
  {
    var x := n as real * g;
    MulNonNegative(n as real, g);
    MulNonNegative(n as real, 1.0 - g);
    assert n as real - x == n as real * (1.0 - g);
    RoundToIntProperties(0, 0.0, x);
    RoundToIntProperties(n, x, n as real);
  }

  lemma MulNonNegative(a: real, b: real)
    requires 0.0 <= a && 0.0 <= b
    ensures 0.0 <= a * b
  {
  }

  /** Euclidean division is unique: a quotient and remainder in range are `a / d` and `a % d`. */
  lemma DivUnique(a: int, d: int, q: int, r: int)
    requires d > 0 && 0 <= r < d && a == q * d + r
    ensures a / d == q && a % d == r
  {
    var q', r' := a / d, a % d;
    assert a == q' * d + r';
    assert (q - q') * d == r' - r by {
      assert q * d - q' * d == r' - r;
    }
    if q' < q {
      MulAtLeast(q - q', d);
    } else if q' > q {
      MulAtLeast(q' - q, d);
    }
  }

  lemma MulAtLeast(k: int, d: int)
    requires k >= 1 && d > 0
    ensures k * d >= d
  {
    assert k * d == (k - 1) * d + d;
  }

  /** Scaling numerator and divisor by the same positive factor keeps the quotient. */
  lemma DivScale(x: int, u: int, c: int)
    requires x >= 0 && u > 0 && c > 0
    ensures (c * x) / (c * u) == x / u
  {
    var q, r := x / u, x % u;
    assert c * x == q * (c * u) + c * r;
    assert c * r < c * u;
    DivUnique(c * x, c * u, q, c * r);
  }
}
