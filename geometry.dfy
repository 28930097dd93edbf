/** Rectangles and the integer arithmetic of the Go sources.

    Go's `/` and `%` on integers truncate toward zero, while Dafny's are
    Euclidean; every division in the model goes through Quo and Rem below so
    that negative operands behave as they do in the game. */
module Geometry {

  /** The renderer's rectangle: origin and size. */
  datatype Rect = Rect(X: int, Y: int, W: int, H: int)

  const ZeroRect := Rect(0, 0, 0, 0)

  function Abs(a: int): (r: nat)
    ensures r == a || r == -a
  {
    if a < 0 then -a else a
  }

  /** Go's integer quotient `a / b` (truncated toward zero); Go panics on a
      zero divisor. */
  function Quo(a: int, b: int): (q: int)
    requires b != 0
    ensures a >= 0 && b > 0 ==> q == a / b
    ensures b > 0 ==> (a >= 0 ==> q >= 0) && (a <= 0 ==> q <= 0)
  {
    if b > 0 then (if a >= 0 then a / b else -((-a) / b))
    else (if a >= 0 then -(a / -b) else (-a) / -b)
  }

  /** Go's integer remainder `a % b`: it takes the sign of `a`, and its
      magnitude is below that of `b`. */
  function Rem(a: int, b: int): (r: int)
    requires b != 0
    ensures a == Quo(a, b) * b + r
    ensures a >= 0 ==> 0 <= r < Abs(b)
    ensures a >= 0 && b > 0 ==> r == a % b
    ensures a < 0 ==> 0 < r + Abs(b) && r <= 0
  {
    var n := Abs(b);
    var m := if a >= 0 then a % n else (-a) % n;
    QuoRemIdentity(a, b, n, m);
    if a >= 0 then m else -m
  }

  /** The magnitudes: |a| = |Quo(a, b)| * |b| + |Rem(a, b)|, with the signs
      put back. */
  lemma QuoRemIdentity(a: int, b: int, n: int, m: int)
    requires b != 0 && n == Abs(b) && m == (if a >= 0 then a % n else (-a) % n)
    ensures a == Quo(a, b) * b + (if a >= 0 then m else -m)
  {
    var q := if a >= 0 then a / n else (-a) / n;
    assert (if a >= 0 then a else -a) == q * n + m;
    var k := Quo(a, b);
    if b > 0 {
      if a >= 0 {
        assert k == q && k * b == q * n;
      } else {
        assert k == -q;
        NegateDivisor(q, n);
        assert k * b == -(q * n);
      }
    } else {
      NegateDivisor(q, n);
      if a >= 0 {
        assert k == -q && b == -n;
        assert k * b == q * n;
      } else {
        assert k == q && b == -n;
        assert k * b == -(q * n);
      }
    }
  }

  lemma NegateDivisor(q: int, b: int)
    ensures (-q) * b == -(q * b) && q * (-b) == -(q * b) && (-q) * (-b) == q * b
  {
  }

  /** Adding whole multiples of `b` to a non-negative dividend shifts the
      quotient by the multiple and leaves the remainder alone. */
  lemma {:induction false} QuoRemShift(a: int, b: int, k: nat)
    requires a >= 0 && b > 0
    ensures Quo(a + k * b, b) == Quo(a, b) + k
    ensures Rem(a + k * b, b) == Rem(a, b)
  {
    if k > 0 {
      QuoRemShift(a, b, k - 1);
      assert a + k * b == (a + (k - 1) * b) + b;
      UniqueQuotient(a + k * b, b, Quo(a, b) + k, Rem(a, b));
    }
  }

  /** Euclidean division has exactly one quotient and remainder. */
  lemma UniqueQuotient(a: int, b: int, q: int, r: int)
    requires a >= 0 && b > 0 && 0 <= r < b && a == q * b + r
    ensures a / b == q && a % b == r
  {
    var q0, r0 := a / b, a % b;
    assert a == q0 * b + r0;
    if q0 < q {
      MulStep(q0, q, b);
    } else if q < q0 {
      MulStep(q, q0, b);
    }
  }

  lemma MulStep(x: int, y: int, b: int)
    requires x < y && b > 0
    ensures x * b + b <= y * b
  {
    var d := y - x;
    Distribute(x, d, b);
    MulAtLeast(d, b);
  }

  lemma Distribute(x: int, d: int, b: int)
    ensures (x + d) * b == x * b + d * b
  {
  }

  lemma {:induction false} MulAtLeast(d: nat, b: int)
    requires d >= 1 && b > 0
    ensures d * b >= b
  {
    if d > 1 {
      MulAtLeast(d - 1, b);
      Distribute(d - 1, 1, b);
    }
  }
}
