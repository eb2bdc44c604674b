/** Go's int64: two's-complement wrap-around, and division that truncates toward zero. */
module GoInt {
  const MIN: int := -0x8000_0000_0000_0000
  const MAX: int := 0x7fff_ffff_ffff_ffff
  const MODULUS: int := 0x1_0000_0000_0000_0000

  type int64 = x: int | MIN <= x <= MAX

  /** The int64 that differs from x by a multiple of 2^64. */
  function Wrap(x: int): (r: int64)
    ensures MIN <= x <= MAX ==> r == x
  {
    (x - MIN) % MODULUS + MIN
  }

  /** Wrapping twice is wrapping once, so any order of wrapped additions gives the same int64. */
  lemma WrapAdd(a: int, b: int)
    ensures Wrap(Wrap(a) + b) == Wrap(a + b)
  {
    var k := (a - MIN) / MODULUS;
    assert Wrap(a) == a - k * MODULUS;
    WrapPeriodic(a + b, -k);
  }

  lemma WrapSub(b: int, a: int)
    ensures Wrap(b - Wrap(a)) == Wrap(b - a)
  {
    var k := (a - MIN) / MODULUS;
    assert Wrap(a) == a - k * MODULUS;
    WrapPeriodic(b - a, k);
  }

  lemma WrapPeriodic(x: int, k: int)
    ensures Wrap(x + k * MODULUS) == Wrap(x)
  {
    assert (x + k * MODULUS - MIN) % MODULUS == (x - MIN) % MODULUS;
  }

  /** Go's product, as repeated addition: lemmas ask for the multiplication only where it matters. */
  function Mul(x: int64, y: int): int64
    decreases if y < 0 then -y else y, x
  {
    if y == 0 then 0
    else if y > 0 then Wrap(Mul(x, y - 1) + x)
    else Wrap(Mul(x, y + 1) - x)
  }

  lemma {:induction false} MulIsWrappedProduct(x: int64, y: int)
    ensures Mul(x, y) == Wrap(x * y)
    decreases if y < 0 then -y else y
  {
    var n: int := x;
    OneMore(n, y);
    if y > 0 {
      MulIsWrappedProduct(x, y - 1);
      WrapAdd(n * (y - 1), n);
    } else if y < 0 {
      MulIsWrappedProduct(x, y + 1);
      WrapAdd(n * (y + 1), -n);
    }
  }

  lemma OneMore(x: int, y: int)
    ensures x * (y - 1) + x == x * y == x * (y + 1) - x
  {
  }

  lemma MulInRange(x: int64, y: int)
    requires MIN <= x * y <= MAX
    ensures Mul(x, y) == x * y
  {
    MulIsWrappedProduct(x, y);
  }

  /** q is a divided by b, rounded down. */
  ghost predicate IsFloor(q: int, a: int, b: int) {
    q * b <= a < q * b + b
  }

  /** Long division by subtraction. */
  function Quotient(a: int, b: int): (q: int)
    requires a >= 0 && b > 0
    ensures 0 <= q <= a
  {
    if a < b then 0 else 1 + Quotient(a - b, b)
  }

  function TruncDiv(a: int, b: int): (q: int)
    requires b > 0
    ensures a >= 0 ==> 0 <= q <= a
    ensures a < 0 ==> a <= q <= 0
  {
    if a >= 0 then Quotient(a, b) else -Quotient(-a, b)
  }

  lemma {:induction false} QuotientIsFloor(a: nat, b: int)
    requires b > 0
    ensures IsFloor(Quotient(a, b), a, b)
  {
    if a >= b {
      QuotientIsFloor(a - b, b);
      assert (1 + Quotient(a - b, b)) * b == b + Quotient(a - b, b) * b;
    }
  }

  lemma FloorIsUnique(p: int, q: int, a: int, b: int)
    requires b > 0 && IsFloor(p, a, b) && IsFloor(q, a, b)
    ensures p == q
  {
    ProductBounds(p - q, b);
    ProductBounds(q - p, b);
    assert (p - q) * b == p * b - q * b;
    assert (q - p) * b == q * b - p * b;
  }

  lemma ProductBounds(q: int, b: int)
    requires b > 0
    ensures q < 0 ==> q * b <= -b
    ensures q >= 0 ==> q * b >= q
  {
    if q < 0 {
      assert q * b <= -1 * b;
    } else {
      assert q * b >= q * 1;
    }
  }
}
