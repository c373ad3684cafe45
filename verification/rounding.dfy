/** The ceiling of a real number, as `math.ceil` computes it on the quotient
    workload / capacity, and the facts about ordered multiplication that the
    sizing proofs use. */
module Rounding {

  /** The least integer not below `x`. */
  function Ceil(x: real): (n: int)
    ensures n as real >= x
    ensures (n - 1) as real < x
  {
    -((-x).Floor)
  }

  /** Ceiling is the least integer not below `x`: every integer at least `x`
      is at least `Ceil(x)`. */
  lemma CeilLeast(x: real, m: int)
    requires m as real >= x
    ensures Ceil(x) <= m
  {
  }

  /** The two bounds of `Ceil` pin the result down: an integer not below `x`
      and less than one above it is the ceiling. */
  lemma CeilUnique(x: real, n: int)
    requires n as real >= x && (n - 1) as real < x
    ensures Ceil(x) == n
  {
    CeilLeast(x, n);
  }

  /** Ceiling never decreases when its argument grows. */
  lemma CeilMonotone(x: real, y: real)
    requires x <= y
    ensures Ceil(x) <= Ceil(y)
  {
    CeilLeast(x, Ceil(y));
  }

  /** The ceiling of a sum lies between the sum of the ceilings less one and
      the sum of the ceilings. */
  lemma CeilOfSum(x: real, y: real)
    ensures Ceil(x) + Ceil(y) - 1 <= Ceil(x + y) <= Ceil(x) + Ceil(y)
  {
    CeilLeast(x + y, Ceil(x) + Ceil(y));
  }

  /** Multiplying by a non-negative factor, on either side, keeps a weak
      order. */
  lemma ScaleLe(k: real, a: real, b: real)
    requires k >= 0.0 && a <= b
    ensures k * a <= k * b && a * k <= b * k
  {
    assert k * b - k * a == k * (b - a);
    assert a * k == k * a && b * k == k * b;
  }

  /** Multiplying by a positive factor, on either side, keeps a strict
      order. */
  lemma ScaleLt(k: real, a: real, b: real)
    requires k > 0.0 && a < b
    ensures k * a < k * b && a * k < b * k
  {
    assert k * b - k * a == k * (b - a);
    assert a * k == k * a && b * k == k * b;
  }

  /** Scaling by a positive `k` keeps a number at or above `q` at or above
      `q * k`. */
  lemma ScaledAbove(a: real, k: real, q: real, x: real)
    ensures k > 0.0 && q * k == a && x >= q ==> x * k >= a
  {
    if k > 0.0 && x >= q {
      ScaleLe(k, q, x);
    }
  }

  /** Scaling by a positive `k` keeps a number below `q` below `q * k`. */
  lemma ScaledBelow(a: real, k: real, q: real, x: real)
    ensures k > 0.0 && q * k == a && x < q ==> x * k < a
  {
    if k > 0.0 && x < q {
      ScaleLt(k, x, q);
    }
  }

  /** The ceiling of a quotient by a positive divisor, scaled back by the
      divisor, reaches the dividend; one less falls short of it. */
  lemma CeilOfQuotient(a: real, k: real)
    requires k > 0.0
    ensures Ceil(a / k) as real * k >= a
    ensures (Ceil(a / k) - 1) as real * k < a
  {
    var n := Ceil(a / k);
    ScaledAbove(a, k, a / k, n as real);
    ScaledBelow(a, k, a / k, (n - 1) as real);
  }

  /** A non-negative amount scaled by a factor between one half and one
      keeps between half of it and all of it. */
  lemma ScaleBetweenHalfAndWhole(p: real, f: real)
    ensures p >= 0.0 && 0.5 <= f <= 1.0 ==> p / 2.0 <= p * f <= p
  {
    if p >= 0.0 && 0.5 <= f <= 1.0 {
      ScaleLe(p, 0.5, f);
      ScaleLe(p, f, 1.0);
    }
  }

  /** Two amounts each reached by their own multiple of `k` are together
      reached by the sum of the multiples. */
  lemma SumScaled(x: real, y: real, k: real, a: real, b: real)
    ensures x * k >= a && y * k >= b ==> (x + y) * k >= a + b
  {
    assert (x + y) * k == x * k + y * k;
  }

  /** A product of non-negative factors grows with each factor. */
  lemma ProductLe(a: real, b: real, c: real, d: real)
    requires 0.0 <= a <= b && 0.0 <= c <= d
    ensures a * c <= b * d
  {
    ScaleLe(c, a, b);
    ScaleLe(b, c, d);
    assert a * c <= b * c <= b * d;
  }

  /** Dividing by a positive factor keeps a weak order. */
  lemma DivLe(a: real, b: real, k: real)
    requires k > 0.0 && a <= b
    ensures a / k <= b / k
  {
    ScaleLe(1.0 / k, a, b);
  }

  /** Dividing by a positive factor keeps a strict order. */
  lemma DivLt(a: real, b: real, k: real)
    requires k > 0.0 && a < b
    ensures a / k < b / k
  {
    ScaleLt(1.0 / k, a, b);
  }
}
