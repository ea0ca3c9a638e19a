/** Facts of real and integer arithmetic that the solver does not find by
    itself, each with its factors named so that it treats them as atoms. */
module Arith {

  /** Multiplication distributes over a sum given by name. */
  lemma Distribute(x: real, s: real, p: real, q: real, t: real)
    requires s == p + q + t
    ensures s * x == p * x + q * x + t * x
    ensures x * s == x * p + x * q + x * t
  {
  }

  /** A product with a negated left factor. */
  lemma NegLeft(s: real, t: real)
    ensures (-s) * t == -(s * t)
  {
  }

  /** A product with a negated right factor. */
  lemma NegArg(a: real, u: real)
    ensures a * (-u) == -(a * u)
  {
  }

  /** Converting a product of integers to a real. */
  lemma CastMul(a: int, b: int)
    ensures (a * b) as real == a as real * b as real
  {
  }

  lemma MulPos(u: real, k: real)
    requires u > 0.0 && k > 0.0
    ensures u * k > 0.0
  {
  }

  lemma MulNonneg(u: real, k: real)
    requires u >= 0.0 && k > 0.0
    ensures u * k >= 0.0
  {
  }

  /** Multiplying by a positive number keeps a strict order, both ways. */
  lemma MulStrict(p: real, q: real, k: real)
    requires k > 0.0
    ensures p > q <==> p * k > q * k
  {
    if p > q {
      MulPos(p - q, k);
    } else {
      MulNonneg(q - p, k);
    }
  }

  /** A positive integer factor cancels from a strict order. */
  lemma CancelPos(k: int, a: int, b: int)
    requires k > 0 && k * a > k * b
    ensures a > b
  {
  }

  /** If `r` is `x` rounded half up and `x * d == m`, then `2 * m` lies in
      `[d * (2r - 1), d * (2r + 1))`: the rounding, cleared of the division. */
  lemma RoundedQuotient(x: real, r: int, d: int, m: int)
    requires d > 0 && x - 0.5 < r as real <= x + 0.5
    requires x * d as real == m as real
    ensures d * (2 * r - 1) <= 2 * m < d * (2 * r + 1)
  {
    var dr, mr := d as real, m as real;
    var lo, hi := (2 * r - 1) as real, (2 * r + 1) as real;
    var u, v := 2.0 * x - lo, hi - 2.0 * x;
    MulNonneg(u, dr);
    MulPos(v, dr);
    assert 2.0 * mr - dr * lo == u * dr;
    assert dr * hi - 2.0 * mr == v * dr;
    assert dr * lo <= 2.0 * mr < dr * hi;
    CastMul(d, 2 * r - 1);
    CastMul(d, 2 * r + 1);
    assert (2 * m) as real == 2.0 * mr;
    IntOrder(d * (2 * r - 1), 2 * m, d * (2 * r + 1));
  }

  /** The order of integers is the order of their real values. */
  lemma IntOrder(a: int, b: int, c: int)
    requires a as real <= b as real < c as real
    ensures a <= b < c
  {
  }
}
