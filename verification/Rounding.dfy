// Floor division: the order-theoretic law and what the program's rounding needs of it.
module Rounding {

  /** Floor division is the upper adjoint of multiplication. */
  lemma LeDiv(q: int, a: int, b: int)
    requires b > 0
    ensures q <= a / b <==> q * b <= a
  {
    assert a == b * (a / b) + a % b;
    if q <= a / b {
      MulMono(q, a / b, b);
    } else {
      MulMono(a / b + 1, q, b);
      assert (a / b + 1) * b == b * (a / b) + b;
    }
  }

  lemma MulMono(a: int, b: int, c: int)
    requires a <= b && 0 <= c
    ensures a * c <= b * c
  {
  }

  lemma MulDistribute(a: int, b: int, c: int)
    ensures (a + b) * c == a * c + b * c
  {
  }

  /** A common positive factor cancels. */
  lemma MulCancel(a: int, b: int, c: int)
    requires 0 < c && a * c <= b * c
    ensures a <= b
  {
    if b < a {
      MulDistribute(b, 1, c);
      MulMono(b + 1, a, c);
    }
  }

  lemma MulCancelStrict(a: int, b: int, c: int)
    requires 0 < c && a * c < b * c
    ensures a < b
  {
    if b <= a { MulMono(b, a, c); }
  }

  lemma DivMono(a: int, b: int, c: int)
    requires a <= b && 0 < c
    ensures a / c <= b / c
  {
    LeDiv(a / c, a, c);
    LeDiv(a / c, b, c);
  }

  lemma DivAntitone(a: int, c: int, d: int)
    requires 0 <= a && 0 < c <= d
    ensures 0 <= a / d <= a / c
  {
    LeDiv(0, a, d);
    LeDiv(a / d, a, d);
    MulMono(c, d, a / d);
    LeDiv(a / d, a, c);
  }

  lemma DivSuperadditive(a: int, b: int, c: int)
    requires 0 < c
    ensures a / c + b / c <= (a + b) / c
  {
    LeDiv(a / c, a, c);
    LeDiv(b / c, b, c);
    assert (a / c + b / c) * c == (a / c) * c + (b / c) * c;
    LeDiv(a / c + b / c, a + b, c);
  }

  lemma DivBounds(a: int, b: int)
    requires b > 0
    ensures (a / b) * b <= a < (a / b) * b + b
  {
    LeDiv(a / b, a, b);
    LeDiv(a / b + 1, a, b);
    assert (a / b + 1) * b == (a / b) * b + b;
  }

  lemma DivUnique(a: int, b: int, q: int)
    requires b > 0 && q * b <= a < q * b + b
    ensures a / b == q
  {
    LeDiv(q, a, b);
    LeDiv(q + 1, a, b);
    assert (q + 1) * b == q * b + b;
  }

  /** Adding whole multiples of the divisor shifts the quotient. */
  lemma DivShift(a: int, b: int, k: int)
    requires b > 0
    ensures (a + k * b) / b == a / b + k
  {
    DivBounds(a, b);
    assert (a / b + k) * b == (a / b) * b + k * b;
    DivUnique(a + k * b, b, a / b + k);
  }
}
