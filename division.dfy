/**
 * Facts about real division by a positive number that the kernels' bounds
 * rest on.
 */
module Division {

  /** Dividing by a positive number keeps the order, strict or not. */
  lemma DivideMonotone(a: real, b: real, s: real)
    requires s > 0.0 && a <= b
    ensures a / s <= b / s
    ensures a < b ==> a / s < b / s
  {
    assert a / s * s == a && b / s * s == b;
  }

  /** A quotient lies between the bounds its numerator has in units of the divisor. */
  lemma DivideBetween(s: real, d: real, lo: real, hi: real)
    requires d > 0.0 && lo * d <= s <= hi * d
    ensures lo <= s / d <= hi
  {
    assert s / d * d == s;
  }
}
