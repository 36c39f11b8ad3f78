/** Facts about real multiplication and division that the solver needs spelled out. */
module RealArithmetic {

  lemma MultiplyMonotone(a: real, b: real, c: real)
    requires a <= b && c >= 0.0
    ensures a * c <= b * c
  {
    assert b * c - a * c == (b - a) * c;
  }

  lemma DivideMonotone(a: real, b: real, d: real)
    requires a <= b && d > 0.0
    ensures a / d <= b / d
  {
    assert b / d - a / d == (b - a) / d;
  }

  /** Dividing by a positive number keeps the order with respect to one. */
  lemma DivideCompareOne(a: real, d: real)
    requires d > 0.0
    ensures a < d ==> a / d < 1.0
    ensures a > d ==> a / d > 1.0
    ensures a == d ==> a / d == 1.0
    ensures a <= 0.0 ==> a / d <= 0.0
    ensures a >= 0.0 ==> a / d >= 0.0
  {
    assert a / d * d == a;
    assert d / d == 1.0;
    if a < d {
      DivideMonotone(a, d, d);
      assert a / d != 1.0;
    } else if a > d {
      DivideMonotone(d, a, d);
      assert a / d != 1.0;
    }
    if a <= 0.0 {
      DivideMonotone(a, 0.0, d);
    }
    if a >= 0.0 {
      DivideMonotone(0.0, a, d);
    }
  }
}
