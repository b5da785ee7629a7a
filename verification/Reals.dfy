/** Absolute values, clamping, and products of reals one fact at a time. */
module Reals {
  function Abs(x: real): real {
    if x >= 0.0 then x else -x
  }

  function Clamp(x: real, low: real, high: real): real {
    if x < low then low else if x > high then high else x
  }

  lemma ProductIsNatural(x: real, y: real)
    requires 0.0 <= x && 0.0 <= y
    ensures 0.0 <= x * y
  {
  }

  // --- Products and quotients of reals, one fact at a time ---

  function Mul(x: real, y: real): real {
    x * y
  }

  function Div(x: real, u: real): real
    requires u > 0.0
  {
    x / u
  }

  lemma NatProduct(x: real, y: real)
    requires 0.0 <= x && 0.0 <= y
    ensures 0.0 <= Mul(x, y)
  {
  }

  lemma PosProduct(x: real, y: real)
    requires 0.0 < x && 0.0 < y
    ensures 0.0 < Mul(x, y)
  {
  }

  lemma MulSub(x: real, y: real, m: real)
    ensures Mul(x - y, m) == Mul(x, m) - Mul(y, m)
  {
  }

  lemma MulAdd(x: real, y: real, m: real)
    ensures Mul(x + y, m) == Mul(x, m) + Mul(y, m)
  {
  }

  lemma MulNeg(x: real, m: real)
    ensures Mul(-x, m) == -Mul(x, m)
  {
  }

  lemma MulUnit(m: real)
    ensures Mul(0.0, m) == 0.0 && Mul(1.0, m) == m && Mul(2.0, m) == m + m && Mul(0.5, m) == m / 2.0
  {
  }

  lemma MulSwap(x: real, y: real)
    ensures Mul(x, y) == Mul(y, x)
  {
  }

  lemma MulMul(a: real, b: real, c: real)
    ensures Mul(a, Mul(b, c)) == Mul(Mul(a, b), c)
  {
  }

  lemma MulInts(m: int, n: int)
    ensures Mul(m as real, n as real) == (m * n) as real
  {
  }

  lemma DivMul(x: real, u: real)
    requires u > 0.0
    ensures Mul(Div(x, u), u) == x
  {
  }

  lemma MulLe(x: real, y: real, m: real)
    requires x <= y && 0.0 <= m
    ensures Mul(x, m) <= Mul(y, m)
  {
    hide Mul;
    NatProduct(y - x, m);
    MulSub(y, x, m);
  }

  lemma MulLt(x: real, y: real, m: real)
    requires x < y && 0.0 < m
    ensures Mul(x, m) < Mul(y, m)
  {
    hide Mul;
    PosProduct(y - x, m);
    MulSub(y, x, m);
  }

  lemma MulCancelLe(x: real, y: real, m: real)
    requires Mul(x, m) <= Mul(y, m) && 0.0 < m
    ensures x <= y
  {
    hide Mul;
    if y < x {
      MulLt(y, x, m);
    }
  }

  lemma MulCancelLt(x: real, y: real, m: real)
    requires Mul(x, m) < Mul(y, m) && 0.0 < m
    ensures x < y
  {
    hide Mul;
    if y <= x {
      MulLe(y, x, m);
    }
  }

  /** x is t of u exactly when t is x over u. */
  lemma DivIs(x: real, t: real, u: real)
    requires u > 0.0 && x == Mul(t, u)
    ensures Div(x, u) == t
  {
    hide Mul;
    hide Div;
    DivMul(x, u);
    MulCancelLe(Div(x, u), t, u);
    MulCancelLe(t, Div(x, u), u);
  }

  lemma AbsMul(t: real, u: real)
    requires u >= 0.0
    ensures Abs(Mul(t, u)) == Mul(Abs(t), u)
  {
    hide Mul;
    NatProduct(Abs(t), u);
    MulNeg(t, u);
  }
}
