/** The two binary formats of IEEE 754-2019 as sets of reals, and rounding to the nearest of them, ties
    to even (section 4.3.1): exactly, subnormals and overflow included. */
module Floats {
  import opened Reals

  datatype Double = Finite(x: real) | NegZero | Inf(neg: bool) | NaN(payload: nat)

  function RealOf(d: Double): real {
    if d.Finite? then d.x else 0.0
  }

  /** The == of the language: NaN is equal to nothing and the zeros to each other. */
  predicate FloatEq(a: Double, b: Double) {
    match (a, b)
    case (NaN(_), _) => false
    case (_, NaN(_)) => false
    case (NegZero, Finite(x)) => x == 0.0
    case (Finite(x), NegZero) => x == 0.0
    case (_, _) => a == b
  }

  // --- Powers of two ---

  function Exp2(e: int): (u: real)
    ensures u > 0.0
    decreases if e >= 0 then e else -e
  {
    if e == 0 then 1.0 else if e > 0 then 2.0 * Exp2(e - 1) else Exp2(e + 1) / 2.0
  }

  lemma Exp2Step(e: int)
    ensures Exp2(e + 1) == 2.0 * Exp2(e)
  {
  }

  lemma {:induction false} Exp2Grows(e: int, e': int)
    requires e <= e'
    ensures Exp2(e) <= Exp2(e')
    decreases e' - e
  {
    if e < e' {
      Exp2Step(e' - 1);
      Exp2Grows(e, e' - 1);
    }
  }

  function Pow2(bits: nat): (full: nat)
    ensures full > 0
  {
    if bits == 0 then 1 else 2 * Pow2(bits - 1)
  }

  function Full(bits: nat): (full: real)
    ensures full >= 1.0
  {
    Pow2(bits) as real
  }

  lemma FullStep(bits: nat)
    requires bits > 0
    ensures Full(bits) == 2.0 * Full(bits - 1)
  {
  }

  /** Doubling n times. */
  lemma {:induction false} Exp2Up(e: int, n: nat)
    ensures Exp2(e + n) == Mul(Full(n), Exp2(e))
  {
    hide Mul;
    MulUnit(Exp2(e));
    if n > 0 {
      Exp2Up(e, n - 1);
      Exp2Step(e + n - 1);
      FullStep(n);
      MulAdd(Full(n - 1), Full(n - 1), Exp2(e));
    } else {
      assert Full(0) == 1.0;
    }
  }

  // --- Formats ---

  /** p bits of significand, none worth less than 2^emin, and everything below 2^emax. */
  datatype Format = Format(p: nat, emin: int, emax: int)

  const BINARY32 := Format(24, -149, 128)
  const BINARY64 := Format(53, -1074, 1024)

  /** The exponent of the last place of a number of this size. */
  function LastPlace(f: Format, x: real): (e: int)
    requires x >= 0.0
    ensures e >= f.emin && x < Exp2(e + f.p) && (e > f.emin ==> x >= Exp2(e - 1 + f.p))
  {
    LastPlaceFrom(f, x, f.emin)
  }

  function LastPlaceFrom(f: Format, x: real, e: int): (last: int)
    requires x >= 0.0 && e >= f.emin && (e > f.emin ==> x >= Exp2(e - 1 + f.p))
    ensures last >= f.emin && x < Exp2(last + f.p) && (last > f.emin ==> x >= Exp2(last - 1 + f.p))
    decreases Halvings(x, e + f.p)
  {
    if x < Exp2(e + f.p) then e
    else
      Halve(x, e + f.p);
      LastPlaceFrom(f, x, e + 1)
  }

  function Halvings(x: real, e: int): nat
    requires x >= 0.0
  {
    RatioIsNatural(x, Exp2(e));
    Div(x, Exp2(e)).Floor
  }

  lemma RatioIsNatural(x: real, u: real)
    requires x >= 0.0 && u > 0.0
    ensures Div(x, u) >= 0.0
  {
    hide Mul;
    hide Div;
    DivMul(x, u);
    MulUnit(u);
    MulCancelLe(0.0, Div(x, u), u);
  }

  lemma Halve(x: real, e: int)
    requires x >= Exp2(e)
    ensures Halvings(x, e + 1) < Halvings(x, e)
  {
    hide Mul;
    hide Div;
    var u, r := Exp2(e), Div(x, Exp2(e));
    DivMul(x, u);
    MulUnit(u);
    MulCancelLe(1.0, r, u);
    Exp2Step(e);
    MulMul(r / 2.0, 2.0, u);
    HalfTwice(r);
    DivIs(x, r / 2.0, Exp2(e + 1));
  }

  lemma HalfTwice(r: real)
    ensures Mul(r / 2.0, 2.0) == r
  {
  }

  /** The unit in the last place. */
  function Ulp(f: Format, x: real): (u: real)
    ensures u > 0.0
  {
    Exp2(LastPlace(f, Abs(x)))
  }

  predicate Times(m: int, u: real, x: real) {
    x == Mul(m as real, u)
  }

  /** x is a whole number of u. */
  ghost predicate Whole(x: real, u: real) {
    exists m: int :: Times(m, u, x)
  }

  /** x is a number of the format, its exponent unbounded above. */
  ghost predicate InFormat(f: Format, x: real) {
    Whole(x, Ulp(f, x))
  }

  /** d is a value of the format, if a number at all. */
  ghost predicate Held(f: Format, d: Double) {
    d.Finite? ==> InFormat(f, d.x) && Abs(d.x) < Exp2(f.emax)
  }

  /** The whole number nearest t, a tie going to the even one. */
  function HalfEven(t: real): int {
    var k, r := t.Floor, t - t.Floor as real;
    if r < 0.5 || (r == 0.5 && k % 2 == 0) then k else k + 1
  }

  /** The number of the format nearest x, a tie going to the even one. */
  function Nearest(f: Format, x: real): real {
    Mul(HalfEven(Div(x, Ulp(f, x))) as real, Ulp(f, x))
  }

  function Round(f: Format, x: real): Double {
    var y := Nearest(f, x);
    if Abs(y) >= Exp2(f.emax) then Inf(x < 0.0)
    else if y == 0.0 && x < 0.0 then NegZero
    else Finite(y)
  }

  // --- What they are ---

  /** A whole number of a larger power of two is one of a smaller. */
  lemma WholeFiner(x: real, e: int, e': int)
    requires e <= e' && Whole(x, Exp2(e'))
    ensures Whole(x, Exp2(e))
  {
    hide Mul;
    var m: int :| Times(m, Exp2(e'), x);
    var n := Pow2(e' - e);
    Exp2Up(e, e' - e);
    MulMul(m as real, n as real, Exp2(e));
    MulInts(m, n);
    assert Times(m * n, Exp2(e), x);
  }

  /** The last place is the only one there could be. */
  lemma LastPlaceIs(f: Format, x: real, e: int)
    requires x >= 0.0 && e >= f.emin && x < Exp2(e + f.p) && (e > f.emin ==> x >= Exp2(e - 1 + f.p))
    ensures LastPlace(f, x) == e
  {
    var e' := LastPlace(f, x);
    if e' < e {
      Exp2Grows(e' + f.p, e - 1 + f.p);
    } else if e < e' {
      Exp2Grows(e + f.p, e' - 1 + f.p);
    }
  }

  lemma LastPlaceGrows(f: Format, x: real, y: real)
    requires 0.0 <= x <= y
    ensures LastPlace(f, x) <= LastPlace(f, y)
  {
    var e, e' := LastPlace(f, x), LastPlace(f, y);
    if e' < e {
      Exp2Grows(e' + f.p, e - 1 + f.p);
    }
  }

  /** A number so small has a last place no larger. */
  lemma LastPlaceAtMost(f: Format, x: real, e: int)
    requires x >= 0.0 && e >= f.emin && x < Exp2(e + f.p)
    ensures LastPlace(f, x) <= e
  {
    var e' := LastPlace(f, x);
    if e < e' {
      Exp2Grows(e + f.p, e' - 1 + f.p);
    }
  }

  lemma WholeHere(f: Format, x: real, m: int, e: int)
    requires e >= f.emin && Times(m, Exp2(e), x) && Abs(x) < Exp2(e + f.p)
    ensures InFormat(f, x)
  {
    hide Times;
    LastPlaceAtMost(f, Abs(x), e);
    assert Whole(x, Exp2(e));
    WholeFiner(x, LastPlace(f, Abs(x)), e);
  }

  lemma SizeOfTimes(m: int, n: int, u: real, x: real)
    requires n >= 0 && u > 0.0 && Times(m, u, x)
    ensures -n < m < n ==> Abs(x) < Mul(n as real, u)
    ensures m == n ==> x == Mul(n as real, u)
    ensures m == -n ==> x == -Mul(n as real, u)
  {
    hide Mul;
    AbsMul(m as real, u);
    MulNeg(n as real, u);
    if -n < m < n {
      MulLt(Abs(m as real), n as real, u);
    }
  }

  /** Whatever has at most p bits is in the format. */
  lemma FitsFormat(f: Format, m: int, e: int, x: real)
    requires f.p >= 1 && e >= f.emin && Times(m, Exp2(e), x)
    requires var full: int := Pow2(f.p); -full <= m <= full
    ensures InFormat(f, x)
  {
    hide Mul;
    var full, half := Pow2(f.p) as int, Pow2(f.p - 1) as int;
    Exp2Up(e, f.p);
    SizeOfTimes(m, full, Exp2(e), x);
    if -full < m < full {
      WholeHere(f, x, m, e);
    } else {
      Exp2Up(e + 1, f.p - 1);
      Exp2Step(e + f.p);
      MulNeg(half as real, Exp2(e + 1));
      WholeHere(f, x, if m == full then half else -half, e + 1);
    }
  }

  lemma UlpScale(f: Format, x: real)
    ensures Abs(x) < Mul(Full(f.p), Ulp(f, x))
  {
    hide Mul;
    Exp2Up(LastPlace(f, Abs(x)), f.p);
  }

  lemma HalfEvenIs(t: real, k: int)
    ensures -0.5 <= HalfEven(t) as real - t <= 0.5
    ensures Abs(HalfEven(t) as real - t) <= Abs(k as real - t)
  {
    assert k <= t.Floor ==> k as real <= t.Floor as real;
    assert k >= t.Floor + 1 ==> k as real >= t.Floor as real + 1.0;
  }

  lemma OffBy(a: real, t: real, u: real)
    requires u > 0.0
    ensures Abs(Mul(a, u) - Mul(t, u)) == Mul(Abs(a - t), u)
  {
    hide Mul;
    AbsMul(a - t, u);
    MulSub(a, t, u);
  }

  /** The nearest whole number of units: at most half a unit off, and no other is nearer. */
  lemma NearestWhole(f: Format, x: real, w: real)
    requires Whole(w, Ulp(f, x))
    ensures Abs(Nearest(f, x) - x) <= Ulp(f, x) / 2.0
    ensures Abs(Nearest(f, x) - x) <= Abs(w - x)
  {
    hide Mul;
    hide Div;
    hide HalfEven;
    var u := Ulp(f, x);
    var t := Div(x, u);
    var k: real := HalfEven(t) as real;
    var m: int :| Times(m, u, w);
    DivMul(x, u);
    HalfEvenIs(t, m);
    OffBy(k, t, u);
    OffBy(m as real, t, u);
    MulLe(Abs(k - t), Abs(m as real - t), u);
    MulLe(Abs(k - t), 0.5, u);
    MulUnit(u);
  }

  lemma NearestInFormat(f: Format, x: real)
    requires f.p >= 1
    ensures InFormat(f, Nearest(f, x))
  {
    hide Mul;
    hide Div;
    hide HalfEven;
    var u := Ulp(f, x);
    var t := Div(x, u);
    DivMul(x, u);
    UlpScale(f, x);
    AbsMul(t, u);
    MulCancelLt(Abs(t), Full(f.p), u);
    HalfEvenIs(t, Pow2(f.p));
    HalfEvenIs(t, -(Pow2(f.p) as int));
    FitsFormat(f, HalfEven(t), LastPlace(f, Abs(x)), Nearest(f, x));
  }

  /** No number of the format is nearer. */
  lemma NearestIsNearest(f: Format, x: real, w: real)
    requires f.p >= 1 && InFormat(f, w)
    ensures Abs(Nearest(f, x) - x) <= Abs(w - x)
  {
    hide Mul;
    hide Nearest;
    var e, e' := LastPlace(f, Abs(x)), LastPlace(f, Abs(w));
    if e <= e' {
      WholeFiner(w, e, e');
      NearestWhole(f, x, w);
    } else {
      var n: int := Pow2(f.p - 1);
      var edge := if x >= 0.0 then Exp2(e - 1 + f.p) else -Exp2(e - 1 + f.p);
      Exp2Grows(e' + f.p, e - 1 + f.p);
      Exp2Up(e, f.p - 1);
      MulNeg(n as real, Exp2(e));
      assert Times(if x >= 0.0 then n else -n, Exp2(e), edge);
      NearestWhole(f, x, edge);
    }
  }

  /** In the normal range, or on the format's own last place, the error is relative. */
  lemma NearestIsClose(f: Format, x: real)
    requires f.p >= 1 && (Abs(x) >= Exp2(f.emin + f.p - 1) || Whole(x, Exp2(f.emin)))
    ensures Mul(Abs(Nearest(f, x) - x), Full(f.p)) <= Abs(x)
  {
    hide Mul;
    hide Nearest;
    var e, off := LastPlace(f, Abs(x)), Abs(Nearest(f, x) - x);
    MulUnit(Full(f.p));
    if e == f.emin && Whole(x, Exp2(f.emin)) {
      NearestWhole(f, x, x);
    } else {
      MulUnit(Exp2(e));
      assert Times(0, Exp2(e), 0.0);
      NearestWhole(f, x, 0.0);
      Exp2Up(e, f.p - 1);
      FullStep(f.p);
      MulLe(off, Exp2(e) / 2.0, Full(f.p));
      HalfAndTwice(Exp2(e), Full(f.p - 1));
    }
  }

  lemma HalfAndTwice(u: real, n: real)
    ensures Mul(u / 2.0, 2.0 * n) == Mul(n, u)
  {
  }

  /** What is in the format rounds to itself. */
  lemma NearestExact(f: Format, x: real)
    requires InFormat(f, x)
    ensures Nearest(f, x) == x
  {
    hide Nearest;
    NearestWhole(f, x, x);
  }

  lemma NearestMirrored(f: Format, x: real)
    ensures Nearest(f, -x) == -Nearest(f, x) && Ulp(f, -x) == Ulp(f, x)
  {
    hide Mul;
    hide Div;
    hide HalfEven;
    var u := Ulp(f, x);
    assert Abs(-x) == Abs(x);
    DivMul(x, u);
    MulNeg(Div(x, u), u);
    DivIs(-x, -Div(x, u), u);
    HalfEvenMirrored(Div(x, u));
    MulNeg(HalfEven(Div(x, u)) as real, u);
  }

  lemma HalfEvenMirrored(t: real)
    ensures HalfEven(-t) == -HalfEven(t)
  {
    if t == t.Floor as real {
      assert (-t).Floor == -t.Floor;
    } else {
      assert (-t).Floor == -t.Floor - 1;
    }
  }

  lemma FormatMirrored(f: Format, x: real)
    requires f.p >= 1 && InFormat(f, x)
    ensures InFormat(f, -x)
  {
    hide Nearest;
    NearestExact(f, x);
    NearestMirrored(f, x);
    NearestInFormat(f, -x);
  }
}
