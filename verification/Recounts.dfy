/** Whether a count of grid steps survives being stored and counted again. It is a fact about rounding, and
    settled here for the two formats as they are: on an axis of a Vector3, which is narrowed, and on a
    float slot. */
module Recounts {
  import opened Reals
  import opened Floats
  import opened Numbers

  // --- One count, stored and counted again: positive values, as reals ---

  const EPS := 1.0 / 9007199254740992.0

  lemma FullValues()
    ensures Full(53) == 9007199254740992.0 && Full(24) == 16777216.0
    ensures Pow2(53) == 9007199254740992 && Pow2(52) == 4503599627370496 && Pow2(51) == 2251799813685248
    ensures Exp2(-1022) <= Exp2(-200) <= 0.25
  {
    assert Pow2(13) == 8192 && Pow2(24) == 2048 * Pow2(13);
    assert Pow2(37) == 8192 * Pow2(24) && Pow2(50) == 8192 * Pow2(37);
    Exp2Grows(-1022, -200);
    Exp2Grows(-200, -2);
  }

  function CountOf(x: real, grid: real): int
    requires grid > 0.0
  {
    LlRound(Nearest(BINARY64, Div(x, grid)))
  }

  // --- An axis ---

  /** v counts as q steps of g, Q is q steps exactly, and d as they come to rounded. */
  ghost predicate Steps(v: real, q: int, g: real, Q: real, d: real) {
    && 0.0 < g <= Q && Q == Mul(q as real, g) && q >= 1
    && Abs(v - Q) <= g / 2.0 + EPS * v && Abs(d - Q) <= EPS * Q
  }

  lemma CloseBy(off: real, x: real)
    requires Mul(off, Full(53)) <= x
    ensures off <= EPS * x
  {
    FullValues();
    assert Mul(off, Full(53)) == off * 9007199254740992.0;
  }

  lemma Slid(b: real, c: real)
    ensures Mul(EPS * b, c) == EPS * Mul(b, c)
  {
  }

  /** A quotient is within half a step of its count, and a rounding. */
  lemma CountedNear(v: real, g: real, q: int)
    requires 0.0 < g && 0.0 < v && q == CountOf(v, g) && q >= 1
    ensures Abs(v - Mul(q as real, g)) <= g / 2.0 + EPS * v && 0.25 <= Div(v, g)
  {
    hide Mul;
    hide Pow2;
    hide Div;
    hide LlRound;
    hide Nearest;
    var t := Div(v, g);
    var n := Nearest(BINARY64, t);
    DivMul(v, g);
    MulUnit(g);
    MulCancelLt(0.0, t, g);
    LlRoundIsNear(n);
    MulUnit(Ulp(BINARY64, t));
    assert Times(0, Ulp(BINARY64, t), 0.0);
    NearestWhole(BINARY64, t, 0.0);
    FullValues();
    NearestIsClose(BINARY64, t);
    CloseBy(Abs(n - t), t);
    OffBy(q as real, t, g);
    MulLe(Abs(q as real - t), 0.5 + EPS * t, g);
    MulAdd(0.5, EPS * t, g);
    Slid(t, g);
  }

  /** The stored product is within a rounding of the exact one, when that is not too small. */
  lemma ProductNear(Q: real)
    requires Q >= Exp2(-1022)
    ensures Abs(Nearest(BINARY64, Q) - Q) <= EPS * Q
  {
    hide Nearest;
    NearestIsClose(BINARY64, Q);
    CloseBy(Abs(Nearest(BINARY64, Q) - Q), Q);
  }

  /** And the other way: near enough to q steps, y counts as q. */
  lemma CountsAs(y: real, g: real, q: int)
    requires 0.0 < g && 0.0 < y && q >= 1 && g <= 4.0 * y
    requires Abs(y - Mul(q as real, g)) + EPS * y < g / 2.0
    ensures CountOf(y, g) == q
  {
    hide Mul;
    hide Pow2;
    hide Div;
    hide LlRound;
    hide Nearest;
    var t := Div(y, g);
    var n := Nearest(BINARY64, t);
    DivMul(y, g);
    MulUnit(g);
    Quarter(g);
    MulCancelLe(0.25, t, g);
    FullValues();
    NearestIsClose(BINARY64, t);
    CloseBy(Abs(n - t), t);
    OffBy(t, q as real, g);
    MulAdd(Abs(t - q as real), EPS * t, g);
    Slid(t, g);
    MulCancelLt(Abs(t - q as real) + EPS * t, 0.5, g);
    RoundsTo(n, q);
  }

  lemma Quarter(g: real)
    ensures Mul(0.25, g) == g / 4.0
  {
  }

  lemma SingleWidth()
    ensures BINARY32.p == 24 && Pow2(BINARY32.p) == 16777216
  {
    FullValues();
  }

  lemma StepsAre(v: real, q: int, g: real, Q: real, d: real)
    requires Steps(v, q, g, Q, d)
    ensures 0.0 < g <= Q && Q == Mul(q as real, g) && q >= 1
  {
  }

  lemma Sizes(v: real, y: real, q: int, g: real, Q: real, d: real)
    requires Steps(v, q, g, Q, d) && Abs(y - d) <= Abs(v - d)
    ensures 0.49 * Q <= v <= 1.6 * Q && 0.49 * Q <= y <= 1.6 * Q
  {
    hide Mul;
  }

  /** If y would not count as q, it and v lie either side of q steps, half a step from it both. */
  lemma Opposite(v: real, y: real, q: int, g: real, Q: real, d: real)
    requires Steps(v, q, g, Q, d) && Abs(y - d) <= Abs(v - d)
    requires Abs(y - v) >= Q / 40000000.0 && Abs(y - Q) + EPS * y >= g / 2.0
    ensures v < d < y || y < d < v
    ensures Abs(Abs(y - v) - g) <= 6.0 * EPS * Q && Abs((v + y) / 2.0 - Q) <= 4.0 * EPS * Q
    ensures Abs(v - d) - Abs(y - d) <= 6.0 * EPS * Q
  {
    hide Mul;
    Sizes(v, y, q, g, Q, d);
  }

  /** Two numbers of a format are a whole number of the smaller one's last place apart. */
  lemma UnitsApart(f: Format, lo: real, hi: real) returns (m: int, n: int)
    requires InFormat(f, lo) && InFormat(f, hi) && 0.0 <= lo < hi
    ensures Times(m, Ulp(f, lo), lo) && Times(n, Ulp(f, lo), hi) && 0 <= m < n && m < Pow2(f.p)
    ensures hi - lo >= Ulp(f, lo)
  {
    hide Mul;
    var u := Ulp(f, lo);
    LastPlaceGrows(f, lo, hi);
    WholeFiner(hi, LastPlace(f, lo), LastPlace(f, hi));
    m, n :| Times(m, u, lo) && Times(n, u, hi);
    MulUnit(u);
    UlpScale(f, lo);
    MulCancelLe(0.0, m as real, u);
    MulCancelLt(m as real, n as real, u);
    MulCancelLt(m as real, Full(f.p), u);
    MulLe(1.0, (n - m) as real, u);
    MulSub(n as real, m as real, u);
  }

  /** The number a unit further on is one too. */
  lemma NextInFormat(f: Format, lo: real)
    requires f.p >= 1 && InFormat(f, lo) && 0.0 <= lo
    ensures InFormat(f, lo + Ulp(f, lo))
  {
    hide Mul;
    var u := Ulp(f, lo);
    var m: int :| Times(m, u, lo);
    MulUnit(u);
    UlpScale(f, lo);
    MulCancelLe(0.0, m as real, u);
    MulCancelLt(m as real, Full(f.p), u);
    MulAdd(m as real, 1.0, u);
    FitsFormat(f, m + 1, LastPlace(f, lo), lo + u);
  }

  /** Distinct binary32 values of a size are well apart. */
  lemma SinglesApart(v: real, y: real, least: real)
    requires InFormat(BINARY32, v) && InFormat(BINARY32, y) && v != y && v >= least && y >= least && least > 0.0
    ensures Abs(y - v) >= least / 16777216.0
  {
    hide Mul;
    hide Pow2;
    var lo, hi := if v < y then v else y, if v < y then y else v;
    var m, n := UnitsApart(BINARY32, lo, hi);
    UlpScale(BINARY32, lo);
    FullValues();
    Scaled(Ulp(BINARY32, lo));
  }

  lemma Scaled(u: real)
    ensures Mul(16777216.0, u) == 16777216.0 * u
  {
  }

  /** Nothing in the format lies between v and the number nearest d, when d is so near the middle. */
  lemma NothingBetween(v: real, y: real, w: real, q: int, g: real, Q: real, d: real)
    requires Steps(v, q, g, Q, d) && Abs(v - d) - Abs(y - d) <= 6.0 * EPS * Q && (v < d < y || y < d < v)
    requires InFormat(BINARY32, v) && InFormat(BINARY32, w)
    requires Abs(y - d) <= Abs(v - d) && Abs(y - d) <= Abs(w - d)
    ensures !(v < w < y || y < w < v)
  {
    hide Mul;
    hide InFormat;
    Sizes(v, y, q, g, Q, d);
    if v < w < y || y < w < v {
      SinglesApart(v, w, 0.49 * Q);
    }
  }

  /** The numbers either side of q steps cannot be neighbours a step apart with q steps half-way: the lower
      would be a whole number of steps. */
  lemma NoHalfWay(lo: real, u: real, m: int, q: int, g: real, Q: real)
    requires 0.0 < g <= Q && Q == Mul(q as real, g) && q >= 1
    requires u > 0.0 && Times(m, u, lo) && m < 16777216 && Abs(u - g) <= 6.0 * EPS * Q
    ensures Abs(lo + u / 2.0 - Q) > 4.0 * EPS * Q
  {
    hide Mul;
    if Abs(lo + u / 2.0 - Q) <= 4.0 * EPS * Q {
      // at most so many steps
      MulLe(m as real, 16777216.0, u);
      Scaled(u);
      assert Q <= 16800000.0 * g;
      Scaled2(g);
      MulCancelLe(q as real, 16800000.0, g);
      // so q of u is q steps, and a fifth of one
      OffBy(u, g, q as real);
      MulSwap(u, q as real);
      MulSwap(g, q as real);
      MulLe(Abs(u - g), 6.0 * EPS * Q, q as real);
      FewSteps(q, Q, g);
      // and lo and half of u is not
      MulSub(m as real, q as real, u);
      MulAdd((m - q) as real, 0.5, u);
      MulUnit(u);
      AbsMul((m - q) as real + 0.5, u);
      MulLe(0.5, Abs((m - q) as real + 0.5), u);
    }
  }

  lemma Scaled2(g: real)
    ensures Mul(16800000.0, g) == 16800000.0 * g
  {
  }

  lemma FewSteps(q: int, Q: real, g: real)
    requires 1 <= q <= 16800000 && 0.0 < Q <= 16800000.0 * g
    ensures Mul(6.0 * EPS * Q, q as real) <= 0.2 * g
  {
    hide Mul;
    MulLe(q as real, 16800000.0, 6.0 * EPS * Q);
    MulSwap(q as real, 6.0 * EPS * Q);
    MulSwap(16800000.0, 6.0 * EPS * Q);
    Scaled2(6.0 * EPS * Q);
  }

  /** So the number nearest d is nearer than half a step. */
  lemma NoNearMiss(v: real, y: real, q: int, g: real, Q: real, d: real)
    requires Steps(v, q, g, Q, d) && InFormat(BINARY32, v) && InFormat(BINARY32, y) && v != y
    requires y == Nearest(BINARY32, d)
    ensures Abs(y - Q) + EPS * y < g / 2.0
  {
    hide Mul;
    hide Nearest;
    hide InFormat;
    hide Steps;
    hide Times;
    hide Ulp;
    StepsAre(v, q, g, Q, d);
    SingleWidth();
    NearestIsNearest(BINARY32, d, v);
    Sizes(v, y, q, g, Q, d);
    if Abs(y - Q) + EPS * y >= g / 2.0 {
      SinglesApart(v, y, 0.49 * Q);
      Opposite(v, y, q, g, Q, d);
      var lo, hi := if v < y then v else y, if v < y then y else v;
      var m, n := UnitsApart(BINARY32, lo, hi);
      NextInFormat(BINARY32, lo);
      var w := lo + Ulp(BINARY32, lo);
      NearestIsNearest(BINARY32, d, w);
      NothingBetween(v, y, w, q, g, Q, d);
      NoHalfWay(lo, w - lo, m, q, g, Q);
    }
  }

  /** A binary32 value stored in grid steps and narrowed again counts as it did, however many steps it is
      from zero: either it comes back as itself, or what it does come back as is not half a step off. */
  lemma AxisRecounts(v: real, q: int, g: real, Q: real, d: real)
    requires InFormat(BINARY32, v) && 0.0 < v && Steps(v, q, g, Q, d) && q == CountOf(v, g)
    ensures CountOf(Nearest(BINARY32, d), g) == q
  {
    hide Mul;
    hide Nearest;
    hide CountOf;
    hide InFormat;
    var y := Nearest(BINARY32, d);
    NearestIsNearest(BINARY32, d, v);
    NearestInFormat(BINARY32, d);
    Sizes(v, y, q, g, Q, d);
    if y != v {
      NoNearMiss(v, y, q, g, Q, d);
      CountsAs(y, g, q);
    }
  }

  // --- A float slot ---

  /** What is stored of q steps. */
  function Stored(q: int, g: real): real {
    Nearest(BINARY64, Mul(q as real, g))
  }

  /** Whether what is stored of q steps counts as q again: not more than a quarter step beyond them, while
      halves of a step can be told apart; from 2^52 steps on, nearer to them than half a unit of q's last
      place, or as near and q even in such units. */
  ghost predicate FloatKeeps(q: int, g: real) {
    var Q := Mul(q as real, g);
    var d := Nearest(BINARY64, Q);
    if Magnitude(q) < Pow2(52) then 4.0 * (Abs(d) - Abs(Q)) <= g
    else
      var e := LastPlace(BINARY64, Abs(q as real));
      var half := Mul(Exp2(e - 1), g);
      Abs(d - Q) < half || (Abs(d - Q) == half && EvenTimes(q as real, Exp2(e)))
  }

  ghost predicate EvenTimes(x: real, u: real) {
    exists m: int :: m % 2 == 0 && Times(m, u, x)
  }

  lemma Integers(m: int)
    requires -(Pow2(53) as int) <= m <= Pow2(53)
    ensures InFormat(BINARY64, m as real)
  {
    hide Mul;
    MulUnit(m as real);
    MulSwap(m as real, 1.0);
    assert Exp2(0) == 1.0;
    FitsFormat(BINARY64, m, 0, m as real);
  }

  /** And the halves between, below 2^52. */
  lemma Halves(m: int)
    requires -(Pow2(53) as int) <= m <= Pow2(53)
    ensures InFormat(BINARY64, m as real / 2.0)
  {
    hide Mul;
    MulUnit(m as real);
    MulSwap(m as real, 0.5);
    assert Exp2(-1) == 0.5;
    FitsFormat(BINARY64, m, -1, m as real / 2.0);
  }

  /** q steps of a binary64 grid are stored within a rounding of themselves, however small the grid. */
  lemma StoredNear(q: int, g: real)
    requires q >= 1 && g > 0.0 && InFormat(BINARY64, g)
    ensures Abs(Stored(q, g) - Mul(q as real, g)) <= EPS * Mul(q as real, g) && Mul(q as real, g) > 0.0
  {
    hide Mul;
    hide Nearest;
    var Q := Mul(q as real, g);
    PosProduct(q as real, g);
    WholeFiner(g, BINARY64.emin, LastPlace(BINARY64, g));
    var m: int :| Times(m, Exp2(BINARY64.emin), g);
    MulMul(q as real, m as real, Exp2(BINARY64.emin));
    MulInts(q, m);
    assert Times(q * m, Exp2(BINARY64.emin), Q);
    NearestIsClose(BINARY64, Q);
    CloseBy(Abs(Stored(q, g) - Q), Q);
  }

  /** t is where what is stored lies, in steps. */
  ghost predicate Lies(q: int, g: real, t: real) {
    && q >= 1 && g > 0.0 && Mul(t, g) == Stored(q, g)
    && Abs(t - q as real) <= EPS * q as real && Abs(Stored(q, g) - Mul(q as real, g)) == Mul(Abs(t - q as real), g)
  }

  lemma WhereItLies(q: int, g: real) returns (t: real)
    requires q >= 1 && g > 0.0 && InFormat(BINARY64, g)
    ensures t == Div(Stored(q, g), g) && Lies(q, g, t)
  {
    hide Mul;
    hide Div;
    hide Stored;
    t := Div(Stored(q, g), g);
    DivMul(Stored(q, g), g);
    StoredNear(q, g);
    OffBy(t, q as real, g);
    Slid(q as real, g);
    MulCancelLe(Abs(t - q as real), EPS * q as real, g);
  }

  /** Below 2^51 steps a rounding is not a quarter step. */
  lemma FewStepsKeep(q: int, g: real, t: real)
    requires Lies(q, g, t) && q < Pow2(51)
    ensures LlRound(Nearest(BINARY64, t)) == q && 4.0 * (Stored(q, g) - Mul(q as real, g)) <= g
  {
    hide Mul;
    hide Pow2;
    hide Nearest;
    hide LlRound;
    hide Stored;
    FullValues();
    Integers(q);
    NearestIsNearest(BINARY64, t, q as real);
    RoundsTo(Nearest(BINARY64, t), q);
    Quarter(g);
    MulLe(Abs(t - q as real), 0.25, g);
  }

  /** Short of q steps by less than half of one is rounded no further than to the half, which counts up. */
  lemma ShortKeeps(q: int, g: real, t: real)
    requires Lies(q, g, t) && q < Pow2(52) && t <= q as real
    ensures LlRound(Nearest(BINARY64, t)) == q && 4.0 * (Stored(q, g) - Mul(q as real, g)) <= g
  {
    hide Mul;
    hide Pow2;
    hide Nearest;
    hide Stored;
    FullValues();
    Integers(q);
    Halves(2 * q - 1);
    assert (2 * q - 1) as real / 2.0 == q as real - 0.5;
    NearestIsNearest(BINARY64, t, q as real);
    NearestIsNearest(BINARY64, t, q as real - 0.5);
    MulLe(t, q as real, g);
  }

  lemma HalfEvenOver(q: int, x: real)
    requires 0.0 <= x < 1.0
    ensures HalfEven((2 * q) as real + x) == if x <= 0.5 then 2 * q else 2 * q + 1
  {
  }

  /** From 2^51 to 2^52 halves are the units: past q by more than a quarter step is rounded to the half,
      which counts as the next. */
  lemma OverKeeps(q: int, g: real, t: real)
    requires Lies(q, g, t) && Pow2(51) <= q < Pow2(52) && q as real <= t
    ensures LlRound(Nearest(BINARY64, t)) == q <==> 4.0 * (Stored(q, g) - Mul(q as real, g)) <= g
  {
    hide Mul;
    hide Pow2;
    hide Div;
    hide HalfEven;
    hide Stored;
    FullValues();
    Exp2Values();
    LastPlaceIs(BINARY64, t, -1);
    assert Ulp(BINARY64, t) == 0.5;
    Doubled(t);
    DivIs(t, 2.0 * t, 0.5);
    var off, k := t - q as real, HalfEven(2.0 * t);
    HalfEvenOver(q, 2.0 * off);
    assert 2.0 * t == (2 * q) as real + 2.0 * off;
    MulUnit(k as real);
    MulSwap(k as real, 0.5);
    assert Nearest(BINARY64, t) == k as real / 2.0;
    MulLe(q as real, t, g);
    Quarter(g);
    if off <= 0.25 {
      MulLe(off, 0.25, g);
    } else {
      MulLt(0.25, off, g);
    }
  }

  lemma Doubled(t: real)
    ensures Mul(2.0 * t, 0.5) == t
  {
  }

  lemma Exp2Values()
    ensures Exp2(51) == 2251799813685248.0 && Exp2(52) == 4503599627370496.0 && Exp2(53) == 9007199254740992.0
            && Exp2(-1) == 0.5
  {
    hide Mul;
    hide Pow2;
    FullValues();
    Exp2Is(51);
    Exp2Is(52);
    Exp2Is(53);
  }

  lemma Exp2Is(n: nat)
    ensures Exp2(n) == Pow2(n) as real
  {
    hide Mul;
    Exp2Up(0, n);
    MulUnit(Full(n));
    MulSwap(1.0, Full(n));
  }

  /** A power of two times a number of the format is one. */
  lemma PowerTimes(q: int, n: nat, g: real)
    requires q == Pow2(n) && g > 0.0 && InFormat(BINARY64, g)
    ensures InFormat(BINARY64, Mul(q as real, g))
  {
    hide Mul;
    hide Pow2;
    var k := LastPlace(BINARY64, g);
    var m: int :| Times(m, Exp2(k), g);
    UlpScale(BINARY64, g);
    FullValues();
    MulUnit(Exp2(k));
    MulCancelLt(0.0, m as real, Exp2(k));
    MulCancelLt(m as real, Full(53), Exp2(k));
    Exp2Up(k, n);
    MulMul(q as real, m as real, Exp2(k));
    MulSwap(q as real, m as real);
    MulMul(m as real, q as real, Exp2(k));
    FitsFormat(BINARY64, m, k + n, Mul(q as real, g));
  }

  lemma HalfEvenAround(m: int, z: real)
    requires -1.0 < z < 1.0
    ensures HalfEven(m as real + z) == m <==> Abs(z) < 0.5 || (Abs(z) == 0.5 && m % 2 == 0)
  {
    if z >= 0.0 {
      assert (m as real + z).Floor == m;
    } else {
      assert (m as real + z).Floor == m - 1;
    }
  }

  /** m units of this last place, a whole number. */
  function Units(m: int, e: nat): int {
    m * Pow2(e)
  }

  lemma UnitsAre(k: int, m: int, e: nat)
    ensures Mul(k as real, Exp2(e)) == Units(k, e) as real
    ensures LlRound(Units(k, e) as real) == Units(k, e) && (Units(k, e) == Units(m, e) <==> k == m)
  {
    hide Mul;
    Exp2Is(e);
    MulInts(k, Pow2(e));
    if k != m {
      assert (k - m) * Pow2(e) != 0;
    }
  }

  lemma LastPlaceIsWhole(x: real)
    requires x >= 4503599627370496.0
    ensures LastPlace(BINARY64, x) >= 0 && x >= Exp2(LastPlace(BINARY64, x) + 52)
  {
    Exp2Values();
    var e := LastPlace(BINARY64, x);
    if e < 0 {
      Exp2Grows(e + 53, 52);
    }
  }

  /** q's own last place, from 2^52 on. */
  lemma LastPlaceOf(q: int) returns (e: nat, m: int)
    requires q >= Pow2(52) && InFormat(BINARY64, q as real)
    ensures e == LastPlace(BINARY64, q as real) && Times(m, Exp2(e), q as real) && Pow2(52) <= m < Pow2(53)
    ensures q == Units(m, e)
  {
    hide Mul;
    hide Units;
    hide Pow2;
    hide Exp2;
    FullValues();
    LastPlaceIsWhole(q as real);
    e := LastPlace(BINARY64, q as real);
    m :| Times(m, Exp2(e), q as real);
    Exp2Up(e, 53);
    UnitsAre(m, m, e);
    MulCancelLt(m as real, Full(53), Exp2(e));
    Exp2Up(e, 52);
    MulCancelLe(Full(52), m as real, Exp2(e));
  }

  lemma UnderUnit(x: real, s: real)
    requires 0.0 < s && x < Mul(Full(53), s)
    ensures EPS * x < s
  {
    FullValues();
    assert Mul(Full(53), s) == 9007199254740992.0 * s;
  }

  /** Within a unit of q above the bottom of its range, t has q's last place. */
  lemma SameLastPlace(q: int, t: real, e: nat, m: int)
    requires Pow2(52) < m < Pow2(53) && Times(m, Exp2(e), q as real) && Abs(t - q as real) <= EPS * q as real
    ensures LastPlace(BINARY64, Abs(t)) == e && Abs(t - q as real) < Exp2(e) && t >= 0.0
  {
    hide Mul;
    hide Pow2;
    var s := Exp2(e);
    Exp2Up(e, 52);
    Exp2Up(e, 53);
    MulLt(m as real, Full(53), s);
    MulLe(Full(52), (m - 1) as real, s);
    MulLe((m + 1) as real, Full(53), s);
    MulSub(m as real, 1.0, s);
    MulAdd(m as real, 1.0, s);
    MulUnit(s);
    UnderUnit(q as real, s);
    LastPlaceIs(BINARY64, t, e);
  }

  /** From 2^52 steps on the count is the rounding itself. */
  lemma ManySteps(q: int, t: real, e: nat, m: int)
    requires Pow2(52) < m < Pow2(53) && Times(m, Exp2(e), q as real) && q == Units(m, e)
    requires Abs(t - q as real) <= EPS * q as real
    ensures LlRound(Nearest(BINARY64, t)) == q <==>
            Abs(t - q as real) < Exp2(e) / 2.0 || (Abs(t - q as real) == Exp2(e) / 2.0 && m % 2 == 0)
  {
    hide Mul;
    hide Div;
    hide HalfEven;
    hide LlRound;
    hide Units;
    hide Pow2;
    var s := Exp2(e);
    SameLastPlace(q, t, e, m);
    var z := Div(t - q as real, s);
    DivMul(t - q as real, s);
    MulAdd(m as real, z, s);
    DivIs(t, m as real + z, s);
    AbsMul(z, s);
    MulUnit(s);
    MulCancelLt(Abs(z), 1.0, s);
    HalfEvenAround(m, z);
    UnitsAre(HalfEven(m as real + z), m, e);
    HalfOrLess(z, s);
  }

  lemma HalfOrLess(z: real, s: real)
    requires s > 0.0
    ensures Mul(Abs(z), s) < s / 2.0 <==> Abs(z) < 0.5
    ensures Mul(Abs(z), s) == s / 2.0 <==> Abs(z) == 0.5
  {
    hide Mul;
    MulUnit(s);
    if Abs(z) < 0.5 {
      MulLt(Abs(z), 0.5, s);
    } else if Abs(z) > 0.5 {
      MulLt(0.5, Abs(z), s);
    }
  }

  lemma {:induction false} Pow2Sum(a: nat, b: nat)
    ensures Pow2(a + b) == Pow2(a) * Pow2(b)
  {
    if b > 0 {
      Pow2Sum(a, b - 1);
      assert a + b - 1 == a + (b - 1);
    }
  }

  /** A power of two of steps is stored as it is. */
  lemma PowerKeeps(q: int, e: nat, g: real)
    requires q == Units(Pow2(52), e) && g > 0.0 && InFormat(BINARY64, g) && InFormat(BINARY64, q as real)
    ensures Stored(q, g) == Mul(q as real, g) && CountOf(Stored(q, g), g) == q
  {
    hide Mul;
    hide Div;
    hide Nearest;
    Pow2Sum(52, e);
    PowerTimes(q, 52 + e, g);
    NearestExact(BINARY64, Mul(q as real, g));
    DivIs(Mul(q as real, g), q as real, g);
    NearestExact(BINARY64, q as real);
  }

  lemma EvenTimesIs(m: int, u: real, x: real)
    requires u > 0.0 && Times(m, u, x)
    ensures EvenTimes(x, u) <==> m % 2 == 0
  {
    hide Mul;
    if EvenTimes(x, u) {
      var k: int :| k % 2 == 0 && Times(k, u, x);
      MulCancelLe(k as real, m as real, u);
      MulCancelLe(m as real, k as real, u);
    }
  }

  lemma ManyStepsKeep(q: int, g: real, t: real, e: nat, m: int)
    requires Lies(q, g, t) && q >= Pow2(52) && e == LastPlace(BINARY64, q as real)
    requires Pow2(52) < m < Pow2(53) && Times(m, Exp2(e), q as real) && q == Units(m, e)
    ensures LlRound(Nearest(BINARY64, t)) == q <==> FloatKeeps(q, g)
  {
    hide Mul;
    hide Nearest;
    hide LlRound;
    hide Pow2;
    hide Units;
    ManySteps(q, t, e, m);
    EvenTimesIs(m, Exp2(e), q as real);
    Exp2Step(e - 1);
    var off, half := Abs(t - q as real), Exp2(e - 1);
    if off < half {
      MulLt(off, half, g);
    } else if half < off {
      MulLt(half, off, g);
    }
  }

  lemma UnderPow52(q: int, g: real, t: real)
    requires Lies(q, g, t) && q < Pow2(52)
    ensures LlRound(Nearest(BINARY64, t)) == q <==> 4.0 * (Stored(q, g) - Mul(q as real, g)) <= g
  {
    hide Mul;
    hide Nearest;
    hide LlRound;
    hide Stored;
    if q < Pow2(51) {
      FewStepsKeep(q, g, t);
    } else if t <= q as real {
      ShortKeeps(q, g, t);
    } else {
      OverKeeps(q, g, t);
    }
  }

  lemma FromPow52(q: int, g: real, t: real)
    requires g > 0.0 && Lies(q, g, t) && q >= Pow2(52) && InFormat(BINARY64, q as real) && InFormat(BINARY64, g)
    requires t == Div(Stored(q, g), g)
    ensures LlRound(Nearest(BINARY64, t)) == q <==> FloatKeeps(q, g)
  {
    hide Mul;
    hide Div;
    hide Nearest;
    hide LlRound;
    hide Pow2;
    hide Units;
    hide Lies;
    var e, m := LastPlaceOf(q);
    if m == Pow2(52) {
      var last: int := e;
      PowerKeeps(q, e, g);
      PosProduct(Exp2(last - 1), g);
    } else {
      ManyStepsKeep(q, g, t, e, m);
    }
  }

  /** What is stored of q steps counts as q again exactly when FloatKeeps. */
  lemma FloatRecounts(q: int, g: real)
    requires q >= 1 && g > 0.0 && InFormat(BINARY64, q as real) && InFormat(BINARY64, g)
    ensures CountOf(Stored(q, g), g) == q <==> FloatKeeps(q, g)
  {
    hide Mul;
    hide Div;
    hide Nearest;
    hide LlRound;
    hide InFormat;
    var t := WhereItLies(q, g);
    if q < Pow2(52) {
      StoredNear(q, g);
      EpsIsSmall(Mul(q as real, g));
      UnderPow52(q, g, t);
    } else {
      FromPow52(q, g, t);
    }
  }

  lemma EpsIsSmall(x: real)
    requires x > 0.0
    ensures EPS * x < x
  {
  }

  /** A count is a number of the format too: the quotient itself from 2^52 on, and small under that. */
  lemma CountInFormat(n: real)
    requires InFormat(BINARY64, n)
    ensures InFormat(BINARY64, LlRound(n) as real)
    ensures LlRound(n) as real == n || Magnitude(LlRound(n)) <= 4503599627370496
  {
    hide Mul;
    hide Pow2;
    hide Units;
    FullValues();
    Exp2Values();
    var e := LastPlace(BINARY64, Abs(n));
    if e < 0 {
      Exp2Grows(e + 53, 52);
      Integers(LlRound(n));
    } else {
      var m: int :| Times(m, Exp2(e), n);
      UnitsAre(m, m, e);
    }
  }

  lemma QuotientMirrored(x: real, grid: real)
    requires grid > 0.0
    ensures Div(-x, grid) == -Div(x, grid) && CountOf(-x, grid) == -CountOf(x, grid)
    ensures Nearest(BINARY64, Div(-x, grid)) == -Nearest(BINARY64, Div(x, grid))
  {
    hide Mul;
    hide Div;
    hide Nearest;
    DivMul(x, grid);
    MulNeg(Div(x, grid), grid);
    DivIs(-x, -Div(x, grid), grid);
    NearestMirrored(BINARY64, Div(x, grid));
  }

  lemma StoredMirrored(q: int, g: real)
    ensures Stored(-q, g) == -Stored(q, g)
    ensures FloatKeeps(-q, g) <==> FloatKeeps(q, g)
  {
    hide Mul;
    hide Nearest;
    hide EvenTimes;
    hide Pow2;
    hide Exp2;
    MulNeg(q as real, g);
    NearestMirrored(BINARY64, Mul(q as real, g));
    var e := LastPlace(BINARY64, Abs(q as real));
    EvenMirrored(q as real, Exp2(e));
    EvenMirrored(-q as real, Exp2(e));
  }

  lemma EvenMirrored(x: real, u: real)
    ensures EvenTimes(x, u) ==> EvenTimes(-x, u)
  {
    hide Mul;
    if EvenTimes(x, u) {
      var m: int :| m % 2 == 0 && Times(m, u, x);
      MulNeg(m as real, u);
      assert Times(-m, u, -x);
    }
  }

  // --- As the platform computes it ---

  lemma CountsOfReals(r: Rounding, x: real, grid: real)
    requires r.Ieee() && grid > 0.0
    ensures r.GridQ(Finite(x), grid) ==
              if Abs(Nearest(BINARY64, Div(x, grid))) < Exp2(1024) then CountOf(x, grid) else 0
    ensures r.Countable(Finite(x), grid) ==>
              var n := Nearest(BINARY64, Div(x, grid)); Abs(n) < Exp2(1024) ==> -Exp2(63) <= n < Exp2(63)
  {
    hide Mul;
    hide Div;
    hide Nearest;
    hide Exp2;
    var t := Div(x, grid);
    assert r.Asked(t);
  }

  lemma NearestAtMost(f: Format, x: real)
    ensures Abs(Nearest(f, x) - x) <= Abs(x) && Abs(Nearest(f, x)) <= 2.0 * Abs(x)
  {
    hide Mul;
    hide Nearest;
    MulUnit(Ulp(f, x));
    assert Times(0, Ulp(f, x), 0.0);
    NearestWhole(f, x, 0.0);
  }

  lemma Countings()
    ensures Exp2(63) == 9223372036854775808.0 && 4.0 * Exp2(63) < Exp2(1024)
  {
    hide Mul;
    hide Exp2;
    hide Pow2;
    Exp2Is(63);
    WordValue();
    Exp2Step(63);
    Exp2Step(64);
    Exp2Step(65);
    Exp2Grows(66, 1024);
  }

  lemma WordValue()
    ensures Pow2(63) == 9223372036854775808
  {
    FullValues();
    Pow2Sum(53, 10);
    assert Pow2(10) == 1024;
  }

  /** A count is an int64 and a number of binary64, and a value that counts is finite. */
  lemma Counted(r: Rounding, v: Double, grid: real)
    requires r.Ieee() && grid > 0.0 && r.Countable(v, grid)
    ensures var q := r.GridQ(v, grid);
            && -0x8000_0000_0000_0000 <= q < 0x8000_0000_0000_0000 && InFormat(BINARY64, q as real)
            && (q != 0 ==> v.Finite? && q == CountOf(v.x, grid))
  {
    hide Mul;
    hide Pow2;
    hide Div;
    hide Nearest;
    hide LlRound;
    hide InFormat;
    hide Exp2;
    Countings();
    FullValues();
    Integers(0);
    if v.Finite? {
      var n := Nearest(BINARY64, Div(v.x, grid));
      CountsOfReals(r, v.x, grid);
      NearestInFormat(BINARY64, Div(v.x, grid));
      CountInFormat(n);
    }
  }

  /** What the decoder stores. */
  lemma StoredByPlatform(r: Rounding, q: int, grid: real)
    requires r.Ieee() && InFormat(BINARY64, q as real) && -0x8000_0000_0000_0000 <= q < 0x8000_0000_0000_0000
    ensures r.FromGrid(q, grid) == Round(BINARY64, Mul(q as real, grid))
  {
    hide Mul;
    hide Nearest;
    hide InFormat;
    hide Exp2;
    Countings();
    NearestExact(BINARY64, q as real);
    assert r.Asked(q as real) && r.Asked(Mul(q as real, grid));
  }

  /** How the stored value of a positive count is counted. */
  lemma StoredCounts(q: int, g: real)
    requires 1 <= q <= 0x8000_0000_0000_0000 && g > 0.0 && InFormat(BINARY64, q as real) && InFormat(BINARY64, g)
    ensures Stored(q, g) > 0.0 && Abs(Nearest(BINARY64, Div(Stored(q, g), g))) < Exp2(1024)
    ensures 2 * Magnitude(CountOf(Stored(q, g), g) - q) <= 3 * Magnitude(q)
    ensures CountOf(Stored(q, g), g) == q <==> FloatKeeps(q, g)
  {
    hide Mul;
    hide Div;
    hide Nearest;
    hide Stored;
    hide FloatKeeps;
    hide InFormat;
    hide Exp2;
    var t := WhereItLies(q, g);
    StoredNear(q, g);
    EpsIsSmall(Mul(q as real, g));
    EpsIsSmall(q as real);
    FloatRecounts(q, g);
    NearestAtMost(BINARY64, t);
    CountOfSpread(q, t, Nearest(BINARY64, t));
    Countings();
  }

  lemma CountOfSpread(q: int, t: real, n: real)
    requires q >= 1 && Abs(t - q as real) <= EPS * q as real && Abs(n - t) <= Abs(t)
    ensures 2 * Magnitude(LlRound(n) - q) <= 3 * q
  {
    hide LlRound;
    LlRoundIsNear(n);
    if LlRound(n) > 2 * q {
      assert LlRound(n) >= 2 * q + 1;
    }
  }

  /** And of a negative one. */
  lemma StoredCountsAnySign(q: int, g: real)
    requires 1 <= Magnitude(q) <= 0x8000_0000_0000_0000 && g > 0.0
    requires InFormat(BINARY64, q as real) && InFormat(BINARY64, g)
    ensures Stored(q, g) != 0.0 && Abs(Nearest(BINARY64, Div(Stored(q, g), g))) < Exp2(1024)
    ensures 2 * Magnitude(CountOf(Stored(q, g), g) - q) <= 3 * Magnitude(q)
    ensures CountOf(Stored(q, g), g) == q <==> FloatKeeps(q, g)
  {
    hide Mul;
    hide Div;
    hide Nearest;
    hide Stored;
    hide CountOf;
    hide FloatKeeps;
    hide InFormat;
    hide Exp2;
    if q > 0 {
      StoredCounts(q, g);
    } else {
      FormatMirrored(BINARY64, q as real);
      assert (-q) as real == -(q as real);
      StoredCounts(-q, g);
      StoredMirrored(-q, g);
      QuotientMirrored(Stored(-q, g), g);
    }
  }

  lemma ZeroSteps(f: Format, g: real)
    requires g > 0.0 && f.p >= 1
    ensures Mul(0.0, g) == 0.0 && Nearest(f, 0.0) == 0.0 && Div(0.0, g) == 0.0 && Round(f, 0.0) == Finite(0.0)
  {
    hide Nearest;
    MulUnit(Ulp(f, 0.0));
    assert Times(0, Ulp(f, 0.0), 0.0);
    NearestExact(f, 0.0);
  }

  lemma NoneKeeps(g: real)
    requires g > 0.0
    ensures FloatKeeps(0, g)
  {
    hide Mul;
    hide Nearest;
    hide Pow2;
    ZeroSteps(BINARY64, g);
    assert Pow2(52) > 0;
  }

  /** None counts as none again, on a float slot and on an axis. */
  lemma NoneRecounts(r: Rounding, g: real)
    requires r.Ieee() && g > 0.0
    ensures r.FromGrid(0, g) == Finite(0.0) && r.Narrow(Finite(0.0)) == Finite(0.0)
    ensures r.RecountedFloat(0, g) == 0 && r.RecountedAxis(0, g) == 0
  {
    hide Mul;
    hide Div;
    hide Nearest;
    hide Round;
    ZeroSteps(BINARY64, g);
    ZeroSteps(BINARY32, g);
    assert r.Asked(0.0);
    assert 0 as real == 0.0;
  }

  /** A count decoded on a float slot counts as itself again if and only if the value stored for it is
      finite and FloatKeeps. */
  lemma FloatCountKeeps(r: Rounding, q: int, g: real)
    requires r.Ieee() && g > 0.0 && InFormat(BINARY64, g) && InFormat(BINARY64, q as real)
    requires -0x8000_0000_0000_0000 <= q < 0x8000_0000_0000_0000
    ensures r.RecountedFloat(q, g) == q <==> r.FromGrid(q, g).Finite? && FloatKeeps(q, g)
    ensures 2 * Magnitude(r.RecountedFloat(q, g) - q) <= 3 * Magnitude(q)
  {
    hide Mul;
    hide Div;
    hide Nearest;
    hide CountOf;
    hide FloatKeeps;
    hide InFormat;
    hide Exp2;
    if q == 0 {
      NoneRecounts(r, g);
      NoneKeeps(g);
    } else {
      StoredByPlatform(r, q, g);
      StoredCountsAnySign(q, g);
      CountsOfReals(r, Stored(q, g), g);
    }
  }

  /** Whether a float slot's value counts, once decoded, as it did at the server: for every double, every
      grid and every count a long long holds. */
  lemma FloatSnapsBackExactly(r: Rounding, v: Double, g: real)
    requires r.Ieee() && g > 0.0 && InFormat(BINARY64, g) && r.Countable(v, g)
    ensures var q := r.GridQ(v, g);
            && (r.RecountedFloat(q, g) == q <==> r.FromGrid(q, g).Finite? && FloatKeeps(q, g))
            && 2 * Magnitude(r.RecountedFloat(q, g) - q) <= 3 * Magnitude(q)
  {
    Counted(r, v, g);
    FloatCountKeeps(r, r.GridQ(v, g), g);
  }

  // --- And on an axis ---

  lemma SignOfCount(x: real, g: real)
    requires g > 0.0 && x <= 0.0
    ensures CountOf(x, g) <= 0
  {
    hide Mul;
    hide Div;
    hide Nearest;
    var t := Div(x, g);
    DivMul(x, g);
    MulUnit(g);
    MulCancelLe(t, 0.0, g);
    MulUnit(Ulp(BINARY64, t));
    assert Times(0, Ulp(BINARY64, t), 0.0);
    NearestWhole(BINARY64, t, 0.0);
  }

  lemma SmallestSingle(v: real)
    requires InFormat(BINARY32, v) && v > 0.0
    ensures v >= Exp2(-149)
  {
    hide Mul;
    var u := Ulp(BINARY32, v);
    var m: int :| Times(m, u, v);
    MulUnit(u);
    MulCancelLt(0.0, m as real, u);
    MulLe(1.0, m as real, u);
    Exp2Grows(-149, LastPlace(BINARY32, v));
  }

  lemma Halved()
    ensures Exp2(-1022) <= Exp2(-149) / 2.0 && 4.0 * Exp2(128) < Exp2(1024)
  {
    Exp2Grows(-1022, -150);
    Exp2Step(-150);
    Exp2Step(128);
    Exp2Step(129);
    Exp2Step(130);
    Exp2Grows(131, 1024);
  }

  /** What a counted axis is stored as in binary64: a rounding away, and in range. */
  lemma AxisSteps(v: real, q: int, g: real)
    requires InFormat(BINARY32, v) && 0.0 < v < Exp2(128) && g > 0.0 && q >= 1 && q == CountOf(v, g)
    ensures Steps(v, q, g, Mul(q as real, g), Stored(q, g)) && 0.0 < Stored(q, g) < Exp2(1024)
  {
    hide Mul;
    hide Div;
    hide Nearest;
    hide CountOf;
    hide InFormat;
    hide Exp2;
    var Q := Mul(q as real, g);
    CountedNear(v, g, q);
    MulUnit(g);
    MulLe(1.0, q as real, g);
    SmallestSingle(v);
    Halved();
    ProductNear(Q);
  }

  /** So it is narrowed to something that counts as it did. */
  lemma AxisStored(v: real, q: int, g: real)
    requires InFormat(BINARY32, v) && 0.0 < v < Exp2(128) && g > 0.0 && q == CountOf(v, g)
    requires 1 <= q <= 0x8000_0000_0000_0000
    ensures 0.0 < Stored(q, g) < Exp2(1024)
    ensures var y := Nearest(BINARY32, Stored(q, g));
            y > 0.0 && CountOf(y, g) == q && Abs(Nearest(BINARY64, Div(y, g))) < Exp2(1024)
  {
    hide Mul;
    hide Div;
    hide Nearest;
    hide LlRound;
    hide Steps;
    hide InFormat;
    hide Exp2;
    hide Stored;
    var y := Nearest(BINARY32, Stored(q, g));
    AxisSteps(v, q, g);
    AxisRecounts(v, q, g, Mul(q as real, g), Stored(q, g));
    if y <= 0.0 {
      SignOfCount(y, g);
    }
    LlRoundIsNear(Nearest(BINARY64, Div(y, g)));
    Countings();
  }

  lemma AxisStoredAnySign(v: real, q: int, g: real)
    requires InFormat(BINARY32, v) && Abs(v) < Exp2(128) && g > 0.0 && q == CountOf(v, g)
    requires 1 <= Magnitude(q) <= 0x8000_0000_0000_0000
    ensures Stored(q, g) != 0.0 && Abs(Stored(q, g)) < Exp2(1024)
    ensures var y := Nearest(BINARY32, Stored(q, g));
            y != 0.0 && CountOf(y, g) == q && Abs(Nearest(BINARY64, Div(y, g))) < Exp2(1024)
  {
    hide Mul;
    hide Div;
    hide Nearest;
    hide Stored;
    hide CountOf;
    hide InFormat;
    hide Exp2;
    QuotientMirrored(v, g);
    if q > 0 {
      if v <= 0.0 {
        SignOfCount(v, g);
      }
      AxisStored(v, q, g);
    } else {
      if v >= 0.0 {
        SignOfCount(-v, g);
      }
      FormatMirrored(BINARY32, v);
      AxisStored(-v, -q, g);
      StoredMirrored(-q, g);
      NearestMirrored(BINARY32, Stored(-q, g));
      QuotientMirrored(Nearest(BINARY32, Stored(-q, g)), g);
    }
  }

  /** A Vector3 axis counts, once decoded, as it did at the server, for every binary32 value, every grid and
      every count a long long holds, if and only if what it decodes to is finite; else it counts 0, which
      it did not. */
  lemma AxisSnapsBackExactly(r: Rounding, v: Double, g: real)
    requires r.Ieee() && g > 0.0 && Held(BINARY32, v) && r.Countable(v, g)
    ensures var q := r.GridQ(v, g);
            && r.RecountedAxis(q, g) == (if r.Narrow(r.FromGrid(q, g)).Finite? then q else 0)
            && (q == 0 ==> r.Narrow(r.FromGrid(q, g)).Finite?)
  {
    hide Mul;
    hide Div;
    hide Nearest;
    hide CountOf;
    hide InFormat;
    hide Exp2;
    var q := r.GridQ(v, g);
    Counted(r, v, g);
    if q == 0 {
      NoneRecounts(r, g);
    } else {
      AxisStoredAnySign(v.x, q, g);
      StoredByPlatform(r, q, g);
      var d := Stored(q, g);
      assert r.Asked(d);
      CountsOfReals(r, Nearest(BINARY32, d), g);
    }
  }

  // --- Where nothing can go wrong, and where it does ---

  /** Every count a long long holds is stored in range on a grid of 2^60 or less. */
  lemma GridInRange(q: int, g: real)
    requires 0.0 < g <= Exp2(60) && Magnitude(q) <= 0x8000_0000_0000_0000
    ensures Abs(Stored(q, g)) < Exp2(128) < Exp2(1024) && Abs(Nearest(BINARY32, Stored(q, g))) < Exp2(128)
  {
    hide Mul;
    hide Nearest;
    hide Exp2;
    hide Pow2;
    var Q := Mul(q as real, g);
    NearestAtMost(BINARY64, Q);
    NearestAtMost(BINARY32, Stored(q, g));
    AbsMul(q as real, g);
    WordValue();
    MulLe(Abs(q as real), Full(63), g);
    MulSwap(Full(63), g);
    MulLe(g, Exp2(60), Full(63));
    MulSwap(Full(63), Exp2(60));
    Exp2Up(60, 63);
    Exp2Step(123);
    Exp2Step(124);
    Exp2Grows(125, 127);
    Exp2Step(127);
    Exp2Step(128);
    Exp2Grows(129, 1024);
  }

  /** Up to 2^51 steps the condition on a float slot holds. */
  lemma FewKeep(q: int, g: real)
    requires 1 <= q <= Pow2(51) && g > 0.0 && InFormat(BINARY64, g)
    ensures FloatKeeps(q, g)
  {
    hide Mul;
    hide Div;
    hide Nearest;
    hide LlRound;
    hide InFormat;
    hide Pow2;
    FullValues();
    Integers(q);
    StoredNear(q, g);
    EpsIsSmall(Mul(q as real, g));
    if q < Pow2(51) {
      var t := WhereItLies(q, g);
      FewStepsKeep(q, g, t);
    } else {
      PowerTimes(q, 51, g);
      NearestExact(BINARY64, Mul(q as real, g));
    }
  }

  lemma FewKeepAnySign(q: int, g: real)
    requires Magnitude(q) <= 0x8_0000_0000_0000 && g > 0.0 && InFormat(BINARY64, g)
    ensures FloatKeeps(q, g)
  {
    hide FloatKeeps;
    hide Pow2;
    FullValues();
    if q > 0 {
      FewKeep(q, g);
    } else if q < 0 {
      FewKeep(-q, g);
      StoredMirrored(-q, g);
    } else {
      NoneKeeps(g);
    }
  }

  /** Over a grid of at most 2^60 every binary32 axis that counts at all counts alike once decoded, with no bound
      on how many steps it is from zero. */
  lemma AxisSnapsBack(r: Rounding, v: Double, g: real)
    requires r.Ieee() && 0.0 < g <= Exp2(60) && Held(BINARY32, v) && r.Countable(v, g)
    ensures r.RecountedAxis(r.GridQ(v, g), g) == r.GridQ(v, g)
  {
    hide Mul;
    hide Div;
    hide Nearest;
    hide Stored;
    hide CountOf;
    hide InFormat;
    hide Exp2;
    var q := r.GridQ(v, g);
    Counted(r, v, g);
    GridInRange(q, g);
    AxisSnapsBackExactly(r, v, g);
    if q == 0 {
      NoneRecounts(r, g);
    } else {
      AxisStoredAnySign(v.x, q, g);
      RangeStored(r, q, g);
    }
  }

  lemma RangeStored(r: Rounding, q: int, g: real)
    requires r.Ieee() && InFormat(BINARY64, q as real)
    requires -0x8000_0000_0000_0000 <= q < 0x8000_0000_0000_0000
    requires Stored(q, g) != 0.0 && Abs(Stored(q, g)) < Exp2(1024)
    ensures r.FromGrid(q, g) == Finite(Stored(q, g))
    ensures r.Narrow(r.FromGrid(q, g)) == Round(BINARY32, Stored(q, g))
  {
    hide Mul;
    hide Nearest;
    hide InFormat;
    hide Exp2;
    StoredByPlatform(r, q, g);
    assert r.Asked(Stored(q, g));
  }

  /** On a float slot they do to 2^51 steps. */
  lemma FloatSnapsBack(r: Rounding, v: Double, g: real)
    requires r.Ieee() && 0.0 < g <= Exp2(60) && InFormat(BINARY64, g) && r.Countable(v, g)
    requires Magnitude(r.GridQ(v, g)) <= 0x8_0000_0000_0000
    ensures r.RecountedFloat(r.GridQ(v, g), g) == r.GridQ(v, g)
  {
    hide Mul;
    hide Div;
    hide Nearest;
    hide Stored;
    hide CountOf;
    hide InFormat;
    hide FloatKeeps;
    hide Exp2;
    var q := r.GridQ(v, g);
    Counted(r, v, g);
    FloatSnapsBackExactly(r, v, g);
    FewKeepAnySign(q, g);
    if q == 0 {
      NoneRecounts(r, g);
    } else {
      GridInRange(q, g);
      StoredCountsAnySign(q, g);
      RangeStored(r, q, g);
    }
  }

  /** Rounding by its last place. */
  lemma NearestAt(x: real, e: int, t: real)
    requires e >= -1074 && 0.0 <= x < Exp2(e + 53) && x >= Exp2(e + 52) && x == Mul(t, Exp2(e))
    ensures Nearest(BINARY64, x) == Mul(HalfEven(t) as real, Exp2(e))
  {
    hide Mul;
    hide Div;
    hide Exp2;
    hide HalfEven;
    LastPlaceIs(BINARY64, x, e);
    DivIs(x, t, Exp2(e));
  }

  lemma HalfRounds(x: real)
    requires 2251799813685248.0 <= x < 4503599627370496.0
    ensures Nearest(BINARY64, x) == HalfEven(2.0 * x) as real / 2.0
  {
    hide Mul;
    hide Div;
    hide Nearest;
    hide HalfEven;
    Exp2Values();
    Doubled(x);
    var k: real := HalfEven(2.0 * x) as real;
    NearestAt(x, -1, 2.0 * x);
    MulSwap(k, 0.5);
    MulUnit(k);
  }

  lemma TwiceRounds(x: real)
    requires 9007199254740992.0 <= x < 18014398509481984.0
    ensures Nearest(BINARY64, x) == HalfEven(x / 2.0) as real * 2.0
  {
    hide Div;
    hide Nearest;
    hide HalfEven;
    hide Exp2;
    Exp2Values();
    Exp2Step(53);
    assert Exp2(1) == 2.0 by {
      Exp2Is(1);
      assert Pow2(1) == 2;
    }
    NearestAt(x, 1, x / 2.0);
  }

  lemma Thirds(x: real)
    ensures Div(x, 3.0) == x / 3.0 && Mul(x, 3.0) == 3.0 * x
  {
  }

  /** A float slot's count does move: on a grid of 3 the double 10500000000000002 counts 3500000000000001
      steps, is stored a whole unit past them, and counts one more from there. */
  lemma FloatSlotDrifts(r: Rounding)
    requires r.Ieee()
    ensures var v := Finite(10500000000000002.0);
            && Held(BINARY64, v) && InFormat(BINARY64, 3.0) && r.Countable(v, 3.0)
            && r.GridQ(v, 3.0) == 3500000000000001 && r.FromGrid(3500000000000001, 3.0) == Finite(10500000000000004.0)
            && r.RecountedFloat(3500000000000001, 3.0) == 3500000000000002
            && !FloatKeeps(3500000000000001, 3.0)
  {
    hide Mul;
    hide Div;
    hide Nearest;
    hide InFormat;
    hide FloatKeeps;
    hide Exp2;
    hide Pow2;
    var v, q, d := 10500000000000002.0, 3500000000000001, 10500000000000004.0;
    FullValues();
    Countings();
    Integers(3);
    Integers(q);
    TwiceInFormat();
    Thirds(v);
    Thirds(d);
    Thirds(q as real);
    HalfRounds(v / 3.0);
    HalfRounds(d / 3.0);
    TwiceRounds(10500000000000003.0);
    CountsOfReals(r, v, 3.0);
    CountsOfReals(r, d, 3.0);
    StoredByPlatform(r, q, 3.0);
    FloatCountKeeps(r, q, 3.0);
    assert r.Asked(v / 3.0);
  }

  /** The first two counts of a grid of 3, which the drift comes to. */
  lemma ZeroAndOne(r: Rounding, g: real)
    requires r.Ieee() && g == 3.0
    ensures r.Countable(Finite(0.0), g) && r.GridQ(Finite(0.0), g) == 0 && r.FromGrid(0, g) == Finite(0.0)
    ensures Held(BINARY64, Finite(g)) && r.FromGrid(1, g) == Finite(3.0)
  {
    hide Mul;
    hide Div;
    hide Nearest;
    hide InFormat;
    hide Exp2;
    hide Pow2;
    FullValues();
    Countings();
    Integers(1);
    Integers(3);
    ZeroSteps(BINARY64, g);
    NoneRecounts(r, g);
    CountsOfReals(r, 0.0, g);
    MulUnit(g);
    StoredByPlatform(r, 1, g);
    NearestExact(BINARY64, 3.0);
    assert r.Asked(0.0);
  }

  lemma TwiceInFormat()
    ensures Held(BINARY64, Finite(10500000000000002.0))
  {
    FullValues();
    Countings();
    assert Exp2(1) == 2.0;
    FitsFormat(BINARY64, 5250000000000001, 1, 10500000000000002.0);
  }

  /** And an axis is lost where narrowing overflows: the largest binary32 value on a grid of 2^127 counts 2
      steps, which is infinite in binary32. */
  lemma AxisOverflows(r: Rounding)
    requires r.Ieee()
    ensures var v, g := Finite(Exp2(128) - Exp2(104)), Exp2(127);
            && Held(BINARY32, v) && r.Countable(v, g) && r.GridQ(v, g) == 2
            && r.Narrow(r.FromGrid(2, g)) == Inf(false) && r.RecountedAxis(2, g) == 0
  {
    hide Mul;
    hide Div;
    hide Nearest;
    hide InFormat;
    hide LlRound;
    var v, g := Exp2(128) - Exp2(104), Exp2(127);
    LargestSingle();
    Exp2Step(127);
    MulUnit(g);
    CountsAs(v, g, 2);
    CountsOfReals(r, v, g);
    LlRoundIsNear(Nearest(BINARY64, Div(v, g)));
    Countings();
    Integers(2);
    StoredByPlatform(r, 2, g);
    PowerInFormat(BINARY64, 128);
    PowerInFormat(BINARY32, 128);
    NearestExact(BINARY64, Exp2(128));
    NearestExact(BINARY32, Exp2(128));
    Exp2Grows(128, 1023);
    assert r.Asked(Exp2(128)) && r.Asked(Div(v, g));
  }

  lemma PowerInFormat(f: Format, e: int)
    requires f.p >= 1 && e >= f.emin
    ensures InFormat(f, Exp2(e))
  {
    hide Mul;
    MulUnit(Exp2(e));
    assert Times(1, Exp2(e), Exp2(e));
    FitsFormat(f, 1, e, Exp2(e));
  }

  lemma LargestSingle()
    ensures Held(BINARY32, Finite(Exp2(128) - Exp2(104))) && Exp2(104) < Exp2(128) / 1000000.0
  {
    hide Mul;
    hide Exp2;
    FullValues();
    Exp2Up(104, 24);
    MulSub(16777216.0, 1.0, Exp2(104));
    MulUnit(Exp2(104));
    FitsFormat(BINARY32, 16777215, 104, Exp2(128) - Exp2(104));
    Scaled(Exp2(104));
  }
}
