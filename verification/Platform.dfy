/** A platform that keeps every promise the codecs ask of theirs, with the two formats of IEEE 754 and their
    interchange encodings (section 3.4), and Variant conversions that give 0 for what is no number. */
module Platform {
  import opened Wire
  import opened Reals
  import opened Floats
  import opened Numbers
  import opened Values
  import opened SlotCodec

  /** What there is of a format: one NaN will do. */
  ghost predicate Value(f: Format, d: Double) {
    Held(f, d) && (d.NaN? ==> d.payload == 0)
  }

  // --- Bit patterns ---

  /** A significand's bits but the first, and the pattern of infinity: as many of them as exponents. */
  function Fraction(f: Format): nat
    requires f.p >= 2
    ensures Fraction(f) > 0
  {
    Pow2(f.p - 1)
  }

  function Exponents(f: Format): nat
    requires f.emax >= f.emin + f.p
  {
    f.emax - f.p - f.emin + 2
  }

  predicate Proper(f: Format) {
    f.p >= 2 && f.emax >= f.emin + f.p
  }

  function Unsigned(f: Format, k: nat, m: nat): nat
    requires Proper(f)
  {
    k * Fraction(f) + m
  }

  function Infinity(f: Format): nat
    requires Proper(f)
  {
    Exponents(f) * Fraction(f)
  }

  function SignBit(f: Format): nat
    requires Proper(f)
  {
    (Exponents(f) + 1) * Fraction(f)
  }

  function SizeBits(f: Format, x: real): nat
    requires Proper(f) && x >= 0.0
  {
    var e := LastPlace(f, x);
    Unsigned(f, e - f.emin, Magnitude(Div(x, Exp2(e)).Floor))
  }

  function Bits(f: Format, d: Double): nat
    requires Proper(f)
  {
    match d
    case Finite(x) => if x >= 0.0 then SizeBits(f, x) else SignBit(f) + SizeBits(f, -x)
    case NegZero => SignBit(f)
    case Inf(neg) => if neg then SignBit(f) + Infinity(f) else Infinity(f)
    case NaN(_) => Infinity(f) + 1
  }

  function Size(f: Format, bits: nat): real
    requires Proper(f)
  {
    var field := bits / Fraction(f);
    var k := if field == 0 then 0 else field - 1;
    Mul((bits - k * Fraction(f)) as real, Exp2(f.emin + k))
  }

  function Number(f: Format, bits: nat): Double
    requires Proper(f)
  {
    var neg := bits >= SignBit(f);
    var size := if neg then bits - SignBit(f) else bits;
    if size > Infinity(f) then NaN(0)
    else if size == Infinity(f) then Inf(neg)
    else if neg then (if size == 0 then NegZero else Finite(-Size(f, size)))
    else Finite(Size(f, size))
  }

  /** The field and the rest of it, split again. */
  lemma Splits(f: Format, k: nat, m: nat)
    requires Proper(f) && m < 2 * Fraction(f) && (k > 0 ==> m >= Fraction(f))
    ensures Size(f, Unsigned(f, k, m)) == Mul(m as real, Exp2(f.emin + k))
    ensures m > 0 ==> Unsigned(f, k, m) > 0
  {
    hide Mul;
    var n := Fraction(f);
    if m >= n {
      Quotient(k + 1, m - n, n);
    } else {
      Quotient(0, m, n);
    }
  }

  lemma Quotient(k: nat, r: nat, n: nat)
    requires r < n
    ensures (k * n + r) / n == k
  {
    var x := k * n + r;
    ModIsWholeTurns(x, n);
    assert x % n - r == (k - x / n) * n;
    MultipleInside(k - x / n, n);
  }

  lemma BelowInfinity(f: Format, k: nat, m: nat)
    requires Proper(f) && m < 2 * Fraction(f) && k + 2 <= Exponents(f)
    ensures Unsigned(f, k, m) < Infinity(f)
  {
    assert (k + 2) * Fraction(f) <= Exponents(f) * Fraction(f);
  }

  lemma PatternRange(f: Format)
    requires Proper(f)
    ensures 0 < Infinity(f) && Infinity(f) + 1 < SignBit(f) && SignBit(f) + Infinity(f) < 2 * SignBit(f)
  {
    assert Fraction(f) >= 2;
  }

  /** A number's significand at its last place. */
  lemma Significand(f: Format, x: real) returns (k: nat, m: nat)
    requires Proper(f) && x >= 0.0 && InFormat(f, x) && x < Exp2(f.emax)
    ensures SizeBits(f, x) == Unsigned(f, k, m) && x == Mul(m as real, Exp2(f.emin + k))
    ensures m < 2 * Fraction(f) && (k > 0 ==> m >= Fraction(f))
    ensures k + 2 <= Exponents(f)
    ensures m > 0 <==> x > 0.0
  {
    hide Mul;
    hide Div;
    var e := LastPlace(f, x);
    var i: int :| Times(i, Exp2(e), x);
    DivIs(x, i as real, Exp2(e));
    MulUnit(Exp2(e));
    MulCancelLe(0.0, i as real, Exp2(e));
    k, m := e - f.emin, i;
    Exp2Up(e, f.p);
    FullStep(f.p);
    MulCancelLt(m as real, Full(f.p), Exp2(e));
    if k > 0 {
      Exp2Up(e, f.p - 1);
      MulCancelLe(Full(f.p - 1), m as real, Exp2(e));
    }
    if e + f.p > f.emax {
      Exp2Grows(f.emax, e - 1 + f.p);
    }
    if m > 0 {
      PosProduct(m as real, Exp2(e));
    }
  }

  lemma SizeComesBack(f: Format, x: real)
    requires Proper(f) && x >= 0.0 && InFormat(f, x) && x < Exp2(f.emax)
    ensures SizeBits(f, x) < Infinity(f) && Size(f, SizeBits(f, x)) == x && (SizeBits(f, x) == 0 ==> x == 0.0)
  {
    hide Mul;
    var k, m := Significand(f, x);
    Splits(f, k, m);
    BelowInfinity(f, k, m);
  }

  /** Every value comes back from its bits, and they fit the width. */
  lemma BitsGiveBack(f: Format, d: Double)
    requires Proper(f)
    ensures Value(f, d) ==> Bits(f, d) < 2 * SignBit(f) && Number(f, Bits(f, d)) == d
  {
    hide Size;
    hide SizeBits;
    hide Infinity;
    hide SignBit;
    hide InFormat;
    PatternRange(f);
    if Value(f, d) && d.Finite? {
      if d.x >= 0.0 {
        SizeComesBack(f, d.x);
      } else {
        FormatMirrored(f, d.x);
        SizeComesBack(f, -d.x);
      }
    }
  }

  // --- The rest of it ---

  const TURN := 65536.0

  function Turn(q: nat, bits: nat): Double {
    Finite(q as real / TURN)
  }

  function Quanta(d: Double, bits: nat): nat {
    if d.Finite? then (d.x * TURN).Floor % Pow2(bits) else 0
  }

  ghost function Here(): Engine {
    Engine(
      Rounding((x: real) => Round(BINARY64, x), (x: real) => Round(BINARY32, x)),
      (d: Double) => Value(BINARY64, d), (d: Double) => Value(BINARY32, d),
      (d: Double) => if Value(BINARY32, d) then Bits(BINARY32, d) else 0, (n: nat) => Number(BINARY32, n),
      (d: Double) => if Value(BINARY64, d) then Bits(BINARY64, d) else 0, (n: nat) => Number(BINARY64, n),
      (d: Double) => 0, (h: nat) => Finite(0.0),
      Quanta, Turn,
      (v: Variant) => [], (b: bytes) => Nil,
      (v: Variant) => if v.Float? then v.d else NegZero,
      (v: Variant) => if v.Int? then v.i else 0,
      (v: Variant) => if v.Vec3? then v.v else Vector3(NegZero, NegZero, NegZero),
      (v: Variant) => v.Bool? && v.b
    )
  }

  lemma Widths()
    ensures 2 * SignBit(BINARY32) == 0x1_0000_0000 && 2 * SignBit(BINARY64) == 0x1_0000_0000_0000_0000
  {
    Recounts.FullValues();
    assert Fraction(BINARY32) == 8388608;
    assert Fraction(BINARY64) == 4503599627370496;
  }

  lemma RoundedIsHeld(f: Format, x: real)
    requires Proper(f)
    ensures Value(f, Round(f, x))
  {
    hide Nearest;
    NearestInFormat(f, x);
  }

  lemma NarrowIsSingle(d: Double)
    ensures Value(BINARY32, Here().rounding.Narrow(d))
  {
    hide Round;
    if d.Finite? {
      RoundedIsHeld(BINARY32, d.x);
    }
  }

  /** A 65536th part of so few turns is a binary32 value. */
  lemma TurnIsSingle(q: nat)
    requires q < 65536
    ensures Round(BINARY32, q as real / TURN) == Finite(q as real / TURN)
  {
    hide Mul;
    hide Nearest;
    var x := q as real / TURN;
    Recounts.FullValues();
    Small();
    TurnTimes(q);
    FitsFormat(BINARY32, q, -16, x);
    NearestExact(BINARY32, x);
  }

  lemma Small()
    ensures Exp2(-16) == 1.0 / TURN && Exp2(BINARY32.emax) > 1.0
  {
    assert Exp2(-8) == 1.0 / 256.0;
    Exp2Grows(1, 128);
  }

  lemma TurnTimes(q: nat)
    ensures Mul(q as real, 1.0 / TURN) == q as real / TURN
  {
  }

  lemma TurnsGiveBack(q: nat, bits: nat)
    requires (bits == 8 || bits == 16) && q < Pow2(bits)
    ensures Quanta(Here().rounding.Narrow(Turn(q, bits)), bits) == q
  {
    hide Round;
    hide Pow2;
    TurnWidths();
    TurnIsSingle(q);
    TurnCounts(q, Pow2(bits));
  }

  lemma TurnWidths()
    ensures Pow2(16) == 65536 && Pow2(8) == 256
  {
  }

  lemma TurnCounts(q: nat, n: nat)
    requires q < n
    ensures (q as real / TURN * TURN).Floor % n == q
  {
    assert q as real / TURN * TURN == q as real;
  }

  /** The promises can be kept, */
  lemma PromisesCanBeKept()
    ensures Here().Sound()
  {
    hide Bits;
    hide Number;
    hide Round;
    hide Held;
    var e := Here();
    Widths();
    forall d: Double
      ensures e.bits32(d) < 0x1_0000_0000 && (e.isSingle(d) ==> e.value32(e.bits32(d)) == d)
      ensures e.bits64(d) < 0x1_0000_0000_0000_0000 && (e.isDouble(d) ==> e.value64(e.bits64(d)) == d)
      ensures e.isSingle(e.rounding.Narrow(d))
    {
      BitsGiveBack(BINARY32, d);
      BitsGiveBack(BINARY64, d);
      NarrowIsSingle(d);
    }
    forall q: nat, bits: nat | (bits == 8 || bits == 16) && q < Pow2(bits)
      ensures Quanta(e.rounding.Narrow(Turn(q, bits)), bits) == q
    {
      TurnsGiveBack(q, bits);
    }
  }

  /** And grid values fit there, on a float slot and on a Vector3's axes: 1 counts two steps of a half. */
  lemma GridValuesFit(kind: byte, v: Variant)
    requires kind == SK_FLOAT_GRID || kind == SK_VEC3_GRID
    requires v == if kind == SK_FLOAT_GRID then Float(Finite(1.0))
             else Vec3(Vector3(Finite(1.0), Finite(1.0), Finite(1.0)))
    ensures var c := Slot(kind, 0.5, QUANT_AUTO);
            c.Valid() && Fits(Here(), c, v) && GridSteps(Here(), c, Finite(1.0)) == 2
  {
    hide Round;
    hide Held;
    hide Exp2;
    hide Pow2;
    hide Bits;
    hide Number;
    hide Keeps;
    hide Engine.Sound;
    var e, c := Here(), Slot(kind, 0.5, QUANT_AUTO);
    PromisesCanBeKept();
    Halves();
    SafeGrids(e, c, v);
  }

  lemma Halves()
    ensures Held(BINARY64, Finite(0.5)) && Held(BINARY32, Finite(1.0)) && 0.5 <= Exp2(60)
    ensures Here().rounding.Countable(Finite(1.0), 0.5) && Here().rounding.GridQ(Finite(1.0), 0.5) == 2
  {
    hide Nearest;
    Recounts.Countings();
    Recounts.PowerInFormat(BINARY64, -1);
    Recounts.PowerInFormat(BINARY32, 0);
    Recounts.PowerInFormat(BINARY64, 1);
    Exp2Grows(-1, 60);
    Exp2Grows(1, 63);
    Exp2Grows(2, 128);
    Exp2Grows(2, 1024);
    assert Exp2(-1) == 0.5 && Exp2(0) == 1.0 && Exp2(1) == 2.0;
    assert Div(1.0, 0.5) == 2.0;
    NearestExact(BINARY64, 2.0);
  }
}
