/** Counting in grid steps and in angle steps, as both ends do. */
module Numbers {
  import opened Reals
  import opened Floats

  function Magnitude(q: int): nat {
    if q >= 0 then q else -q
  }

  /** std::llround: to the nearest integer, halfway cases away from zero. */
  function LlRound(x: real): int {
    if x >= 0.0 then (x + 0.5).Floor else -((-x + 0.5).Floor)
  }

  /** The platform's arithmetic: a real result rounded to binary64, and a double narrowed to binary32. */
  datatype Rounding = Rounding(double: real -> Double, single: real -> Double) {

    predicate Asked(x: real) {
      true
    }

    /** It is that of IEEE 754. */
    ghost predicate Ieee() {
      forall x: real {:trigger Asked(x)} ::
          Asked(x) ==> double(x) == Round(BINARY64, x) && single(x) == Round(BINARY32, x)
    }

    function Narrow(d: Double): Double {
      match d
      case Finite(x) => single(x)
      case NaN(_) => NaN(0)
      case _ => d
    }

    /** How many grid steps v is, as both ends count them. */
    function GridQ(v: Double, grid: real): int
      requires grid > 0.0
    {
      match v
      case Finite(x) =>
        var n := double(Div(x, grid));
        if n.Finite? then LlRound(n.x) else 0
      case _ => 0
    }

    /** A long long holds the count, which is what std::llround asks. */
    predicate Countable(v: Double, grid: real)
      requires grid > 0.0
    {
      v.Finite? ==>
        var n := double(Div(v.x, grid));
        n.Finite? ==> -Exp2(63) <= n.x < Exp2(63)
    }

    /** The value q grid steps stand for on a float slot. */
    function FromGrid(q: int, grid: real): Double {
      double(Mul(RealOf(double(q as real)), grid))
    }

    /** What a value q grid steps decode to counts as when it is the base of the next step: on a
        float slot, and on an axis of a Vector3, which is stored narrowed. */
    function RecountedFloat(q: int, grid: real): int
      requires grid > 0.0
    {
      GridQ(FromGrid(q, grid), grid)
    }

    function RecountedAxis(q: int, grid: real): int
      requires grid > 0.0
    {
      GridQ(Narrow(FromGrid(q, grid)), grid)
    }
  }

  // --- The snap ---

  lemma RoundsTo(n: real, q: int)
    requires Abs(n - q as real) < 0.5
    ensures LlRound(n) == q
  {
  }

  lemma LlRoundIsNear(n: real)
    ensures -0.5 <= LlRound(n) as real - n <= 0.5
  {
  }

  /** The snap is to the nearest multiple: in exact arithmetic never more than half a step off. */
  lemma SnapWithinHalf(v: real, grid: real)
    requires grid > 0.0
    ensures Abs(Mul(LlRound(Div(v, grid)) as real, grid) - v) <= grid / 2.0
  {
    hide Mul;
    hide Div;
    hide LlRound;
    var t := Div(v, grid);
    var q: real := LlRound(t) as real;
    DivMul(v, grid);
    LlRoundIsNear(t);
    OffBy(q, t, grid);
    MulLe(Abs(q - t), 0.5, grid);
    MulUnit(grid);
  }

  // --- Angles ---

  /** The shortest way round from one angle step to another. The source masks with full - 1, which
      on two's complement is the remainder that is never negative. */
  function AngleStep(to: int, from: int, bits: nat): int {
    var full := Pow2(bits);
    (to - from + full / 2) % full - full / 2
  }

  /** y is x plus whole turns. */
  ghost predicate SameTurn(x: int, y: int, full: nat) {
    exists k: int :: y == x + k * full
  }

  lemma ModIsWholeTurns(x: int, full: nat)
    requires full > 0
    ensures x % full == x + (-(x / full)) * full
  {
  }

  lemma MultipleInside(k: int, full: int)
    requires full > 0
    ensures k == 0 || k * full >= full || k * full <= -full
  {
    if k >= 1 {
      assert (k - 1) * full >= 0;
    } else if k <= -1 {
      assert (k + 1) * full <= 0;
    }
  }

  lemma {:induction false} Pow2Even(bits: nat)
    requires bits >= 1
    ensures Pow2(bits) >= 2 && Pow2(bits) % 2 == 0
  {
    if bits > 1 {
      Pow2Even(bits - 1);
    }
  }

  lemma AngleStepTurns(to: int, from: int, bits: nat) returns (k: int)
    requires bits >= 1
    ensures AngleStep(to, from, bits) == to - from + k * Pow2(bits)
    ensures -(Pow2(bits) / 2) <= AngleStep(to, from, bits) < Pow2(bits) / 2
  {
    Pow2Even(bits);
    ModIsWholeTurns(to - from + Pow2(bits) / 2, Pow2(bits));
    k := -((to - from + Pow2(bits) / 2) / Pow2(bits));
  }

  /** AngleStep is the one step in [-full/2, full/2) that is to - from up to whole turns, and no
      step that gets there is shorter. */
  lemma AngleStepShortest(to: int, from: int, bits: nat, step: int)
    requires bits >= 1
    ensures var full := Pow2(bits);
            && SameTurn(to - from, AngleStep(to, from, bits), full)
            && -(full / 2) <= AngleStep(to, from, bits) < full / 2
            && (SameTurn(to - from, step, full) && -(full / 2) <= step < full / 2
                ==> step == AngleStep(to, from, bits))
            && (SameTurn(to - from, step, full) ==> Magnitude(AngleStep(to, from, bits)) <= Magnitude(step))
  {
    var full := Pow2(bits);
    Pow2Even(bits);
    var k := AngleStepTurns(to, from, bits);
    if SameTurn(to - from, step, full) {
      var j: int :| step == to - from + j * full;
      Apart(step, AngleStep(to, from, bits), j, k, full);
    }
  }

  /** Two steps a whole number of turns apart are the same or a turn away. */
  lemma Apart(step: int, s: int, j: int, k: int, full: int)
    requires full > 0 && step - s == j * full - k * full
    ensures step == s || step - s >= full || step - s <= -full
  {
    assert step - s == (j - k) * full;
    MultipleInside(j - k, full);
  }

  /** The decoder's masked add of any step that is to - from up to whole turns gives back to. */
  lemma AngleStepRecovers(to: int, from: int, bits: nat)
    requires bits >= 1 && 0 <= to < Pow2(bits)
    ensures (from + AngleStep(to, from, bits)) % Pow2(bits) == to
  {
    var full := Pow2(bits);
    var k := AngleStepTurns(to, from, bits);
    var sum := from + AngleStep(to, from, bits);
    ModIsWholeTurns(sum, full);
    Apart(sum % full, to, k, sum / full, full);
  }
}
