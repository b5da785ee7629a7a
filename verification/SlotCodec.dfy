/** How one replicated property goes on the wire: whole, or as its step from the value the other
    end holds at its baseline. The server counts the step from its own raw value at that baseline,
    the client adds it to what it decoded there, so everything rests on the two counting alike. */
module SlotCodec {
  import opened Options
  import opened Wire
  import opened Reals
  import opened Floats
  import opened Numbers
  import opened Values
  import Recounts

  const SK_INT_STEP: byte := 32
  const SK_ANGLE16_STEP: byte := 33
  const SK_ANGLE8_STEP: byte := 34
  const SK_FLOAT_GRID: byte := 35
  const SK_VEC3_GRID: byte := 36
  const SK_TAGGED: byte := 37

  /** A slot's coding, the same on both ends. A kind under SK_INT_STEP is a tag: the slot goes whole
      as that tag's payload. */
  datatype Slot = Slot(kind: byte, grid: real, quant: byte) {
    predicate Gridded() {
      kind == SK_FLOAT_GRID || kind == SK_VEC3_GRID
    }

    ghost predicate Valid() {
      Gridded() ==> grid > 0.0 && Held(BINARY64, Finite(grid))
    }

    predicate Stepped() {
      SK_INT_STEP <= kind < SK_TAGGED
    }
  }

  function AngleBits(kind: byte): nat {
    if kind == SK_ANGLE16_STEP then 16 else 8
  }

  function AngleTag(kind: byte): byte {
    if kind == SK_ANGLE16_STEP then TAG_ANGLE16 else TAG_ANGLE8
  }

  predicate IsAngle(kind: byte) {
    kind == SK_ANGLE16_STEP || kind == SK_ANGLE8_STEP
  }

  /** A value's whole grid steps, as an int64. */
  function GridSteps(e: Engine, c: Slot, d: Double): int64
    requires c.Gridded() && c.Valid()
  {
    Wrap64(e.rounding.GridQ(d, c.grid))
  }

  /** A Vector3's, axis by axis. */
  function AxisSteps(e: Engine, c: Slot, v: Variant): (steps: seq<int64>)
    requires c.Gridded() && c.Valid()
    ensures |steps| == 3
  {
    var u := e.asVector(v);
    [GridSteps(e, c, u.x), GridSteps(e, c, u.y), GridSteps(e, c, u.z)]
  }

  function BaseInt(e: Engine, base: Option<Variant>): int64 {
    match base
    case Some(b) => e.asInt(b)
    case None => 0
  }

  function BaseSteps(e: Engine, c: Slot, base: Option<Variant>): int64
    requires c.Gridded() && c.Valid()
  {
    match base
    case Some(b) => GridSteps(e, c, e.asDouble(b))
    case None => 0
  }

  function BaseAxes(e: Engine, c: Slot, base: Option<Variant>): (steps: seq<int64>)
    requires c.Gridded() && c.Valid()
    ensures |steps| == 3
  {
    match base
    case Some(b) => AxisSteps(e, c, b)
    case None => [0, 0, 0]
  }

  function SlotCode(e: Engine, c: Slot, v: Variant, base: Option<Variant>, now: int64): bytes
    requires c.Valid()
  {
    if c.kind == SK_INT_STEP then Step(e.asInt(v), BaseInt(e, base))
    else if IsAngle(c.kind) then
      match base
      case None => Payload(e, AngleTag(c.kind), v, now)
      case Some(b) =>
        var bits := AngleBits(c.kind);
        Varint(AngleStep(e.Angle(v, bits), e.Angle(b, bits), bits))
    else if c.kind == SK_FLOAT_GRID then
      Step(GridSteps(e, c, e.asDouble(v)), BaseSteps(e, c, base))
    else if c.kind == SK_VEC3_GRID then
      Steps(AxisSteps(e, c, v), BaseAxes(e, c, base))
    else if c.kind == SK_TAGGED then Tagged(e, v, c.quant, now)
    else Payload(e, c.kind, v, now)
  }

  /** The float a count of steps lands as, and the axis, which is stored as binary32. */
  function GridFloat(e: Engine, c: Slot, steps: int64): Double {
    e.rounding.FromGrid(steps, c.grid)
  }

  function GridAxis(e: Engine, c: Slot, steps: int64): Double {
    e.rounding.Narrow(GridFloat(e, c, steps))
  }

  function GridVector(e: Engine, c: Slot, steps: seq<int64>): Variant {
    if |steps| != 3 then Nil
    else Vec3(Vector3(GridAxis(e, c, steps[0]), GridAxis(e, c, steps[1]), GridAxis(e, c, steps[2])))
  }

  function ReadSlot(e: Engine, c: Slot, base: Option<Variant>, now: int64, s: bytes): Parsed<Variant>
    requires c.Valid()
  {
    if c.kind == SK_INT_STEP then Map(ReadStep(BaseInt(e, base), s), i => Int(i))
    else if IsAngle(c.kind) then
      match base
      case None => ReadTagged(e, AngleTag(c.kind), s, now)
      case Some(b) =>
        var bits := AngleBits(c.kind);
        Map(ReadVarint(s), i => Float(e.turn((e.Angle(b, bits) + i) % Pow2(bits), bits)))
    else if c.kind == SK_FLOAT_GRID then
      Map(ReadStep(BaseSteps(e, c, base), s), steps => Float(GridFloat(e, c, steps)))
    else if c.kind == SK_VEC3_GRID then
      Map(ReadSteps(BaseAxes(e, c, base), s), steps => GridVector(e, c, steps))
    else if c.kind == SK_TAGGED then ReadValue(e, s, now)
    else ReadTagged(e, c.kind, s, now)
  }

  /** A value as its slot's kind leaves it: an int as itself, an angle at its step, a grid value at
      its nearest multiple, anything else as its tag carries it. No base comes into it. */
  function Landed(e: Engine, c: Slot, v: Variant): Variant
    requires c.Valid()
  {
    if c.kind == SK_INT_STEP then Int(e.asInt(v))
    else if IsAngle(c.kind) then
      var bits := AngleBits(c.kind);
      Float(e.turn(e.Angle(v, bits), bits))
    else if c.kind == SK_FLOAT_GRID then Float(GridFloat(e, c, GridSteps(e, c, e.asDouble(v))))
    else if c.kind == SK_VEC3_GRID then GridVector(e, c, AxisSteps(e, c, v))
    else if c.kind == SK_TAGGED then Carried(e, TagFor(v, c.quant), v)
    else Carried(e, c.kind, v)
  }

  /** The two ends' bases count alike. A slot that goes whole has no use for one. */
  ghost predicate SameBase(e: Engine, c: Slot, base: Option<Variant>, base': Option<Variant>)
    requires c.Valid()
  {
    if base.None? || base'.None? then base.None? && base'.None?
    else if c.kind == SK_INT_STEP then e.asInt(base.value) == e.asInt(base'.value)
    else if IsAngle(c.kind) then
      var bits := AngleBits(c.kind);
      e.Angle(base.value, bits) == e.Angle(base'.value, bits)
    else if c.kind == SK_FLOAT_GRID then
      GridSteps(e, c, e.asDouble(base.value)) == GridSteps(e, c, e.asDouble(base'.value))
    else if c.kind == SK_VEC3_GRID then
      AxisSteps(e, c, base.value) == AxisSteps(e, c, base'.value)
    else true
  }

  /** The value behind a whole slot is one its tag can carry. */
  ghost predicate Encodable(e: Engine, c: Slot, v: Variant) {
    if c.Stepped() then true
    else if c.kind == SK_TAGGED then Carriable(e, TagFor(v, c.quant), v)
    else Carriable(e, c.kind, v)
  }

  lemma AngleSlotRoundTrip(e: Engine, c: Slot, v: Variant, base: Option<Variant>, base': Option<Variant>, now: int64,
      rest: bytes)
    requires e.Sound() && IsAngle(c.kind) && SameBase(e, c, base, base')
    ensures ReadSlot(e, c, base', now, SlotCode(e, c, v, base, now) + rest) == Parsed(Landed(e, c, v), rest)
  {
    match base
    case None => TaggedRoundTrip(e, AngleTag(c.kind), v, now, rest);
    case Some(b) => AngleStepRoundTrip(e.Angle(v, AngleBits(c.kind)), e.Angle(b, AngleBits(c.kind)),
        AngleBits(c.kind), e.turn, rest);
  }

  lemma AngleStepRoundTrip(to: nat, from: nat, bits: nat, turn: (nat, nat) -> Double, rest: bytes)
    requires bits >= 1 && to < Pow2(bits)
    ensures Map(ReadVarint(Varint(AngleStep(to, from, bits)) + rest), i => Float(turn((from + i) % Pow2(bits), bits)))
         == Parsed(Float(turn(to, bits)), rest)
  {
    VarintRoundTrip(AngleStep(to, from, bits), rest);
    AngleStepRecovers(to, from, bits);
  }

  /** Stepping from one end's base and adding to the other's, a slot lands on its own projected
      value and takes exactly its own bytes, whatever follows, as long as the bases count alike. */
  lemma SlotRoundTrip(e: Engine, c: Slot, v: Variant, base: Option<Variant>, base': Option<Variant>, now: int64,
      rest: bytes)
    requires e.Sound() && c.Valid() && Encodable(e, c, v) && SameBase(e, c, base, base')
    ensures ReadSlot(e, c, base', now, SlotCode(e, c, v, base, now) + rest) == Parsed(Landed(e, c, v), rest)
  {
    if c.kind == SK_INT_STEP {
      IntSlotRoundTrip(e, c, v, base, base', now, rest);
    } else if IsAngle(c.kind) {
      AngleSlotRoundTrip(e, c, v, base, base', now, rest);
    } else if c.kind == SK_FLOAT_GRID {
      FloatSlotRoundTrip(e, c, v, base, base', now, rest);
    } else if c.kind == SK_VEC3_GRID {
      StepsRoundTrip(AxisSteps(e, c, v), BaseAxes(e, c, base), rest);
    } else if c.kind == SK_TAGGED {
      ValueRoundTrip(e, v, c.quant, now, rest);
    } else {
      TaggedRoundTrip(e, c.kind, v, now, rest);
    }
  }

  // --- What a slot lands as, kind by kind ---

  /** An angle slot lands on the step of its own precision, stepped or whole. */
  lemma AngleSlotLands(e: Engine, c: Slot, bits: nat, v: Variant, base: Option<Variant>, base': Option<Variant>,
      now: int64, rest: bytes)
    requires e.Sound() && c.Valid()
    requires (c.kind == SK_ANGLE16_STEP && bits == 16) || (c.kind == SK_ANGLE8_STEP && bits == 8)
    requires base.Some? <==> base'.Some?
    requires base.Some? ==> QuantaOf(e, base.value, bits) == QuantaOf(e, base'.value, bits)
    ensures ReadSlot(e, c, base', now, SlotCode(e, c, v, base, now) + rest)
         == Parsed(Float(e.turn(QuantaOf(e, v, bits), bits)), rest)
  {
    hide ReadSlot;
    hide SlotCode;
    SlotRoundTrip(e, c, v, base, base', now, rest);
  }

  function QuantaOf(e: Engine, v: Variant, bits: nat): nat {
    e.quanta(e.rounding.Narrow(e.asDouble(v)), bits)
  }

  /** An int slot lands as the int and a grid slot on the multiples of its own grid nearest to the value, axis by
      axis; no base is a base of zero. */
  lemma StepSlotLands(e: Engine, c: Slot, v: Variant, base: Option<Variant>, base': Option<Variant>, now: int64,
      rest: bytes)
    requires e.Sound() && c.Valid() && SameBase(e, c, base, base')
    ensures var landed := ReadSlot(e, c, base', now, SlotCode(e, c, v, base, now) + rest);
            && (c.kind == SK_INT_STEP ==> landed == Parsed(Int(e.asInt(v)), rest))
            && (c.kind == SK_FLOAT_GRID ==>
                  landed == Parsed(Float(OnGrid(e.rounding, e.asDouble(v), c.grid)), rest))
            && (c.kind == SK_VEC3_GRID ==>
                  var u, r := e.asVector(v), e.rounding;
                  landed == Parsed(Vec3(Vector3(r.Narrow(OnGrid(r, u.x, c.grid)), r.Narrow(OnGrid(r, u.y, c.grid)),
                                                r.Narrow(OnGrid(r, u.z, c.grid)))), rest))
  {
    hide ReadSlot;
    hide SlotCode;
    if c.Stepped() {
      SlotRoundTrip(e, c, v, base, base', now, rest);
    }
  }

  /** The value of the whole steps nearest to d, as a long long counts them. */
  function OnGrid(r: Rounding, d: Double, grid: real): Double
    requires grid > 0.0
  {
    r.FromGrid(Wrap64(r.GridQ(d, grid)), grid)
  }

  /** A slot of a tag's own kind goes whole as that tag's payload: any base is as good as none. */
  lemma WholeSlotLands(e: Engine, c: Slot, v: Variant, base: Option<Variant>, base': Option<Variant>, now: int64,
      rest: bytes)
    requires e.Sound() && c.Valid()
    ensures var d, u := e.rounding.Narrow(e.asDouble(v)), e.asVector(v);
            var landed := ReadSlot(e, c, base', now, SlotCode(e, c, v, base, now) + rest);
            && (c.kind == TAG_ANGLE16 ==> landed == Parsed(Float(e.turn(e.quanta(d, 16), 16)), rest))
            && (c.kind == TAG_ANGLE8 ==> landed == Parsed(Float(e.turn(e.quanta(d, 8), 8)), rest))
            && (c.kind == TAG_HALF ==> landed == Parsed(Float(e.unhalf(e.half(d))), rest))
            && (c.kind == TAG_VEC3_HALF ==>
                  landed == Parsed(Vec3(Vector3(e.unhalf(e.half(u.x)), e.unhalf(e.half(u.y)), e.unhalf(e.half(u.z)))),
                                   rest))
            && (c.kind == TAG_FLOAT ==> landed == Parsed(Float(d), rest))
            && (c.kind == TAG_VEC3 && e.SingleVector(u) ==> landed == Parsed(Vec3(u), rest))
            && (c.kind == TAG_BOOL ==> landed == Parsed(Bool(e.asBool(v)), rest))
            && (c.kind == TAG_INT || c.kind == TAG_TIME_DELTA ==> landed == Parsed(Int(e.asInt(v)), rest))
            && (c.kind == TAG_OPAQUE && e.Carries(v) ==> landed == Parsed(v, rest))
  {
    hide Payload;
    hide ReadTagged;
    if c.kind <= TAG_TIME_DELTA && Carriable(e, c.kind, v) {
      TaggedRoundTrip(e, c.kind, v, now, rest);
    }
  }

  /** A slot whose property has no declared type goes by its hint. */
  lemma TaggedSlotLands(e: Engine, c: Slot, v: Variant, base: Option<Variant>, base': Option<Variant>, now: int64,
      rest: bytes)
    requires e.Sound() && c.kind == SK_TAGGED && c.Valid()
    ensures var d, u := e.rounding.Narrow(e.asDouble(v)), e.asVector(v);
            var landed := ReadSlot(e, c, base', now, SlotCode(e, c, v, base, now) + rest);
            && (c.quant == TAG_ANGLE16 ==> landed == Parsed(Float(e.turn(e.quanta(d, 16), 16)), rest))
            && (c.quant == TAG_ANGLE8 ==> landed == Parsed(Float(e.turn(e.quanta(d, 8), 8)), rest))
            && (c.quant == TAG_HALF ==> landed == Parsed(Float(e.unhalf(e.half(d))), rest))
            && (c.quant == TAG_VEC3_HALF ==>
                  landed == Parsed(Vec3(Vector3(e.unhalf(e.half(u.x)), e.unhalf(e.half(u.y)), e.unhalf(e.half(u.z)))),
                                   rest))
            && (c.quant !in [TAG_ANGLE16, TAG_ANGLE8, TAG_HALF, TAG_VEC3_HALF] && HasForm(e, v) ==>
                  landed == Parsed(if v.Float? then Float(e.rounding.Narrow(v.d)) else v, rest))
  {
    hide Tagged;
    hide ReadValue;
    HintedArrives(e, v, now, rest);
    if c.quant !in [TAG_ANGLE16, TAG_ANGLE8, TAG_HALF, TAG_VEC3_HALF] && HasForm(e, v) {
      UnhintedArrives(e, v, c.quant, now, rest);
    }
  }

  /** Without a base a slot's code is as from a base of zero: an int, a float or a Vector3. */
  lemma NoBaseIsZero(e: Engine, c: Slot, v: Variant, now: int64)
    requires e.Sound() && c.Valid()
    ensures c.kind == SK_INT_STEP ==> SlotCode(e, c, v, None, now) == SlotCode(e, c, v, Some(Int(0)), now)
    ensures c.kind == SK_FLOAT_GRID ==>
              SlotCode(e, c, v, None, now) == SlotCode(e, c, v, Some(Float(Finite(0.0))), now)
    ensures c.kind == SK_VEC3_GRID ==>
              var zero := Vec3(Vector3(Finite(0.0), Finite(0.0), Finite(0.0)));
              SlotCode(e, c, v, None, now) == SlotCode(e, c, v, Some(zero), now)
  {
    if c.Gridded() {
      ZeroCountsZero(e, c);
      assert e.asDouble(Float(Finite(0.0))) == Finite(0.0);
      var zero := Vector3(Finite(0.0), Finite(0.0), Finite(0.0));
      assert e.asVector(Vec3(zero)) == zero;
    }
  }

  lemma ZeroCountsZero(e: Engine, c: Slot)
    requires e.Sound() && c.Gridded() && c.Valid()
    ensures GridSteps(e, c, Finite(0.0)) == 0
  {
    assert e.rounding.Asked(Div(0.0, c.grid));
    assert Times(0, Ulp(BINARY64, 0.0), 0.0);
    NearestExact(BINARY64, 0.0);
    assert Round(BINARY64, 0.0) == Finite(0.0);
  }

  lemma IntSlotRoundTrip(e: Engine, c: Slot, v: Variant, base: Option<Variant>, base': Option<Variant>, now: int64,
      rest: bytes)
    requires c.kind == SK_INT_STEP && SameBase(e, c, base, base')
    ensures ReadSlot(e, c, base', now, SlotCode(e, c, v, base, now) + rest) == Parsed(Landed(e, c, v), rest)
  {
    var to, from := e.asInt(v), BaseInt(e, base);
    StepRoundTrip(to, from, rest);
  }

  lemma FloatSlotRoundTrip(e: Engine, c: Slot, v: Variant, base: Option<Variant>, base': Option<Variant>, now: int64,
      rest: bytes)
    requires c.kind == SK_FLOAT_GRID && c.Valid() && SameBase(e, c, base, base')
    ensures ReadSlot(e, c, base', now, SlotCode(e, c, v, base, now) + rest) == Parsed(Landed(e, c, v), rest)
  {
    hide GridSteps;
    hide GridFloat;
    hide ReadTagged;
    hide Payload;
    var to, from := GridSteps(e, c, e.asDouble(v)), BaseSteps(e, c, base);
    StepRoundTrip(to, from, rest);
  }

  /** And no longer than that. Over a float grid the count a step lands on is off by exactly what the
      two bases' counts differ by, so it is right if and only if they agree: an unequal count does
      not heal, it is carried into every value stepped from it. */
  lemma GridStepCarriesDisagreement(e: Engine, c: Slot, v: Variant, base: Variant, base': Variant, now: int64,
      rest: bytes)
    requires c.kind == SK_FLOAT_GRID && c.Valid()
    ensures ReadSlot(e, c, Some(base'), now, SlotCode(e, c, v, Some(base), now) + rest)
         == Parsed(Float(GridFloat(e, c, LandsOn(e, c, v, base, base'))), rest)
    ensures LandsOn(e, c, v, base, base') == GridSteps(e, c, e.asDouble(v)) <==> SameBase(e, c, Some(base), Some(base'))
  {
    hide GridSteps;
    hide GridFloat;
    hide ReadTagged;
    hide Payload;
    StepFromAnother(GridSteps(e, c, e.asDouble(v)), GridSteps(e, c, e.asDouble(base)),
        GridSteps(e, c, e.asDouble(base')), rest);
  }

  function LandsOn(e: Engine, c: Slot, v: Variant, base: Variant, base': Variant): int64
    requires c.Gridded() && c.Valid()
  {
    Shift(GridSteps(e, c, e.asDouble(v)), GridSteps(e, c, e.asDouble(base)), GridSteps(e, c, e.asDouble(base')))
  }

  /** On a Vector3 grid, the same axis by axis. */
  lemma VectorStepCarriesDisagreement(e: Engine, c: Slot, v: Variant, base: Variant, base': Variant, now: int64,
      rest: bytes)
    requires c.kind == SK_VEC3_GRID && c.Valid()
    ensures var to, from, from' := AxisSteps(e, c, v), AxisSteps(e, c, base), AxisSteps(e, c, base');
            var landed := Shifted(to, from, from');
            && ReadSlot(e, c, Some(base'), now, SlotCode(e, c, v, Some(base), now) + rest)
               == Parsed(GridVector(e, c, landed), rest)
            && (landed == to <==> SameBase(e, c, Some(base), Some(base')))
  {
    hide GridSteps;
    hide GridFloat;
    hide ReadTagged;
    hide Payload;
    StepsFromAnother(AxisSteps(e, c, v), AxisSteps(e, c, base), AxisSteps(e, c, base'), rest);
    ShiftedAnywhere(AxisSteps(e, c, v), AxisSteps(e, c, base), AxisSteps(e, c, base'));
  }

  /** Whether an int slot lands is likewise exactly whether the bases agree, for every pair of ints:
      the step is exact modulo 2^64. */
  lemma IntStepExactly(e: Engine, c: Slot, v: Variant, base: Variant, base': Variant, now: int64)
    requires c.kind == SK_INT_STEP
    ensures ReadSlot(e, c, Some(base'), now, SlotCode(e, c, v, Some(base), now)) == Parsed(Int(e.asInt(v)), [])
            <==> e.asInt(base) == e.asInt(base')
  {
    var to, from, from' := e.asInt(v), e.asInt(base), e.asInt(base');
    var code := SlotCode(e, c, v, Some(base), now);
    assert code + [] == code;
    StepFromAnother(to, from, from', []);
  }

  /** On a grid slot, a value whose every count a long long holds, and on a Vector3's, of binary32 axes. */
  ghost predicate Countable(e: Engine, c: Slot, v: Variant)
    requires c.Valid()
  {
    && (c.kind == SK_FLOAT_GRID ==> e.rounding.Countable(e.asDouble(v), c.grid))
    && (c.kind == SK_VEC3_GRID ==>
          var u := e.asVector(v);
          && e.SingleVector(u) && e.rounding.Countable(u.x, c.grid)
          && e.rounding.Countable(u.y, c.grid) && e.rounding.Countable(u.z, c.grid))
  }

  /** On a float slot the stored value is finite and near enough its steps; on a Vector3's, only finite. */
  ghost predicate Keeps(e: Engine, c: Slot, v: Variant)
    requires c.Valid()
  {
    && (c.kind == SK_FLOAT_GRID ==>
          var q := GridSteps(e, c, e.asDouble(v));
          GridFloat(e, c, q).Finite? && Recounts.FloatKeeps(q, c.grid))
    && (c.kind == SK_VEC3_GRID ==>
          var q := AxisSteps(e, c, v);
          GridAxis(e, c, q[0]).Finite? && GridAxis(e, c, q[1]).Finite? && GridAxis(e, c, q[2]).Finite?)
  }

  /** A value the stream may carry in its slot. */
  ghost predicate Fits(e: Engine, c: Slot, v: Variant)
    requires c.Valid()
  {
    Encodable(e, c, v) && Countable(e, c, v) && Keeps(e, c, v)
  }

  /** No other count so near wraps to q. */
  lemma WrapsApart(x: int, q: int)
    requires -0x8000_0000_0000_0000 <= q < 0x8000_0000_0000_0000 && 2 * Magnitude(x - q) <= 3 * Magnitude(q)
    ensures Wrap64(q) == q && (Wrap64(x) == q <==> x == q)
  {
  }

  lemma FloatRecount(e: Engine, c: Slot, d: Double)
    requires e.Sound() && c.kind == SK_FLOAT_GRID && c.Valid() && e.rounding.Countable(d, c.grid)
    ensures var q := GridSteps(e, c, d);
            GridSteps(e, c, GridFloat(e, c, q)) == q <==> GridFloat(e, c, q).Finite? && Recounts.FloatKeeps(q, c.grid)
  {
    Recounts.Counted(e.rounding, d, c.grid);
    Recounts.FloatSnapsBackExactly(e.rounding, d, c.grid);
    var q := e.rounding.GridQ(d, c.grid);
    WrapsApart(e.rounding.RecountedFloat(q, c.grid), q);
  }

  lemma AxisRecount(e: Engine, c: Slot, d: Double)
    requires e.Sound() && c.kind == SK_VEC3_GRID && c.Valid() && e.isSingle(d) && e.rounding.Countable(d, c.grid)
    ensures var q := GridSteps(e, c, d);
            GridSteps(e, c, GridAxis(e, c, q)) == q <==> GridAxis(e, c, q).Finite?
  {
    Recounts.Counted(e.rounding, d, c.grid);
    Recounts.AxisSnapsBackExactly(e.rounding, d, c.grid);
    var q := e.rounding.GridQ(d, c.grid);
    WrapsApart(e.rounding.RecountedAxis(q, c.grid), q);
  }

  /** Quantizing twice is quantizing once, exactly where the code's rounding lets it be: what a slot's value
      lands as counts, as the base of the next step, as the value itself does if and only if it Keeps.
      This is what keeps stepping from the decoded base equal to stepping from the raw one. */
  lemma LandedCountsAlike(e: Engine, c: Slot, v: Variant)
    requires e.Sound() && c.Valid() && Countable(e, c, v)
    ensures SameBase(e, c, Some(v), Some(Landed(e, c, v))) <==> Keeps(e, c, v)
  {
    if IsAngle(c.kind) {
      var bits := AngleBits(c.kind);
      assert e.Angle(Float(e.turn(e.Angle(v, bits), bits)), bits) == e.Angle(v, bits);
    } else if c.kind == SK_FLOAT_GRID {
      FloatRecount(e, c, e.asDouble(v));
    } else if c.kind == SK_VEC3_GRID {
      var u := e.asVector(v);
      AxisRecount(e, c, u.x);
      AxisRecount(e, c, u.y);
      AxisRecount(e, c, u.z);
      var w := e.asVector(Landed(e, c, v));
      assert w == Landed(e, c, v).v;
    }
  }

  /** So a value that does not keep its count spoils whatever is stepped from it: u, sent as its step from v,
      lands on its own count at an end that decoded v before if and only if v Keeps. */
  lemma StepsLandExactly(e: Engine, c: Slot, u: Variant, v: Variant, now: int64, rest: bytes)
    requires e.Sound() && c.Valid() && Countable(e, c, v) && c.Gridded()
    ensures var code := SlotCode(e, c, u, Some(v), now) + rest;
            var v' := Landed(e, c, v);
            if c.kind == SK_FLOAT_GRID then
              && ReadSlot(e, c, Some(v'), now, code) == Parsed(Float(GridFloat(e, c, LandsOn(e, c, u, v, v'))), rest)
              && (LandsOn(e, c, u, v, v') == GridSteps(e, c, e.asDouble(u)) <==> Keeps(e, c, v))
            else
              var landed := Shifted(AxisSteps(e, c, u), AxisSteps(e, c, v), AxisSteps(e, c, v'));
              && ReadSlot(e, c, Some(v'), now, code) == Parsed(GridVector(e, c, landed), rest)
              && (landed == AxisSteps(e, c, u) <==> Keeps(e, c, v))
  {
    LandedCountsAlike(e, c, v);
    if c.kind == SK_FLOAT_GRID {
      GridStepCarriesDisagreement(e, c, u, v, Landed(e, c, v), now, rest);
    } else {
      VectorStepCarriesDisagreement(e, c, u, v, Landed(e, c, v), now, rest);
    }
  }

  /** A grid of at most 2^60 is safe: a Vector3 axis on it always keeps its count, and a float up to
      2^51 steps. */
  lemma SafeGrids(e: Engine, c: Slot, v: Variant)
    requires e.Sound() && c.Valid() && Countable(e, c, v) && c.Gridded() && c.grid <= Exp2(60)
    requires c.kind == SK_FLOAT_GRID ==> Magnitude(GridSteps(e, c, e.asDouble(v))) <= 0x8_0000_0000_0000
    ensures Keeps(e, c, v)
  {
    if c.kind == SK_FLOAT_GRID {
      var d := e.asDouble(v);
      Recounts.Counted(e.rounding, d, c.grid);
      WrapsApart(e.rounding.GridQ(d, c.grid), e.rounding.GridQ(d, c.grid));
      Recounts.FloatSnapsBack(e.rounding, d, c.grid);
      FloatRecount(e, c, d);
    } else {
      var u := e.asVector(v);
      SafeAxis(e, c, u.x);
      SafeAxis(e, c, u.y);
      SafeAxis(e, c, u.z);
    }
  }

  lemma SafeAxis(e: Engine, c: Slot, d: Double)
    requires e.Sound() && c.kind == SK_VEC3_GRID && c.Valid() && e.isSingle(d) && e.rounding.Countable(d, c.grid)
    requires c.grid <= Exp2(60)
    ensures GridAxis(e, c, GridSteps(e, c, d)).Finite?
  {
    Recounts.Counted(e.rounding, d, c.grid);
    WrapsApart(e.rounding.GridQ(d, c.grid), e.rounding.GridQ(d, c.grid));
    Recounts.AxisSnapsBack(e.rounding, d, c.grid);
    AxisRecount(e, c, d);
  }

  // --- The changed slots of an entity, one after another ---

  function BaseOf(bases: map<nat, Variant>, slot: nat): Option<Variant> {
    if slot in bases then Some(bases[slot]) else None
  }

  ghost predicate ValidCoding(coding: seq<Slot>) {
    forall c | c in coding :: c.Valid()
  }

  /** Every changed slot is one this coding has, with a value. */
  predicate Known(coding: seq<Slot>, changed: seq<nat>, values: map<nat, Variant>) {
    forall k | 0 <= k < |changed| :: changed[k] < |coding| && changed[k] in values
  }

  function ChangedCode(e: Engine, coding: seq<Slot>, changed: seq<nat>, values: map<nat, Variant>,
      bases: map<nat, Variant>, now: int64): bytes
    requires ValidCoding(coding)
    requires Known(coding, changed, values)
  {
    if changed == [] then []
    else
      var s := changed[0];
      SlotCode(e, coding[s], values[s], BaseOf(bases, s), now)
          + ChangedCode(e, coding, changed[1..], values, bases, now)
  }

  /** What reading the changed slots gives: the values set, what is left, and whether every slot was
      set. Reading stops at a slot this end does not have and where the bytes run out. */
  datatype Applied = Applied(values: map<nat, Variant>, rest: bytes, complete: bool)

  function ReadChanged(e: Engine, coding: seq<Slot>, changed: seq<nat>, bases: map<nat, Variant>, now: int64,
      s: bytes): Applied
    requires ValidCoding(coding)
  {
    if changed == [] then Applied(map[], s, true)
    else
      var slot := changed[0];
      if slot >= |coding| then Applied(map[], s, false)
      else
        match ReadSlot(e, coding[slot], BaseOf(bases, slot), now, s)
        case Truncated => Applied(map[], s, false)
        case Parsed(v, rest) =>
          var tail := ReadChanged(e, coding, changed[1..], bases, now, rest);
          tail.(values := map[slot := v] + tail.values)
  }

  function LandedAll(e: Engine, coding: seq<Slot>, changed: seq<nat>, values: map<nat, Variant>): map<nat, Variant>
    requires ValidCoding(coding)
    requires Known(coding, changed, values)
  {
    map s | s in changed :: Landed(e, coding[s], values[s])
  }

  /** Any mix of kinds, bases and values decodes slot for slot with none shifting a later one: the
      reader sets every changed slot to its projected value and stops exactly where its bytes end. */
  lemma {:induction false} ChangedRoundTrip(e: Engine, coding: seq<Slot>, changed: seq<nat>,
      values: map<nat, Variant>, bases: map<nat, Variant>, bases': map<nat, Variant>, now: int64, rest: bytes)
    requires e.Sound() && ValidCoding(coding)
    requires Known(coding, changed, values)
    requires forall k | 0 <= k < |changed| :: Encodable(e, coding[changed[k]], values[changed[k]])
    requires forall k | 0 <= k < |changed| ::
               SameBase(e, coding[changed[k]], BaseOf(bases, changed[k]), BaseOf(bases', changed[k]))
    ensures ReadChanged(e, coding, changed, bases', now, ChangedCode(e, coding, changed, values, bases, now) + rest)
         == Applied(LandedAll(e, coding, changed, values), rest, true)
    decreases |changed|
  {
    hide SlotCode;
    hide ReadSlot;
    hide Landed;
    hide SameBase;
    hide Encodable;
    if changed == [] {
      assert LandedAll(e, coding, changed, values) == map[];
    } else {
      var s, later := changed[0], changed[1..];
      var code := SlotCode(e, coding[s], values[s], BaseOf(bases, s), now);
      var tail := ChangedCode(e, coding, later, values, bases, now) + rest;
      assert code + ChangedCode(e, coding, later, values, bases, now) + rest == code + tail;
      SlotRoundTrip(e, coding[s], values[s], BaseOf(bases, s), BaseOf(bases', s), now, tail);
      ChangedRoundTrip(e, coding, later, values, bases, bases', now, rest);
      assert LandedAll(e, coding, changed, values)
          == map[s := Landed(e, coding[s], values[s])] + LandedAll(e, coding, later, values);
    }
  }

  // --- The same, appending to a writer and advancing a reader ---

  method PutSlot(w: Writer, e: Engine, c: Slot, v: Variant, base: Option<Variant>, now: int64)
    requires c.Valid()
    modifies w
    ensures w.data == old(w.data) + SlotCode(e, c, v, base, now)
  {
    if c.kind == SK_INT_STEP {
      w.PutStep(e.asInt(v), BaseInt(e, base));
    } else if IsAngle(c.kind) {
      var bits := AngleBits(c.kind);
      if base.None? {
        PutPayload(w, e, AngleTag(c.kind), v, now);
      } else {
        w.PutVarint(AngleStep(e.Angle(v, bits), e.Angle(base.value, bits), bits));
      }
    } else if c.kind == SK_FLOAT_GRID {
      w.PutStep(GridSteps(e, c, e.asDouble(v)), BaseSteps(e, c, base));
    } else if c.kind == SK_VEC3_GRID {
      w.PutSteps(AxisSteps(e, c, v), BaseAxes(e, c, base));
    } else if c.kind == SK_TAGGED {
      PutValue(w, e, v, c.quant, now);
    } else {
      PutPayload(w, e, c.kind, v, now);
    }
  }

  method GetSlot(r: Reader, e: Engine, c: Slot, base: Option<Variant>, now: int64) returns (v: Variant)
    requires r.Valid() && c.Valid()
    modifies r
    ensures r.Valid()
    ensures match ReadSlot(e, c, base, now, old(r.Rest()))
            case Parsed(u, rest) => v == u && r.Rest() == rest && r.failed == old(r.failed)
            case Truncated => r.failed
  {
    if c.kind == SK_INT_STEP {
      var i := r.GetStep(BaseInt(e, base));
      v := Int(i);
    } else if IsAngle(c.kind) {
      if base.None? {
        v := GetTagged(r, e, AngleTag(c.kind), now);
      } else {
        var bits := AngleBits(c.kind);
        var i := r.GetVarint();
        v := Float(e.turn((e.Angle(base.value, bits) + i) % Pow2(bits), bits));
      }
    } else if c.kind == SK_FLOAT_GRID {
      var steps := r.GetStep(BaseSteps(e, c, base));
      v := Float(GridFloat(e, c, steps));
    } else if c.kind == SK_VEC3_GRID {
      var steps := r.GetSteps(BaseAxes(e, c, base));
      v := GridVector(e, c, steps);
    } else if c.kind == SK_TAGGED {
      v := GetValue(r, e, now);
    } else {
      v := GetTagged(r, e, c.kind, now);
    }
  }

  /** The client's pass over an entity's changed slots. */
  method ApplyChanged(r: Reader, e: Engine, coding: seq<Slot>, changed: seq<nat>, bases: map<nat, Variant>, now: int64)
    returns (values: map<nat, Variant>, complete: bool)
    requires r.Valid() && !r.failed && ValidCoding(coding)
    modifies r
    ensures r.Valid()
    ensures var read := ReadChanged(e, coding, changed, bases, now, old(r.Rest()));
            && values == read.values && complete == read.complete
            && (complete ==> r.Rest() == read.rest && !r.failed)
  {
    values := map[];
    var k := 0;
    ghost var total := ReadChanged(e, coding, changed, bases, now, r.Rest());
    assert changed[0..] == changed;
    while k < |changed|
      invariant k <= |changed| && r.Valid() && !r.failed
      invariant Extends(total, values, ReadChanged(e, coding, changed[k..], bases, now, r.Rest()))
    {
      var s := changed[k];
      ReadChangedFrom(e, coding, changed, k, bases, now, r.Rest());
      if s >= |coding| {
        return values, false;
      }
      var v := GetSlot(r, e, coding[s], BaseOf(bases, s), now);
      if r.failed {
        return values, false;
      }
      ExtendsOne(total, values, s, v, ReadChanged(e, coding, changed[k + 1..], bases, now, r.Rest()));
      values := values[s := v];
      k := k + 1;
    }
    complete := true;
  }

  lemma ReadChangedFrom(e: Engine, coding: seq<Slot>, changed: seq<nat>, k: nat, bases: map<nat, Variant>, now: int64,
      s: bytes)
    requires ValidCoding(coding) && k < |changed|
    ensures ReadChanged(e, coding, changed[k..], bases, now, s) ==
              var slot := changed[k];
              if slot >= |coding| then Applied(map[], s, false)
              else
                match ReadSlot(e, coding[slot], BaseOf(bases, slot), now, s)
                case Truncated => Applied(map[], s, false)
                case Parsed(v, rest) =>
                  var tail := ReadChanged(e, coding, changed[k + 1..], bases, now, rest);
                  tail.(values := map[slot := v] + tail.values)
  {
    assert changed[k..][1..] == changed[k + 1..];
  }

  /** `whole` is the values read so far and then `ahead`. */
  ghost predicate Extends(whole: Applied, values: map<nat, Variant>, ahead: Applied) {
    whole == ahead.(values := values + ahead.values)
  }

  lemma ExtendsOne(whole: Applied, values: map<nat, Variant>, s: nat, v: Variant, ahead: Applied)
    requires Extends(whole, values, ahead.(values := map[s := v] + ahead.values))
    ensures Extends(whole, values[s := v], ahead)
  {
    assert values + (map[s := v] + ahead.values) == values[s := v] + ahead.values;
  }
}
