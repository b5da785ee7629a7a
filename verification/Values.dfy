/** Variants, and the self-delimiting tagged values they travel as.

    What the engine and the platform do below that (bit patterns, binary16, angle quanta, Godot's
    own Variant encoding, Variant conversions) is an Engine: functions with a stated contract. */
module Values {
  import opened Wire
  import opened Floats
  import opened Numbers

  datatype Vector3 = Vector3(x: Double, y: Double, z: Double)

  /** Strings are their UTF-8 bytes. Any type the codec has no form of its own for is Other. */
  datatype Variant =
    | Nil
    | Bool(b: bool)
    | Int(i: int64)
    | Float(d: Double)
    | Vec3(v: Vector3)
    | Str(s: bytes)
    | Name(s: bytes)
    | Blob(data: bytes)
    | Dict(fields: map<bytes, Variant>)
    | Other(kind: nat, image: bytes)

  datatype Engine = Engine(
    rounding: Rounding,
    isDouble: Double -> bool,         // the values of the two formats
    isSingle: Double -> bool,
    bits32: Double -> nat,            // and their bit patterns
    value32: nat -> Double,
    bits64: Double -> nat,
    value64: nat -> Double,
    half: Double -> nat,              // binary16, lossy
    unhalf: nat -> Double,
    quanta: (Double, nat) -> nat,     // an angle's step, of 2^bits to the turn
    turn: (nat, nat) -> Double,       // the angle a step decodes to
    encode: Variant -> bytes,         // var_to_bytes and bytes_to_var
    decode: bytes -> Variant,
    asDouble: Variant -> Double,      // Variant conversions
    asInt: Variant -> int64,
    asVector: Variant -> Vector3,
    asBool: Variant -> bool
  ) {

    ghost predicate Sound() {
      && rounding.Ieee()
      && (forall d: Double {:trigger isSingle(d)} :: d.Finite? ==> (isSingle(d) <==> Held(BINARY32, d)))
      && (forall d: Double {:trigger isDouble(d)} :: d.Finite? ==> (isDouble(d) <==> Held(BINARY64, d)))
      && (forall d: Double {:trigger rounding.Narrow(d)} :: isSingle(rounding.Narrow(d)))
      && (forall d: Double {:trigger bits32(d)} ::
            bits32(d) < 0x1_0000_0000 && (isSingle(d) ==> value32(bits32(d)) == d))
      && (forall d: Double {:trigger bits64(d)} ::
            bits64(d) < 0x1_0000_0000_0000_0000 && (isDouble(d) ==> value64(bits64(d)) == d))
      && (forall d: Double {:trigger half(d)} :: half(d) < 0x1_0000)
      && (forall d: Double, bits: nat {:trigger quanta(d, bits)} :: quanta(d, bits) < Pow2(bits))
      && (forall q: nat, bits: nat {:trigger turn(q, bits)} ::
            (bits == 8 || bits == 16) && q < Pow2(bits) ==> quanta(rounding.Narrow(turn(q, bits)), bits) == q)
      && (forall d: Double :: asDouble(Float(d)) == d)
      && (forall i: int64 :: asInt(Int(i)) == i)
      && (forall v: Vector3 :: asVector(Vec3(v)) == v)
      && (forall b: bool :: asBool(Bool(b)) == b)
    }

    /** (float)(double)v, as every float payload narrows its value. */
    function Single(v: Variant): Double {
      rounding.Narrow(asDouble(v))
    }

    /** The step of v, of 2^bits to the turn. */
    function Angle(v: Variant, bits: nat): nat {
      quanta(Single(v), bits)
    }

    function Put32(d: Double): bytes {
      Fixed(bits32(d), 4)
    }

    function PutHalf(d: Double): bytes {
      Fixed(half(d), 2)
    }

    /** Godot's Variant encoding gives v back, and its length fits the u32 in front of it. */
    ghost predicate Carries(v: Variant) {
      decode(encode(v)) == v && |encode(v)| < 0x1_0000_0000
    }

    ghost predicate SingleVector(v: Vector3) {
      isSingle(v.x) && isSingle(v.y) && isSingle(v.z)
    }
  }

  const TAG_OPAQUE: byte := 0
  const TAG_FLOAT: byte := 1
  const TAG_INT: byte := 2
  const TAG_VEC3: byte := 3
  const TAG_BOOL: byte := 4
  const TAG_ANGLE16: byte := 5
  const TAG_HALF: byte := 6
  const TAG_VEC3_HALF: byte := 7
  const TAG_ANGLE8: byte := 8
  const TAG_TIME_DELTA: byte := 9

  const QUANT_AUTO: byte := 255

  /** A tagged value's bytes after its tag. */
  function Payload(e: Engine, tag: byte, v: Variant, now: int64): bytes {
    if tag == TAG_ANGLE16 then Fixed(e.Angle(v, 16), 2)
    else if tag == TAG_ANGLE8 then Fixed(e.Angle(v, 8), 1)
    else if tag == TAG_HALF then e.PutHalf(e.Single(v))
    else if tag == TAG_VEC3_HALF then
      var u := e.asVector(v);
      e.PutHalf(u.x) + e.PutHalf(u.y) + e.PutHalf(u.z)
    else if tag == TAG_TIME_DELTA then Step(e.asInt(v), now)
    else if tag == TAG_FLOAT then e.Put32(e.Single(v))
    else if tag == TAG_INT then Varint(e.asInt(v))
    else if tag == TAG_VEC3 then
      var u := e.asVector(v);
      e.Put32(u.x) + e.Put32(u.y) + e.Put32(u.z)
    else if tag == TAG_BOOL then [if e.asBool(v) then 1 else 0]
    else Fixed(|e.encode(v)|, 4) + e.encode(v)
  }

  function Map<T, U>(p: Parsed<T>, f: T -> U): Parsed<U> {
    match p
    case Parsed(t, rest) => Parsed(f(t), rest)
    case Truncated => Truncated
  }

  function ReadVector(s: bytes, width: nat, value: nat -> Double): Parsed<Variant> {
    match ReadFixed(s, width)
    case Truncated => Truncated
    case Parsed(x, s1) =>
      match ReadFixed(s1, width)
      case Truncated => Truncated
      case Parsed(y, s2) =>
        match ReadFixed(s2, width)
        case Truncated => Truncated
        case Parsed(z, s3) => Parsed(Vec3(Vector3(value(x), value(y), value(z))), s3)
  }

  function ReadOpaque(e: Engine, s: bytes): Parsed<Variant> {
    match ReadFixed(s, 4)
    case Truncated => Truncated
    case Parsed(n, rest) => Map(ReadData(rest, n), e.decode)
  }

  /** An unknown tag reads as an opaque value. */
  function ReadTagged(e: Engine, tag: byte, s: bytes, now: int64): Parsed<Variant> {
    if tag == TAG_FLOAT then Map(ReadFixed(s, 4), n => Float(e.value32(n)))
    else if tag == TAG_INT then Map(ReadVarint(s), i => Int(Wrap64(i)))
    else if tag == TAG_VEC3 then ReadVector(s, 4, e.value32)
    else if tag == TAG_BOOL then Map(ReadFixed(s, 1), n => Bool(n != 0))
    else if tag == TAG_ANGLE16 then Map(ReadFixed(s, 2), q => Float(e.turn(q, 16)))
    else if tag == TAG_ANGLE8 then Map(ReadFixed(s, 1), q => Float(e.turn(q, 8)))
    else if tag == TAG_HALF then Map(ReadFixed(s, 2), n => Float(e.unhalf(n)))
    else if tag == TAG_VEC3_HALF then ReadVector(s, 2, e.unhalf)
    else if tag == TAG_TIME_DELTA then Map(ReadStep(now, s), i => Int(i))
    else ReadOpaque(e, s)
  }

  /** What a value becomes behind a tag: itself, or what the tag's precision leaves of it. */
  function Carried(e: Engine, tag: byte, v: Variant): Variant {
    if tag == TAG_ANGLE16 then Float(e.turn(e.Angle(v, 16), 16))
    else if tag == TAG_ANGLE8 then Float(e.turn(e.Angle(v, 8), 8))
    else if tag == TAG_HALF then Float(e.unhalf(e.half(e.Single(v))))
    else if tag == TAG_VEC3_HALF then
      var u := e.asVector(v);
      Vec3(Vector3(e.unhalf(e.half(u.x)), e.unhalf(e.half(u.y)), e.unhalf(e.half(u.z))))
    else if tag == TAG_TIME_DELTA || tag == TAG_INT then Int(e.asInt(v))
    else if tag == TAG_FLOAT then Float(e.Single(v))
    else if tag == TAG_VEC3 then Vec3(e.asVector(v))
    else if tag == TAG_BOOL then Bool(e.asBool(v))
    else v
  }

  /** What the two lossless wide forms ask of a value: a Vector3's axes are binary32, and an opaque
      value is one Godot's encoding carries. */
  ghost predicate Carriable(e: Engine, tag: byte, v: Variant) {
    if tag == TAG_VEC3 then e.SingleVector(e.asVector(v))
    else if TAG_FLOAT <= tag <= TAG_TIME_DELTA then true
    else e.Carries(v)
  }

  lemma VectorRoundTrip(x: nat, y: nat, z: nat, width: nat, value: nat -> Double, rest: bytes)
    requires x < Span(width) && y < Span(width) && z < Span(width)
    ensures ReadVector(Fixed(x, width) + Fixed(y, width) + Fixed(z, width) + rest, width, value)
         == Parsed(Vec3(Vector3(value(x), value(y), value(z))), rest)
  {
    var fx, fy, fz := Fixed(x, width), Fixed(y, width), Fixed(z, width);
    Regroup(fx, fy, fz, rest);
    FixedRoundTrip(x, width, fy + (fz + rest));
    FixedRoundTrip(y, width, fz + rest);
    FixedRoundTrip(z, width, rest);
  }

  lemma OpaqueRoundTrip(e: Engine, v: Variant, rest: bytes)
    requires e.Carries(v)
    ensures ReadOpaque(e, Fixed(|e.encode(v)|, 4) + e.encode(v) + rest) == Parsed(v, rest)
  {
    Spans();
    var image := e.encode(v);
    Regroup(Fixed(|image|, 4), image, [], rest);
    FixedRoundTrip(|image|, 4, image + rest);
  }

  lemma AngleRoundTrip(q: nat, bits: nat, rest: bytes)
    requires (bits == 8 || bits == 16) && q < Pow2(bits)
    ensures ReadFixed(Fixed(q, bits / 8) + rest, bits / 8) == Parsed(q, rest)
  {
    assert Pow2(8) == 0x100 && Pow2(16) == 0x100 * Pow2(8);
    Spans();
    FixedRoundTrip(q, bits / 8, rest);
  }

  lemma ScalarRoundTrip(e: Engine, tag: byte, v: Variant, now: int64, rest: bytes)
    requires tag == TAG_TIME_DELTA || tag == TAG_INT || tag == TAG_BOOL
    ensures ReadTagged(e, tag, Payload(e, tag, v, now) + rest, now) == Parsed(Carried(e, tag, v), rest)
  {
    if tag == TAG_TIME_DELTA {
      StepRoundTrip(e.asInt(v), now, rest);
    } else if tag == TAG_INT {
      VarintRoundTrip(e.asInt(v), rest);
    } else {
      var b: byte := if e.asBool(v) then 1 else 0;
      assert Fixed(b, 1) == [b];
      Spans();
      FixedRoundTrip(b, 1, rest);
    }
  }

  lemma FloatsRoundTrip(e: Engine, tag: byte, v: Variant, now: int64, rest: bytes)
    requires e.Sound() && Carriable(e, tag, v)
    requires tag == TAG_FLOAT || tag == TAG_HALF || tag == TAG_VEC3 || tag == TAG_VEC3_HALF
    ensures ReadTagged(e, tag, Payload(e, tag, v, now) + rest, now) == Parsed(Carried(e, tag, v), rest)
  {
    Spans();
    var u := e.asVector(v);
    if tag == TAG_FLOAT {
      FixedRoundTrip(e.bits32(e.Single(v)), 4, rest);
    } else if tag == TAG_HALF {
      FixedRoundTrip(e.half(e.Single(v)), 2, rest);
    } else if tag == TAG_VEC3 {
      VectorRoundTrip(e.bits32(u.x), e.bits32(u.y), e.bits32(u.z), 4, e.value32, rest);
    } else {
      VectorRoundTrip(e.half(u.x), e.half(u.y), e.half(u.z), 2, e.unhalf, rest);
    }
  }

  /** A payload reads back as what its tag carries and takes exactly its own bytes, whatever
      follows; a time stamp does given the header time it was written against. */
  lemma TaggedRoundTrip(e: Engine, tag: byte, v: Variant, now: int64, rest: bytes)
    requires e.Sound() && Carriable(e, tag, v)
    ensures ReadTagged(e, tag, Payload(e, tag, v, now) + rest, now) == Parsed(Carried(e, tag, v), rest)
  {
    if tag == TAG_ANGLE16 {
      AngleRoundTrip(e.Angle(v, 16), 16, rest);
    } else if tag == TAG_ANGLE8 {
      AngleRoundTrip(e.Angle(v, 8), 8, rest);
    } else if tag == TAG_TIME_DELTA || tag == TAG_INT || tag == TAG_BOOL {
      ScalarRoundTrip(e, tag, v, now, rest);
    } else if TAG_FLOAT <= tag <= TAG_TIME_DELTA {
      FloatsRoundTrip(e, tag, v, now, rest);
    } else {
      OpaqueRoundTrip(e, v, rest);
    }
  }

  /** The tag a value goes behind: its hint's, or its type's where there is none or it cannot apply. */
  function TagFor(v: Variant, quant: byte): byte {
    if quant == TAG_ANGLE16 || quant == TAG_ANGLE8 || quant == TAG_HALF || quant == TAG_VEC3_HALF then quant
    else if quant == TAG_TIME_DELTA && v.Int? then quant
    else
      match v
      case Float(_) => TAG_FLOAT
      case Int(_) => TAG_INT
      case Vec3(_) => TAG_VEC3
      case Bool(_) => TAG_BOOL
      case _ => TAG_OPAQUE
  }

  /** Whether a hint lets precision go. */
  predicate Lossy(quant: byte) {
    quant == TAG_ANGLE16 || quant == TAG_ANGLE8 || quant == TAG_HALF || quant == TAG_VEC3_HALF
  }

  function Tagged(e: Engine, v: Variant, quant: byte, now: int64): bytes {
    [TagFor(v, quant)] + Payload(e, TagFor(v, quant), v, now)
  }

  function ReadValue(e: Engine, s: bytes, now: int64): Parsed<Variant> {
    if s == [] then Truncated else ReadTagged(e, s[0], s[1..], now)
  }

  lemma ValueRoundTrip(e: Engine, v: Variant, quant: byte, now: int64, rest: bytes)
    requires e.Sound() && Carriable(e, TagFor(v, quant), v)
    ensures ReadValue(e, Tagged(e, v, quant, now) + rest, now) == Parsed(Carried(e, TagFor(v, quant), v), rest)
  {
    var tag := TagFor(v, quant);
    assert (Tagged(e, v, quant, now) + rest)[1..] == Payload(e, tag, v, now) + rest;
    TaggedRoundTrip(e, tag, v, now, rest);
  }

  /** Behind the tag its own type picks, or a time stamp's, a value arrives as itself, except a float that
      narrowing changes. In particular a hint never changes an int, whatever it says: the one hint an int
      takes is exact. */
  lemma AutoIsLossless(e: Engine, v: Variant, quant: byte)
    requires e.Sound() && !Lossy(quant)
    ensures Carried(e, TagFor(v, quant), v) == v <==> (v.Float? ==> e.rounding.Narrow(v.d) == v.d)
  {
  }

  // --- What arrives, hint by hint ---

  /** Each lossy hint goes behind its own tag whatever the value's type, and leaves what its own precision does:
      an angle in 2^16 or 2^8 steps, a binary16, three of them. */
  lemma HintedArrives(e: Engine, v: Variant, now: int64, rest: bytes)
    requires e.Sound()
    ensures var d, u := e.rounding.Narrow(e.asDouble(v)), e.asVector(v);
            && ReadValue(e, Tagged(e, v, TAG_ANGLE16, now) + rest, now)
               == Parsed(Float(e.turn(e.quanta(d, 16), 16)), rest)
            && ReadValue(e, Tagged(e, v, TAG_ANGLE8, now) + rest, now)
               == Parsed(Float(e.turn(e.quanta(d, 8), 8)), rest)
            && ReadValue(e, Tagged(e, v, TAG_HALF, now) + rest, now) == Parsed(Float(e.unhalf(e.half(d))), rest)
            && ReadValue(e, Tagged(e, v, TAG_VEC3_HALF, now) + rest, now)
               == Parsed(Vec3(Vector3(e.unhalf(e.half(u.x)), e.unhalf(e.half(u.y)), e.unhalf(e.half(u.z)))), rest)
  {
    hide ReadValue;
    hide Tagged;
    ValueRoundTrip(e, v, TAG_ANGLE16, now, rest);
    ValueRoundTrip(e, v, TAG_ANGLE8, now, rest);
    ValueRoundTrip(e, v, TAG_HALF, now, rest);
    ValueRoundTrip(e, v, TAG_VEC3_HALF, now, rest);
  }

  /** What a value with no lossy hint must be to arrive: axes binary32 holds, or something Godot's encoding
      carries where there is no shorter form. */
  ghost predicate HasForm(e: Engine, v: Variant) {
    match v
    case Float(_) => true
    case Int(_) => true
    case Bool(_) => true
    case Vec3(u) => e.SingleVector(u)
    case _ => e.Carries(v)
  }

  /** Any other value arrives as itself, a float narrowed. */
  lemma UnhintedArrives(e: Engine, v: Variant, quant: byte, now: int64, rest: bytes)
    requires e.Sound() && HasForm(e, v)
    requires quant !in [TAG_ANGLE16, TAG_ANGLE8, TAG_HALF, TAG_VEC3_HALF]
    ensures ReadValue(e, Tagged(e, v, quant, now) + rest, now)
         == Parsed(if v.Float? then Float(e.rounding.Narrow(v.d)) else v, rest)
  {
    hide ReadValue;
    hide Tagged;
    ValueRoundTrip(e, v, quant, now, rest);
  }

  lemma FixedIsWide(n: nat, width: nat)
    requires n < Span(width)
    ensures |Fixed(n, width)| == width
  {
    FixedRoundTrip(n, width, []);
  }

  /** A hint is worth it: an angle takes two bytes or one behind its tag, a binary16 two and three of them six. */
  lemma HintedWidths(e: Engine, v: Variant, now: int64)
    requires e.Sound()
    ensures |Tagged(e, v, TAG_ANGLE16, now)| == 3 && |Tagged(e, v, TAG_ANGLE8, now)| == 2
    ensures |Tagged(e, v, TAG_HALF, now)| == 3 && |Tagged(e, v, TAG_VEC3_HALF, now)| == 7
  {
    hide Fixed;
    var u := e.asVector(v);
    Spans();
    assert Pow2(8) == 0x100 && Pow2(16) == 0x100 * Pow2(8);
    FixedIsWide(e.Angle(v, 16), 2);
    FixedIsWide(e.Angle(v, 8), 1);
    FixedIsWide(e.half(e.Single(v)), 2);
    FixedIsWide(e.half(u.x), 2);
    FixedIsWide(e.half(u.y), 2);
    FixedIsWide(e.half(u.z), 2);
  }

  /** And a stamp within 64 ms of the packet's own takes one, however long the server has been up. */
  lemma StampWidth(e: Engine, stamp: int64, now: int64)
    requires e.Sound() && -64 <= stamp - now < 64
    ensures |Tagged(e, Int(stamp), TAG_TIME_DELTA, now)| == 2
  {
    hide Uvarint;
    assert e.asInt(Int(stamp)) == stamp;
    UvarintWidth(ZigZag(Wrap64(stamp - now)));
  }

  // --- The same, appending to a writer and advancing a reader ---

  method PutVector(w: Writer, x: nat, y: nat, z: nat, width: nat)
    modifies w
    ensures w.data == old(w.data) + (Fixed(x, width) + Fixed(y, width) + Fixed(z, width))
  {
    w.PutFixed(x, width);
    w.PutFixed(y, width);
    w.PutFixed(z, width);
  }

  method PutFloats(w: Writer, e: Engine, tag: byte, v: Variant, now: int64)
    requires tag == TAG_FLOAT || tag == TAG_HALF || tag == TAG_VEC3 || tag == TAG_VEC3_HALF
    modifies w
    ensures w.data == old(w.data) + Payload(e, tag, v, now)
  {
    var u := e.asVector(v);
    if tag == TAG_FLOAT {
      w.PutFixed(e.bits32(e.Single(v)), 4);
    } else if tag == TAG_HALF {
      w.PutFixed(e.half(e.Single(v)), 2);
    } else if tag == TAG_VEC3 {
      PutVector(w, e.bits32(u.x), e.bits32(u.y), e.bits32(u.z), 4);
    } else {
      PutVector(w, e.half(u.x), e.half(u.y), e.half(u.z), 2);
    }
  }

  method PutOpaque(w: Writer, e: Engine, v: Variant)
    modifies w
    ensures w.data == old(w.data) + (Fixed(|e.encode(v)|, 4) + e.encode(v))
  {
    var image := e.encode(v);
    w.PutFixed(|image|, 4);
    w.PutData(image);
  }

  method PutPayload(w: Writer, e: Engine, tag: byte, v: Variant, now: int64)
    modifies w
    ensures w.data == old(w.data) + Payload(e, tag, v, now)
  {
    if tag == TAG_ANGLE16 {
      w.PutFixed(e.Angle(v, 16), 2);
    } else if tag == TAG_ANGLE8 {
      w.PutFixed(e.Angle(v, 8), 1);
    } else if tag == TAG_TIME_DELTA {
      w.PutStep(e.asInt(v), now);
    } else if tag == TAG_INT {
      w.PutVarint(e.asInt(v));
    } else if tag == TAG_BOOL {
      w.PutU8(if e.asBool(v) then 1 else 0);
    } else if TAG_FLOAT <= tag <= TAG_TIME_DELTA {
      PutFloats(w, e, tag, v, now);
    } else {
      PutOpaque(w, e, v);
    }
  }

  method PutValue(w: Writer, e: Engine, v: Variant, quant: byte, now: int64)
    modifies w
    ensures w.data == old(w.data) + Tagged(e, v, quant, now)
  {
    var tag := TagFor(v, quant);
    w.PutU8(tag);
    PutPayload(w, e, tag, v, now);
  }

  method GetVector(r: Reader, width: nat, value: nat -> Double) returns (v: Variant)
    requires r.Valid()
    modifies r
    ensures r.Valid()
    ensures match ReadVector(old(r.Rest()), width, value)
            case Parsed(u, rest) => v == u && r.Rest() == rest && r.failed == old(r.failed)
            case Truncated => r.failed
  {
    var x := r.GetFixed(width);
    var y := r.GetFixed(width);
    var z := r.GetFixed(width);
    v := Vec3(Vector3(value(x), value(y), value(z)));
  }

  method GetTagged(r: Reader, e: Engine, tag: byte, now: int64) returns (v: Variant)
    requires r.Valid()
    modifies r
    ensures r.Valid()
    ensures match ReadTagged(e, tag, old(r.Rest()), now)
            case Parsed(u, rest) => v == u && r.Rest() == rest && r.failed == old(r.failed)
            case Truncated => r.failed
  {
    if tag == TAG_FLOAT {
      var n := r.GetFixed(4);
      v := Float(e.value32(n));
    } else if tag == TAG_INT {
      var i := r.GetVarint();
      v := Int(Wrap64(i));
    } else if tag == TAG_VEC3 {
      v := GetVector(r, 4, e.value32);
    } else if tag == TAG_BOOL {
      var n := r.GetFixed(1);
      v := Bool(n != 0);
    } else if tag == TAG_ANGLE16 {
      var q := r.GetFixed(2);
      v := Float(e.turn(q, 16));
    } else if tag == TAG_ANGLE8 {
      var q := r.GetFixed(1);
      v := Float(e.turn(q, 8));
    } else if tag == TAG_HALF {
      var n := r.GetFixed(2);
      v := Float(e.unhalf(n));
    } else if tag == TAG_VEC3_HALF {
      v := GetVector(r, 2, e.unhalf);
    } else if tag == TAG_TIME_DELTA {
      var i := r.GetStep(now);
      v := Int(i);
    } else {
      var n := r.GetFixed(4);
      var d := r.GetData(n);
      v := if |d| == n then e.decode(d) else Nil;
    }
  }

  method GetValue(r: Reader, e: Engine, now: int64) returns (v: Variant)
    requires r.Valid()
    modifies r
    ensures r.Valid()
    ensures match ReadValue(e, old(r.Rest()), now)
            case Parsed(u, rest) => v == u && r.Rest() == rest && r.failed == old(r.failed)
            case Truncated => r.failed
  {
    var tag := r.GetU8();
    v := GetTagged(r, e, tag, now);
  }
}
