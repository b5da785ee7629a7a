/** An RPC's arguments and a spawn record's data: the snapshot's value tags where they fit, the
    binding's own tags for what an RPC passes most. Everything here arrives exactly as it was sent. */
module Args {
  import opened Options
  import opened Wire
  import opened Floats
  import opened Values

  const ARG_NIL: byte := 64
  const ARG_STRING: byte := 65
  const ARG_STRING_NAME: byte := 66
  const ARG_BYTES: byte := 67
  const ARG_DOUBLE: byte := 68

  /** How an RPC may be called, and whether this peer may: anyone's calls, those of the node's authority, or
      none. A method that is no RPC has no mode. */
  datatype RpcMode = Disabled | Authority | AnyPeer

  predicate MayCall(mode: Option<RpcMode>, authority: int, from: int) {
    match mode
    case None => false
    case Some(Disabled) => false
    case Some(Authority) => authority == from
    case Some(AnyPeer) => true
  }

  /** A double binary32 would change goes as its 64 bits, low word first. */
  function DoubleCode(e: Engine, d: Double): bytes {
    Fixed(e.bits64(d) % 0x1_0000_0000, 4) + Fixed(e.bits64(d) / 0x1_0000_0000, 4)
  }

  predicate FitsSingle(e: Engine, d: Double) {
    FloatEq(e.rounding.Narrow(d), d)
  }

  function ArgCode(e: Engine, v: Variant): bytes {
    match v
    case Nil => [ARG_NIL]
    case Str(s) => [ARG_STRING] + Block(s)
    case Name(s) => [ARG_STRING_NAME] + Block(s)
    case Blob(b) => [ARG_BYTES] + Block(b)
    case Float(d) => if FitsSingle(e, d) then Tagged(e, v, QUANT_AUTO, 0) else [ARG_DOUBLE] + DoubleCode(e, d)
    case _ => Tagged(e, v, QUANT_AUTO, 0)
  }

  function ReadDouble(e: Engine, s: bytes): Parsed<Variant> {
    match ReadFixed(s, 4)
    case Truncated => Truncated
    case Parsed(low, rest) => Map(ReadFixed(rest, 4), (high: nat) => Float(e.value64(low + 0x1_0000_0000 * high)))
  }

  function ReadArg(e: Engine, s: bytes): Parsed<Variant> {
    if s == [] then Truncated
    else if s[0] == ARG_NIL then Parsed(Nil, s[1..])
    else if s[0] == ARG_STRING then Map(ReadBlock(s[1..]), b => Str(b))
    else if s[0] == ARG_STRING_NAME then Map(ReadBlock(s[1..]), b => Name(b))
    else if s[0] == ARG_BYTES then Map(ReadBlock(s[1..]), b => Blob(b))
    else if s[0] == ARG_DOUBLE then ReadDouble(e, s[1..])
    else ReadTagged(e, s[0], s[1..], 0)
  }

  /** What the platform's formats hold: a real binary64, binary32 axes, or for a type with no tag
      one Godot's encoding carries. */
  ghost predicate Passable(e: Engine, v: Variant) {
    match v
    case Float(d) => e.isDouble(d)
    case Vec3(u) => e.SingleVector(u)
    case Dict(_) => e.Carries(v)
    case Other(_, _) => e.Carries(v)
    case _ => true
  }

  lemma DoubleRoundTrip(e: Engine, d: Double, rest: bytes)
    requires e.Sound() && e.isDouble(d)
    ensures ReadDouble(e, DoubleCode(e, d) + rest) == Parsed(Float(d), rest)
  {
    Spans();
    var u := e.bits64(d);
    assert u / 0x1_0000_0000 < 0x1_0000_0000;
    Regroup(Fixed(u % 0x1_0000_0000, 4), Fixed(u / 0x1_0000_0000, 4), [], rest);
    FixedRoundTrip(u % 0x1_0000_0000, 4, Fixed(u / 0x1_0000_0000, 4) + rest);
    FixedRoundTrip(u / 0x1_0000_0000, 4, rest);
  }

  lemma NarrowedIsItself(e: Engine, d: Double)
    requires e.Sound() && FitsSingle(e, d)
    ensures e.rounding.Narrow(d) == d
  {
    hide Nearest;
    if d.Finite? {
      assert e.rounding.Asked(d.x);
    }
  }

  /** An argument reads back as exactly itself and takes exactly its bytes. A double that narrows to
      an equal one is that one, bit for bit: neither a zero's sign nor a NaN can slip through. */
  lemma ArgRoundTrip(e: Engine, v: Variant, rest: bytes)
    requires e.Sound() && Passable(e, v)
    ensures ReadArg(e, ArgCode(e, v) + rest) == Parsed(v, rest)
  {
    var code := ArgCode(e, v);
    assert (code + rest)[1..] == code[1..] + rest;
    match v
    case Nil => assert (code + rest)[1..] == rest;
    case Str(s) => BlockRoundTrip(s, rest);
    case Name(s) => BlockRoundTrip(s, rest);
    case Blob(b) => BlockRoundTrip(b, rest);
    case Float(d) =>
      if FitsSingle(e, d) {
        NarrowedIsItself(e, d);
        TaggedRoundTrip(e, TAG_FLOAT, v, 0, rest);
      } else {
        DoubleRoundTrip(e, d, rest);
      }
    case _ =>
      AutoIsLossless(e, v, QUANT_AUTO);
      TaggedRoundTrip(e, TagFor(v, QUANT_AUTO), v, 0, rest);
  }

  function ArgCoder(e: Engine): Variant -> bytes {
    v => ArgCode(e, v)
  }

  function ArgReader(e: Engine): bytes -> Parsed<Variant> {
    s => ReadArg(e, s)
  }

  function ArgsCode(e: Engine, args: seq<Variant>): bytes {
    Uvarint(|args|) + RowCode(ArgCoder(e), args)
  }

  function ReadArgs(e: Engine, s: bytes): Parsed<seq<Variant>> {
    match ReadUvarint(s)
    case Truncated => Truncated
    case Parsed(n, rest) => ReadRow(ArgReader(e), n, rest)
  }

  ghost predicate AllPassable(e: Engine, args: seq<Variant>) {
    forall k | 0 <= k < |args| :: Passable(e, args[k])
  }

  lemma ArgsRoundTrip(e: Engine, args: seq<Variant>, rest: bytes)
    requires e.Sound() && AllPassable(e, args)
    ensures ReadArgs(e, ArgsCode(e, args) + rest) == Parsed(args, rest)
  {
    var body := RowCode(ArgCoder(e), args);
    Regroup(Uvarint(|args|), body, [], rest);
    UvarintRoundTrip(|args|, body + rest);
    forall k: nat, tail: bytes | k < |args|
      ensures ArgReader(e)(ArgCoder(e)(args[k]) + tail) == Parsed(args[k], tail)
    {
      ArgRoundTrip(e, args[k], tail);
    }
    RowRoundTrip(ArgCoder(e), ArgReader(e), args, rest);
  }

  // --- A spawn record's data ---

  /** A spawned node's synchronizer: its id, and its path from the node. */
  datatype SpawnSync = SpawnSync(netId: nat, path: bytes)

  function SyncCode(sync: SpawnSync): bytes {
    Uvarint(sync.netId) + Block(sync.path)
  }

  /** The synchronizers, then the spawn's own data with nothing to say where it ends. */
  function SpawnCode(e: Engine, syncs: seq<SpawnSync>, data: Variant): bytes {
    Uvarint(|syncs|) + RowCode(SyncCode, syncs) + e.encode(data)
  }

  function ReadSync(s: bytes): Parsed<SpawnSync> {
    match ReadUvarint(s)
    case Truncated => Truncated
    case Parsed(id, rest) => Map(ReadBlock(rest), path => SpawnSync(id, path))
  }

  function ReadSpawn(e: Engine, s: bytes): Option<(seq<SpawnSync>, Variant)> {
    match ReadUvarint(s)
    case Truncated => None
    case Parsed(n, rest) =>
      match ReadRow(ReadSync, n, rest)
      case Truncated => None
      case Parsed(syncs, tail) => Some((syncs, e.decode(tail)))
  }

  lemma SyncRoundTrip(sync: SpawnSync, rest: bytes)
    ensures ReadSync(SyncCode(sync) + rest) == Parsed(sync, rest)
  {
    Regroup(Uvarint(sync.netId), Block(sync.path), [], rest);
    UvarintRoundTrip(sync.netId, Block(sync.path) + rest);
    BlockRoundTrip(sync.path, rest);
  }

  /** A record's synchronizers read back as they were, whatever the data; the data as well if Godot's
      own encoding carries it. */
  lemma SpawnRoundTrip(e: Engine, syncs: seq<SpawnSync>, data: Variant)
    ensures ReadSpawn(e, SpawnCode(e, syncs, data)) == Some((syncs, e.decode(e.encode(data))))
    ensures e.Sound() && e.Carries(data) ==> ReadSpawn(e, SpawnCode(e, syncs, data)) == Some((syncs, data))
  {
    var body, tail := RowCode(SyncCode, syncs), e.encode(data);
    Regroup(Uvarint(|syncs|), body, [], tail);
    UvarintRoundTrip(|syncs|, body + tail);
    forall k: nat, rest: bytes | k < |syncs|
      ensures ReadSync(SyncCode(syncs[k]) + rest) == Parsed(syncs[k], rest)
    {
      SyncRoundTrip(syncs[k], rest);
    }
    RowRoundTrip(SyncCode, ReadSync, syncs, tail);
  }

  // --- The same, appending to a writer and advancing a reader ---

  method PutMarked(w: Writer, tag: byte, b: bytes)
    modifies w
    ensures w.data == old(w.data) + ([tag] + Block(b))
  {
    w.PutU8(tag);
    w.PutBlock(b);
  }

  method PutDouble(w: Writer, e: Engine, d: Double)
    modifies w
    ensures w.data == old(w.data) + ([ARG_DOUBLE] + DoubleCode(e, d))
  {
    hide Fixed;
    var u := e.bits64(d);
    w.PutU8(ARG_DOUBLE);
    w.PutFixed(u % 0x1_0000_0000, 4);
    w.PutFixed(u / 0x1_0000_0000, 4);
  }

  method PutArg(w: Writer, e: Engine, v: Variant)
    modifies w
    ensures w.data == old(w.data) + ArgCode(e, v)
  {
    if v.Nil? {
      w.PutU8(ARG_NIL);
    } else if v.Str? {
      PutMarked(w, ARG_STRING, v.s);
    } else if v.Name? {
      PutMarked(w, ARG_STRING_NAME, v.s);
    } else if v.Blob? {
      PutMarked(w, ARG_BYTES, v.data);
    } else if v.Float? && !FitsSingle(e, v.d) {
      PutDouble(w, e, v.d);
    } else {
      PutValue(w, e, v, QUANT_AUTO, 0);
    }
  }

  method PutArgs(w: Writer, e: Engine, args: seq<Variant>)
    modifies w
    ensures w.data == old(w.data) + ArgsCode(e, args)
  {
    w.PutUvarint(|args|);
    ghost var all := w.data + RowCode(ArgCoder(e), args);
    RowEnds(ArgCoder(e), args, w.data);
    for k := 0 to |args|
      invariant w.data + RowCode(ArgCoder(e), args[k..]) == all
    {
      RowFrom(ArgCoder(e), args, k, w.data);
      PutArg(w, e, args[k]);
    }
    RowEnds(ArgCoder(e), args, w.data);
  }

  method GetDouble(r: Reader, e: Engine) returns (v: Variant)
    requires r.Valid()
    modifies r
    ensures r.Valid()
    ensures match ReadDouble(e, old(r.Rest()))
            case Parsed(u, rest) => v == u && r.Rest() == rest && r.failed == old(r.failed)
            case Truncated => r.failed
  {
    var low := r.GetFixed(4);
    var high := r.GetFixed(4);
    v := Float(e.value64(low + 0x1_0000_0000 * high));
  }

  method GetArg(r: Reader, e: Engine) returns (v: Variant)
    requires r.Valid()
    modifies r
    ensures r.Valid()
    ensures match ReadArg(e, old(r.Rest()))
            case Parsed(u, rest) => v == u && r.Rest() == rest && r.failed == old(r.failed)
            case Truncated => r.failed
  {
    var tag := r.GetU8();
    if tag == ARG_NIL {
      v := Nil;
    } else if tag == ARG_STRING {
      var b := r.GetBlock();
      v := Str(b);
    } else if tag == ARG_STRING_NAME {
      var b := r.GetBlock();
      v := Name(b);
    } else if tag == ARG_BYTES {
      var b := r.GetBlock();
      v := Blob(b);
    } else if tag == ARG_DOUBLE {
      v := GetDouble(r, e);
    } else {
      v := GetTagged(r, e, tag, 0);
    }
  }

  method GetArgsRow(r: Reader, e: Engine, n: nat) returns (args: seq<Variant>)
    requires r.Valid() && !r.failed
    modifies r
    ensures r.Valid()
    ensures match ReadRow(ArgReader(e), n, old(r.Rest()))
            case Parsed(all, rest) => args == all && r.Rest() == rest && !r.failed
            case Truncated => r.failed
  {
    args := [];
    ghost var all := ReadRow(ArgReader(e), n, r.Rest());
    assert all.Parsed? ==> [] + all.value == all.value;
    var k := 0;
    while k < n && !r.failed
      invariant r.Valid() && k <= n
      invariant if r.failed then all.Truncated? else Continues(all, args, ReadRow(ArgReader(e), n - k, r.Rest()))
      decreases n - k, !r.failed
    {
      RowOn(ArgReader(e), all, args, n - k, r.Rest());
      var v := GetArg(r, e);
      args := args + [v];
      k := k + 1;
    }
  }

  method GetArgs(r: Reader, e: Engine) returns (args: seq<Variant>)
    requires r.Valid() && !r.failed
    modifies r
    ensures r.Valid()
    ensures match ReadArgs(e, old(r.Rest()))
            case Parsed(all, rest) => args == all && r.Rest() == rest && !r.failed
            case Truncated => r.failed
  {
    var n := r.GetUvarint();
    if r.failed {
      return [];
    }
    args := GetArgsRow(r, e, n);
  }

  method PutSync(w: Writer, sync: SpawnSync)
    modifies w
    ensures w.data == old(w.data) + SyncCode(sync)
  {
    w.PutUvarint(sync.netId);
    w.PutBlock(sync.path);
  }

  method PutSpawnData(w: Writer, e: Engine, syncs: seq<SpawnSync>, data: Variant)
    modifies w
    ensures w.data == old(w.data) + SpawnCode(e, syncs, data)
  {
    w.PutUvarint(|syncs|);
    ghost var all := w.data + RowCode(SyncCode, syncs);
    RowEnds(SyncCode, syncs, w.data);
    for k := 0 to |syncs|
      invariant w.data + RowCode(SyncCode, syncs[k..]) == all
    {
      RowFrom(SyncCode, syncs, k, w.data);
      PutSync(w, syncs[k]);
    }
    RowEnds(SyncCode, syncs, w.data);
    w.PutData(e.encode(data));
  }

  method GetSync(r: Reader) returns (sync: SpawnSync)
    requires r.Valid()
    modifies r
    ensures r.Valid()
    ensures match ReadSync(old(r.Rest()))
            case Parsed(u, rest) => sync == u && r.Rest() == rest && r.failed == old(r.failed)
            case Truncated => r.failed
  {
    var id := r.GetUvarint();
    var path := r.GetBlock();
    sync := SpawnSync(id, path);
  }

  method GetSyncsRow(r: Reader, n: nat) returns (syncs: seq<SpawnSync>)
    requires r.Valid() && !r.failed
    modifies r
    ensures r.Valid()
    ensures match ReadRow(ReadSync, n, old(r.Rest()))
            case Parsed(all, rest) => syncs == all && r.Rest() == rest && !r.failed
            case Truncated => r.failed
  {
    syncs := [];
    ghost var all := ReadRow(ReadSync, n, r.Rest());
    assert all.Parsed? ==> [] + all.value == all.value;
    var k := 0;
    while k < n && !r.failed
      invariant r.Valid() && k <= n
      invariant if r.failed then all.Truncated? else Continues(all, syncs, ReadRow(ReadSync, n - k, r.Rest()))
      decreases n - k, !r.failed
    {
      RowOn(ReadSync, all, syncs, n - k, r.Rest());
      var sync := GetSync(r);
      syncs := syncs + [sync];
      k := k + 1;
    }
  }

  method GetSpawnData(data: bytes, e: Engine) returns (parsed: Option<(seq<SpawnSync>, Variant)>)
    ensures parsed == ReadSpawn(e, data)
  {
    var r := new Reader(data);
    var n := r.GetUvarint();
    if r.failed {
      return None;
    }
    var syncs := GetSyncsRow(r, n);
    if r.failed {
      return None;
    }
    return Some((syncs, e.decode(r.Rest())));
  }
}
