/** RPCs on the netchan. A call names its target by a small id, which the sending end registers with
    the receiving one the first time it uses it there. The reliable stream is in order and exactly
    once; a datagram may be lost, repeated or overtaken, so an id may go bare in one only when the
    registration is known to have arrived, and otherwise the registration rides in front. */
module Messages {
  import opened Options
  import opened Wire
  import opened Values
  import opened Args

  /** What a call is made on: the node's path and the method, as UTF-8. */
  datatype Target = Target(path: bytes, name: bytes)

  datatype Message =
    | Register(id: nat, target: Target)
    | Bare(id: nat, target: Target, args: seq<Variant>)
    | Inline(id: nat, target: Target, args: seq<Variant>)

  const MAX_UNRELIABLE_MESSAGE: nat := 512

  const COLON: byte := 58

  /** The key the sender files an id under: path::method. */
  function Key(t: Target): bytes {
    t.path + [COLON, COLON] + t.name
  }

  function Named(id: nat, t: Target): bytes {
    Uvarint(id) + Block(t.path) + Block(t.name)
  }

  function Registration(id: nat, t: Target): bytes {
    Uvarint(0) + Named(id, t)
  }

  function Print(e: Engine, m: Message): bytes {
    match m
    case Register(id, t) => Registration(id, t)
    case Bare(id, _, args) => Uvarint(id) + ArgsCode(e, args)
    case Inline(id, t, args) => Registration(id, t) + ArgsCode(e, args)
  }

  function PrintAll(e: Engine, ms: seq<Message>): seq<bytes> {
    seq(|ms|, k requires 0 <= k < |ms| => Print(e, ms[k]))
  }

  // --- Sending ---

  /** What one call does at the sending end: the ids, what it registers with the peer, what it adds
      to the peer's reliable stream and its datagram. Not queued means the call is too big for a
      datagram and goes another way, though its id stays assigned. */
  datatype Plan = Plan(ids: map<bytes, nat>, nextId: nat, registered: map<nat, nat>, stream: seq<Message>,
      datagram: Option<Message>, queued: bool) {
    function Datagrams(): seq<Message> {
      if datagram.Some? then [datagram.value] else []
    }
  }

  function IdFor(ids: map<bytes, nat>, nextId: nat, t: Target): nat {
    if Key(t) in ids then ids[Key(t)] else nextId
  }

  function Noted(registered: map<nat, nat>, id: nat, at: nat): map<nat, nat> {
    if id in registered then registered else registered[id := at]
  }

  /** A call to a target whose id is settled. */
  function PlanFor(e: Engine, ids: map<bytes, nat>, nextId: nat, id: nat, registered: map<nat, nat>, queued: nat,
      delivered: nat, t: Target, args: seq<Variant>, reliable: bool): Plan
  {
    var known := id in registered && delivered > registered[id];
    var call := if reliable || known then Bare(id, t, args) else Inline(id, t, args);
    if !reliable && |Print(e, call)| > MAX_UNRELIABLE_MESSAGE then
      Plan(ids, nextId, registered, [], None, false)
    else
      var stream := if id in registered then [] else [Register(id, t)];
      Plan(ids, nextId, Noted(registered, id, queued), if reliable then stream + [call] else stream,
          if reliable then None else Some(call), true)
  }

  function PlanCall(e: Engine, ids: map<bytes, nat>, nextId: nat, registered: map<nat, nat>, queued: nat,
      delivered: nat, t: Target, args: seq<Variant>, reliable: bool): Plan
  {
    var id := IdFor(ids, nextId, t);
    PlanFor(e, ids[Key(t) := id], if Key(t) in ids then nextId else nextId + 1, id, registered, queued, delivered, t,
        args, reliable)
  }

  // --- Receiving ---

  datatype Outcome =
    | Ignored
    | Registered
    | Unknown
    | Absent(target: Target)
    | Refused(node: nat, target: Target)
    | Called(node: nat, target: Target, args: seq<Variant>)

  /** What an id names, and the node found there the last time, or 0. */
  datatype Known = Known(target: Target, node: nat)

  type Table = map<nat, Known>

  /** What a message's arrival finds: who sent it, the node at each path (0 for none), which nodes are in the
      tree, how each method of each may be called if it is an RPC at all, and whose each node is. */
  datatype Here = Here(
    from: int,
    node: bytes -> nat,
    inTree: nat -> bool,
    mode: (nat, bytes) -> Option<RpcMode>,
    authority: nat -> int
  ) {
    /** The node found before, while it is in the tree; otherwise the one at the path now. */
    function Find(k: Known): nat {
      if k.node != 0 && inTree(k.node) then k.node else node(k.target.path)
    }

    predicate Lets(n: nat, t: Target) {
      MayCall(mode(n, t.name), authority(n), from)
    }

    /** What becomes of a whole call. */
    function Answer(n: nat, t: Target, args: seq<Variant>): Outcome {
      if n == 0 then Absent(t) else if !Lets(n, t) then Refused(n, t) else Called(n, t, args)
    }
  }

  function Found(table: Table, id: nat, here: Here): Table
    requires id in table
  {
    table[id := table[id].(node := here.Find(table[id]))]
  }

  /** A call to an id: made on the node found for what the table says it names, if there is one and it lets the
      sender. */
  function Dispatch(e: Engine, table: Table, id: nat, s: bytes, here: Here): (Table, Outcome) {
    if id !in table then (table, Unknown)
    else
      var n, t := here.Find(table[id]), table[id].target;
      (Found(table, id, here),
       if n == 0 then Absent(t)
       else
         match ReadArgs(e, s)
         case Truncated => Ignored
         case Parsed(args, _) => here.Answer(n, t, args))
  }

  /** Under a target of its own, or as it was. */
  function Filed(table: Table, id: nat, t: Target): Table {
    if id in table && table[id].target == t then table else table[id := Known(t, 0)]
  }

  function ReadTarget(s: bytes): Parsed<Target> {
    match ReadBlock(s)
    case Truncated => Truncated
    case Parsed(path, rest) => Map(ReadBlock(rest), name => Target(path, name))
  }

  function ReadRegistration(s: bytes): Parsed<(nat, Target)> {
    match ReadUvarint(s)
    case Truncated => Truncated
    case Parsed(id, rest) => Map(ReadTarget(rest), t => (id, t))
  }

  /** A registration taken into the table; one cut short or naming 0 is not. */
  function Take(table: Table, s: bytes): Parsed<(nat, Table)> {
    match ReadRegistration(s)
    case Truncated => Truncated
    case Parsed((id, t), rest) => if id == 0 then Truncated else Parsed((id, Filed(table, id, t)), rest)
  }

  function Receive(e: Engine, table: Table, data: bytes, here: Here): (Table, Outcome) {
    match ReadUvarint(data)
    case Truncated => (table, Ignored)
    case Parsed(id, rest) =>
      if id != 0 then Dispatch(e, table, id, rest, here)
      else
        match Take(table, rest)
        case Truncated => (table, Ignored)
        case Parsed((newId, table'), rest') =>
          if rest' == [] then (table', Registered) else Dispatch(e, table', newId, rest', here)
  }

  lemma NamedRoundTrip(id: nat, t: Target, rest: bytes)
    ensures ReadRegistration(Named(id, t) + rest) == Parsed((id, t), rest)
  {
    Regroup(Uvarint(id), Block(t.path), Block(t.name), rest);
    UvarintRoundTrip(id, Block(t.path) + (Block(t.name) + rest));
    BlockRoundTrip(t.path, Block(t.name) + rest);
    BlockRoundTrip(t.name, rest);
  }

  /** What a whole call to an id of the table comes to. */
  function Made(table: Table, id: nat, args: seq<Variant>, here: Here): (Table, Outcome)
    requires id in table
  {
    (Found(table, id, here), here.Answer(here.Find(table[id]), table[id].target, args))
  }

  lemma BareRoundTrip(e: Engine, table: Table, id: nat, args: seq<Variant>, here: Here)
    requires e.Sound() && AllPassable(e, args)
    ensures Dispatch(e, table, id, ArgsCode(e, args), here) ==
              if id !in table then (table, Unknown) else Made(table, id, args, here)
  {
    ArgsRoundTrip(e, args, []);
    assert ArgsCode(e, args) + [] == ArgsCode(e, args);
  }

  /** Read at the other end, a message is what it was printed from: a registration adds its target,
      a bare call is its id's and one that carries the registration is the carried target's, with
      the arguments that were passed. */
  lemma ReceivePrinted(e: Engine, table: Table, m: Message, here: Here)
    requires e.Sound() && m.id != 0 && (m.Register? || AllPassable(e, m.args))
    ensures Receive(e, table, Print(e, m), here) ==
              match m
              case Register(id, t) => (Filed(table, id, t), Registered)
              case Bare(id, _, args) => if id !in table then (table, Unknown) else Made(table, id, args, here)
              case Inline(id, t, args) => Made(Filed(table, id, t), id, args, here)
  {
    match m
    case Register(id, t) =>
      assert Named(id, t) + [] == Named(id, t);
      NamedRoundTrip(id, t, []);
      UvarintRoundTrip(0, Named(id, t));
    case Bare(id, _, args) =>
      UvarintRoundTrip(id, ArgsCode(e, args));
      BareRoundTrip(e, table, id, args, here);
    case Inline(id, t, args) =>
      Regroup(Uvarint(0), Named(id, t), [], ArgsCode(e, args));
      UvarintRoundTrip(0, Named(id, t) + ArgsCode(e, args));
      NamedRoundTrip(id, t, ArgsCode(e, args));
      assert ArgsCode(e, args) != [];
      BareRoundTrip(e, Filed(table, id, t), id, args, here);
  }

  // --- The two ends together ---

  /** One peer: what the sender keeps of it, the two channels, and the peer's own table. Each
      registered id maps to its registration's place in the reliable stream. */
  datatype Link = Link(
    registered: map<nat, nat>,
    stream: seq<Message>,
    acked: nat,               // of the stream, how much the sender knows arrived
    datagrams: set<Message>,
    got: nat,                 // and how much did
    table: Table
  )

  datatype World = World(ids: map<bytes, nat>, nextId: nat, links: map<int, Link>)

  datatype Event =
    | Connect(peer: int)
    | Forget(peer: int)
    | Send(peer: int, target: Target, args: seq<Variant>, reliable: bool)
    | StreamArrives(peer: int)
    | DatagramArrives(peer: int, message: Message)
    | AckArrives(peer: int, count: nat)

  const NewLink := Link(map[], [], 0, {}, 0, map[])

  const Start := World(map[], 1, map[])

  /** A scene path has no colon: node names cannot hold one. */
  predicate ScenePath(path: bytes) {
    COLON !in path
  }

  ghost predicate Enabled(e: Engine, w: World, event: Event) {
    match event
    case Connect(_) => true
    case Forget(_) => true
    case Send(peer, t, args, _) => peer in w.links && ScenePath(t.path) && AllPassable(e, args)
    case StreamArrives(peer) => peer in w.links && w.links[peer].got < |w.links[peer].stream|
    case DatagramArrives(peer, m) => peer in w.links && m in w.links[peer].datagrams
    case AckArrives(peer, count) => peer in w.links && w.links[peer].acked <= count <= w.links[peer].got
  }

  /** The message an arrival event hands the peer. */
  function Arriving(e: Engine, w: World, event: Event): Message
    requires event.StreamArrives? || event.DatagramArrives?
    requires event.StreamArrives? ==> event.peer in w.links && w.links[event.peer].got < |w.links[event.peer].stream|
  {
    if event.StreamArrives? then w.links[event.peer].stream[w.links[event.peer].got] else event.message
  }

  ghost function Sent(l: Link, p: Plan): Link {
    l.(registered := p.registered, stream := l.stream + p.stream,
       datagrams := l.datagrams + if p.datagram.Some? then {p.datagram.value} else {})
  }

  ghost function Next(e: Engine, w: World, event: Event, here: Here): World
    requires Enabled(e, w, event)
  {
    match event
    case Connect(peer) => w.(links := w.links[peer := NewLink])
    case Forget(peer) => w.(links := w.links - {peer})
    case Send(peer, t, args, reliable) =>
      var l := w.links[peer];
      var p := PlanCall(e, w.ids, w.nextId, l.registered, |l.stream|, l.acked, t, args, reliable);
      World(p.ids, p.nextId, w.links[peer := Sent(l, p)])
    case StreamArrives(peer) =>
      var l := w.links[peer];
      var table := Receive(e, l.table, Print(e, Arriving(e, w, event)), here).0;
      w.(links := w.links[peer := l.(got := l.got + 1, table := table)])
    case DatagramArrives(peer, m) =>
      var l := w.links[peer];
      w.(links := w.links[peer := l.(table := Receive(e, l.table, Print(e, m), here).0)])
    case AckArrives(peer, count) => w.(links := w.links[peer := w.links[peer].(acked := count)])
  }

  /** id is the one t was given. */
  predicate Owns(ids: map<bytes, nat>, id: nat, t: Target) {
    ScenePath(t.path) && Key(t) in ids && ids[Key(t)] == id
  }

  predicate IdsInv(ids: map<bytes, nat>, nextId: nat) {
    && |ids| + 1 == nextId
    && (forall k | k in ids :: 1 <= ids[k] < nextId)
    && (forall k, l | k in ids && l in ids && ids[k] == ids[l] :: k == l)
  }

  ghost predicate MessageInv(e: Engine, ids: map<bytes, nat>, m: Message) {
    Owns(ids, m.id, m.target) && (m.Register? || AllPassable(e, m.args))
  }

  ghost predicate LinkInv(e: Engine, ids: map<bytes, nat>, l: Link) {
    && l.acked <= l.got <= |l.stream|
    && (forall id | id in l.registered ::
          l.registered[id] < |l.stream| && l.stream[l.registered[id]].Register? && l.stream[l.registered[id]].id == id)
    && (forall k | 0 <= k < |l.stream| ::
          && MessageInv(e, ids, l.stream[k])
          && (l.stream[k].Bare? ==> l.stream[k].id in l.registered && l.registered[l.stream[k].id] < k))
    && (forall m | m in l.datagrams ::
          && MessageInv(e, ids, m)
          && (m.Bare? ==> m.id in l.registered && l.registered[m.id] < l.acked))
    && (forall id | id in l.table :: Owns(ids, id, l.table[id].target))
    && (forall k | 0 <= k < l.got :: l.stream[k].Register? ==> l.stream[k].id in l.table)
  }

  ghost predicate Inv(e: Engine, w: World) {
    IdsInv(w.ids, w.nextId) && (forall peer | peer in w.links :: LinkInv(e, w.ids, w.links[peer]))
  }

  /** No two scene targets share a key: the path ends at the first colon. */
  lemma KeyInjective(t: Target, u: Target)
    requires ScenePath(t.path) && ScenePath(u.path) && Key(t) == Key(u)
    ensures t == u
  {
    FirstColon(t, u);
    FirstColon(u, t);
    var k := Key(t);
    assert t.path == k[..|t.path|] && u.path == k[..|u.path|];
    assert t.name == k[|t.path| + 2..] && u.name == k[|u.path| + 2..];
  }

  /** With colons in a path two targets could share a key, and the second be called as the first. */
  lemma ColonsWouldClash()
    ensures var t, u := Target([1, COLON, COLON, 2], [3]), Target([1], [2, COLON, COLON, 3]);
            t != u && Key(t) == Key(u) && !ScenePath(t.path)
  {
    assert Key(Target([1, COLON, COLON, 2], [3])) == [1, COLON, COLON, 2, COLON, COLON, 3];
  }

  lemma FirstColon(t: Target, u: Target)
    requires ScenePath(t.path) && Key(t) == Key(u)
    ensures |t.path| <= |u.path|
  {
    assert Key(u)[|u.path|] == COLON;
    assert forall i | 0 <= i < |t.path| :: Key(t)[i] == t.path[i];
  }

  lemma OwnerUnique(ids: map<bytes, nat>, nextId: nat, id: nat, t: Target, u: Target)
    requires IdsInv(ids, nextId) && Owns(ids, id, t) && Owns(ids, id, u)
    ensures t == u
  {
    KeyInjective(t, u);
  }

  /** The id of a bare call on its way is one its registration has already brought. */
  lemma BareIsKnown(e: Engine, w: World, event: Event)
    requires Inv(e, w) && Enabled(e, w, event) && (event.StreamArrives? || event.DatagramArrives?)
    ensures var m := Arriving(e, w, event);
            var table := w.links[event.peer].table;
            MessageInv(e, w.ids, m) && (m.Bare? ==> m.id in table && table[m.id].target == m.target)
  {
    var l, m := w.links[event.peer], Arriving(e, w, event);
    if m.Bare? {
      var k := l.registered[m.id];
      assert k < l.got;
      assert l.stream[k].Register?;
      OwnerUnique(w.ids, w.nextId, m.id, l.table[m.id].target, m.target);
    }
  }

  /** A genuine message adds at most its own id, under its own target. */
  lemma TableAfter(e: Engine, ids: map<bytes, nat>, l: Link, m: Message, here: Here)
    requires e.Sound() && LinkInv(e, ids, l) && MessageInv(e, ids, m) && m.id != 0
    ensures var table' := Receive(e, l.table, Print(e, m), here).0;
            && (forall id | id in table' :: Owns(ids, id, table'[id].target))
            && l.table.Keys <= table'.Keys && (m.Register? ==> m.id in table')
  {
    hide Receive, Print, Owns;
    ReceivePrinted(e, l.table, m, here);
  }

  lemma LinkAdvances(e: Engine, ids: map<bytes, nat>, l: Link, got: nat, table: Table)
    requires LinkInv(e, ids, l) && l.got <= got <= l.got + 1 && got <= |l.stream|
    requires forall id | id in table :: Owns(ids, id, table[id].target)
    requires l.table.Keys <= table.Keys
    requires got > l.got && l.stream[l.got].Register? ==> l.stream[l.got].id in table
    ensures LinkInv(e, ids, l.(got := got, table := table))
  {
  }

  lemma ArrivalKeeps(e: Engine, w: World, event: Event, here: Here)
    requires e.Sound() && Inv(e, w) && Enabled(e, w, event) && (event.StreamArrives? || event.DatagramArrives?)
    ensures Inv(e, Next(e, w, event, here))
  {
    BareIsKnown(e, w, event);
    var l, m := w.links[event.peer], Arriving(e, w, event);
    TableAfter(e, w.ids, l, m, here);
    LinkAdvances(e, w.ids, l, if event.StreamArrives? then l.got + 1 else l.got,
        Receive(e, l.table, Print(e, m), here).0);
  }

  /** More ids leave what was owned owned. */
  lemma LinkSurvives(e: Engine, ids: map<bytes, nat>, ids': map<bytes, nat>, l: Link)
    requires LinkInv(e, ids, l) && (forall k | k in ids :: k in ids' && ids'[k] == ids[k])
    ensures LinkInv(e, ids', l)
  {
  }

  lemma IdsSurvive(ids: map<bytes, nat>, nextId: nat, t: Target)
    requires IdsInv(ids, nextId)
    ensures var id := IdFor(ids, nextId, t);
            && IdsInv(ids[Key(t) := id], if Key(t) in ids then nextId else nextId + 1)
            && (forall k | k in ids :: ids[Key(t) := id][k] == ids[k])
  {
  }

  /** A registration at the end of the stream, if the peer has none yet. */
  function Registering(l: Link, id: nat, t: Target): Link {
    if id in l.registered then l
    else l.(registered := l.registered[id := |l.stream|], stream := l.stream + [Register(id, t)])
  }

  lemma RegisteringKeeps(e: Engine, ids: map<bytes, nat>, l: Link, id: nat, t: Target)
    requires LinkInv(e, ids, l) && Owns(ids, id, t)
    ensures LinkInv(e, ids, Registering(l, id, t)) && id in Registering(l, id, t).registered
  {
    var l' := Registering(l, id, t);
    assert MessageInv(e, ids, Register(id, t));
    hide MessageInv, Owns;
    forall k | 0 <= k < |l'.stream|
      ensures MessageInv(e, ids, l'.stream[k])
      ensures l'.stream[k].Bare? ==> l'.stream[k].id in l'.registered && l'.registered[l'.stream[k].id] < k
    {
      if k < |l.stream| {
        assert l'.stream[k] == l.stream[k];
      }
    }
  }

  lemma QueueKeeps(e: Engine, ids: map<bytes, nat>, l: Link, m: Message)
    requires LinkInv(e, ids, l) && MessageInv(e, ids, m) && m.Bare? && m.id in l.registered
    ensures LinkInv(e, ids, l.(stream := l.stream + [m]))
  {
    var l' := l.(stream := l.stream + [m]);
    forall k | 0 <= k < |l'.stream|
      ensures MessageInv(e, ids, l'.stream[k])
      ensures l'.stream[k].Bare? ==> l'.stream[k].id in l'.registered && l'.registered[l'.stream[k].id] < k
    {
      if k < |l.stream| {
        assert l'.stream[k] == l.stream[k];
      }
    }
  }

  lemma DatagramKeeps(e: Engine, ids: map<bytes, nat>, l: Link, m: Message)
    requires LinkInv(e, ids, l) && MessageInv(e, ids, m)
    requires m.Bare? ==> m.id in l.registered && l.registered[m.id] < l.acked
    ensures LinkInv(e, ids, l.(datagrams := l.datagrams + {m}))
  {
  }

  /** A queued call joins the stream or the datagrams behind its registration. */
  lemma SentIs(e: Engine, ids: map<bytes, nat>, nextId: nat, l: Link, t: Target, args: seq<Variant>, reliable: bool)
    ensures var p := PlanCall(e, ids, nextId, l.registered, |l.stream|, l.acked, t, args, reliable);
            var id := IdFor(ids, nextId, t);
            var l1 := Registering(l, id, t);
            && p.ids == ids[Key(t) := id]
            && (!p.queued ==> Sent(l, p) == l)
            && (p.queued && reliable ==> Sent(l, p) == l1.(stream := l1.stream + [Bare(id, t, args)]))
            && (p.queued && !reliable ==>
                  Sent(l, p) == l1.(datagrams := l1.datagrams + {p.datagram.value})
                  && if id in l.registered && l.acked > l.registered[id] then p.datagram.value == Bare(id, t, args)
                     else p.datagram.value == Inline(id, t, args))
  {
    assert l.stream + [] == l.stream && l.datagrams + {} == l.datagrams;
  }

  lemma SendKeepsLink(e: Engine, ids: map<bytes, nat>, nextId: nat, l: Link, t: Target, args: seq<Variant>,
      reliable: bool)
    requires IdsInv(ids, nextId) && LinkInv(e, ids, l) && ScenePath(t.path) && AllPassable(e, args)
    ensures var p := PlanCall(e, ids, nextId, l.registered, |l.stream|, l.acked, t, args, reliable);
            LinkInv(e, p.ids, Sent(l, p))
  {
    var p := PlanCall(e, ids, nextId, l.registered, |l.stream|, l.acked, t, args, reliable);
    SentIs(e, ids, nextId, l, t, args, reliable);
    IdsSurvive(ids, nextId, t);
    LinkSurvives(e, ids, p.ids, l);
    if p.queued {
      var id := IdFor(ids, nextId, t);
      RegisteringKeeps(e, p.ids, l, id, t);
      if reliable {
        QueueKeeps(e, p.ids, Registering(l, id, t), Bare(id, t, args));
      } else {
        DatagramKeeps(e, p.ids, Registering(l, id, t), p.datagram.value);
      }
    }
  }

  lemma SendKeeps(e: Engine, w: World, event: Event, here: Here)
    requires Inv(e, w) && Enabled(e, w, event) && event.Send?
    ensures Inv(e, Next(e, w, event, here))
  {
    var w' := Next(e, w, event, here);
    IdsSurvive(w.ids, w.nextId, event.target);
    SendKeepsLink(e, w.ids, w.nextId, w.links[event.peer], event.target, event.args, event.reliable);
    forall peer | peer in w'.links
      ensures LinkInv(e, w'.ids, w'.links[peer])
    {
      if peer != event.peer {
        LinkSurvives(e, w.ids, w'.ids, w.links[peer]);
      }
    }
  }

  lemma StepKeeps(e: Engine, w: World, event: Event, here: Here)
    requires e.Sound() && Inv(e, w) && Enabled(e, w, event)
    ensures Inv(e, Next(e, w, event, here))
  {
    match event
    case Send(_, _, _, _) => SendKeeps(e, w, event, here);
    case StreamArrives(_) => ArrivalKeeps(e, w, event, here);
    case DatagramArrives(_, _) => ArrivalKeeps(e, w, event, here);
    case _ =>
  }

  /** w is where the events, each enabled in its turn, lead; which nodes are there when each arrives
      is anyone's choice. */
  ghost predicate Reaches(e: Engine, events: seq<(Event, Here)>, w: World)
    decreases |events|
  {
    if events == [] then w == Start
    else
      var last := events[|events| - 1];
      exists v: World ::
        Reaches(e, events[..|events| - 1], v) && Enabled(e, v, last.0) && w == Next(e, v, last.0, last.1)
  }

  lemma {:induction false} ReachedInv(e: Engine, events: seq<(Event, Here)>, w: World)
    requires e.Sound() && Reaches(e, events, w)
    ensures Inv(e, w)
    decreases |events|
  {
    if events != [] {
      var last := events[|events| - 1];
      var v: World :|
        Reaches(e, events[..|events| - 1], v) && Enabled(e, v, last.0) && w == Next(e, v, last.0, last.1);
      ReachedInv(e, events[..|events| - 1], v);
      StepKeeps(e, v, last.0, last.1);
    }
  }

  // --- What comes of it ---

  /** A step concerns its own peer alone, and the ids only grow. A connected peer starts with nothing sent, and nothing
      is kept of one that is forgotten; either may happen at any time. */
  lemma StepsAreApart(e: Engine, w: World, event: Event, here: Here, other: int)
    requires Inv(e, w) && Enabled(e, w, event)
    ensures var w' := Next(e, w, event, here);
            && (other != event.peer ==>
                  (other in w'.links <==> other in w.links)
                  && (other in w.links ==> w'.links[other] == w.links[other]))
            && (event.Forget? <==> event.peer !in w'.links)
            && (event.Connect? ==> w'.links[event.peer] == Link(map[], [], 0, {}, 0, map[]))
            && (forall k | k in w.ids :: k in w'.ids && w'.ids[k] == w.ids[k])
            && (event.Send? || (w'.ids == w.ids && w'.nextId == w.nextId))
            && Enabled(e, w', Connect(other)) && Enabled(e, w', Forget(other))
  {
    if event.Send? {
      IdsSurvive(w.ids, w.nextId, event.target);
    }
  }

  /** The whole of a peer's stream arrives, one message after another. */
  ghost function ArriveAll(e: Engine, w: World, peer: int, heres: seq<Here>): World
    requires peer in w.links && w.links[peer].got + |heres| <= |w.links[peer].stream|
    ensures var w' := ArriveAll(e, w, peer, heres);
            peer in w'.links && w'.links[peer].got == w.links[peer].got + |heres|
            && w'.links[peer].stream == w.links[peer].stream
    decreases |heres|
  {
    if heres == [] then w
    else Next(e, ArriveAll(e, w, peer, heres[..|heres| - 1]), StreamArrives(peer), heres[|heres| - 1])
  }

  lemma ArrivalIs(e: Engine, w: World, peer: int, here: Here)
    requires Enabled(e, w, StreamArrives(peer))
    ensures var w', l := Next(e, w, StreamArrives(peer), here), w.links[peer];
            peer in w'.links
            && w' == w.(links := w.links[peer := l.(got := l.got + 1, table := w'.links[peer].table)])
  {
    hide Receive;
    hide Print;
  }

  lemma {:induction false} ArriveAllKeeps(e: Engine, w: World, peer: int, heres: seq<Here>)
    requires e.Sound() && Inv(e, w) && peer in w.links && w.links[peer].got + |heres| <= |w.links[peer].stream|
    ensures var w' := ArriveAll(e, w, peer, heres);
            Inv(e, w') && w' == w.(links := w.links[peer :=
                w.links[peer].(got := w.links[peer].got + |heres|, table := w'.links[peer].table)])
    decreases |heres|
  {
    hide Inv;
    hide Next;
    if heres == [] {
      assert w == w.(links := w.links[peer := w.links[peer]]);
    } else {
      var front, last := heres[..|heres| - 1], heres[|heres| - 1];
      var w1 := ArriveAll(e, w, peer, front);
      ArriveAllKeeps(e, w, peer, front);
      StepKeeps(e, w1, StreamArrives(peer), last);
      ArrivalIs(e, w1, peer, last);
    }
  }

  /** The stream gets through: when what is left of it has arrived, the peer knows every target that was registered
      with it, and once that is acknowledged an unreliable call to one of them goes bare. */
  lemma AcknowledgedGoesBare(e: Engine, w: World, peer: int, heres: seq<Here>, t: Target, args: seq<Variant>,
      here: Here)
    requires e.Sound() && Inv(e, w) && peer in w.links
    requires |heres| == |w.links[peer].stream| - w.links[peer].got
    requires ScenePath(t.path) && AllPassable(e, args) && Key(t) in w.ids && w.ids[Key(t)] in w.links[peer].registered
    requires |Print(e, Bare(w.ids[Key(t)], t, args))| <= MAX_UNRELIABLE_MESSAGE
    ensures var arrived := ArriveAll(e, w, peer, heres);
            var all := |w.links[peer].stream|;
            var id := w.ids[Key(t)];
            && Enabled(e, arrived, AckArrives(peer, all))
            && id in arrived.links[peer].table && arrived.links[peer].table[id].target == t
            && var acked := Next(e, arrived, AckArrives(peer, all), here);
               && Enabled(e, acked, Send(peer, t, args, false))
               && var sent := Next(e, acked, Send(peer, t, args, false), here).links[peer];
                  && sent.datagrams == w.links[peer].datagrams + {Bare(id, t, args)}
                  && sent.stream == w.links[peer].stream
  {
    var arrived, id := ArriveAll(e, w, peer, heres), w.ids[Key(t)];
    ArriveAllKeeps(e, w, peer, heres);
    RegisteredIsKnown(e, arrived, peer, t);
    assert w.links[peer].stream + [] == w.links[peer].stream;
  }

  lemma RegisteredIsKnown(e: Engine, w: World, peer: int, t: Target)
    requires Inv(e, w) && peer in w.links && w.links[peer].got == |w.links[peer].stream|
    requires ScenePath(t.path) && Key(t) in w.ids && w.ids[Key(t)] in w.links[peer].registered
    ensures var l, id := w.links[peer], w.ids[Key(t)];
            id in l.table && l.table[id].target == t && l.registered[id] < |l.stream| && l.acked <= |l.stream|
  {
    var l, id := w.links[peer], w.ids[Key(t)];
    assert l.stream[l.registered[id]].Register? && l.stream[l.registered[id]].id == id;
    OwnerUnique(w.ids, w.nextId, id, l.table[id].target, t);
  }

  /** A datagram that carries a registration teaches it: whatever came before, its target's node is found by it. */
  lemma InlineTeaches(e: Engine, w: World, peer: int, m: Message, here: Here)
    requires e.Sound() && Inv(e, w) && Enabled(e, w, DatagramArrives(peer, m)) && m.Inline?
    ensures var table, table' := w.links[peer].table, Next(e, w, DatagramArrives(peer, m), here).links[peer].table;
            && m.id in table' && table'[m.id].target == m.target
            && (m.id !in table || table[m.id].node == 0 ==> table'[m.id].node == here.node(m.target.path))
            && (forall i | i != m.id :: (i in table' <==> i in table) && (i in table ==> table'[i] == table[i]))
  {
    hide Receive;
    hide Print;
    assert MessageInv(e, w.ids, m);
    ReceivePrinted(e, w.links[peer].table, m, here);
    if m.id in w.links[peer].table {
      OwnerUnique(w.ids, w.nextId, m.id, w.links[peer].table[m.id].target, m.target);
    }
  }

  // --- Which node a call is made on ---

  /** Some arrival of the run found n at the path. */
  ghost predicate FoundThere(events: seq<(Event, Here)>, path: bytes, n: nat) {
    exists k :: 0 <= k < |events| && events[k].1.node(path) == n
  }

  ghost predicate NodesFound(events: seq<(Event, Here)>, table: Table) {
    forall id | id in table && table[id].node != 0 :: FoundThere(events, table[id].target.path, table[id].node)
  }

  /** Receiving leaves each entry's node as it was, none, or the one at its path now. */
  lemma ReceiveFinds(e: Engine, table: Table, data: bytes, here: Here)
    ensures var table' := Receive(e, table, data, here).0;
            forall id | id in table' && table'[id].node != 0 ::
              (id in table && table'[id] == table[id]) || table'[id].node == here.node(table'[id].target.path)
  {
  }

  lemma FoundLater(events: seq<(Event, Here)>, last: (Event, Here), table: Table, table': Table)
    requires NodesFound(events, table)
    requires forall id | id in table' && table'[id].node != 0 ::
               (id in table && table'[id] == table[id]) || table'[id].node == last.1.node(table'[id].target.path)
    ensures NodesFound(events + [last], table')
  {
    var all := events + [last];
    forall id | id in table' && table'[id].node != 0
      ensures FoundThere(all, table'[id].target.path, table'[id].node)
    {
      if id in table && table'[id] == table[id] {
        var k :| 0 <= k < |events| && events[k].1.node(table[id].target.path) == table[id].node;
        assert all[k] == events[k];
      } else {
        assert all[|events|] == last;
      }
    }
  }

  lemma {:induction false} ReachedFound(e: Engine, events: seq<(Event, Here)>, w: World)
    requires Reaches(e, events, w)
    ensures forall peer | peer in w.links :: NodesFound(events, w.links[peer].table)
    decreases |events|
  {
    hide NodesFound;
    if events == [] {
      assert w.links == map[];
    } else {
      var front, last := events[..|events| - 1], events[|events| - 1];
      var v: World :| Reaches(e, front, v) && Enabled(e, v, last.0) && w == Next(e, v, last.0, last.1);
      ReachedFound(e, front, v);
      assert events == front + [last];
      forall peer | peer in w.links
        ensures NodesFound(events, w.links[peer].table)
      {
        StepFinds(e, front, v, last, peer);
      }
    }
  }

  lemma StepFinds(e: Engine, events: seq<(Event, Here)>, v: World, last: (Event, Here), peer: int)
    requires Enabled(e, v, last.0) && peer in Next(e, v, last.0, last.1).links
    requires forall p | p in v.links :: NodesFound(events, v.links[p].table)
    ensures NodesFound(events + [last], Next(e, v, last.0, last.1).links[peer].table)
  {
    hide NodesFound;
    hide PlanCall;
    NoneFound(events + [last]);
    if peer in v.links {
      var l := v.links[peer];
      FoundLater(events, last, l.table, l.table);
      if (last.0.StreamArrives? || last.0.DatagramArrives?) && last.0.peer == peer {
        var data := Print(e, Arriving(e, v, last.0));
        ReceiveFinds(e, l.table, data, last.1);
        FoundLater(events, last, l.table, Receive(e, l.table, data, last.1).0);
      }
    }
  }

  lemma NoneFound(events: seq<(Event, Here)>)
    ensures NodesFound(events, map[])
  {
  }

  /** In every run, whatever arrives when and however often, no call meets an id its receiver does not
      know, and each is made on the sender's own path and method with the sender's arguments, unless no node is
      found, or its method is not for anyone to call nor for its authority with the sender that one. The node is the
      one at the path now, or one that an earlier arrival found there and that has been kept since, and is in the
      tree. */
  lemma CallsResolve(e: Engine, events: seq<(Event, Here)>, w: World, event: Event, here: Here) returns (n: nat)
    requires e.Sound() && Reaches(e, events, w) && Enabled(e, w, event)
    requires event.StreamArrives? || event.DatagramArrives?
    ensures var m := Arriving(e, w, event);
            var mode := here.mode(n, m.target.name);
            Receive(e, w.links[event.peer].table, Print(e, m), here).1 ==
              if m.Register? then Registered
              else if n == 0 then Absent(m.target)
              else if mode == Some(AnyPeer) || (mode == Some(Authority) && here.authority(n) == here.from) then
                Called(n, m.target, m.args)
              else Refused(n, m.target)
    ensures var path := Arriving(e, w, event).target.path;
            n == here.node(path) || (n != 0 && here.inTree(n) && FoundThere(events, path, n))
  {
    hide FoundThere;
    hide Receive;
    hide Print;
    ReachedInv(e, events, w);
    ReachedFound(e, events, w);
    BareIsKnown(e, w, event);
    var table, m := w.links[event.peer].table, Arriving(e, w, event);
    ReceivePrinted(e, table, m, here);
    var filed := if m.Inline? then Filed(table, m.id, m.target) else table;
    n := if m.Register? then here.node(m.target.path) else here.Find(filed[m.id]);
    if !m.Register? {
      assert filed[m.id].target == m.target;
      AnswerIs(here, n, m.target, m.args);
    }
  }

  lemma AnswerIs(here: Here, n: nat, t: Target, args: seq<Variant>)
    ensures var mode := here.mode(n, t.name);
            here.Answer(n, t, args) ==
              if n == 0 then Absent(t)
              else if mode == Some(AnyPeer) || (mode == Some(Authority) && here.authority(n) == here.from) then
                Called(n, t, args)
              else Refused(n, t)
  {
  }

  /** So a node that has moved away is called still, while it is in the tree: not the one at its path now. A call that
      carries its registration once more changes nothing of that. */
  lemma RenamedIsStillCalled(e: Engine, t: Target, args: seq<Variant>, before: Here, after: Here, n: nat, m: nat)
    requires e.Sound() && AllPassable(e, args) && n != 0 && m != n
    requires before.node(t.path) == n && after.node(t.path) == m && after.inTree(n)
    requires var mode := after.mode(n, t.name);
             mode == Some(AnyPeer) || (mode == Some(Authority) && after.authority(n) == after.from)
    ensures var table := Receive(e, map[], Print(e, Inline(1, t, args)), before).0;
            && Receive(e, table, Print(e, Bare(1, t, args)), after).1 == Called(n, t, args)
            && Receive(e, table, Print(e, Inline(1, t, args)), after).1 == Called(n, t, args)
  {
    hide Receive;
    hide Print;
    ReceivePrinted(e, map[], Inline(1, t, args), before);
    var table := Receive(e, map[], Print(e, Inline(1, t, args)), before).0;
    ReceivePrinted(e, table, Bare(1, t, args), after);
    ReceivePrinted(e, table, Inline(1, t, args), after);
  }

  /** A message that is cut short calls nothing: before its id is whole, or its registration, which must not name 0,
      it changes nothing; before its arguments are, it leaves the node that was found. A call of an id that was never
      registered changes nothing either. */
  lemma CutShortCallsNothing(e: Engine, table: Table, data: bytes, here: Here)
    ensures ReadUvarint(data).Truncated? ==> Receive(e, table, data, here) == (table, Ignored)
    ensures ReadUvarint(data).Parsed? && ReadUvarint(data).value == 0 ==>
              var registration := ReadRegistration(ReadUvarint(data).rest);
              registration.Truncated? || registration.value.0 == 0 ==>
                Receive(e, table, data, here) == (table, Ignored)
    ensures ReadUvarint(data).Parsed? && ReadUvarint(data).value != 0 ==>
              var id := ReadUvarint(data).value;
              && (id !in table ==> Receive(e, table, data, here) == (table, Unknown))
              && (id in table && ReadArgs(e, ReadUvarint(data).rest).Truncated? ==>
                    var (table', outcome) := Receive(e, table, data, here);
                    && table' == table[id := table[id].(node := here.Find(table[id]))]
                    && outcome == if here.Find(table[id]) == 0 then Absent(table[id].target) else Ignored)
  {
  }

  /** What a send puts on its way is its own call: at most one message carries it, with its target and
      arguments. A reliable one always goes, and an unreliable one if it fits a datagram, bare exactly when
      its registration is known to have arrived; and with it goes the registration, at the place the
      sender notes, if there is none yet. */
  lemma SendMeansItsCall(e: Engine, ids: map<bytes, nat>, nextId: nat, registered: map<nat, nat>, queued: nat,
      delivered: nat, t: Target, args: seq<Variant>, reliable: bool)
    ensures var p := PlanCall(e, ids, nextId, registered, queued, delivered, t, args, reliable);
            var id := IdFor(ids, nextId, t);
            var known := id in registered && registered[id] < delivered;
            var call := if known then Bare(id, t, args) else Inline(id, t, args);
            && (p.datagram.Some? <==> !reliable && p.queued)
            && (!reliable ==> (p.queued <==> |Print(e, call)| <= MAX_UNRELIABLE_MESSAGE))
            && (p.datagram.Some? ==> p.datagram.value == call)
            && (reliable ==> p.queued && p.stream != [] && p.stream[|p.stream| - 1] == Bare(id, t, args))
            && (p.queued && id !in registered ==>
                  p.stream != [] && p.stream[0] == Register(id, t) && p.registered == registered[id := queued])
            && (p.queued && id in registered ==>
                  p.registered == registered && forall k | 0 <= k < |p.stream| :: p.stream[k].Bare?)
            && |p.stream| <= 2 && (!p.queued ==> p.stream == [] && p.registered == registered)
            && Key(t) in p.ids && p.ids[Key(t)] == id && (Key(t) in ids ==> p.ids == ids && p.nextId == nextId)
  {
    assert Key(t) in ids ==> ids[Key(t) := ids[Key(t)]] == ids;
  }

  /** The bytes of what a send puts on its way. */
  lemma PlanPrints(e: Engine, ids: map<bytes, nat>, nextId: nat, id: nat, registered: map<nat, nat>, queued: nat,
      delivered: nat, t: Target, args: seq<Variant>, reliable: bool)
    ensures var p := PlanFor(e, ids, nextId, id, registered, queued, delivered, t, args, reliable);
            var bare := reliable || (id in registered && delivered > registered[id]);
            var call := Print(e, if bare then Bare(id, t, args) else Inline(id, t, args));
            && (p.queued <==> reliable || |call| <= MAX_UNRELIABLE_MESSAGE)
            && PrintAll(e, p.stream) == (if !p.queued || id in registered then [] else [Print(e, Register(id, t))])
                + (if reliable then [call] else [])
            && PrintAll(e, p.Datagrams()) == (if !p.queued || reliable then [] else [call])
            && p.registered == (if p.queued then Noted(registered, id, queued) else registered)
  {
  }

  // --- An end's own state ---

  /** The queue to one peer, longer. */
  function Extended(queues: map<int, seq<bytes>>, peer: int, more: seq<bytes>): map<int, seq<bytes>>
    requires peer in queues
  {
    queues[peer := queues[peer] + more]
  }

  lemma ExtendedNone(queues: map<int, seq<bytes>>, peer: int)
    requires peer in queues
    ensures Extended(queues, peer, []) == queues
  {
    assert queues[peer] + [] == queues[peer];
  }

  lemma ExtendedTwice(queues: map<int, seq<bytes>>, peer: int, more: seq<bytes>, last: seq<bytes>)
    requires peer in queues
    ensures Extended(Extended(queues, peer, more), peer, last) == Extended(queues, peer, more + last)
    ensures [] + last == last && last + [] == last && more + [] == more
  {
    assert queues[peer] + more + last == queues[peer] + (more + last);
  }

  class Endpoint {
    var msgIds: map<bytes, nat>                  // path::method -> id
    var msgNextId: nat                           // 0 is the registration message itself
    var msgRegistered: map<int, map<nat, nat>>   // peer -> id -> its registration's place in the stream
    var msgTargets: map<int, Table>              // peer -> id -> what it named
    var streams: map<int, seq<bytes>>            // the netchan to each peer: everything queued reliably,
    var delivered: map<int, nat>                 // how much of it is known delivered,
    var datagrams: map<int, seq<bytes>>          // and everything queued in its datagrams

    constructor ()
      ensures msgIds == map[] && msgNextId == 1 && msgRegistered == map[] && msgTargets == map[]
      ensures streams == map[] && delivered == map[] && datagrams == map[]
    {
      msgIds, msgNextId, msgRegistered, msgTargets := map[], 1, map[], map[];
      streams, delivered, datagrams := map[], map[], map[];
    }

    predicate Linked(peer: int)
      reads this
    {
      peer in streams && peer in delivered && peer in datagrams
    }

    function RegisteredWith(peer: int): map<nat, nat>
      reads this
    {
      if peer in msgRegistered then msgRegistered[peer] else map[]
    }

    function TableOf(peer: int): Table
      reads this
    {
      if peer in msgTargets then msgTargets[peer] else map[]
    }

    /** The registration message. */
    method PrintRegistration(id: nat, t: Target) returns (reg: bytes)
      ensures reg == Registration(id, t)
    {
      var r := new Writer();
      r.PutUvarint(0);
      r.PutUvarint(id);
      r.PutBlock(t.path);
      r.PutBlock(t.name);
      reg := r.data;
      assert reg == Registration(id, t);
    }

    /** A call: its id and arguments, the registration in place of the id for an unreliable one the
        peer may not know. */
    method PrintCall(e: Engine, id: nat, reg: bytes, args: seq<Variant>, bare: bool) returns (call: bytes)
      ensures call == (if bare then Uvarint(id) else reg) + ArgsCode(e, args)
    {
      var packed := new Writer();
      PutArgs(packed, e, args);
      assert packed.data == ArgsCode(e, args);
      var c := new Writer();
      if bare {
        c.PutUvarint(id);
      } else {
        c.PutData(reg);
      }
      assert c.data == if bare then Uvarint(id) else reg;
      c.PutData(packed.data);
      call := c.data;
    }

    method PrintMessages(e: Engine, id: nat, t: Target, args: seq<Variant>, bare: bool)
        returns (reg: bytes, call: bytes)
      ensures reg == Print(e, Register(id, t))
      ensures call == Print(e, if bare then Bare(id, t, args) else Inline(id, t, args))
    {
      reg := PrintRegistration(id, t);
      call := PrintCall(e, id, reg, args, bare);
    }

    /** The id of a target, giving it the next one if it has none. */
    method AssignId(t: Target) returns (id: nat)
      modifies this`msgIds, this`msgNextId
      ensures id == old(IdFor(msgIds, msgNextId, t)) && msgIds == old(msgIds)[Key(t) := id]
      ensures msgNextId == if Key(t) in old(msgIds) then old(msgNextId) else old(msgNextId) + 1
    {
      var key := Key(t);
      if key in msgIds {
        id := msgIds[key];
        assert msgIds == msgIds[key := id];
      } else {
        id := msgNextId;
        msgNextId := msgNextId + 1;
        msgIds := msgIds[key := id];
      }
    }

    method Queue(peer: int, message: bytes)
      requires peer in streams
      modifies this`streams
      ensures streams == Extended(old(streams), peer, [message])
    {
      streams := streams[peer := streams[peer] + [message]];
    }

    method QueueInDatagram(peer: int, message: bytes)
      requires peer in datagrams
      modifies this`datagrams
      ensures datagrams == Extended(old(datagrams), peer, [message])
    {
      datagrams := datagrams[peer := datagrams[peer] + [message]];
    }

    /** Hand the netchan a call, behind its registration if the peer has none. */
    method QueueCall(peer: int, id: nat, reg: bytes, call: bytes, reliable: bool)
      requires Linked(peer) && peer in msgRegistered
      modifies this`msgRegistered, this`streams, this`datagrams
      ensures msgRegistered == old(msgRegistered)[peer := Noted(old(msgRegistered[peer]), id, |old(streams[peer])|)]
      ensures streams == Extended(old(streams), peer,
              (if id in old(msgRegistered[peer]) then [] else [reg]) + (if reliable then [call] else []))
      ensures datagrams == Extended(old(datagrams), peer, if reliable then [] else [call])
    {
      ExtendedNone(streams, peer);
      ExtendedNone(datagrams, peer);
      ExtendedTwice(streams, peer, [reg], if reliable then [call] else []);
      assert id in msgRegistered[peer] ==> msgRegistered == msgRegistered[peer := msgRegistered[peer]];
      if id !in msgRegistered[peer] {
        msgRegistered := msgRegistered[peer := Noted(msgRegistered[peer], id, |streams[peer]|)];
        Queue(peer, reg);
      }
      if reliable {
        Queue(peer, call);
      } else {
        QueueInDatagram(peer, call);
      }
    }

    /** Queue a call to a target whose id is settled. */
    method SendTo(e: Engine, peer: int, id: nat, t: Target, args: seq<Variant>, reliable: bool) returns (queued: bool)
      requires Linked(peer)
      modifies this`msgRegistered, this`streams, this`datagrams
      ensures var p := old(PlanFor(e, msgIds, msgNextId, id, RegisteredWith(peer), |streams[peer]|, delivered[peer],
              t, args, reliable));
              && queued == p.queued
              && msgRegistered == old(msgRegistered)[peer := p.registered]
              && streams == Extended(old(streams), peer, PrintAll(e, p.stream))
              && datagrams == Extended(old(datagrams), peer, PrintAll(e, p.Datagrams()))
    {
      PlanPrints(e, msgIds, msgNextId, id, RegisteredWith(peer), |streams[peer]|, delivered[peer], t, args, reliable);
      var registered: map<nat, nat> := RegisteredWith(peer);
      msgRegistered := msgRegistered[peer := registered];
      var known := id in registered && delivered[peer] > registered[id];
      var reg, call := PrintMessages(e, id, t, args, reliable || known);
      if !reliable && |call| > MAX_UNRELIABLE_MESSAGE {
        ExtendedNone(streams, peer);
        ExtendedNone(datagrams, peer);
        return false;
      }
      QueueCall(peer, id, reg, call, reliable);
      queued := true;
    }

    /** Queue one call to peer, reliably or in the datagram. */
    method SendMessage(e: Engine, peer: int, t: Target, args: seq<Variant>, reliable: bool) returns (queued: bool)
      requires Linked(peer)
      modifies this
      ensures var p := old(PlanCall(e, msgIds, msgNextId, RegisteredWith(peer), |streams[peer]|, delivered[peer], t,
              args, reliable));
              && queued == p.queued
              && msgIds == p.ids && msgNextId == p.nextId
              && msgRegistered == old(msgRegistered)[peer := p.registered]
              && streams == Extended(old(streams), peer, PrintAll(e, p.stream))
              && datagrams == Extended(old(datagrams), peer, PrintAll(e, p.Datagrams()))
      ensures msgTargets == old(msgTargets) && delivered == old(delivered)
    {
      var id := AssignId(t);
      queued := SendTo(e, peer, id, t, args, reliable);
    }

    method GetRegistration(r: Reader) returns (id: nat, t: Target)
      requires r.Valid()
      modifies r
      ensures r.Valid()
      ensures match ReadRegistration(old(r.Rest()))
              case Parsed((i, u), rest) => id == i && t == u && r.Rest() == rest && r.failed == old(r.failed)
              case Truncated => r.failed
    {
      id := r.GetUvarint();
      var path := r.GetBlock();
      var name := r.GetBlock();
      t := Target(path, name);
    }

    /** Take in a registration from a peer: the id it names, or 0 if it is cut short or names 0. */
    method TakeRegistration(targets: Table, r: Reader) returns (id: nat, targets': Table)
      requires r.Valid() && !r.failed
      modifies r
      ensures r.Valid()
      ensures match Take(targets, old(r.Rest()))
              case Truncated => id == 0 && targets' == targets
              case Parsed(taken, rest) => id != 0 && (id, targets') == taken && !r.failed && r.Rest() == rest
    {
      var newId, t := GetRegistration(r);
      if r.failed || newId == 0 {
        return 0, targets;
      }
      id, targets' := newId, targets;
      if newId !in targets || targets[newId].target != t {
        targets' := targets[newId := Known(t, 0)];
      }
      assert targets' == Filed(targets, newId, t);
    }

    /** The node an entry stands for, found again if the one kept is not in the tree. */
    method FindNode(k: Known, here: Here) returns (n: nat)
      ensures n == here.Find(k)
    {
      n := if k.node != 0 && here.inTree(k.node) then k.node else 0;
      if n == 0 {
        n := here.node(k.target.path);
      }
    }

    /** A call to an id, made on the node found for what the peer's table says it names. */
    method DispatchCall(e: Engine, table: Table, id: nat, r: Reader, here: Here)
        returns (targets: Table, outcome: Outcome)
      requires r.Valid() && !r.failed
      modifies r
      ensures (targets, outcome) == Dispatch(e, table, id, old(r.Rest()), here)
    {
      targets := table;
      if id !in table {
        return targets, Unknown;
      }
      var t := table[id].target;
      var n := FindNode(table[id], here);
      targets := table[id := Known(t, n)];
      if n == 0 {
        return targets, Absent(t);
      }
      var args := GetArgs(r, e);
      if r.failed {
        return targets, Ignored;
      }
      outcome := if here.Lets(n, t) then Called(n, t, args) else Refused(n, t);
    }

    method ReceiveMessage(e: Engine, table: Table, data: bytes, here: Here) returns (targets: Table, outcome: Outcome)
      ensures (targets, outcome) == Receive(e, table, data, here)
    {
      var r := new Reader(data);
      var id := r.GetUvarint();
      targets := table;
      if r.failed {
        return targets, Ignored;
      }
      if id == 0 {
        id, targets := TakeRegistration(targets, r);
        if id == 0 {
          return targets, Ignored;
        }
        if r.Rest() == [] {
          return targets, Registered;
        }
      }
      targets, outcome := DispatchCall(e, targets, id, r, here);
    }

    /** One message from a peer: a registration, or a call and what became of it. */
    method DeliverMessage(e: Engine, data: bytes, here: Here) returns (outcome: Outcome)
      modifies this`msgTargets
      ensures (TableOf(here.from), outcome) == old(Receive(e, TableOf(here.from), data, here))
      ensures msgTargets == old(msgTargets)[here.from := TableOf(here.from)]
    {
      var targets;
      targets, outcome := ReceiveMessage(e, TableOf(here.from), data, here);
      msgTargets := msgTargets[here.from := targets];
    }

    /** Everything kept for one peer goes with it; the ids this end gave out stay. */
    method ForgetPeer(peer: int)
      modifies this
      ensures !Linked(peer) && RegisteredWith(peer) == map[] && TableOf(peer) == map[]
      ensures msgRegistered == old(msgRegistered) - {peer} && msgTargets == old(msgTargets) - {peer}
      ensures streams == old(streams) - {peer} && delivered == old(delivered) - {peer}
              && datagrams == old(datagrams) - {peer}
      ensures msgIds == old(msgIds) && msgNextId == old(msgNextId)
    {
      msgRegistered := msgRegistered - {peer};
      msgTargets := msgTargets - {peer};
      streams, delivered, datagrams := streams - {peer}, delivered - {peer}, datagrams - {peer};
    }
  }
}
