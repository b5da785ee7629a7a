/** What the order of the records asks of the game's spawn functions: that they return nodes that are new, and no
    synchronizers. With such nodes every run keeps it; with each of the other two there is a run that does not. */
module SpawnCaptures {
  import opened Values
  import opened SpawnServer
  import opened SpawnOrder
  import opened SpawnRuns

  // --- New nodes keep it ---

  /** A captured node is neither a synchronizer nor a spawner, and has no id. */
  ghost predicate New(w: World, event: Event) {
    event.Captures? ==> w.scene.Is(event.node, Plain) && event.node !in w.server.ids.byObj
  }

  ghost predicate AllNew(e: Engine, v: World, events: seq<Event>)
    decreases |events|
  {
    events == [] || (New(v, events[0]) && AllNew(e, Next(e, v, events[0]), events[1..]))
  }

  ghost predicate NewSoFar(st: Server, scene: Scene) {
    && (forall node | node in st.pending :: scene.Is(node, Plain) && node !in st.ids.byObj)
    && (forall id | id in st.spawned :: id in st.ids.byId && scene.Is(st.ids.byId[id].obj, Plain))
  }

  lemma GivenNew(st: Server, scene: Scene, obj: nat)
    requires IdsOk(st, scene) && NewSoFar(st, scene) && obj in scene.kind && !scene.Is(obj, Plain)
    ensures NewSoFar(Given(st, obj), scene)
  {
    if obj in st.ids.byObj {
      GivenAgain(st, obj);
    } else {
      GivenIds(st, scene, obj);
    }
  }

  lemma {:induction false} AllGivenNew(e: Engine, st: Server, scene: Scene, objs: seq<nat>)
    requires Inv(e, st, scene) && NewSoFar(st, scene) && forall obj | obj in objs :: scene.Is(obj, Synchronizer)
    ensures NewSoFar(AllGiven(st, objs), scene) && AllGiven(st, objs).pending == st.pending
    decreases |objs|
  {
    hide NewSoFar;
    hide OnceOk;
    hide LogOk;
    hide QueuesOk;
    if objs != [] {
      var front, last := objs[..|objs| - 1], objs[|objs| - 1];
      AllGivenNew(e, st, scene, front);
      AllGivenKeeps(e, st, scene, front);
      assert last in objs;
      GivenNew(AllGiven(st, front), scene, last);
    }
  }

  lemma ReadiedIsNew(e: Engine, st: Server, scene: Scene, node: nat, p: Pending)
    requires Inv(e, st, scene) && NewSoFar(st, scene) && node in scene.live && scene.Is(p.spawner, Spawner)
    ensures NewSoFar(Readied(st, scene, node, p), scene) && Readied(st, scene, node, p).pending == st.pending
  {
    hide OnceOk;
    hide LogOk;
    var st1 := SpawnerGiven(st, scene, p.spawner);
    GivenNew(st, scene, p.spawner);
    SpawnerGivenKeeps(e, st, scene, p.spawner);
    assert NewSoFar(st1, scene);
    AllGivenNew(e, st1, scene, scene.syncs(node));
  }

  lemma AnnouncedIsNew(st: Server, scene: Scene, node: nat, record: Record)
    requires IdsOk(st, scene) && NewSoFar(st, scene) && node in st.pending
    ensures NewSoFar(NotPending(Announce(st, node, record), node), scene)
  {
    GivenIds(st, scene, node);
  }

  lemma DrainedOneNew(e: Engine, st: Server, scene: Scene, node: nat)
    requires Inv(e, st, scene) && NewSoFar(st, scene)
    ensures NewSoFar(DrainedOne(st, e, scene, node), scene)
  {
    hide OnceOk;
    hide LogOk;
    hide Readied;
    hide Announce;
    hide NewSoFar;
    StillNew(st, scene, node);
    if Ready(st, scene, node) {
      var p := st.pending[node];
      var st1 := Readied(st, scene, node, p);
      ReadiedIsNew(e, st, scene, node, p);
      ReadiedKeeps(e, st, scene, node, p);
      AnnouncedIsNew(st1, scene, node, SpawnRecord(st1, e, scene, node, p));
    }
  }

  lemma StillNew(st: Server, scene: Scene, node: nat)
    requires NewSoFar(st, scene)
    ensures NewSoFar(NotPending(st, node), scene)
  {
  }

  lemma NewIsFirstTold(e: Engine, st: Server, scene: Scene, node: nat)
    requires Inv(e, st, scene) && Tidy(st, scene) && NewSoFar(st, scene)
    ensures SafeOne(st, scene, node)
  {
    hide Orderly;
    RecordsAreOld(e, st, scene);
  }

  lemma {:induction false} DrainedNew(e: Engine, st: Server, scene: Scene, nodes: seq<nat>)
    requires Inv(e, st, scene) && Tidy(st, scene) && NewSoFar(st, scene)
    ensures SafeDrain(e, st, scene, nodes) && NewSoFar(Drained(st, e, scene, nodes), scene)
  {
    hide Inv;
    hide Tidy;
    hide NewSoFar;
    hide SafeOne;
    hide DrainedOne;
    if nodes != [] {
      var front, last := nodes[..|nodes| - 1], nodes[|nodes| - 1];
      var st1 := Drained(st, e, scene, front);
      DrainedNew(e, st, scene, front);
      DrainedKeeps(e, st, scene, front);
      DrainedTidy(e, st, scene, front);
      NewIsFirstTold(e, st1, scene, last);
      DrainedOneNew(e, st1, scene, last);
    }
  }

  lemma RetiredIsNew(st: Server, scene: Scene, id: nat)
    requires NewSoFar(st, scene)
    ensures NewSoFar(RetiredSpawn(st, id), scene) && (id !in st.spawned ==> NewSoFar(RetiredBind(st, id), scene))
  {
  }

  lemma {:induction false} RetiredNew(st: Server, scene: Scene, ids: seq<nat>)
    requires NewSoFar(st, scene)
    ensures NewSoFar(RetiredSpawns(st, ids), scene)
    ensures (forall id | id in ids :: id !in st.spawned) ==> NewSoFar(RetiredBinds(st, ids), scene)
  {
    hide NewSoFar;
    if ids != [] {
      var front, last := ids[..|ids| - 1], ids[|ids| - 1];
      RetiredNew(st, scene, front);
      RetiredBindsAre(st, front);
      assert last in ids && forall id :: id in front ==> id in ids;
      RetiredIsNew(RetiredSpawns(st, front), scene, last);
      if forall id | id in ids :: id !in st.spawned {
        RetiredIsNew(RetiredBinds(st, front), scene, last);
      }
    }
  }

  lemma SpawnsAreRecorded(st: Server, scene: Scene)
    requires RecordsTidy(st, scene) && NewSoFar(st, scene)
    ensures forall id | id in st.spawned :: id in st.core.records && id !in st.bindIds
  {
  }

  lemma DetectsNew(e: Engine, w: World, event: Event)
    requires Tidy(w.server, w.scene) && NewSoFar(w.server, w.scene) && Enabled(w, event) && event.Detects?
    ensures Safe(e, w, event) && NewSoFar(Next(e, w, event).server, w.scene)
  {
    hide RecordsTidy;
    hide LogTidy;
    hide NewSoFar;
    SpawnsAreRecorded(w.server, w.scene);
    RetiredNew(w.server, w.scene, event.spawns);
    RetiredSpawnsAre(w.server, event.spawns);
    RetiredNew(RetiredSpawns(w.server, event.spawns), w.scene, event.binds);
  }

  lemma {:induction false} AddedAllNew(e: Engine, st: Server, scene: Scene, syncs: seq<nat>)
    requires Inv(e, st, scene) && NewSoFar(st, scene)
    requires Distinct(syncs) && forall sync | sync in syncs :: sync in st.toAdd
    ensures NewSoFar(AddedAll(st, scene, syncs), scene)
  {
    hide Inv;
    hide NewSoFar;
    if syncs != [] {
      var front, last := syncs[..|syncs| - 1], syncs[|syncs| - 1];
      AddedAllNew(e, st, scene, front);
      AddedAllKeeps(e, st, scene, front);
      assert last in syncs && last !in front;
      AddedOneNew(e, AddedAll(st, scene, front), scene, last);
    }
  }

  lemma AddedOneNew(e: Engine, st: Server, scene: Scene, sync: nat)
    requires Inv(e, st, scene) && NewSoFar(st, scene) && sync in st.toAdd
    ensures NewSoFar(AddedOne(st, scene, sync), scene)
  {
    hide OnceOk;
    hide LogOk;
    GivenNew(st, scene, sync);
  }

  lemma QueuesNew(e: Engine, w: World, event: Event)
    requires WorldInv(e, w) && NewSoFar(w.server, w.scene) && Enabled(w, event) && New(w, event)
    requires event.Moves? || event.Wraps? || event.Captures? || event.Registers?
    ensures NewSoFar(Next(e, w, event).server, Next(e, w, event).scene)
  {
    hide OnceOk;
    hide LogOk;
    hide QueuesOk;
  }

  lemma RemovedNew(st: Server, scene: Scene, sync: nat)
    requires IdsOk(st, scene) && NewSoFar(st, scene) && scene.Is(sync, Synchronizer)
    ensures NewSoFar(Removed(st, sync), scene)
  {
  }

  lemma StepNew(e: Engine, w: World, event: Event)
    requires WorldInv(e, w) && Tidy(w.server, w.scene) && NewSoFar(w.server, w.scene) && Enabled(w, event)
             && New(w, event)
    ensures Safe(e, w, event) && NewSoFar(Next(e, w, event).server, Next(e, w, event).scene)
  {
    hide OnceOk;
    hide LogOk;
    hide IdsOk;
    hide QueuesOk;
    hide NewSoFar;
    hide RecordsTidy;
    hide LogTidy;
    match event
    case Unregisters(sync) => RemovedNew(w.server, w.scene, sync);
    case Drains(nodes) => DrainedNew(e, w.server, w.scene, nodes);
    case Detects(_, _) => DetectsNew(e, w, event);
    case Adds(syncs) => AddedAllNew(e, w.server, w.scene, syncs);
    case _ => QueuesNew(e, w, event);
  }

  lemma {:induction false} NewRunsAreSafe(e: Engine, v: World, events: seq<Event>, w: World)
    requires WorldInv(e, v) && Tidy(v.server, v.scene) && NewSoFar(v.server, v.scene)
    requires Leads(e, v, events, w) && AllNew(e, v, events)
    ensures AllSafe(e, v, events) && NewSoFar(w.server, w.scene)
    decreases |events|
  {
    hide WorldInv;
    hide Next;
    hide Tidy;
    hide Safe;
    hide NewSoFar;
    hide New;
    if events != [] {
      StepTells(e, v, events[0]);
      StepOrder(e, v, events[0]);
      StepNew(e, v, events[0]);
      NewRunsAreSafe(e, Next(e, v, events[0]), events[1..], w);
    }
  }

  /** Where the spawn functions return only new nodes, every run tells of each id once, then once that it is gone,
      and the ids watched are exactly those of the live records. */
  lemma NewNodesKeepOrder(e: Engine, v: World, events: seq<Event>, w: World)
    requires Reaches(e, v, events, w) && AllNew(e, v, events)
    ensures AllSafe(e, v, events) && Orderly(w.server.core.log)
    ensures w.server.core.records.Keys == w.server.spawned + w.server.bindIds
  {
    hide WorldInv;
    hide LogTidy;
    FreshIsTidy(e, v);
    NewRunsAreSafe(e, v, events, w);
    ToldInOrderExactly(e, v, events, w);
    RunOrder(e, v, events, w);
    SpawnsAreRecorded(w.server, w.scene);
  }

  // --- And others do not ---

  lemma {:induction false} OneMore(e: Engine, v: World, events: seq<Event>, w: World, last: Event)
    requires Leads(e, v, events, w) && Enabled(w, last)
    ensures Leads(e, v, events + [last], Next(e, w, last))
    decreases |events|
  {
    hide Enabled;
    hide Next;
    var all := events + [last];
    if events == [] {
      assert all[1..] == [];
    } else {
      OneMore(e, Next(e, v, events[0]), events[1..], w, last);
      assert all[0] == events[0] && all[1..] == events[1..] + [last];
    }
  }

  /** A run so far, and one more step of it. */
  ghost predicate Going(e: Engine, v: World, events: seq<Event>, w: World) {
    Starts(v) && Leads(e, v, events, w) && WorldInv(e, w) && Tidy(w.server, w.scene)
  }

  lemma GoesOn(e: Engine, v: World, events: seq<Event>, w: World, last: Event)
    requires Going(e, v, events, w) && Enabled(w, last)
    ensures var w' := Next(e, w, last);
            && Reaches(e, v, events + [last], w')
            && (Safe(e, w, last) ==> Going(e, v, events + [last], w'))
            && (!Safe(e, w, last) ==> !Orderly(w'.server.core.log))
  {
    hide WorldInv;
    hide Tidy;
    hide Leads;
    hide Enabled;
    hide Next;
    hide Safe;
    hide Orderly;
    OneMore(e, v, events, w, last);
    StepTells(e, w, last);
    StepOrder(e, w, last);
  }

  lemma OneToDrain(e: Engine, w: World, node: nat)
    requires w.server.pending.Keys == {node}
    ensures Enabled(w, Drains([node]))
    ensures Next(e, w, Drains([node])).server == DrainedOne(w.server, e, w.scene, node)
    ensures Safe(e, w, Drains([node])) <==> SafeOne(w.server, w.scene, node)
  {
    hide DrainedOne;
    hide SafeOne;
    assert [node][..0] == [];
    assert Drained(w.server, e, w.scene, []) == w.server;
    assert SafeDrain(e, w.server, w.scene, []);
  }

  /** The first time a node is captured it is told of, and watched. */
  lemma FirstDrain(e: Engine, v: World, events: seq<Event>, w: World, node: nat)
    requires Going(e, v, events, w) && w.server.pending.Keys == {node} && Ready(w.server, w.scene, node)
    requires node !in w.server.ids.byObj && node != w.server.pending[node].spawner
    ensures var w' := Next(e, w, Drains([node]));
            && Going(e, v, events + [Drains([node])], w') && w'.scene == w.scene && w'.server.pending == map[]
            && w'.server.spawners == w.server.spawners && IsSpawned(w'.server, node)
  {
    hide OnceOk;
    hide LogOk;
    hide LogTidy;
    hide Leads;
    OneToDrain(e, w, node);
    RecordsAreOld(e, w.server, w.scene);
    GoesOn(e, v, events, w, Drains([node]));
    DrainedOneSettles(e, w.server, w.scene, node);
    assert Next(e, w, Drains([node])).server.pending == map[];
  }

  /** A spawner's function returns a node, and once that is in the tree and told of, returns it again. */
  function Recapturing(spawner: nat, node: nat, data: Variant, out: Scene, scene: Scene): seq<Event> {
    [Wraps(spawner)] + [Captures(node, spawner, data)] + [Drains([node])] +
    [Moves(out)] + [Captures(node, spawner, data)] + [Moves(scene)] + [Drains([node])]
  }

  /** The node keeps its id, which the peers hear of a second time. */
  lemma RecapturedIsToldTwice(e: Engine, scene: Scene, out: Scene, spawner: nat, node: nat, data: Variant)
      returns (w: World)
    requires scene.Proper() && scene.Is(spawner, Spawner) && scene.Is(node, Plain) && node in scene.live
             && node in scene.inTree
    requires Evolves(scene, out) && Evolves(out, scene) && node in out.live && node !in out.inTree
    ensures Reaches(e, World(Fresh, scene), Recapturing(spawner, node, data, out, scene), w)
    ensures !Orderly(w.server.core.log)
  {
    hide WorldInv;
    hide Leads;
    hide LogTidy;
    hide DrainedOne;
    var v := World(Fresh, scene);
    FreshIsTidy(e, v);
    assert Going(e, v, [], v) by {
      NoSteps(e, v);
    }
    var w2 := CaptureFirst(e, v, spawner, node, data);
    var soFar := [Wraps(spawner)] + [Captures(node, spawner, data)];
    FirstDrain(e, v, soFar, w2, node);
    var w3 := Next(e, w2, Drains([node]));
    soFar := soFar + [Drains([node])];
    GoesOn(e, v, soFar, w3, Moves(out));
    var w4 := Next(e, w3, Moves(out));
    soFar := soFar + [Moves(out)];
    GoesOn(e, v, soFar, w4, Captures(node, spawner, data));
    var w5 := Next(e, w4, Captures(node, spawner, data));
    soFar := soFar + [Captures(node, spawner, data)];
    GoesOn(e, v, soFar, w5, Moves(scene));
    var w6 := Next(e, w5, Moves(scene));
    soFar := soFar + [Moves(scene)];
    OneToDrain(e, w6, node);
    PairedName(e, w6, node);
    GoesOn(e, v, soFar, w6, Drains([node]));
    w := Next(e, w6, Drains([node]));
  }

  lemma NoSteps(e: Engine, v: World)
    ensures Leads(e, v, [], v)
  {
  }

  lemma PairedName(e: Engine, w: World, node: nat)
    requires WorldInv(e, w) && Tidy(w.server, w.scene) && w.scene.Is(node, Plain) && node in w.server.ids.byObj
    ensures w.server.ids.Id(node) in w.server.core.records
  {
  }

  lemma CaptureFirst(e: Engine, v: World, spawner: nat, node: nat, data: Variant) returns (w: World)
    requires Starts(v) && v.scene.Is(spawner, Spawner) && node in v.scene.live
    ensures Going(e, v, [Wraps(spawner)] + [Captures(node, spawner, data)], w)
    ensures w == World(Fresh.(spawners := {spawner}, pending := map[node := Pending(spawner, data)]), v.scene)
  {
    hide WorldInv;
    hide Tidy;
    hide Leads;
    FreshIsTidy(e, v);
    NoSteps(e, v);
    GoesOn(e, v, [], v, Wraps(spawner));
    var w1 := Next(e, v, Wraps(spawner));
    assert [] + [Wraps(spawner)] == [Wraps(spawner)];
    assert w1 == World(Fresh.(spawners := {spawner}), v.scene);
    GoesOn(e, v, [Wraps(spawner)], w1, Captures(node, spawner, data));
    w := Next(e, w1, Captures(node, spawner, data));
  }

  /** A spawner's function returns a synchronizer, which later leaves the tree and so unregisters. */
  function SpawningASync(spawner: nat, sync: nat, data: Variant, id: nat): seq<Event> {
    [Wraps(spawner)] + [Captures(sync, spawner, data)] + [Registers(sync)] + [Drains([sync])] +
    [Unregisters(sync)] + [Detects([id], [])]
  }

  lemma {:induction false} GivenLeavesOwned(st: Server, objs: seq<nat>)
    ensures AllGiven(st, objs).owned == st.owned
    ensures forall o | o in st.ids.byObj ::
            o in AllGiven(st, objs).ids.byObj && AllGiven(st, objs).ids.byObj[o] == st.ids.byObj[o]
  {
    if objs != [] {
      GivenLeavesOwned(st, objs[..|objs| - 1]);
    }
  }

  /** What a first drain adds to what is watched: the node, and its spawner's bind. */
  lemma FirstWatched(e: Engine, st: Server, scene: Scene, node: nat)
    requires Ready(st, scene, node) && st.spawned == {} && st.bindIds == {} && st.ids == Fresh.ids
    ensures var st' := DrainedOne(st, e, scene, node);
            && st'.owned == st.owned && st'.spawned == {st'.ids.Id(node)}
            && st'.bindIds <= {st'.ids.Id(st.pending[node].spawner)}
  {
    var p := st.pending[node];
    var st1 := SpawnerGiven(st, scene, p.spawner);
    assert p.spawner in st1.ids.byObj;
    GivenLeavesQueues(st1, scene.syncs(node));
    GivenLeavesOwned(st1, scene.syncs(node));
  }

  /** When it has unregistered it is watched without a record, and found gone. */
  lemma UnregisteredIsFound(e: Engine, w: World, sync: nat, spawner: nat)
    requires WorldInv(e, w) && w.scene.Is(sync, Synchronizer) && sync in w.server.owned && sync in w.server.ids.byObj
    requires w.server.spawned == {w.server.ids.Id(sync)} && w.server.bindIds <= {w.server.ids.Id(spawner)}
    requires w.scene.Is(spawner, Spawner) && spawner in w.scene.live
    ensures var id, w' := w.server.ids.Id(sync), Next(e, w, Unregisters(sync));
            Enabled(w', Detects([id], [])) && !Safe(e, w', Detects([id], []))
  {
    hide OnceOk;
    hide LogOk;
    var id, w' := w.server.ids.Id(sync), Next(e, w, Unregisters(sync));
    assert [id][..0] == [];
    assert GoneOf(w'.server.spawned, w'.server.ids, w'.scene) == {id};
    assert RetiredSpawns(w'.server, [id]) == RetiredSpawn(w'.server, id);
    assert id in [id];
    forall b | b in w'.server.bindIds
      ensures RetiredSpawns(w'.server, [id]).ids.Object(b) == spawner
    {
      assert b == w.server.ids.Id(spawner) && b != id;
    }
  }

  /** The peers hear twice that it is gone: as it unregisters, and when its id, which is nobody's by then, is
      taken for a freed node's. */
  lemma SpawnedSyncIsGoneTwice(e: Engine, scene: Scene, spawner: nat, sync: nat, data: Variant)
      returns (id: nat, w: World)
    requires scene.Proper() && scene.Is(spawner, Spawner) && spawner in scene.live
    requires scene.Is(sync, Synchronizer) && sync in scene.live && sync in scene.inTree
    ensures Reaches(e, World(Fresh, scene), SpawningASync(spawner, sync, data, id), w)
    ensures !Orderly(w.server.core.log)
  {
    hide WorldInv;
    hide Tidy;
    hide Leads;
    hide DrainedOne;
    var v := World(Fresh, scene);
    var w2 := CaptureFirst(e, v, spawner, sync, data);
    var soFar := [Wraps(spawner)] + [Captures(sync, spawner, data)];
    GoesOn(e, v, soFar, w2, Registers(sync));
    var w3 := Next(e, w2, Registers(sync));
    soFar := soFar + [Registers(sync)];
    FirstDrain(e, v, soFar, w3, sync);
    OneToDrain(e, w3, sync);
    FirstWatched(e, w3.server, w3.scene, sync);
    var w4 := Next(e, w3, Drains([sync]));
    soFar := soFar + [Drains([sync])];
    GoesOn(e, v, soFar, w4, Unregisters(sync));
    UnregisteredIsFound(e, w4, sync, spawner);
    id := w4.server.ids.Id(sync);
    var w5 := Next(e, w4, Unregisters(sync));
    soFar := soFar + [Unregisters(sync)];
    GoesOn(e, v, soFar, w5, Detects([id], []));
    w := Next(e, w5, Detects([id], []));
  }
}
