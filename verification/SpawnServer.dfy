/** The server's side of spawning: which nodes the peers have been told of, under which ids, and when
    they are told that one is gone. A node is an object id; what the scene says of it is given with
    each step. */
module SpawnServer {
  import opened Wire
  import opened Values
  import opened Args
  import opened NetIds

  const BIND_SPAWNER: nat := 0

  datatype Kind = Plain | Synchronizer | Spawner

  /** The scene as one step finds it. */
  datatype Scene = Scene(
    kind: map<nat, Kind>,             // of every object there has been
    live: set<nat>,                   // those not freed
    inTree: set<nat>,
    mine: set<nat>,                   // those this end has authority over
    path: nat -> bytes,
    syncs: nat -> seq<nat>,           // the synchronizers at and below a node
    pathTo: (nat, nat) -> bytes,
    lineage: nat -> seq<nat>          // a node, its parent and so on up
  ) {
    predicate Is(obj: nat, k: Kind) {
      obj in kind && kind[obj] == k
    }

    ghost predicate Proper() {
      && 0 !in kind && live <= kind.Keys
      && (forall node, sync | node in live && sync in syncs(node) :: sync in live && Is(sync, Synchronizer))
      && (forall node | node in live :: lineage(node) != [] && lineage(node)[0] == node)
    }
  }

  /** Scenes change at will, but an object keeps its kind and a freed one never comes back. */
  ghost predicate Evolves(a: Scene, b: Scene) {
    b.Proper() && forall obj | obj in a.kind :: b.Is(obj, a.kind[obj]) && (obj in b.live ==> obj in a.live)
  }

  /** What a peer builds from: for a spawn its spawner and data, for a bind the node's path. */
  datatype Record = Record(spawner: nat, entities: seq<nat>, data: bytes)

  datatype Notice = Announced(id: nat, record: Record) | Gone(id: nat)

  /** What the core holds of it, as its interface promises: the live records, the entities, and all it
      ever told the peers. */
  datatype Core = Core(records: map<nat, Record>, entities: set<nat>, log: seq<Notice>) {
    function AddSpawn(id: nat, record: Record): Core {
      Core(records[id := record], entities, log + [Announced(id, record)])
    }

    function AddEntity(id: nat): Core {
      this.(entities := entities + {id})
    }

    function Despawn(id: nat): Core {
      Core(records - {id}, entities - {id}, log + [Gone(id)])
    }

    /** The entity, and its bind record if it has one. */
    function RemoveEntity(id: nat): Core {
      if id in records then Despawn(id) else this.(entities := entities - {id})
    }
  }

  datatype Pending = Pending(spawner: nat, data: Variant)

  /** hist is every id given out and the object it was given to, and released those let go because their
      synchronizer unregistered. */
  datatype Server = Server(
    ids: Table,
    hist: map<nat, nat>,
    pending: map<nat, Pending>,
    spawners: set<nat>,
    owned: set<nat>,
    toAdd: set<nat>,
    spawned: set<nat>,
    bindIds: set<nat>,
    core: Core,
    released: set<nat>
  )

  const Fresh := Server(Empty, map[], map[], {}, {}, {}, {}, {}, Core(map[], {}, []), {})

  // --- The steps ---

  function Given(st: Server, obj: nat): Server {
    st.(ids := st.ids.Assign(obj), hist := st.hist[st.ids.Assign(obj).Id(obj) := obj])
  }

  function AllGiven(st: Server, objs: seq<nat>): Server
    decreases |objs|
  {
    if objs == [] then st else Given(AllGiven(st, objs[..|objs| - 1]), objs[|objs| - 1])
  }

  function BindRecord(scene: Scene, obj: nat, id: nat, gated: bool): Record {
    Record(BIND_SPAWNER, if gated then [id] else [], scene.path(obj))
  }

  function Bound(st: Server, scene: Scene, obj: nat, gated: bool): Server {
    var id := st.ids.Id(obj);
    st.(core := st.core.AddSpawn(id, BindRecord(scene, obj, id, gated)), bindIds := st.bindIds + {id})
  }

  /** With an id for the spawner: the first time one is asked for, the peers are told of it. */
  function SpawnerGiven(st: Server, scene: Scene, spawner: nat): Server {
    if st.ids.Id(spawner) != 0 then st
    else if spawner !in scene.live then Given(st, spawner)
    else Bound(Given(st, spawner), scene, spawner, false)
  }

  function NamedSyncs(st: Server, scene: Scene, node: nat, syncs: seq<nat>): seq<SpawnSync> {
    if syncs == [] then []
    else
      var front, sync := NamedSyncs(st, scene, node, syncs[..|syncs| - 1]), syncs[|syncs| - 1];
      if sync in st.owned then front + [SpawnSync(st.ids.Id(sync), scene.pathTo(node, sync))] else front
  }

  function IdsOf(ids: Table, objs: seq<nat>): seq<nat> {
    seq(|objs|, k requires 0 <= k < |objs| => ids.Id(objs[k]))
  }

  function SpawnRecord(st: Server, e: Engine, scene: Scene, node: nat, p: Pending): Record {
    var syncs := scene.syncs(node);
    Record(st.ids.Id(p.spawner), IdsOf(st.ids, syncs), SpawnCode(e, NamedSyncs(st, scene, node, syncs), p.data))
  }

  /** Everything a spawn record names has its id. */
  function Readied(st: Server, scene: Scene, node: nat, p: Pending): Server {
    AllGiven(SpawnerGiven(st, scene, p.spawner), scene.syncs(node))
  }

  function Announce(st: Server, node: nat, record: Record): Server {
    var st' := Given(st, node);
    var id := st'.ids.Id(node);
    st'.(core := st'.core.AddSpawn(id, record), spawned := st'.spawned + {id})
  }

  function Promoted(st: Server, e: Engine, scene: Scene, node: nat, p: Pending): Server {
    var st' := Readied(st, scene, node, p);
    Announce(st', node, SpawnRecord(st', e, scene, node, p))
  }

  function NotPending(st: Server, node: nat): Server {
    st.(pending := st.pending - {node})
  }

  /** One captured spawn: dropped if its node was freed first, kept while it is not in the tree. */
  function DrainedOne(st: Server, e: Engine, scene: Scene, node: nat): Server {
    if node !in st.pending then st
    else if node !in scene.live then NotPending(st, node)
    else if node !in scene.inTree then st
    else if st.pending[node].spawner !in st.spawners then NotPending(st, node)
    else NotPending(Promoted(st, e, scene, node, st.pending[node]), node)
  }

  function Drained(st: Server, e: Engine, scene: Scene, nodes: seq<nat>): Server {
    if nodes == [] then st
    else DrainedOne(Drained(st, e, scene, nodes[..|nodes| - 1]), e, scene, nodes[|nodes| - 1])
  }

  function RetiredSpawn(st: Server, id: nat): Server {
    st.(spawned := st.spawned - {id}, ids := st.ids.Drop(id), core := st.core.Despawn(id))
  }

  function RetiredBind(st: Server, id: nat): Server {
    st.(bindIds := st.bindIds - {id}, ids := st.ids.Drop(id), core := st.core.Despawn(id))
  }

  function RetiredSpawns(st: Server, ids: seq<nat>): Server {
    if ids == [] then st else RetiredSpawn(RetiredSpawns(st, ids[..|ids| - 1]), ids[|ids| - 1])
  }

  function RetiredBinds(st: Server, ids: seq<nat>): Server {
    if ids == [] then st else RetiredBind(RetiredBinds(st, ids[..|ids| - 1]), ids[|ids| - 1])
  }

  /** The ids whose node is no more. */
  function GoneOf(ids: set<nat>, table: Table, scene: Scene): set<nat> {
    set id | id in ids && table.Object(id) !in scene.live
  }

  /** The node came with a spawn record. */
  predicate UnderSpawned(st: Server, scene: Scene, node: nat) {
    exists k | 0 <= k < |scene.lineage(node)| :: st.ids.Id(scene.lineage(node)[k]) in st.spawned
  }

  function Entered(st: Server, scene: Scene, sync: nat): Server {
    var st' := st.(core := st.core.AddEntity(st.ids.Id(sync)), toAdd := st.toAdd - {sync});
    if UnderSpawned(st, scene, sync) then st' else Bound(st', scene, sync, true)
  }

  function AddedOne(st: Server, scene: Scene, sync: nat): Server {
    if sync !in scene.live then st.(toAdd := st.toAdd - {sync})
    else if sync !in scene.inTree || sync !in scene.mine then st
    else Entered(Given(st, sync), scene, sync)
  }

  function AddedAll(st: Server, scene: Scene, syncs: seq<nat>): Server {
    if syncs == [] then st else AddedOne(AddedAll(st, scene, syncs[..|syncs| - 1]), scene, syncs[|syncs| - 1])
  }

  function Captured(st: Server, node: nat, spawner: nat, data: Variant): Server {
    st.(pending := st.pending[node := Pending(spawner, data)])
  }

  function Added(st: Server, sync: nat): Server {
    st.(owned := st.owned + {sync}, toAdd := st.toAdd + {sync})
  }

  function Removed(st: Server, sync: nat): Server {
    var id := st.ids.Id(sync);
    var st' := st.(ids := st.ids.Release(sync), released := if id == 0 then st.released else st.released + {id});
    if sync !in st.owned then st'
    else
      var st'' := st'.(owned := st.owned - {sync}, toAdd := st.toAdd - {sync});
      if id == 0 then st'' else st''.(core := st.core.RemoveEntity(id), bindIds := st.bindIds - {id})
  }

  // --- What every step keeps, whatever nodes are captured ---

  function Told(log: seq<Notice>): set<nat> {
    set n | n in log && n.Announced? :: n.id
  }

  function Left(log: seq<Notice>): set<nat> {
    set n | n in log && n.Gone? :: n.id
  }

  /** An id is its object's until the object is freed, or is a synchronizer and unregisters. */
  ghost predicate IdsOk(st: Server, scene: Scene) {
    && st.ids.Paired() && st.ids.Counted()
    && (forall id | id in st.ids.byId ::
        !st.ids.byId[id].learned && id in st.hist && st.hist[id] == st.ids.byId[id].obj)
    && (forall id | id in st.hist :: 1 <= id < st.ids.next && st.hist[id] in scene.kind)
    && (forall id | id in st.hist && id !in st.ids.byId :: id in st.released || st.hist[id] !in scene.live)
    && (forall id | id in st.released :: id in st.hist && scene.Is(st.hist[id], Synchronizer))
  }

  ghost predicate QueuesOk(st: Server, scene: Scene) {
    && st.toAdd <= st.owned && st.spawned <= st.hist.Keys && st.bindIds <= st.hist.Keys
    && st.core.records.Keys <= st.spawned + st.bindIds
    && (forall node | node in st.pending :: node in scene.kind && st.pending[node].spawner in st.spawners)
    && (forall obj | obj in st.spawners :: scene.Is(obj, Spawner))
    && (forall obj | obj in st.owned :: scene.Is(obj, Synchronizer))
  }

  /** A bind record waits for its own entity to be visible where it is a synchronizer's, and for nothing where it is
      a spawner's; a spawn record names its spawner, and lists only synchronizers. */
  ghost predicate Shaped(e: Engine, n: Notice, hist: map<nat, nat>, scene: Scene) {
    && n.id in hist
    && (n.Announced? && n.record.spawner == BIND_SPAWNER ==>
          || (scene.Is(hist[n.id], Synchronizer) && n.record.entities == [n.id])
          || (scene.Is(hist[n.id], Spawner) && n.record.entities == []))
    && (n.Announced? && n.record.spawner != BIND_SPAWNER ==>
          n.record.spawner in hist && scene.Is(hist[n.record.spawner], Spawner)
          && match ReadSpawn(e, n.record.data)
             case None => false
             case Some((syncs, _)) =>
               forall k | 0 <= k < |syncs| :: syncs[k].netId in hist && scene.Is(hist[syncs[k].netId], Synchronizer))
  }

  ghost predicate LogOk(e: Engine, log: seq<Notice>, hist: map<nat, nat>, scene: Scene) {
    forall n | n in log :: Shaped(e, n, hist, scene)
  }

  /** A node told of under one id, and under another before, unregistered in between. */
  ghost predicate OnceOk(log: seq<Notice>, hist: map<nat, nat>, released: set<nat>) {
    forall i, j | i in hist && j in hist && i < j && hist[i] == hist[j] && j in Told(log) :: i in released
  }

  ghost predicate Inv(e: Engine, st: Server, scene: Scene) {
    && scene.Proper() && IdsOk(st, scene) && QueuesOk(st, scene)
    && LogOk(e, st.core.log, st.hist, scene) && OnceOk(st.core.log, st.hist, st.released)
  }

  /** A notice tells what the scene shows: the path the node is at, or where its synchronizers are below
      it; and a node is gone only when it was freed, or unregistered. */
  ghost predicate Honest(e: Engine, n: Notice, hist: map<nat, nat>, released: set<nat>, scene: Scene) {
    && n.id in hist
    && match n
       case Gone(id) => hist[id] !in scene.live || id in released
       case Announced(id, record) =>
         && hist[id] in scene.live
         && if record.spawner == BIND_SPAWNER then record.data == scene.path(hist[id])
            else hist[id] in scene.inTree && SpawnHonest(e, record, hist, scene, hist[id])
  }

  /** And a spawn record waits for every synchronizer under its node. */
  ghost predicate SpawnHonest(e: Engine, record: Record, hist: map<nat, nat>, scene: Scene, node: nat) {
    && |record.entities| == |scene.syncs(node)|
    && (forall k | 0 <= k < |record.entities| ::
          record.entities[k] in hist && hist[record.entities[k]] == scene.syncs(node)[k])
    && match ReadSpawn(e, record.data)
       case None => false
       case Some((syncs, _)) =>
         forall k | 0 <= k < |syncs| ::
           && syncs[k].netId in hist && hist[syncs[k].netId] in scene.syncs(node)
           && syncs[k].path == scene.pathTo(node, hist[syncs[k].netId])
  }

  ghost predicate Grows(hist: map<nat, nat>, hist': map<nat, nat>) {
    forall id | id in hist :: id in hist' && hist'[id] == hist[id]
  }

  /** The log and the ids' history only grow, and all that is new is honest. */
  ghost predicate Advances(e: Engine, a: Server, b: Server, scene: Scene) {
    && a.core.log <= b.core.log && Grows(a.hist, b.hist) && a.released <= b.released
    && (forall k | |a.core.log| <= k < |b.core.log| :: Honest(e, b.core.log[k], b.hist, b.released, scene))
  }

  lemma LogGrows(log: seq<Notice>, n: Notice)
    ensures Told(log + [n]) == Told(log) + if n.Announced? then {n.id} else {}
    ensures Left(log + [n]) == Left(log) + if n.Gone? then {n.id} else {}
    ensures n in log + [n] && forall m | m in log + [n] :: m in log || m == n
  {
    assert forall m :: m in log + [n] <==> m in log || m == n;
  }

  lemma AdvancesOn(e: Engine, a: Server, b: Server, c: Server, scene: Scene)
    requires Advances(e, a, b, scene) && Advances(e, b, c, scene)
    ensures Advances(e, a, c, scene)
  {
    forall k | |a.core.log| <= k < |c.core.log|
      ensures Honest(e, c.core.log[k], c.hist, c.released, scene)
    {
      if k < |b.core.log| {
        assert c.core.log[k] == b.core.log[k];
      }
    }
  }

  lemma AdvancesBy(e: Engine, a: Server, b: Server, scene: Scene, n: Notice)
    requires b.core.log == a.core.log + [n] && Grows(a.hist, b.hist) && a.released <= b.released
    requires Honest(e, n, b.hist, b.released, scene)
    ensures Advances(e, a, b, scene)
  {
  }

  lemma LogOkOn(e: Engine, log: seq<Notice>, hist: map<nat, nat>, scene: Scene, hist': map<nat, nat>, scene': Scene)
    requires LogOk(e, log, hist, scene) && Grows(hist, hist')
    requires forall id | id in hist :: hist[id] in scene.kind && scene'.Is(hist[id], scene.kind[hist[id]])
    ensures LogOk(e, log, hist', scene')
  {
  }

  /** What a new id changes: nothing but that obj has it. */
  lemma GivenIds(st: Server, scene: Scene, obj: nat)
    requires IdsOk(st, scene) && obj in scene.kind && obj !in st.ids.byObj
    ensures var st' := Given(st, obj);
            && st'.ids.Paired() && st'.ids.Counted() && st'.ids.next == st.ids.next + 1
            && st'.ids.byObj == st.ids.byObj[obj := st.ids.next]
            && st'.ids.byId == st.ids.byId[st.ids.next := Entry(obj, false)]
            && st'.hist == st.hist[st.ids.next := obj] && st.ids.next !in st.hist && st.ids.next !in st.ids.byId
            && Grows(st.hist, st'.hist)
  {
    AssignKeeps(st.ids, obj);
  }

  /** The new id is one nobody was told of. */
  lemma NextIsUntold(e: Engine, st: Server, scene: Scene)
    requires IdsOk(st, scene) && LogOk(e, st.core.log, st.hist, scene)
    ensures st.ids.next !in Told(st.core.log) && st.ids.next !in Left(st.core.log)
  {
  }

  lemma GivenKeepsOnce(e: Engine, st: Server, scene: Scene, obj: nat)
    requires Inv(e, st, scene) && obj in scene.kind && obj !in st.ids.byObj
    ensures OnceOk(st.core.log, Given(st, obj).hist, st.released)
  {
    GivenIds(st, scene, obj);
    NextIsUntold(e, st, scene);
  }

  /** Ids once given stand, and the others are new. */
  ghost predicate NamesGrow(a: Table, b: Table) {
    && a.next <= b.next && (forall o | o in a.byObj :: o in b.byObj && b.byObj[o] == a.byObj[o])
    && (forall o | o in b.byObj && o !in a.byObj :: b.byObj[o] >= a.next)
  }

  lemma NamesGrowOn(a: Table, b: Table, c: Table)
    requires NamesGrow(a, b) && NamesGrow(b, c)
    ensures NamesGrow(a, c)
  {
  }

  lemma GivenAgain(st: Server, obj: nat)
    requires obj in st.ids.byObj && st.ids.byObj[obj] in st.hist && st.hist[st.ids.byObj[obj]] == obj
    ensures Given(st, obj) == st
  {
    assert st.hist == st.hist[st.ids.Id(obj) := obj];
  }

  lemma GivenIdsOk(st: Server, scene: Scene, obj: nat)
    requires IdsOk(st, scene) && QueuesOk(st, scene) && obj in scene.kind && obj !in st.ids.byObj
    ensures IdsOk(Given(st, obj), scene) && QueuesOk(Given(st, obj), scene)
  {
    GivenIds(st, scene, obj);
  }

  lemma NewGivenKeeps(e: Engine, st: Server, scene: Scene, obj: nat)
    requires Inv(e, st, scene) && obj in scene.kind && obj !in st.ids.byObj
    ensures Inv(e, Given(st, obj), scene)
  {
    hide OnceOk;
    hide LogOk;
    hide QueuesOk;
    GivenIds(st, scene, obj);
    GivenIdsOk(st, scene, obj);
    GivenKeepsOnce(e, st, scene, obj);
    LogOkOn(e, st.core.log, st.hist, scene, Given(st, obj).hist, scene);
  }

  lemma GivenKeeps(e: Engine, st: Server, scene: Scene, obj: nat)
    requires Inv(e, st, scene) && obj in scene.kind
    ensures var st' := Given(st, obj);
            && Inv(e, st', scene) && Advances(e, st, st', scene) && obj in st'.ids.byObj && NamesGrow(st.ids, st'.ids)
  {
    hide OnceOk;
    hide LogOk;
    hide QueuesOk;
    if obj in st.ids.byObj {
      GivenAgain(st, obj);
    } else {
      GivenIds(st, scene, obj);
      NewGivenKeeps(e, st, scene, obj);
    }
  }

  /** The live object's own id is the only one it has not let go. */
  lemma OthersReleased(st: Server, scene: Scene, obj: nat, i: nat)
    requires IdsOk(st, scene) && obj in scene.live && obj in st.ids.byObj
    requires i in st.hist && st.hist[i] == obj && i != st.ids.byObj[obj]
    ensures i in st.released
  {
  }

  lemma TellingKeepsOnce(e: Engine, st: Server, scene: Scene, n: Notice)
    requires Inv(e, st, scene) && n.id in st.ids.byId && st.ids.byId[n.id].obj in scene.live
    ensures OnceOk(st.core.log + [n], st.hist, st.released)
  {
    LogGrows(st.core.log, n);
    forall i, j | i in st.hist && j in st.hist && i < j && st.hist[i] == st.hist[j] && j in Told(st.core.log + [n])
      ensures i in st.released
    {
      if j == n.id {
        OthersReleased(st, scene, st.hist[j], i);
      }
    }
  }

  /** Telling of a node that is there. */
  lemma Tells(e: Engine, st: Server, scene: Scene, n: Notice, st': Server)
    requires Inv(e, st, scene) && n.Announced? && n.id in st.ids.byId
    requires Shaped(e, n, st.hist, scene) && Honest(e, n, st.hist, st.released, scene)
    requires st'.ids == st.ids && st'.hist == st.hist && st'.released == st.released && QueuesOk(st', scene)
    requires st'.core.log == st.core.log + [n]
    ensures Inv(e, st', scene) && Advances(e, st, st', scene)
  {
    hide OnceOk;
    hide Shaped;
    hide Honest;
    LogGrows(st.core.log, n);
    assert st.hist[n.id] in scene.live by {
      LiveWhenTold(e, n, st.hist, st.released, scene);
    }
    TellingKeepsOnce(e, st, scene, n);
    AdvancesBy(e, st, st', scene, n);
  }

  lemma LiveWhenTold(e: Engine, n: Notice, hist: map<nat, nat>, released: set<nat>, scene: Scene)
    requires Honest(e, n, hist, released, scene) && n.Announced?
    ensures n.id in hist && hist[n.id] in scene.live
  {
  }

  /** A bind record: told with the path its node is at. */
  lemma BoundKeeps(e: Engine, st: Server, scene: Scene, obj: nat, gated: bool)
    requires Inv(e, st, scene) && obj in scene.live && obj in st.ids.byObj
    requires scene.Is(obj, if gated then Synchronizer else Spawner)
    ensures Inv(e, Bound(st, scene, obj, gated), scene) && Advances(e, st, Bound(st, scene, obj, gated), scene)
  {
    hide OnceOk;
    hide LogOk;
    var id := st.ids.Id(obj);
    Tells(e, st, scene, Announced(id, BindRecord(scene, obj, id, gated)), Bound(st, scene, obj, gated));
  }

  lemma AnnouncedQueues(st: Server, scene: Scene, node: nat, record: Record)
    requires IdsOk(st, scene) && QueuesOk(st, scene) && node in scene.kind
    ensures QueuesOk(Announce(st, node, record), scene)
  {
    if node !in st.ids.byObj {
      GivenIds(st, scene, node);
    }
  }

  lemma AnnounceKeeps(e: Engine, st: Server, scene: Scene, node: nat, record: Record)
    requires Inv(e, st, scene) && node in scene.live && node in scene.inTree
    requires record.spawner != BIND_SPAWNER && record.spawner in st.hist && scene.Is(st.hist[record.spawner], Spawner)
    requires SpawnHonest(e, record, st.hist, scene, node)
    ensures Inv(e, Announce(st, node, record), scene) && Advances(e, st, Announce(st, node, record), scene)
  {
    hide OnceOk;
    hide LogOk;
    hide QueuesOk;
    var st1 := Given(st, node);
    GivenKeeps(e, st, scene, node);
    AnnouncedQueues(st, scene, node, record);
    HonestLater(e, record, st.hist, st1.hist, scene, node);
    SpawnIsShaped(e, record, st1.hist, scene, node);
    Tells(e, st1, scene, Announced(st1.ids.Id(node), record), Announce(st, node, record));
    AdvancesOn(e, st, st1, Announce(st, node, record), scene);
  }

  lemma HonestLater(e: Engine, record: Record, hist: map<nat, nat>, hist': map<nat, nat>, scene: Scene, node: nat)
    requires SpawnHonest(e, record, hist, scene, node) && Grows(hist, hist')
    ensures SpawnHonest(e, record, hist', scene, node)
  {
  }

  lemma SpawnIsShaped(e: Engine, record: Record, hist: map<nat, nat>, scene: Scene, node: nat)
    requires SpawnHonest(e, record, hist, scene, node) && scene.Proper() && node in scene.live
    requires record.spawner != BIND_SPAWNER && record.spawner in hist && scene.Is(hist[record.spawner], Spawner)
    ensures forall id | id in hist :: Shaped(e, Announced(id, record), hist, scene)
  {
  }

  lemma DropIds(st: Server, scene: Scene, id: nat, released: set<nat>)
    requires IdsOk(st, scene) && st.released <= released <= st.released + {id}
    requires id in st.ids.byId ==> id in released || st.ids.byId[id].obj !in scene.live
    requires id in released ==> id in st.hist && scene.Is(st.hist[id], Synchronizer)
    ensures IdsOk(st.(ids := st.ids.Drop(id), released := released), scene)
            && st.ids.Drop(id).byId == st.ids.byId - {id}
  {
  }

  /** Telling that an id is gone, or not, once nobody has it. */
  lemma Leaves(e: Engine, st: Server, scene: Scene, id: nat, st': Server)
    requires Inv(e, st, scene) && st'.ids == st.ids.Drop(id) && st'.hist == st.hist
    requires st.released <= st'.released <= st.released + {id} && QueuesOk(st', scene)
    requires id in st.ids.byId ==> id in st'.released || st.ids.byId[id].obj !in scene.live
    requires id in st'.released ==> id in st.hist && scene.Is(st.hist[id], Synchronizer)
    requires st'.core.log == st.core.log || (id in st.hist && st'.core.log == st.core.log + [Gone(id)])
    ensures Inv(e, st', scene) && Advances(e, st, st', scene)
  {
    DropIds(st, scene, id, st'.released);
    LogGrows(st.core.log, Gone(id));
    if st'.core.log != st.core.log {
      AdvancesBy(e, st, st', scene, Gone(id));
    }
  }

  /** The id names no node, and the core has no record and no entity of it. */
  ghost predicate Vanished(st: Server, id: nat) {
    id !in st.ids.byId && id !in st.core.records && id !in st.core.entities
  }

  /** A spawned node, or a bound one, that was freed. */
  lemma RetiredKeeps(e: Engine, st: Server, scene: Scene, id: nat)
    requires Inv(e, st, scene) && id in st.hist && st.ids.Object(id) !in scene.live
    ensures Inv(e, RetiredSpawn(st, id), scene) && Advances(e, st, RetiredSpawn(st, id), scene)
    ensures Inv(e, RetiredBind(st, id), scene) && Advances(e, st, RetiredBind(st, id), scene)
    ensures Vanished(RetiredSpawn(st, id), id) && id !in RetiredSpawn(st, id).spawned
    ensures Vanished(RetiredBind(st, id), id) && id !in RetiredBind(st, id).bindIds
  {
    hide OnceOk;
    hide LogOk;
    Leaves(e, st, scene, id, RetiredSpawn(st, id));
    Leaves(e, st, scene, id, RetiredBind(st, id));
  }

  lemma RemovedKeeps(e: Engine, st: Server, scene: Scene, sync: nat)
    requires Inv(e, st, scene) && scene.Is(sync, Synchronizer)
    ensures Inv(e, Removed(st, sync), scene) && Advances(e, st, Removed(st, sync), scene)
    ensures sync !in Removed(st, sync).ids.byObj && sync !in Removed(st, sync).owned
    ensures sync in st.owned && sync in st.ids.byObj ==>
              Vanished(Removed(st, sync), st.ids.byObj[sync]) && st.ids.byObj[sync] !in Removed(st, sync).bindIds
  {
    hide OnceOk;
    hide LogOk;
    Leaves(e, st, scene, st.ids.Id(sync), Removed(st, sync));
  }

  lemma EnteredKeeps(e: Engine, st: Server, scene: Scene, sync: nat)
    requires Inv(e, st, scene) && scene.Is(sync, Synchronizer) && sync in scene.live && sync in st.ids.byObj
    ensures Inv(e, Entered(st, scene, sync), scene) && Advances(e, st, Entered(st, scene, sync), scene)
  {
    hide OnceOk;
    hide LogOk;
    var st' := st.(core := st.core.AddEntity(st.ids.Id(sync)), toAdd := st.toAdd - {sync});
    assert Inv(e, st', scene);
    if !UnderSpawned(st, scene, sync) {
      BoundKeeps(e, st', scene, sync, true);
    }
  }

  ghost predicate SameQueues(a: Server, b: Server) {
    a.pending == b.pending && a.spawners == b.spawners && a.owned == b.owned && a.toAdd == b.toAdd
  }

  lemma SpawnerGivenKeeps(e: Engine, st: Server, scene: Scene, spawner: nat)
    requires Inv(e, st, scene) && scene.Is(spawner, Spawner)
    ensures var st' := SpawnerGiven(st, scene, spawner);
            && Inv(e, st', scene) && Advances(e, st, st', scene) && SameQueues(st, st')
            && spawner in st'.ids.byObj && NamesGrow(st.ids, st'.ids)
  {
    hide OnceOk;
    hide LogOk;
    assert spawner in st.ids.byObj ==> st.ids.byObj[spawner] in st.hist;
    if st.ids.Id(spawner) == 0 {
      GivenKeeps(e, st, scene, spawner);
      if spawner in scene.live {
        BoundKeeps(e, Given(st, spawner), scene, spawner, false);
        AdvancesOn(e, st, Given(st, spawner), Bound(Given(st, spawner), scene, spawner, false), scene);
      }
    }
  }

  lemma {:induction false} AllGivenKeeps(e: Engine, st: Server, scene: Scene, syncs: seq<nat>)
    requires Inv(e, st, scene) && forall sync | sync in syncs :: sync in scene.kind
    ensures var st' := AllGiven(st, syncs);
            && Inv(e, st', scene) && Advances(e, st, st', scene) && SameQueues(st, st')
            && NamesGrow(st.ids, st'.ids) && (forall sync | sync in syncs :: sync in st'.ids.byObj)
    decreases |syncs|
  {
    hide Inv;
    if syncs != [] {
      var front, last := syncs[..|syncs| - 1], syncs[|syncs| - 1];
      var st1 := AllGiven(st, front);
      AllGivenKeeps(e, st, scene, front);
      assert last in syncs;
      GivenKeeps(e, st1, scene, last);
      NamesGrowOn(st.ids, st1.ids, Given(st1, last).ids);
      AdvancesOn(e, st, st1, Given(st1, last), scene);
    }
  }

  lemma {:induction false} NamedAreThere(st: Server, scene: Scene, node: nat, syncs: seq<nat>)
    requires st.ids.Paired()
    requires forall id | id in st.ids.byId :: id in st.hist && st.hist[id] == st.ids.byId[id].obj
    requires forall sync | sync in syncs :: sync in st.ids.byObj
    ensures forall n | n in NamedSyncs(st, scene, node, syncs) ::
              n.netId in st.hist && st.hist[n.netId] in syncs && n.path == scene.pathTo(node, st.hist[n.netId])
  {
    if syncs != [] {
      NamedAreThere(st, scene, node, syncs[..|syncs| - 1]);
    }
  }

  lemma RecordIsHonest(e: Engine, st: Server, scene: Scene, node: nat, p: Pending)
    requires st.ids.Paired()
    requires forall id | id in st.ids.byId :: id in st.hist && st.hist[id] == st.ids.byId[id].obj
    requires forall sync | sync in scene.syncs(node) :: sync in st.ids.byObj
    ensures SpawnHonest(e, SpawnRecord(st, e, scene, node, p), st.hist, scene, node)
  {
    NamedAreThere(st, scene, node, scene.syncs(node));
    SpawnRoundTrip(e, NamedSyncs(st, scene, node, scene.syncs(node)), p.data);
  }

  lemma {:induction false} AllOwnedAreNamed(st: Server, scene: Scene, node: nat, syncs: seq<nat>)
    ensures forall sync | sync in syncs && sync in st.owned ::
              SpawnSync(st.ids.Id(sync), scene.pathTo(node, sync)) in NamedSyncs(st, scene, node, syncs)
    ensures forall n | n in NamedSyncs(st, scene, node, syncs) ::
              exists sync :: sync in syncs && sync in st.owned
                  && n == SpawnSync(st.ids.Id(sync), scene.pathTo(node, sync))
  {
    if syncs != [] {
      var front, last := syncs[..|syncs| - 1], syncs[|syncs| - 1];
      AllOwnedAreNamed(st, scene, node, front);
      assert forall sync :: sync in syncs <==> sync in front || sync == last;
    }
  }

  /** What a peer reads of a spawn record: its spawner, and the id and path of each synchronizer under the
      node that we own, all of them and no others. */
  lemma RecordNamesAll(e: Engine, st: Server, scene: Scene, node: nat, p: Pending)
    ensures var record, syncs := SpawnRecord(st, e, scene, node, p), scene.syncs(node);
            && record.spawner == st.ids.Id(p.spawner) && |record.entities| == |syncs|
            && (forall k | 0 <= k < |syncs| :: record.entities[k] == st.ids.Id(syncs[k]))
            && ReadSpawn(e, record.data).Some?
            && var named := ReadSpawn(e, record.data).value.0;
               && (forall sync | sync in scene.syncs(node) && sync in st.owned ::
                     SpawnSync(st.ids.Id(sync), scene.pathTo(node, sync)) in named)
               && (forall n | n in named ::
                     exists sync :: sync in scene.syncs(node) && sync in st.owned
                         && n == SpawnSync(st.ids.Id(sync), scene.pathTo(node, sync)))
    ensures e.Sound() && e.Carries(p.data) ==> ReadSpawn(e, SpawnRecord(st, e, scene, node, p).data).value.1 == p.data
  {
    AllOwnedAreNamed(st, scene, node, scene.syncs(node));
    SpawnRoundTrip(e, NamedSyncs(st, scene, node, scene.syncs(node)), p.data);
  }

  lemma ReadiedKeeps(e: Engine, st: Server, scene: Scene, node: nat, p: Pending)
    requires Inv(e, st, scene) && node in scene.live && scene.Is(p.spawner, Spawner)
    ensures var st' := Readied(st, scene, node, p);
            && Inv(e, st', scene) && Advances(e, st, st', scene) && SameQueues(st, st') && NamesGrow(st.ids, st'.ids)
            && p.spawner in st'.ids.byObj && (forall sync | sync in scene.syncs(node) :: sync in st'.ids.byObj)
  {
    hide OnceOk;
    hide LogOk;
    hide IdsOk;
    SpawnerGivenKeeps(e, st, scene, p.spawner);
    var st1 := SpawnerGiven(st, scene, p.spawner);
    AllGivenKeeps(e, st1, scene, scene.syncs(node));
    NamesGrowOn(st.ids, st1.ids, AllGiven(st1, scene.syncs(node)).ids);
    AdvancesOn(e, st, st1, AllGiven(st1, scene.syncs(node)), scene);
  }

  /** A captured node in the tree, and the step that tells the peers of it. */
  ghost predicate Ready(st: Server, scene: Scene, node: nat) {
    node in st.pending && node in scene.live && node in scene.inTree && st.pending[node].spawner in st.spawners
  }

  lemma NotPendingKeeps(e: Engine, st: Server, scene: Scene, node: nat)
    requires Inv(e, st, scene)
    ensures Inv(e, NotPending(st, node), scene) && Advances(e, st, NotPending(st, node), scene)
  {
    hide OnceOk;
    hide LogOk;
  }

  lemma PromotedKeeps(e: Engine, st: Server, scene: Scene, node: nat)
    requires Inv(e, st, scene) && Ready(st, scene, node)
    ensures var st' := Promoted(st, e, scene, node, st.pending[node]);
            Inv(e, st', scene) && Advances(e, st, st', scene)
  {
    hide OnceOk;
    hide LogOk;
    var p := st.pending[node];
    var st1 := Readied(st, scene, node, p);
    ReadiedKeeps(e, st, scene, node, p);
    hide Readied;
    RecordIsHonest(e, st1, scene, node, p);
    var record := SpawnRecord(st1, e, scene, node, p);
    assert record.spawner != BIND_SPAWNER && record.spawner in st1.hist && st1.hist[record.spawner] == p.spawner;
    hide SpawnRecord;
    hide Announce;
    AnnounceKeeps(e, st1, scene, node, record);
    AdvancesOn(e, st, st1, Announce(st1, node, record), scene);
  }

  lemma DrainedOneKeeps(e: Engine, st: Server, scene: Scene, node: nat)
    requires Inv(e, st, scene)
    ensures Inv(e, DrainedOne(st, e, scene, node), scene) && Advances(e, st, DrainedOne(st, e, scene, node), scene)
  {
    hide Inv;
    hide Promoted;
    NotPendingKeeps(e, st, scene, node);
    if Ready(st, scene, node) {
      var st' := Promoted(st, e, scene, node, st.pending[node]);
      PromotedKeeps(e, st, scene, node);
      NotPendingKeeps(e, st', scene, node);
      AdvancesOn(e, st, st', NotPending(st', node), scene);
    }
  }

  lemma {:induction false} DrainedKeeps(e: Engine, st: Server, scene: Scene, nodes: seq<nat>)
    requires Inv(e, st, scene)
    ensures Inv(e, Drained(st, e, scene, nodes), scene) && Advances(e, st, Drained(st, e, scene, nodes), scene)
  {
    hide Inv;
    if nodes != [] {
      var st1 := Drained(st, e, scene, nodes[..|nodes| - 1]);
      DrainedKeeps(e, st, scene, nodes[..|nodes| - 1]);
      DrainedOneKeeps(e, st1, scene, nodes[|nodes| - 1]);
      AdvancesOn(e, st, st1, Drained(st, e, scene, nodes), scene);
    }
  }

  lemma AddedOneKeeps(e: Engine, st: Server, scene: Scene, sync: nat)
    requires Inv(e, st, scene) && sync in st.toAdd
    ensures Inv(e, AddedOne(st, scene, sync), scene) && Advances(e, st, AddedOne(st, scene, sync), scene)
    ensures AddedOne(st, scene, sync).toAdd >= st.toAdd - {sync}
  {
    hide OnceOk;
    hide LogOk;
    if sync in scene.live && sync in scene.inTree && sync in scene.mine {
      GivenKeeps(e, st, scene, sync);
      EnteredKeeps(e, Given(st, sync), scene, sync);
      AdvancesOn(e, st, Given(st, sync), AddedOne(st, scene, sync), scene);
    }
  }

  lemma {:induction false} AddedAllKeeps(e: Engine, st: Server, scene: Scene, syncs: seq<nat>)
    requires Inv(e, st, scene) && Distinct(syncs) && forall sync | sync in syncs :: sync in st.toAdd
    ensures var st' := AddedAll(st, scene, syncs);
            && Inv(e, st', scene) && Advances(e, st, st', scene)
            && forall sync | sync in st.toAdd && sync !in syncs :: sync in st'.toAdd
  {
    hide Inv;
    if syncs != [] {
      var front, last := syncs[..|syncs| - 1], syncs[|syncs| - 1];
      var st1 := AddedAll(st, scene, front);
      AddedAllKeeps(e, st, scene, front);
      assert last in syncs && last !in front;
      AddedOneKeeps(e, st1, scene, last);
      AdvancesOn(e, st, st1, AddedOne(st1, scene, last), scene);
    }
  }

  ghost predicate Distinct(s: seq<nat>) {
    forall i, j | 0 <= i < j < |s| :: s[i] != s[j]
  }

  /** s goes through all of them once, in some order. */
  ghost predicate Lists(s: seq<nat>, all: set<nat>) {
    Distinct(s) && (forall x | x in s :: x in all) && (forall x | x in all :: x in s)
  }

  /** Retiring these: they leave their list, and no other id is touched. */
  lemma {:induction false} RetiredSpawnsAre(st: Server, ids: seq<nat>)
    ensures var st' := RetiredSpawns(st, ids);
            && st'.bindIds == st.bindIds && (forall id :: id in st'.spawned <==> id in st.spawned && id !in ids)
            && (forall id | id !in ids :: st'.ids.Object(id) == st.ids.Object(id))
  {
    if ids != [] {
      RetiredSpawnsAre(st, ids[..|ids| - 1]);
      assert forall id :: id in ids <==> id in ids[..|ids| - 1] || id == ids[|ids| - 1];
    }
  }

  lemma {:induction false} RetiredBindsAre(st: Server, ids: seq<nat>)
    ensures var st' := RetiredBinds(st, ids);
            && st'.spawned == st.spawned && (forall id :: id in st'.bindIds <==> id in st.bindIds && id !in ids)
            && (forall id | id !in ids :: st'.ids.Object(id) == st.ids.Object(id))
  {
    if ids != [] {
      RetiredBindsAre(st, ids[..|ids| - 1]);
      assert forall id :: id in ids <==> id in ids[..|ids| - 1] || id == ids[|ids| - 1];
    }
  }

  lemma {:induction false} RetiredSpawnsKeep(e: Engine, st: Server, scene: Scene, ids: seq<nat>)
    requires Inv(e, st, scene) && Distinct(ids)
    requires forall id | id in ids :: id in st.hist && st.ids.Object(id) !in scene.live
    ensures var st' := RetiredSpawns(st, ids);
            Inv(e, st', scene) && Advances(e, st, st', scene) && st'.hist == st.hist
  {
    hide Inv;
    if ids != [] {
      var front, last := ids[..|ids| - 1], ids[|ids| - 1];
      var st1 := RetiredSpawns(st, front);
      RetiredSpawnsKeep(e, st, scene, front);
      RetiredSpawnsAre(st, front);
      assert last in ids && last !in front;
      RetiredKeeps(e, st1, scene, last);
      AdvancesOn(e, st, st1, RetiredSpawn(st1, last), scene);
    }
  }

  lemma {:induction false} RetiredBindsKeep(e: Engine, st: Server, scene: Scene, ids: seq<nat>)
    requires Inv(e, st, scene) && Distinct(ids)
    requires forall id | id in ids :: id in st.hist && st.ids.Object(id) !in scene.live
    ensures var st' := RetiredBinds(st, ids);
            Inv(e, st', scene) && Advances(e, st, st', scene) && st'.hist == st.hist
  {
    hide Inv;
    if ids != [] {
      var front, last := ids[..|ids| - 1], ids[|ids| - 1];
      var st1 := RetiredBinds(st, front);
      RetiredBindsKeep(e, st, scene, front);
      RetiredBindsAre(st, front);
      assert last in ids && last !in front;
      RetiredKeeps(e, st1, scene, last);
      AdvancesOn(e, st, st1, RetiredBind(st1, last), scene);
    }
  }
}
