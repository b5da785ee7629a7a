/** The client's side of spawning, and what the two ends then agree on. A record may come in any order
    and again and again, wherever its node is by then; an id the client has learned still names the
    node that a record of it described. */
module SpawnClient {
  import opened Options
  import opened Wire
  import opened Values
  import opened Args
  import opened NetIds
  import opened SpawnServer

  /** How a record picks out a node: where it is in the scene, as the node built from a spawn record, or
      where it is below that one. */
  datatype Description = AtPath(path: bytes) | BuiltFrom(id: nat) | Below(root: nat, path: bytes)

  /** What a record's arrival finds: 0 stands for no node. */
  datatype Here = Here(
    live: nat -> bool,
    node: bytes -> nat,         // the node at a path
    isSpawner: nat -> bool,
    owned: nat -> bool,
    hasRoot: nat -> bool,       // a spawner whose spawn path leads to a node
    built: nat,                 // what its function makes of the data
    below: bytes -> nat         // the synchronizer we own at a path from there
  )

  /** wrapped is every spawner whose function we have; seen is every node picked out for an id so far, and the
      description that did. */
  datatype Client = Client(ids: Table, spawned: set<nat>, wrapped: set<nat>, seen: set<Sighting>)

  datatype Sighting = Sighting(id: nat, obj: nat, d: Description)

  function Named(c: Client, id: nat, obj: nat, d: Description): Client {
    c.(ids := c.ids.Bind(id, obj), seen := c.seen + {Sighting(id, obj, d)})
  }

  function SyncNamed(c: Client, root: nat, sync: SpawnSync, here: Here): Client {
    var obj := here.below(sync.path);
    if obj == 0 then c else Named(c, sync.netId, obj, Below(root, sync.path))
  }

  function SyncsNamed(c: Client, root: nat, syncs: seq<SpawnSync>, here: Here): Client {
    if syncs == [] then c else SyncNamed(SyncsNamed(c, root, syncs[..|syncs| - 1], here), root, syncs[|syncs| - 1],
        here)
  }

  function Rooted(c: Client, id: nat, built: nat): Client {
    Named(c, id, built, BuiltFrom(id)).(spawned := c.spawned + {id})
  }

  /** The flag says the record need not come again. */
  function SpawnApplied(c: Client, e: Engine, id: nat, record: Record, here: Here): (Client, bool) {
    var spawner := c.ids.Object(record.spawner);
    if !here.live(spawner) || spawner !in c.wrapped then (c, false)
    else
      match ReadSpawn(e, record.data)
      case None => (c, true)
      case Some((syncs, _)) =>
        if !here.hasRoot(spawner) || here.built == 0 then (c, false)
        else (SyncsNamed(Rooted(c, id, here.built), id, syncs, here), true)
  }

  function BindApplied(c: Client, id: nat, path: bytes, here: Here): (Client, bool) {
    var obj := here.node(path);
    if obj == 0 || (!here.isSpawner(obj) && !here.owned(obj)) then (c, false)
    else
      var c' := if here.isSpawner(obj) then c.(wrapped := c.wrapped + {obj}) else c;
      (Named(c', id, obj, AtPath(path)), true)
  }

  /** And the node freed, if any. */
  function DespawnApplied(c: Client, id: nat, here: Here): (Client, Option<nat>) {
    var obj := c.ids.Object(id);
    var c' := c.(ids := c.ids.Drop(id), spawned := c.spawned - {id});
    (c', if id in c.spawned && here.live(obj) then Some(obj) else None)
  }

  datatype Arrival =
    | Comes(notice: Notice, here: Here)    // a record, or word that an id is gone
    | Leaves(sync: nat)                    // a synchronizer unregisters
    | Enters(spawner: nat)                 // a spawner enters the tree

  function Applied(c: Client, e: Engine, a: Arrival): Client {
    match a
    case Leaves(sync) => c.(ids := c.ids.Release(sync))
    case Enters(spawner) => c.(wrapped := c.wrapped + {spawner})
    case Comes(Gone(id), here) => DespawnApplied(c, id, here).0
    case Comes(Announced(id, record), here) =>
      if record.spawner == BIND_SPAWNER then BindApplied(c, id, record.data, here).0
      else SpawnApplied(c, e, id, record, here).0
  }

  /** The notice describes id so. */
  ghost predicate Describes(e: Engine, n: Notice, id: nat, d: Description) {
    && n.Announced?
    && match d
       case AtPath(path) => n.record.spawner == BIND_SPAWNER && n.id == id && n.record.data == path
       case BuiltFrom(root) => n.record.spawner != BIND_SPAWNER && n.id == id && root == id
       case Below(root, path) =>
         && n.record.spawner != BIND_SPAWNER && n.id == root && ReadSpawn(e, n.record.data).Some?
         && SpawnSync(id, path) in ReadSpawn(e, n.record.data).value.0
  }

  ghost predicate Described(e: Engine, log: seq<Notice>, id: nat, obj: nat, seen: set<Sighting>) {
    exists n, d :: n in log && Describes(e, n, id, d) && Sighting(id, obj, d) in seen
  }

  ghost predicate ClientInv(e: Engine, c: Client, log: seq<Notice>) {
    && c.ids.Paired()
    && (forall id | id in c.ids.byId && c.ids.byId[id].learned :: Described(e, log, id, c.ids.byId[id].obj, c.seen))
    && (forall id | id in c.spawned && id in c.ids.byId :: c.ids.byId[id].learned)
    && (forall id | id in c.spawned :: exists n ::
        n in log && n.Announced? && n.id == id && n.record.spawner != BIND_SPAWNER)
  }

  lemma NamedKeeps(e: Engine, c: Client, log: seq<Notice>, n: Notice, id: nat, obj: nat, d: Description)
    requires ClientInv(e, c, log) && n in log && Describes(e, n, id, d)
    ensures ClientInv(e, Named(c, id, obj, d), log)
  {
    BindKeeps(c.ids, id, obj);
    var c' := Named(c, id, obj, d);
    assert Sighting(id, obj, d) in c'.seen;
    forall i | i in c'.ids.byId && c'.ids.byId[i].learned
      ensures Described(e, log, i, c'.ids.byId[i].obj, c'.seen)
    {
      if i != id {
        var m, f :| m in log && Describes(e, m, i, f) && Sighting(i, c.ids.byId[i].obj, f) in c.seen;
        assert Sighting(i, c'.ids.byId[i].obj, f) in c'.seen;
      }
    }
  }

  lemma {:induction false} SyncsNamedKeep(e: Engine, c: Client, log: seq<Notice>, n: Notice, syncs: seq<SpawnSync>,
      here: Here)
    requires ClientInv(e, c, log) && n in log && n.Announced? && n.record.spawner != BIND_SPAWNER
    requires ReadSpawn(e, n.record.data).Some?
    requires forall sync | sync in syncs :: sync in ReadSpawn(e, n.record.data).value.0
    ensures ClientInv(e, SyncsNamed(c, n.id, syncs, here), log)
  {
    if syncs != [] {
      var front, last := syncs[..|syncs| - 1], syncs[|syncs| - 1];
      assert last in syncs;
      SyncsNamedKeep(e, c, log, n, front, here);
      if here.below(last.path) != 0 {
        NamedKeeps(e, SyncsNamed(c, n.id, front, here), log, n, last.netId, here.below(last.path),
            Below(n.id, last.path));
      }
    }
  }

  lemma RootedKeeps(e: Engine, c: Client, log: seq<Notice>, n: Notice, built: nat)
    requires ClientInv(e, c, log) && n in log && n.Announced? && n.record.spawner != BIND_SPAWNER
    ensures ClientInv(e, Rooted(c, n.id, built), log)
  {
    NamedKeeps(e, c, log, n, n.id, built, BuiltFrom(n.id));
    BindKeeps(c.ids, n.id, built);
  }

  lemma DroppedKeeps(e: Engine, c: Client, log: seq<Notice>, id: nat, spawned: set<nat>)
    requires ClientInv(e, c, log) && spawned <= c.spawned
    ensures ClientInv(e, c.(ids := c.ids.Drop(id), spawned := spawned), log)
  {
    DropKeeps(c.ids, id);
  }

  lemma ArrivalKeeps(e: Engine, c: Client, log: seq<Notice>, a: Arrival)
    requires ClientInv(e, c, log) && (a.Comes? ==> a.notice in log)
    ensures ClientInv(e, Applied(c, e, a), log)
  {
    match a
    case Leaves(sync) => DroppedKeeps(e, c, log, c.ids.Id(sync), c.spawned);
    case Enters(_) =>
    case Comes(Gone(id), here) => DroppedKeeps(e, c, log, id, c.spawned - {id});
    case Comes(Announced(id, record), here) =>
      if record.spawner == BIND_SPAWNER {
        if BindApplied(c, id, record.data, here).1 {
          var obj := here.node(record.data);
          var c' := if here.isSpawner(obj) then c.(wrapped := c.wrapped + {obj}) else c;
          NamedKeeps(e, c', log, a.notice, id, obj, AtPath(record.data));
        }
      } else if SpawnApplied(c, e, id, record, here).1 && ReadSpawn(e, record.data).Some? {
        RootedKeeps(e, c, log, a.notice, here.built);
        SyncsNamedKeep(e, Rooted(c, id, here.built), log, a.notice, ReadSpawn(e, record.data).value.0, here);
      }
  }

  /** A synchronizer that unregisters loses its id, and only it does. */
  lemma LeavesUnnamed(e: Engine, c: Client, sync: nat, id: nat)
    requires c.ids.Paired()
    ensures var c' := Applied(c, e, Leaves(sync));
            && sync !in c'.ids.byObj && c'.spawned == c.spawned && c'.wrapped == c.wrapped
            && (id != 0 ==> c'.ids.Object(id) == if c.ids.Object(id) == sync then 0 else c.ids.Object(id))
  {
    DropKeeps(c.ids, c.ids.Id(sync));
  }

  // --- What was seen, was found ---

  /** What a record's arrival found by this description was obj. */
  ghost predicate Picks(here: Here, obj: nat, d: Description) {
    match d
    case AtPath(path) => here.node(path) == obj
    case BuiltFrom(_) => here.built == obj
    case Below(_, path) => here.below(path) == obj
  }

  /** The arrival is of a record that describes the id so, and found obj by it. */
  ghost predicate Found(e: Engine, a: Arrival, s: Sighting) {
    a.Comes? && Describes(e, a.notice, s.id, s.d) && Picks(a.here, s.obj, s.d)
  }

  lemma {:induction false} SyncsFound(e: Engine, c: Client, a: Arrival, syncs: seq<SpawnSync>, s: Sighting)
    requires a.Comes? && a.notice.Announced? && a.notice.record.spawner != BIND_SPAWNER
    requires ReadSpawn(e, a.notice.record.data).Some?
    requires forall sync | sync in syncs :: sync in ReadSpawn(e, a.notice.record.data).value.0
    requires s in SyncsNamed(c, a.notice.id, syncs, a.here).seen
    ensures s in c.seen || Found(e, a, s)
  {
    if syncs != [] {
      var front, last := syncs[..|syncs| - 1], syncs[|syncs| - 1];
      assert last in syncs;
      if s in SyncsNamed(c, a.notice.id, front, a.here).seen {
        SyncsFound(e, c, a, front, s);
      } else {
        assert s == Sighting(last.netId, a.here.below(last.path), Below(a.notice.id, last.path));
        assert SpawnSync(s.id, last.path) == last;
      }
    }
  }

  lemma ArrivalFinds(e: Engine, c: Client, a: Arrival, s: Sighting)
    requires s in Applied(c, e, a).seen
    ensures s in c.seen || Found(e, a, s)
  {
    if a.Comes? && a.notice.Announced? && a.notice.record.spawner != BIND_SPAWNER {
      var id, record, here := a.notice.id, a.notice.record, a.here;
      if SpawnApplied(c, e, id, record, here).0 != c {
        SyncsFound(e, Rooted(c, id, here.built), a, ReadSpawn(e, record.data).value.0, s);
      }
    }
  }

  /** A bind record is taken exactly when there is a node at its path that is a spawner or has registered. It leaves
      its id naming that node, and a spawner there wrapped: what a spawn record of that spawner then asks for. One
      that is not taken changes nothing. */
  lemma BindNames(c: Client, id: nat, path: bytes, here: Here)
    requires c.ids.Paired()
    ensures var (c', taken) := BindApplied(c, id, path, here);
            var obj := here.node(path);
            && (taken <==> obj != 0 && (here.isSpawner(obj) || here.owned(obj)))
            && (!taken ==> c' == c)
            && (taken ==> c'.ids.Object(id) == obj && c'.spawned == c.spawned
                          && c'.wrapped == if here.isSpawner(obj) then c.wrapped + {obj} else c.wrapped)
  {
    BindKeeps(c.ids, id, here.node(path));
  }

  /** The record's names are all different, of ids and of what it finds. */
  ghost predicate Apart(id: nat, syncs: seq<SpawnSync>, here: Here) {
    && id != 0 && (forall i | 0 <= i < |syncs| ::
        syncs[i].netId != 0 && syncs[i].netId != id && here.below(syncs[i].path) != here.built)
    && (forall i, j | 0 <= i < j < |syncs| ::
          syncs[i].netId != syncs[j].netId
              && (here.below(syncs[i].path) != 0 ==> here.below(syncs[i].path) != here.below(syncs[j].path)))
  }

  ghost predicate AllNamed(ids: Table, id: nat, syncs: seq<SpawnSync>, here: Here) {
    && ids.Paired() && ids.Object(id) == here.built
    && forall k | 0 <= k < |syncs| && here.below(syncs[k].path) != 0 ::
        ids.Object(syncs[k].netId) == here.below(syncs[k].path)
  }

  lemma OneMoreNamed(ids: Table, id: nat, syncs: seq<SpawnSync>, last: SpawnSync, here: Here)
    requires AllNamed(ids, id, syncs, here) && here.built != 0 && Apart(id, syncs + [last], here)
             && here.below(last.path) != 0
    ensures AllNamed(ids.Bind(last.netId, here.below(last.path)), id, syncs + [last], here)
  {
    var obj, n := here.below(last.path), |syncs|;
    BindKeeps(ids, last.netId, obj);
    assert (syncs + [last])[n] == last;
    OthersStand(ids, last.netId, obj, id, here.built);
    forall k | 0 <= k < n && here.below(syncs[k].path) != 0
      ensures ids.Bind(last.netId, obj).Object(syncs[k].netId) == here.below(syncs[k].path)
    {
      assert (syncs + [last])[k] == syncs[k];
      OthersStand(ids, last.netId, obj, syncs[k].netId, here.below(syncs[k].path));
    }
  }

  lemma {:induction false} SyncsAllNamed(c: Client, id: nat, syncs: seq<SpawnSync>, here: Here)
    requires c.ids.Paired() && c.ids.Object(id) == here.built != 0 && Apart(id, syncs, here)
    ensures AllNamed(SyncsNamed(c, id, syncs, here).ids, id, syncs, here)
            && SyncsNamed(c, id, syncs, here).spawned == c.spawned
  {
    if syncs != [] {
      var front, last := syncs[..|syncs| - 1], syncs[|syncs| - 1];
      SyncsAllNamed(c, id, front, here);
      if here.below(last.path) != 0 {
        assert syncs == front + [last];
        OneMoreNamed(SyncsNamed(c, id, front, here).ids, id, front, last, here);
      }
    }
  }

  lemma OthersStand(ids: Table, id: nat, obj: nat, i: nat, other: nat)
    requires ids.Paired() && i != id && i != 0 && other != obj && other != 0 && ids.Object(i) == other
    ensures ids.Bind(id, obj).Object(i) == other
  {
    BindKeeps(ids, id, obj);
  }

  /** The record's spawner is known, live and wrapped here, and its data parses; there is a place for the node, and
      the spawner's function builds one. */
  ghost predicate Buildable(c: Client, e: Engine, record: Record, here: Here) {
    var spawner := c.ids.Object(record.spawner);
    here.live(spawner) && spawner in c.wrapped && ReadSpawn(e, record.data).Some? && here.hasRoot(spawner)
        && here.built != 0
  }

  lemma {:induction false} SyncsNamedLeave(c: Client, id: nat, syncs: seq<SpawnSync>, here: Here)
    ensures SyncsNamed(c, id, syncs, here).spawned == c.spawned && SyncsNamed(c, id, syncs, here).wrapped == c.wrapped
  {
    if syncs != [] {
      SyncsNamedLeave(c, id, syncs[..|syncs| - 1], here);
    }
  }

  /** A spawn record is built exactly when it can be, and done with then. Any other changes nothing and comes again,
      except one whose spawner is here but whose data never parses. */
  lemma SpawnBuiltExactly(c: Client, e: Engine, id: nat, record: Record, here: Here)
    ensures var (c', done) := SpawnApplied(c, e, id, record, here);
            var spawner := c.ids.Object(record.spawner);
            && (Buildable(c, e, record, here) ==>
                  done && c'.spawned == c.spawned + {id} && c'.wrapped == c.wrapped
                  && Sighting(id, here.built, BuiltFrom(id)) in c'.seen)
            && (!Buildable(c, e, record, here) ==>
                  c' == c
                  && (done <==> here.live(spawner) && spawner in c.wrapped && ReadSpawn(e, record.data).None?))
  {
    if Buildable(c, e, record, here) {
      var syncs := ReadSpawn(e, record.data).value.0;
      SyncsNamedLeave(Rooted(c, id, here.built), id, syncs, here);
      SyncsNamedSee(Rooted(c, id, here.built), id, syncs, here);
    }
  }

  lemma {:induction false} SyncsNamedSee(c: Client, id: nat, syncs: seq<SpawnSync>, here: Here)
    ensures c.seen <= SyncsNamed(c, id, syncs, here).seen
  {
    if syncs != [] {
      SyncsNamedSee(c, id, syncs[..|syncs| - 1], here);
    }
  }

  /** A spawn that is built leaves its id naming the new node, and each synchronizer's the one found at its
      path there. */
  lemma SpawnNamesAll(c: Client, e: Engine, id: nat, record: Record, here: Here)
    requires c.ids.Paired() && Buildable(c, e, record, here)
    requires Apart(id, ReadSpawn(e, record.data).value.0, here)
    ensures var c', syncs := SpawnApplied(c, e, id, record, here).0, ReadSpawn(e, record.data).value.0;
            && id in c'.spawned && c'.ids.Object(id) == here.built
            && forall k | 0 <= k < |syncs| && here.below(syncs[k].path) != 0 ::
                c'.ids.Object(syncs[k].netId) == here.below(syncs[k].path)
  {
    BindKeeps(c.ids, id, here.built);
    SyncsAllNamed(Rooted(c, id, here.built), id, ReadSpawn(e, record.data).value.0, here);
  }

  class ClientEnd {
    var ids: Table
    var clientSpawned: set<nat>
    var spawners: set<nat>
    ghost var seen: set<Sighting>

    constructor ()
      ensures State() == Client(Empty, {}, {}, {})
    {
      ids, clientSpawned, spawners, seen := Empty, {}, {}, {};
    }

    ghost function State(): Client
      reads this
    {
      Client(ids, clientSpawned, spawners, seen)
    }

    method BindId(id: nat, obj: nat, ghost d: Description)
      modifies this`ids, this`seen
      ensures State() == Named(old(State()), id, obj, d)
    {
      ids := ids.Bind(id, obj);
      seen := seen + {Sighting(id, obj, d)};
    }

    /** Build a spawned node from its record; not yet, if its spawner is not here to build it. */
    method ApplySpawn(e: Engine, id: nat, record: Record, here: Here) returns (done: bool)
      modifies this
      ensures (State(), done) == SpawnApplied(old(State()), e, id, record, here)
    {
      var spawner := ids.Object(record.spawner);
      if !here.live(spawner) || spawner !in spawners {
        return false;
      }
      var parsed := GetSpawnData(record.data, e);
      if parsed == None {
        return true;
      }
      if !here.hasRoot(spawner) || here.built == 0 {
        return false;
      }
      BindId(id, here.built, BuiltFrom(id));
      clientSpawned := clientSpawned + {id};
      NameItsSyncs(id, parsed.value.0, here);
      done := true;
    }

    method NameItsSyncs(root: nat, syncs: seq<SpawnSync>, here: Here)
      modifies this`ids, this`seen
      ensures State() == SyncsNamed(old(State()), root, syncs, here)
    {
      assert syncs[..|syncs|] == syncs && syncs[..0] == [];
      for k := 0 to |syncs|
        invariant clientSpawned == old(clientSpawned) && spawners == old(spawners)
        invariant State() == SyncsNamed(old(State()), root, syncs[..k], here)
      {
        assert syncs[..k + 1][..k] == syncs[..k];
        var obj := here.below(syncs[k].path);
        if obj != 0 {
          BindId(syncs[k].netId, obj, Below(root, syncs[k].path));
        }
      }
    }

    method WrapSpawner(spawner: nat)
      modifies this`spawners
      ensures spawners == old(spawners) + {spawner}
    {
      if spawner in spawners {
        assert spawners + {spawner} == spawners;
        return;
      }
      spawners := spawners + {spawner};
    }

    /** The node at a bind record's path is id from here on; not yet, if it is not here or has not
        registered. */
    method ApplyBind(id: nat, path: bytes, here: Here) returns (done: bool)
      modifies this`ids, this`spawners, this`seen
      ensures (State(), done) == BindApplied(old(State()), id, path, here)
    {
      var obj := here.node(path);
      if obj == 0 {
        return false;
      }
      if here.isSpawner(obj) {
        WrapSpawner(obj);
      } else if !here.owned(obj) {
        return false;
      }
      BindId(id, obj, AtPath(path));
      done := true;
    }

    /** Free a node we spawned, or forget a bind. */
    method ApplyDespawn(id: nat, here: Here) returns (freed: Option<nat>)
      modifies this`ids, this`clientSpawned
      ensures (State(), freed) == DespawnApplied(old(State()), id, here)
    {
      var obj := ids.Object(id);
      ids := ids.Drop(id);
      if id !in clientSpawned {
        assert clientSpawned - {id} == clientSpawned;
        return None;
      }
      clientSpawned := clientSpawned - {id};
      freed := if here.live(obj) then Some(obj) else None;
    }

    /** For a new session: what the last one taught means nothing to it. */
    method ResetClientState()
      modifies this`ids, this`clientSpawned, this`seen
      ensures ids == old(ids).Forgotten() && clientSpawned == {} && spawners == old(spawners) && seen == {}
    {
      ids := ids.Forgotten();
      clientSpawned, seen := {}, {};
    }
  }
}
