/** The server's fields, and the functions that change them. The scene is the engine's, as it stands
    when each is called. */
module SpawnHost {
  import opened Wire
  import opened Values
  import opened Args
  import opened NetIds
  import opened SpawnServer

  /** Naming one more leaves the others' ids as they were. */
  lemma {:induction false} GivenLeaves(st: Server, scene: Scene, node: nat, syncs: seq<nat>, obj: nat)
    requires forall sync | sync in syncs :: sync in st.ids.byObj
    ensures IdsOf(Given(st, obj).ids, syncs) == IdsOf(st.ids, syncs)
    ensures NamedSyncs(Given(st, obj), scene, node, syncs) == NamedSyncs(st, scene, node, syncs)
  {
    if syncs != [] {
      GivenLeaves(st, scene, node, syncs[..|syncs| - 1], obj);
      assert syncs[|syncs| - 1] in syncs;
    }
  }

  lemma {:induction false} AllGivenElsewhere(st: Server, objs: seq<nat>, pending: map<nat, Pending>)
    ensures AllGiven(st.(pending := pending), objs) == AllGiven(st, objs).(pending := pending)
  {
    if objs != [] {
      AllGivenElsewhere(st, objs[..|objs| - 1], pending);
    }
  }

  lemma {:induction false} NamedElsewhere(st: Server, scene: Scene, node: nat, syncs: seq<nat>,
      pending: map<nat, Pending>)
    ensures NamedSyncs(st.(pending := pending), scene, node, syncs) == NamedSyncs(st, scene, node, syncs)
  {
    if syncs != [] {
      NamedElsewhere(st, scene, node, syncs[..|syncs| - 1], pending);
    }
  }

  lemma ReadiedElsewhere(st: Server, scene: Scene, node: nat, p: Pending, pending: map<nat, Pending>)
    ensures Readied(st.(pending := pending), scene, node, p) == Readied(st, scene, node, p).(pending := pending)
  {
    AllGivenElsewhere(SpawnerGiven(st, scene, p.spawner), scene.syncs(node), pending);
  }

  lemma RecordElsewhere(st: Server, e: Engine, scene: Scene, node: nat, p: Pending, pending: map<nat, Pending>)
    ensures SpawnRecord(st.(pending := pending), e, scene, node, p) == SpawnRecord(st, e, scene, node, p)
  {
    NamedElsewhere(st, scene, node, scene.syncs(node), pending);
  }

  lemma AnnounceElsewhere(st: Server, node: nat, record: Record, pending: map<nat, Pending>)
    ensures Announce(st.(pending := pending), node, record) == Announce(st, node, record).(pending := pending)
  {
  }

  /** Who else is pending is nothing to a promotion. */
  lemma PromotedElsewhere(st: Server, e: Engine, scene: Scene, node: nat, p: Pending, pending: map<nat, Pending>)
    ensures Promoted(st.(pending := pending), e, scene, node, p) == Promoted(st, e, scene, node, p).(pending := pending)
  {
    var st1 := Readied(st, scene, node, p);
    ReadiedElsewhere(st, scene, node, p, pending);
    RecordElsewhere(st1, e, scene, node, p, pending);
    AnnounceElsewhere(st1, node, SpawnRecord(st1, e, scene, node, p), pending);
  }

  /** What a configuration can be of: a spawner, a synchronizer, with or without a property to stream, or
      something else. */
  datatype Configuration = Spawning(spawner: nat) | Streaming(sync: nat, streams: bool) | Unrelated

  class Host {
    var ids: Table
    ghost var hist: map<nat, nat>
    var pendingSpawns: map<nat, Pending>
    var spawners: set<nat>
    var owned: set<nat>
    var entitiesToAdd: set<nat>
    var serverSpawned: set<nat>
    var bindIds: set<nat>
    var core: Core
    ghost var released: set<nat>

    constructor ()
      ensures State() == Fresh
    {
      ids, hist, pendingSpawns, spawners, owned := Empty, map[], map[], {}, {};
      entitiesToAdd, serverSpawned, bindIds, core, released := {}, {}, {}, Core(map[], {}, []), {};
    }

    ghost function State(): Server
      reads this
    {
      Server(ids, hist, pendingSpawns, spawners, owned, entitiesToAdd, serverSpawned, bindIds, core, released)
    }

    method AssignId(obj: nat) returns (id: nat)
      modifies this`ids, this`hist
      ensures State() == Given(old(State()), obj) && id == ids.Id(obj)
    {
      ids := ids.Assign(obj);
      id := ids.Id(obj);
      hist := hist[id := obj];
    }

    /** Tell the peers which of their nodes obj's id is. */
    method AddBind(scene: Scene, obj: nat, id: nat, gated: bool)
      requires id == ids.Id(obj)
      modifies this`core, this`bindIds
      ensures State() == Bound(old(State()), scene, obj, gated)
    {
      core := core.AddSpawn(id, BindRecord(scene, obj, id, gated));
      bindIds := bindIds + {id};
    }

    method SpawnerNetId(scene: Scene, spawner: nat) returns (id: nat)
      modifies this`ids, this`hist, this`core, this`bindIds
      ensures State() == SpawnerGiven(old(State()), scene, spawner) && id == ids.Id(spawner)
    {
      id := ids.Id(spawner);
      if id == 0 {
        id := AssignId(spawner);
        if spawner in scene.live {
          AddBind(scene, spawner, id, false);
        }
      }
    }

    /** The ids of a spawned node's synchronizers, and those the record names: the ones we own. */
    method NameSyncs(scene: Scene, node: nat, syncs: seq<nat>) returns (entities: seq<nat>, named: seq<SpawnSync>)
      modifies this`ids, this`hist
      ensures State() == AllGiven(old(State()), syncs)
      ensures entities == IdsOf(ids, syncs) && named == NamedSyncs(State(), scene, node, syncs)
    {
      entities, named := [], [];
      assert syncs[..0] == [];
      for k := 0 to |syncs|
        invariant State() == AllGiven(old(State()), syncs[..k])
        invariant forall sync | sync in syncs[..k] :: sync in ids.byObj
        invariant entities == IdsOf(ids, syncs[..k]) && named == NamedSyncs(State(), scene, node, syncs[..k])
      {
        assert syncs[..k + 1][..k] == syncs[..k] && syncs[..k + 1] == syncs[..k] + [syncs[k]];
        GivenLeaves(State(), scene, node, syncs[..k], syncs[k]);
        var id := AssignId(syncs[k]);
        entities := entities + [id];
        if syncs[k] in owned {
          named := named + [SpawnSync(id, scene.pathTo(node, syncs[k]))];
        }
      }
      assert syncs[..|syncs|] == syncs;
    }

    /** One captured spawn becomes a record. */
    method Promote(e: Engine, scene: Scene, node: nat, p: Pending)
      modifies this`ids, this`hist, this`core, this`bindIds, this`serverSpawned
      ensures State() == Promoted(old(State()), e, scene, node, p)
    {
      var spawner := SpawnerNetId(scene, p.spawner);
      ghost var known := State();
      var entities, named := NameSyncs(scene, node, scene.syncs(node));
      GivenAllKeep(known, scene.syncs(node), p.spawner);
      var w := new Writer();
      PutSpawnData(w, e, named, p.data);
      var record := Record(spawner, entities, w.data);
      assert record == SpawnRecord(State(), e, scene, node, p);
      var id := AssignId(node);
      core := core.AddSpawn(id, record);
      serverSpawned := serverSpawned + {id};
    }

    lemma {:induction false} GivenAllKeep(st: Server, objs: seq<nat>, obj: nat)
      requires obj in st.ids.byObj
      ensures AllGiven(st, objs).ids.Id(obj) == st.ids.Id(obj) && obj in AllGiven(st, objs).ids.byObj
    {
      if objs != [] {
        GivenAllKeep(st, objs[..|objs| - 1], obj);
      }
    }

    /** Promote the captured spawns whose node is in the tree. */
    method DrainPendingSpawns(e: Engine, scene: Scene) returns (ghost nodes: seq<nat>)
      modifies this
      ensures Lists(nodes, old(pendingSpawns).Keys)
      ensures State() == Drained(old(State()), e, scene, nodes)
    {
      nodes := [];
      var done: set<nat> := {};
      var left := pendingSpawns.Keys;
      assert pendingSpawns - done == pendingSpawns;
      while left != {}
        invariant pendingSpawns == old(pendingSpawns) && left <= pendingSpawns.Keys && done !! left
        invariant Lists(nodes, pendingSpawns.Keys - left)
        invariant State().(pending := pendingSpawns - done) == Drained(old(State()), e, scene, nodes)
        decreases left
      {
        var node :| node in left;
        ghost var st := State();
        left := left - {node};
        nodes := nodes + [node];
        DrainedNext(old(State()), st, e, scene, nodes, done);
        if node !in scene.live {
          done := done + {node};
        } else if node in scene.inTree {
          done := done + {node};
          if pendingSpawns[node].spawner in spawners {
            Promote(e, scene, node, pendingSpawns[node]);
          }
        }
      }
      pendingSpawns := pendingSpawns - done;
    }

    lemma DrainedNext(was: Server, st: Server, e: Engine, scene: Scene, nodes: seq<nat>, done: set<nat>)
      requires nodes != [] && nodes[|nodes| - 1] in st.pending && nodes[|nodes| - 1] !in done
      requires st.(pending := st.pending - done) == Drained(was, e, scene, nodes[..|nodes| - 1])
      ensures var node := nodes[|nodes| - 1];
              Drained(was, e, scene, nodes) ==
                if node !in scene.live then st.(pending := st.pending - (done + {node}))
                else if node !in scene.inTree then st.(pending := st.pending - done)
                else if st.pending[node].spawner !in st.spawners then st.(pending := st.pending - (done + {node}))
                else Promoted(st, e, scene, node, st.pending[node]).(pending := st.pending - (done + {node}))
    {
      var node := nodes[|nodes| - 1];
      assert st.pending - (done + {node}) == st.pending - done - {node};
      PromotedElsewhere(st, e, scene, node, st.pending[node], st.pending - done);
    }

    /** The ids, of some we watch, whose node was freed. */
    method FindGone(scene: Scene, watched: set<nat>) returns (gone: seq<nat>)
      ensures Lists(gone, GoneOf(watched, ids, scene))
    {
      gone := [];
      var left := watched;
      while left != {}
        invariant left <= watched
        invariant Lists(gone, GoneOf(watched - left, ids, scene))
        decreases left
      {
        var id :| id in left;
        assert GoneOf(watched - (left - {id}), ids, scene) ==
               GoneOf(watched - left, ids, scene) + if ids.Object(id) in scene.live then {} else {id};
        assert forall x :: x in gone + [id] <==> x in gone || x == id;
        left := left - {id};
        if ids.Object(id) !in scene.live {
          gone := gone + [id];
        }
      }
      assert watched - left == watched;
    }

    /** Tell the peers of every node that is gone: a spawned one, or one with a bind record that went
        without unregistering. */
    method DetectDespawns(scene: Scene) returns (spawns: seq<nat>, binds: seq<nat>)
      modifies this`ids, this`core, this`serverSpawned, this`bindIds
      ensures Lists(spawns, GoneOf(old(serverSpawned), old(ids), scene))
      ensures Lists(binds, GoneOf(old(bindIds), RetiredSpawns(old(State()), spawns).ids, scene))
      ensures State() == RetiredBinds(RetiredSpawns(old(State()), spawns), binds)
    {
      spawns := FindGone(scene, serverSpawned);
      assert spawns[..|spawns|] == spawns && spawns[..0] == [];
      for k := 0 to |spawns|
        invariant State() == RetiredSpawns(old(State()), spawns[..k])
      {
        assert spawns[..k + 1][..k] == spawns[..k];
        serverSpawned := serverSpawned - {spawns[k]};
        ids := ids.Drop(spawns[k]);
        core := core.Despawn(spawns[k]);
      }
      RetiredSpawnsAre(old(State()), spawns);
      ghost var st := State();
      binds := FindGone(scene, bindIds);
      assert binds[..|binds|] == binds && binds[..0] == [];
      for k := 0 to |binds|
        invariant State() == RetiredBinds(st, binds[..k])
      {
        assert binds[..k + 1][..k] == binds[..k];
        bindIds := bindIds - {binds[k]};
        ids := ids.Drop(binds[k]);
        core := core.Despawn(binds[k]);
      }
    }

    method IsUnderSpawned(scene: Scene, node: nat) returns (under: bool)
      ensures under == UnderSpawned(State(), scene, node)
    {
      var line := scene.lineage(node);
      for k := 0 to |line|
        invariant forall j | 0 <= j < k :: ids.Id(line[j]) !in serverSpawned
      {
        if ids.Id(line[k]) in serverSpawned {
          return true;
        }
      }
      return false;
    }

    /** Hand the core one synchronizer that is in the tree and ours. */
    method AddEntity(scene: Scene, sync: nat)
      modifies this`ids, this`hist, this`core, this`bindIds
      ensures State() == Entered(Given(old(State()), sync), scene, sync).(toAdd := old(entitiesToAdd))
    {
      var id := AssignId(sync);
      var under := IsUnderSpawned(scene, sync);
      core := core.AddEntity(id);
      if !under {
        AddBind(scene, sync, id, true);
      }
    }

    /** Hand the core each synchronizer that has gone live. */
    method AddEntities(scene: Scene) returns (ghost syncs: seq<nat>)
      modifies this`ids, this`hist, this`core, this`bindIds, this`entitiesToAdd
      ensures Lists(syncs, old(entitiesToAdd))
      ensures State() == AddedAll(old(State()), scene, syncs)
    {
      syncs := [];
      var done: set<nat> := {};
      var left := entitiesToAdd;
      assert entitiesToAdd - done == entitiesToAdd;
      while left != {}
        invariant entitiesToAdd == old(entitiesToAdd) && left <= entitiesToAdd && done !! left
        invariant Lists(syncs, entitiesToAdd - left)
        invariant State().(toAdd := entitiesToAdd - done) == AddedAll(old(State()), scene, syncs)
        decreases left
      {
        var sync :| sync in left;
        ghost var st := State();
        left := left - {sync};
        syncs := syncs + [sync];
        AddedNext(old(State()), st, scene, syncs, done);
        if sync !in scene.live {
          done := done + {sync};
        } else if sync in scene.inTree && sync in scene.mine {
          AddEntity(scene, sync);
          done := done + {sync};
        }
      }
      entitiesToAdd := entitiesToAdd - done;
    }

    lemma AddedNext(was: Server, st: Server, scene: Scene, syncs: seq<nat>, done: set<nat>)
      requires syncs != []
      requires st.(toAdd := st.toAdd - done) == AddedAll(was, scene, syncs[..|syncs| - 1])
      ensures var sync := syncs[|syncs| - 1];
              AddedAll(was, scene, syncs) ==
                if sync !in scene.live then st.(toAdd := st.toAdd - (done + {sync}))
                else if sync !in scene.inTree || sync !in scene.mine then st.(toAdd := st.toAdd - done)
                else Entered(Given(st, sync), scene, sync).(toAdd := st.toAdd - (done + {sync}))
    {
      var sync := syncs[|syncs| - 1];
      assert st.toAdd - (done + {sync}) == st.toAdd - done - {sync};
    }

    /** What we put in place of a spawner's spawn function: it has the node built by the function that was
        there, 0 if that made none, and captures it. */
    method SpawnTrampoline(node: nat, spawner: nat, data: Variant)
      modifies this`pendingSpawns
      ensures State() == if spawner in spawners
              && node != 0 then Captured(old(State()), node, spawner, data) else old(State())
    {
      if spawner in spawners && node != 0 {
        pendingSpawns := pendingSpawns[node := Pending(spawner, data)];
      }
    }

    method WrapSpawner(spawner: nat)
      modifies this`spawners
      ensures State() == old(State()).(spawners := old(spawners) + {spawner})
    {
      if spawner in spawners {
        assert spawners + {spawner} == spawners;
        return;
      }
      spawners := spawners + {spawner};
    }

    /** A node's configuration is announced. A synchronizer with anything to stream is ours as it enters the
        tree; so is a spawner, which is wrapped here if it spawned something before it could be; the rest is
        the inner's. */
    method ObjectConfigurationAdd(config: Configuration, spawned: bool, isServer: bool) returns (ours: bool)
      modifies this`owned, this`entitiesToAdd, this`spawners
      ensures match config
              case Spawning(spawner) =>
                ours && State() == if spawned && isServer then old(State()).(spawners := old(spawners) + {spawner})
                    else old(State())
              case Streaming(sync, streams) =>
                ours == streams && State() == if streams then Added(old(State()), sync) else old(State())
              case Unrelated => !ours && State() == old(State())
    {
      match config {
        case Spawning(spawner) =>
          if spawned && isServer && spawner !in spawners {
            WrapSpawner(spawner);
          }
          assert spawner in spawners ==> spawners + {spawner} == spawners;
          return true;
        case Streaming(sync, streams) =>
          if streams {
            owned := owned + {sync};
            entitiesToAdd := entitiesToAdd + {sync};
          }
          return streams;
        case Unrelated =>
          return false;
      }
    }

    /** And unregisters as it leaves: its id goes, and its entity and bind record with it. */
    method ObjectConfigurationRemove(sync: nat)
      modifies this`ids, this`released, this`owned, this`entitiesToAdd, this`core, this`bindIds
      ensures State() == Removed(old(State()), sync)
    {
      var id := ids.Id(sync);
      ids := ids.Release(sync);
      released := if id == 0 then released else released + {id};
      if sync in owned {
        owned := owned - {sync};
        entitiesToAdd := entitiesToAdd - {sync};
        if id != 0 {
          core := core.RemoveEntity(id);
          bindIds := bindIds - {id};
        }
      }
    }
  }
}
