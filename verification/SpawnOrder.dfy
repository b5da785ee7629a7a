/** When the peers are told of each id once, and then once that it is gone. It depends on the nodes the game's
    spawn functions return: for every step, exactly when it keeps the order. */
module SpawnOrder {
  import opened Values
  import opened SpawnServer

  /** Each id is announced at most once, then gone at most once. */
  ghost predicate Orderly(log: seq<Notice>) {
    log == [] ||
    var front, last := log[..|log| - 1], log[|log| - 1];
    && Orderly(front)
    && if last.Announced? then last.id !in Told(front) else last.id in Told(front) && last.id !in Left(front)
  }

  lemma OrderlyWith(log: seq<Notice>, n: Notice)
    ensures Orderly(log + [n]) <==>
            Orderly(log) && if n.Announced? then n.id !in Told(log) else n.id in Told(log) && n.id !in Left(log)
  {
    assert (log + [n])[..|log|] == log;
  }

  lemma {:induction false} OrderlyBefore(log: seq<Notice>, log': seq<Notice>)
    requires log <= log' && Orderly(log')
    ensures Orderly(log)
    decreases |log'|
  {
    if log != log' {
      assert log' == log'[..|log'| - 1] + [log'[|log'| - 1]];
      OrderlyBefore(log, log'[..|log'| - 1]);
    }
  }

  // --- What an orderly run keeps ---

  /** The records are those announced and not gone. */
  ghost predicate LogTidy(st: Server) {
    && Orderly(st.core.log)
    && st.core.records.Keys == Told(st.core.log) - Left(st.core.log)
    && st.ids.byId.Keys !! Left(st.core.log)
  }

  /** Every record is watched, as a spawn's or a bind's; a spawn may be watched without one after its node
      unregistered. */
  ghost predicate RecordsTidy(st: Server, scene: Scene) {
    && st.spawned !! st.bindIds && st.bindIds <= st.core.records.Keys <= st.spawned + st.bindIds
    && (forall id | id in st.spawned :: id in st.core.records || id in st.released)
    && (forall id | id in st.bindIds :: id in st.ids.byId && BindFits(st, scene, st.ids.byId[id].obj))
    && (forall id | id in st.ids.byId && scene.Is(st.ids.byId[id].obj, Plain) :: id in st.core.records)
  }

  ghost predicate BindFits(st: Server, scene: Scene, obj: nat) {
    scene.Is(obj, Spawner) || (scene.Is(obj, Synchronizer) && obj in st.owned && obj !in st.toAdd)
  }

  ghost predicate Tidy(st: Server, scene: Scene) {
    LogTidy(st) && RecordsTidy(st, scene)
  }

  lemma TellsTidily(st: Server, id: nat, record: Record, st': Server)
    requires LogTidy(st) && id in st.ids.byId && st'.ids == st.ids
    requires st'.core.log == st.core.log + [Announced(id, record)]
             && st'.core.records.Keys == st.core.records.Keys + {id}
    ensures LogTidy(st') <==> id !in st.core.records
    ensures Orderly(st'.core.log) <==> id !in st.core.records
  {
    hide Orderly;
    hide Told;
    hide Left;
    LogGrows(st.core.log, Announced(id, record));
    OrderlyWith(st.core.log, Announced(id, record));
    assert id !in Left(st.core.log);
  }

  lemma LeavesTidily(st: Server, id: nat, st': Server)
    requires LogTidy(st) && st'.ids.byId.Keys == st.ids.byId.Keys - {id}
    requires st'.core.log == st.core.log + [Gone(id)] && st'.core.records.Keys == st.core.records.Keys - {id}
    ensures Orderly(st'.core.log) <==> id in st.core.records
    ensures id in st.core.records ==> LogTidy(st')
  {
    hide Orderly;
    hide Told;
    hide Left;
    LogGrows(st.core.log, Gone(id));
    OrderlyWith(st.core.log, Gone(id));
    if id in st.core.records {
      assert Told(st'.core.log) - Left(st'.core.log) == st.core.records.Keys - {id};
    }
  }

  lemma GivenLog(e: Engine, st: Server, scene: Scene, obj: nat)
    requires Inv(e, st, scene) && LogTidy(st) && obj in scene.kind && obj !in st.ids.byObj
    ensures LogTidy(Given(st, obj)) && st.ids.next !in st.core.records
  {
    hide OnceOk;
    hide LogOk;
    hide Orderly;
    hide Told;
    hide Left;
    GivenIds(st, scene, obj);
    NextIsUntold(e, st, scene);
  }

  lemma GivenRecords(st: Server, scene: Scene, obj: nat)
    requires IdsOk(st, scene) && RecordsTidy(st, scene) && obj in scene.kind && obj !in st.ids.byObj
             && !scene.Is(obj, Plain)
    ensures RecordsTidy(Given(st, obj), scene)
  {
    GivenIds(st, scene, obj);
  }

  lemma GivenTidy(e: Engine, st: Server, scene: Scene, obj: nat)
    requires Inv(e, st, scene) && Tidy(st, scene) && obj in scene.kind && !scene.Is(obj, Plain)
    ensures Tidy(Given(st, obj), scene)
  {
    hide OnceOk;
    hide LogOk;
    hide LogTidy;
    hide RecordsTidy;
    if obj in st.ids.byObj {
      GivenAgain(st, obj);
    } else {
      GivenLog(e, st, scene, obj);
      GivenRecords(st, scene, obj);
    }
  }

  lemma BoundRecords(st: Server, scene: Scene, obj: nat, gated: bool)
    requires st.ids.Paired() && RecordsTidy(st, scene) && obj in st.ids.byObj
    requires st.ids.byObj[obj] !in st.spawned && BindFits(st, scene, obj)
    ensures RecordsTidy(Bound(st, scene, obj, gated), scene)
  {
  }

  lemma BoundTidy(st: Server, scene: Scene, obj: nat, gated: bool)
    requires st.ids.Paired() && Tidy(st, scene) && obj in st.ids.byObj && st.ids.byObj[obj] !in st.core.records
    requires st.ids.byObj[obj] !in st.spawned && BindFits(st, scene, obj)
    ensures Tidy(Bound(st, scene, obj, gated), scene)
  {
    hide LogTidy;
    hide RecordsTidy;
    var id := st.ids.Id(obj);
    BoundRecords(st, scene, obj, gated);
    TellsTidily(st, id, BindRecord(scene, obj, id, gated), Bound(st, scene, obj, gated));
  }

  lemma {:induction false} AllGivenTidy(e: Engine, st: Server, scene: Scene, syncs: seq<nat>)
    requires Inv(e, st, scene) && Tidy(st, scene) && forall sync | sync in syncs :: scene.Is(sync, Synchronizer)
    ensures Tidy(AllGiven(st, syncs), scene) && AllGiven(st, syncs).core == st.core
    decreases |syncs|
  {
    hide Inv;
    hide Tidy;
    if syncs != [] {
      var front, last := syncs[..|syncs| - 1], syncs[|syncs| - 1];
      AllGivenTidy(e, st, scene, front);
      AllGivenKeeps(e, st, scene, front);
      assert last in syncs;
      GivenTidy(e, AllGiven(st, front), scene, last);
    }
  }

  /** What there are records of once the spawner has one: it gets its own the first time, and only then. */
  ghost predicate SpawnerTold(st: Server, scene: Scene, spawner: nat, st': Server) {
    && spawner in st'.ids.byObj
    && if spawner in st.ids.byObj then st'.core == st.core
       else
         st'.core.records.Keys ==
           st.core.records.Keys + if spawner in scene.live then {st'.ids.byObj[spawner]} else {}
  }

  lemma SpawnerGivenTidy(e: Engine, st: Server, scene: Scene, spawner: nat)
    requires Inv(e, st, scene) && Tidy(st, scene) && scene.Is(spawner, Spawner)
    ensures var st' := SpawnerGiven(st, scene, spawner);
            Tidy(st', scene) && SpawnerTold(st, scene, spawner, st')
  {
    hide LogOk;
    hide OnceOk;
    hide Tidy;
    assert spawner in st.ids.byObj <==> st.ids.Id(spawner) != 0;
    if spawner !in st.ids.byObj {
      GivenTidy(e, st, scene, spawner);
      GivenKeeps(e, st, scene, spawner);
      NextIsWatched(e, st, scene);
      if spawner in scene.live {
        BoundTidy(Given(st, spawner), scene, spawner, false);
      }
    }
  }

  lemma NextIsWatched(e: Engine, st: Server, scene: Scene)
    requires Inv(e, st, scene) && Tidy(st, scene)
    ensures st.ids.next !in st.core.records && st.ids.next !in st.spawned && 0 !in st.core.records
  {
    NextIsUntold(e, st, scene);
  }

  // --- A captured node ---

  /** Whether telling of a captured node is the first the peers hear of it: its id, if it has one, has no
      record; nor is it the very spawner its record binds. */
  ghost predicate FirstTold(st: Server, node: nat) {
    node in st.pending ==>
      st.ids.Id(node) !in st.core.records && (node == st.pending[node].spawner ==> st.ids.Id(node) != 0)
  }

  lemma ReadiedTidy(e: Engine, st: Server, scene: Scene, node: nat, p: Pending)
    requires Inv(e, st, scene) && Tidy(st, scene) && node in scene.live && scene.Is(p.spawner, Spawner)
    ensures var st' := Readied(st, scene, node, p);
            Tidy(st', scene) && SpawnerTold(st, scene, p.spawner, st')
  {
    hide LogOk;
    hide OnceOk;
    hide IdsOk;
    hide Tidy;
    var st1 := SpawnerGiven(st, scene, p.spawner);
    SpawnerGivenTidy(e, st, scene, p.spawner);
    SpawnerGivenKeeps(e, st, scene, p.spawner);
    AllGivenTidy(e, st1, scene, scene.syncs(node));
    AllGivenKeeps(e, st1, scene, scene.syncs(node));
  }

  /** Whether its record is the first is settled before its spawner and synchronizers have their ids. */
  lemma ReadiedTold(e: Engine, st: Server, scene: Scene, node: nat)
    requires Inv(e, st, scene) && Tidy(st, scene) && Ready(st, scene, node)
    ensures var st' := Readied(st, scene, node, st.pending[node]);
            FirstTold(st, node) <==> st'.ids.Id(node) !in st'.core.records
  {
    hide LogOk;
    hide OnceOk;
    hide Tidy;
    hide Readied;
    var p := st.pending[node];
    var st' := Readied(st, scene, node, p);
    ReadiedKeeps(e, st, scene, node, p);
    ReadiedTidy(e, st, scene, node, p);
    RecordsAreOld(e, st, scene);
    RecordsAreOld(e, st', scene);
  }

  lemma RecordsAreOld(e: Engine, st: Server, scene: Scene)
    requires Inv(e, st, scene) && Tidy(st, scene)
    ensures forall id | id in st.core.records :: 1 <= id < st.ids.next
  {
    hide Orderly;
  }

  lemma AnnounceRecords(st: Server, scene: Scene, node: nat, id: nat, st': Server)
    requires st.ids.Paired() && RecordsTidy(st, scene) && id in st.ids.byId && id !in st.bindIds
    requires st'.ids == st.ids && st'.spawned == st.spawned + {id} && st'.bindIds == st.bindIds
             && st'.released == st.released
    requires st'.owned == st.owned && st'.toAdd == st.toAdd && st'.core.records.Keys == st.core.records.Keys + {id}
    ensures RecordsTidy(st', scene)
  {
  }

  lemma AnnouncedNewRecords(st: Server, scene: Scene, node: nat, record: Record)
    requires IdsOk(st, scene) && RecordsTidy(st, scene) && node in scene.kind && node !in st.ids.byObj
    requires st.ids.next !in st.core.records
    ensures RecordsTidy(Announce(st, node, record), scene)
  {
    GivenIds(st, scene, node);
  }

  /** A node that has no id yet gets a new one, and it is told of under that. */
  lemma AnnouncedNew(e: Engine, st: Server, scene: Scene, node: nat, record: Record)
    requires Inv(e, st, scene) && Tidy(st, scene) && node in scene.kind && node !in st.ids.byObj
    ensures Tidy(Announce(st, node, record), scene)
  {
    hide OnceOk;
    hide LogOk;
    hide LogTidy;
    hide RecordsTidy;
    GivenIds(st, scene, node);
    GivenLog(e, st, scene, node);
    AnnouncedNewRecords(st, scene, node, record);
    TellsTidily(Given(st, node), st.ids.next, record, Announce(st, node, record));
  }

  /** One that has is told of under the one it has. */
  lemma AnnouncedAgain(st: Server, scene: Scene, node: nat, record: Record)
    requires IdsOk(st, scene) && Tidy(st, scene) && node in st.ids.byObj
    ensures var id, st' := st.ids.byObj[node], Announce(st, node, record);
            && (Orderly(st'.core.log) <==> id !in st.core.records) && (id !in st.core.records ==> Tidy(st', scene))
  {
    hide LogTidy;
    hide RecordsTidy;
    var id, st' := st.ids.byObj[node], Announce(st, node, record);
    GivenAgain(st, node);
    TellsTidily(st, id, record, st');
    if id !in st.core.records {
      BindsHaveRecords(st, scene);
      AnnounceRecords(st, scene, node, id, st');
    }
  }

  lemma BindsHaveRecords(st: Server, scene: Scene)
    requires RecordsTidy(st, scene)
    ensures st.bindIds <= st.core.records.Keys
  {
  }

  lemma NotPendingTidy(st: Server, scene: Scene, node: nat)
    ensures Tidy(NotPending(st, node), scene) <==> Tidy(st, scene)
  {
  }

  /** Telling of a captured node keeps the order exactly when it is the first the peers hear of it. */
  lemma PromotedTidy(e: Engine, st: Server, scene: Scene, node: nat)
    requires Inv(e, st, scene) && Tidy(st, scene) && Ready(st, scene, node)
    ensures var st' := Promoted(st, e, scene, node, st.pending[node]);
            (Orderly(st'.core.log) <==> FirstTold(st, node)) && (FirstTold(st, node) ==> Tidy(st', scene))
  {
    hide LogOk;
    hide OnceOk;
    hide Tidy;
    hide Readied;
    hide FirstTold;
    hide SpawnRecord;
    hide Announce;
    var p := st.pending[node];
    var st1 := Readied(st, scene, node, p);
    ReadiedKeeps(e, st, scene, node, p);
    ReadiedTidy(e, st, scene, node, p);
    ReadiedTold(e, st, scene, node);
    var record := SpawnRecord(st1, e, scene, node, p);
    if node in st1.ids.byObj {
      AnnouncedAgain(st1, scene, node, record);
    } else {
      AnnouncedNew(e, st1, scene, node, record);
      RecordsAreOld(e, st1, scene);
      TidyIsOrderly(Announce(st1, node, record), scene);
    }
  }

  lemma TidyIsOrderly(st: Server, scene: Scene)
    requires Tidy(st, scene)
    ensures Orderly(st.core.log)
  {
  }

  ghost predicate SafeOne(st: Server, scene: Scene, node: nat) {
    Ready(st, scene, node) ==> FirstTold(st, node)
  }

  lemma DrainedOneTidy(e: Engine, st: Server, scene: Scene, node: nat)
    requires Inv(e, st, scene) && Tidy(st, scene)
    ensures var st' := DrainedOne(st, e, scene, node);
            (Orderly(st'.core.log) <==> SafeOne(st, scene, node)) && (SafeOne(st, scene, node) ==> Tidy(st', scene))
  {
    hide Inv;
    hide Tidy;
    hide Promoted;
    hide FirstTold;
    hide Orderly;
    NotPendingTidy(st, scene, node);
    TidyIsOrderly(st, scene);
    if Ready(st, scene, node) {
      PromotedTidy(e, st, scene, node);
      NotPendingTidy(Promoted(st, e, scene, node, st.pending[node]), scene, node);
    }
  }

  /** For a node that is neither a synchronizer nor a spawner, that is exactly when it has no id. */
  lemma PlainInOrder(e: Engine, st: Server, scene: Scene, node: nat)
    requires Inv(e, st, scene) && Tidy(st, scene) && Ready(st, scene, node) && scene.Is(node, Plain)
    ensures Orderly(DrainedOne(st, e, scene, node).core.log) <==> st.ids.Id(node) == 0
  {
    hide LogOk;
    hide OnceOk;
    hide LogTidy;
    hide DrainedOne;
    hide Orderly;
    DrainedOneTidy(e, st, scene, node);
    RecordsAreOld(e, st, scene);
  }

  /** Each captured node, as its turn comes. */
  ghost predicate SafeDrain(e: Engine, st: Server, scene: Scene, nodes: seq<nat>) {
    nodes == [] ||
    var front := nodes[..|nodes| - 1];
    SafeDrain(e, st, scene, front) && SafeOne(Drained(st, e, scene, front), scene, nodes[|nodes| - 1])
  }

  lemma {:induction false} DrainedTidy(e: Engine, st: Server, scene: Scene, nodes: seq<nat>)
    requires Inv(e, st, scene) && Tidy(st, scene)
    ensures var st' := Drained(st, e, scene, nodes);
            (Orderly(st'.core.log) <==> SafeDrain(e, st, scene, nodes))
                && (SafeDrain(e, st, scene, nodes) ==> Tidy(st', scene))
  {
    hide Inv;
    hide Tidy;
    hide SafeOne;
    hide DrainedOne;
    hide Orderly;
    if nodes == [] {
      TidyIsOrderly(st, scene);
    } else {
      var front, last := nodes[..|nodes| - 1], nodes[|nodes| - 1];
      var st1 := Drained(st, e, scene, front);
      DrainedTidy(e, st, scene, front);
      DrainedKeeps(e, st, scene, front);
      DrainedOneKeeps(e, st1, scene, last);
      if SafeDrain(e, st, scene, front) {
        DrainedOneTidy(e, st1, scene, last);
      } else if Orderly(DrainedOne(st1, e, scene, last).core.log) {
        OrderlyBefore(st1.core.log, DrainedOne(st1, e, scene, last).core.log);
      }
    }
  }

  // --- The other steps ---

  /** A synchronizer about to be added has no record: it is no bind's, and under a spawned node it is not
      bound. */
  lemma EnteredTidy(st: Server, scene: Scene, sync: nat)
    requires scene.Proper() && IdsOk(st, scene) && Tidy(st, scene)
    requires scene.Is(sync, Synchronizer) && sync in scene.live && sync in st.ids.byObj && sync in st.toAdd
             && sync in st.owned
    ensures Tidy(Entered(st, scene, sync), scene)
  {
    hide LogTidy;
    hide Bound;
    var id := st.ids.byObj[sync];
    var st' := st.(core := st.core.AddEntity(id), toAdd := st.toAdd - {sync});
    EntityTidy(st, scene, sync);
    if !UnderSpawned(st, scene, sync) {
      assert st.ids.Id(scene.lineage(sync)[0]) == id;
      BoundTidy(st', scene, sync, true);
    }
  }

  lemma EntityTidy(st: Server, scene: Scene, sync: nat)
    requires Tidy(st, scene)
    ensures Tidy(st.(core := st.core.AddEntity(st.ids.Id(sync)), toAdd := st.toAdd - {sync}), scene)
  {
  }

  lemma NotToAddTidy(st: Server, scene: Scene, sync: nat)
    requires Tidy(st, scene)
    ensures Tidy(st.(toAdd := st.toAdd - {sync}), scene)
  {
  }

  lemma AddedOneTidy(e: Engine, st: Server, scene: Scene, sync: nat)
    requires Inv(e, st, scene) && Tidy(st, scene) && sync in st.toAdd
    ensures Tidy(AddedOne(st, scene, sync), scene)
  {
    hide OnceOk;
    hide LogOk;
    hide LogTidy;
    hide Entered;
    NotToAddTidy(st, scene, sync);
    if sync in scene.live && sync in scene.inTree && sync in scene.mine {
      GivenKeeps(e, st, scene, sync);
      GivenTidy(e, st, scene, sync);
      EnteredTidy(Given(st, sync), scene, sync);
    }
  }

  lemma {:induction false} AddedAllTidy(e: Engine, st: Server, scene: Scene, syncs: seq<nat>)
    requires Inv(e, st, scene) && Tidy(st, scene) && Distinct(syncs) && forall sync | sync in syncs :: sync in st.toAdd
    ensures Tidy(AddedAll(st, scene, syncs), scene)
  {
    hide Inv;
    hide Tidy;
    if syncs != [] {
      var front, last := syncs[..|syncs| - 1], syncs[|syncs| - 1];
      AddedAllTidy(e, st, scene, front);
      AddedAllKeeps(e, st, scene, front);
      assert last in syncs && last !in front;
      AddedOneTidy(e, AddedAll(st, scene, front), scene, last);
    }
  }

  lemma RemovedRecords(st: Server, scene: Scene, sync: nat)
    requires IdsOk(st, scene) && RecordsTidy(st, scene) && scene.Is(sync, Synchronizer)
    ensures RecordsTidy(Removed(st, sync), scene)
  {
  }

  lemma RemovedTidy(st: Server, scene: Scene, sync: nat)
    requires IdsOk(st, scene) && Tidy(st, scene) && scene.Is(sync, Synchronizer)
    ensures Tidy(Removed(st, sync), scene)
  {
    hide RecordsTidy;
    hide Orderly;
    hide Told;
    hide Left;
    var id, st' := st.ids.Id(sync), Removed(st, sync);
    RemovedRecords(st, scene, sync);
    if sync in st.owned && id != 0 && id in st.core.records {
      LeavesTidily(st, id, st');
    } else {
      assert st'.core.log == st.core.log && st'.core.records == st.core.records;
      assert st'.ids.byId.Keys <= st.ids.byId.Keys;
    }
  }

  lemma RetiredSpawnTidy(st: Server, scene: Scene, id: nat)
    requires st.ids.Paired() && Tidy(st, scene) && id in st.spawned
    ensures var st' := RetiredSpawn(st, id);
            (Orderly(st'.core.log) <==> id in st.core.records) && (id in st.core.records ==> Tidy(st', scene))
  {
    hide Orderly;
    LeavesTidily(st, id, RetiredSpawn(st, id));
  }

  lemma RetiredBindTidy(st: Server, scene: Scene, id: nat)
    requires st.ids.Paired() && Tidy(st, scene) && id in st.bindIds
    ensures Tidy(RetiredBind(st, id), scene)
  {
    hide Orderly;
    LeavesTidily(st, id, RetiredBind(st, id));
  }

  /** The watched spawns that are found gone have their records still. */
  ghost predicate AllRecorded(st: Server, ids: seq<nat>) {
    forall id | id in ids :: id in st.core.records
  }

  lemma {:induction false} RetiredRecords(st: Server, ids: seq<nat>)
    ensures RetiredSpawns(st, ids).core.records.Keys == st.core.records.Keys - set id | id in ids
    ensures RetiredBinds(st, ids).core.records.Keys == st.core.records.Keys - set id | id in ids
  {
    if ids != [] {
      RetiredRecords(st, ids[..|ids| - 1]);
      assert forall id :: id in ids <==> id in ids[..|ids| - 1] || id == ids[|ids| - 1];
    }
  }

  lemma {:induction false} RetiredSpawnsTidy(e: Engine, st: Server, scene: Scene, ids: seq<nat>)
    requires Inv(e, st, scene) && Tidy(st, scene) && Distinct(ids)
    requires forall id | id in ids :: id in st.spawned && st.ids.Object(id) !in scene.live
    ensures var st' := RetiredSpawns(st, ids);
            (Orderly(st'.core.log) <==> AllRecorded(st, ids)) && (AllRecorded(st, ids) ==> Tidy(st', scene))
  {
    hide OnceOk;
    hide LogOk;
    hide IdsOk;
    hide Tidy;
    hide Orderly;
    if ids == [] {
      TidyIsOrderly(st, scene);
    } else {
      var front, last := ids[..|ids| - 1], ids[|ids| - 1];
      var st1 := RetiredSpawns(st, front);
      RetiredSpawnsTidy(e, st, scene, front);
      RetiredSpawnsAre(st, front);
      RetiredSpawnsKeep(e, st, scene, front);
      RetiredRecords(st, front);
      assert last in ids && last !in front;
      assert forall id :: id in ids <==> id in front || id == last;
      assert st1.ids.Paired() by {
        PairedIs(st1, scene);
      }
      if AllRecorded(st, front) {
        RetiredSpawnTidy(st1, scene, last);
      } else if Orderly(RetiredSpawn(st1, last).core.log) {
        OrderlyBefore(st1.core.log, RetiredSpawn(st1, last).core.log);
      }
    }
  }

  lemma PairedIs(st: Server, scene: Scene)
    requires IdsOk(st, scene)
    ensures st.ids.Paired()
  {
  }

  lemma {:induction false} RetiredBindsTidy(e: Engine, st: Server, scene: Scene, ids: seq<nat>)
    requires Inv(e, st, scene) && Tidy(st, scene) && Distinct(ids)
    requires forall id | id in ids :: id in st.bindIds && st.ids.Object(id) !in scene.live
    ensures Tidy(RetiredBinds(st, ids), scene)
  {
    hide OnceOk;
    hide LogOk;
    hide IdsOk;
    hide Tidy;
    if ids != [] {
      var front, last := ids[..|ids| - 1], ids[|ids| - 1];
      var st1 := RetiredBinds(st, front);
      RetiredBindsTidy(e, st, scene, front);
      RetiredBindsAre(st, front);
      RetiredBindsKeep(e, st, scene, front);
      assert last in ids && last !in front;
      PairedIs(st1, scene);
      RetiredBindTidy(st1, scene, last);
    }
  }
}
