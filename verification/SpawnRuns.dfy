/** The spawn lifecycle over whole runs of the server: nodes come, move, leave and are freed as the game
    likes, and the polls in between tell the peers. */
module SpawnRuns {
  import opened Values
  import opened SpawnServer
  import opened SpawnOrder

  datatype World = World(server: Server, scene: Scene)

  /** A spawn function may return any live node: one it returned before, or one that is itself a synchronizer
      or a spawner. */
  datatype Event =
    | Moves(scene: Scene)
    | Wraps(spawner: nat)
    | Captures(node: nat, spawner: nat, data: Variant)
    | Registers(sync: nat)
    | Unregisters(sync: nat)
    | Drains(nodes: seq<nat>)                      // each poll, in some order: the captured,
    | Detects(spawns: seq<nat>, binds: seq<nat>)   // the ids whose node is gone,
    | Adds(syncs: seq<nat>)                        // and the synchronizers to add

  ghost predicate Enabled(w: World, event: Event) {
    var st, scene := w.server, w.scene;
    match event
    case Moves(scene') => Evolves(scene, scene')
    case Wraps(spawner) => scene.Is(spawner, Spawner)
    case Captures(node, spawner, _) => spawner in st.spawners && node in scene.live
    case Registers(sync) => scene.Is(sync, Synchronizer) && sync in scene.live && sync !in st.owned
    case Unregisters(sync) => scene.Is(sync, Synchronizer)
    case Drains(nodes) => Lists(nodes, st.pending.Keys)
    case Detects(spawns, binds) =>
      && Lists(spawns, GoneOf(st.spawned, st.ids, scene))
      && Lists(binds, GoneOf(st.bindIds, RetiredSpawns(st, spawns).ids, scene))
    case Adds(syncs) => Lists(syncs, st.toAdd)
  }

  ghost function Next(e: Engine, w: World, event: Event): World {
    var st, scene := w.server, w.scene;
    match event
    case Moves(scene') => w.(scene := scene')
    case Wraps(spawner) => w.(server := st.(spawners := st.spawners + {spawner}))
    case Captures(node, spawner, data) => w.(server := Captured(st, node, spawner, data))
    case Registers(sync) => w.(server := Added(st, sync))
    case Unregisters(sync) => w.(server := Removed(st, sync))
    case Drains(nodes) => w.(server := Drained(st, e, scene, nodes))
    case Detects(spawns, binds) => w.(server := RetiredBinds(RetiredSpawns(st, spawns), binds))
    case Adds(syncs) => w.(server := AddedAll(st, scene, syncs))
  }

  ghost predicate WorldInv(e: Engine, w: World) {
    Inv(e, w.server, w.scene)
  }

  lemma MovesKeep(e: Engine, st: Server, scene: Scene, scene': Scene)
    requires Inv(e, st, scene) && Evolves(scene, scene')
    ensures Inv(e, st, scene')
  {
    hide OnceOk;
    hide LogOk;
    LogOkOn(e, st.core.log, st.hist, scene, st.hist, scene');
  }

  lemma QueuesFit(e: Engine, w: World, event: Event)
    requires w.scene.Proper() && QueuesOk(w.server, w.scene) && Enabled(w, event)
    requires event.Wraps? || event.Captures? || event.Registers?
    ensures QueuesOk(Next(e, w, event).server, w.scene)
  {
  }

  lemma QueuesKeep(e: Engine, w: World, event: Event)
    requires WorldInv(e, w) && Enabled(w, event) && (event.Wraps? || event.Captures? || event.Registers?)
    ensures WorldInv(e, Next(e, w, event)) && Next(e, w, event).server.core == w.server.core
    ensures Advances(e, w.server, Next(e, w, event).server, w.scene)
  {
    hide OnceOk;
    hide LogOk;
    hide QueuesOk;
    QueuesFit(e, w, event);
  }

  lemma DetectsKeep(e: Engine, w: World, event: Event)
    requires WorldInv(e, w) && Enabled(w, event) && event.Detects?
    ensures WorldInv(e, Next(e, w, event)) && Advances(e, w.server, Next(e, w, event).server, w.scene)
  {
    hide OnceOk;
    hide LogOk;
    hide IdsOk;
    var st1 := RetiredSpawns(w.server, event.spawns);
    RetiredSpawnsKeep(e, w.server, w.scene, event.spawns);
    RetiredSpawnsAre(w.server, event.spawns);
    RetiredBindsKeep(e, st1, w.scene, event.binds);
    AdvancesOn(e, w.server, st1, RetiredBinds(st1, event.binds), w.scene);
  }

  /** What a step adds to the log is honest: it announces only nodes that are there, as the scene shows
      them, and calls gone only what was freed or unregistered. The ids' history only grows. The scene is the
      game's alone to move. */
  lemma StepTells(e: Engine, w: World, event: Event)
    requires WorldInv(e, w) && Enabled(w, event)
    ensures WorldInv(e, Next(e, w, event))
    ensures Next(e, w, event).scene == if event.Moves? then event.scene else w.scene
    ensures Advances(e, w.server, Next(e, w, event).server, w.scene)
  {
    hide Inv;
    match event
    case Moves(scene') => MovesKeep(e, w.server, w.scene, scene');
    case Unregisters(sync) => RemovedKeeps(e, w.server, w.scene, sync);
    case Drains(nodes) => DrainedKeeps(e, w.server, w.scene, nodes);
    case Detects(_, _) => DetectsKeep(e, w, event);
    case Adds(syncs) => AddedAllKeeps(e, w.server, w.scene, syncs);
    case _ => QueuesKeep(e, w, event);
  }

  /** The events, each enabled in its turn, lead from v to w. */
  ghost predicate Leads(e: Engine, v: World, events: seq<Event>, w: World)
    decreases |events|
  {
    if events == [] then v == w
    else Enabled(v, events[0]) && Leads(e, Next(e, v, events[0]), events[1..], w)
  }

  /** A server that has just started, whatever the scene holds. */
  ghost predicate Starts(w: World) {
    w.server == Fresh && w.scene.Proper()
  }

  ghost predicate Reaches(e: Engine, v: World, events: seq<Event>, w: World) {
    Starts(v) && Leads(e, v, events, w)
  }

  lemma FreshIsTidy(e: Engine, v: World)
    requires Starts(v)
    ensures WorldInv(e, v) && Tidy(v.server, v.scene)
  {
  }

  lemma {:induction false} RunKeeps(e: Engine, v: World, events: seq<Event>, w: World)
    requires WorldInv(e, v) && Leads(e, v, events, w)
    ensures WorldInv(e, w) && v.server.core.log <= w.server.core.log && Grows(v.server.hist, w.server.hist)
    decreases |events|
  {
    hide WorldInv;
    hide Next;
    if events != [] {
      StepTells(e, v, events[0]);
      RunKeeps(e, Next(e, v, events[0]), events[1..], w);
    }
  }

  lemma ReachedInv(e: Engine, v: World, events: seq<Event>, w: World)
    requires Reaches(e, v, events, w)
    ensures WorldInv(e, w)
  {
    hide WorldInv;
    FreshIsTidy(e, v);
    RunKeeps(e, v, events, w);
  }

  /** In every run a bind record waits for its node to be visible exactly where that is an entity: a synchronizer's
      lists its own id, a spawner's nothing; and there are no others. */
  lemma BindsWaitForEntities(e: Engine, v: World, events: seq<Event>, w: World, n: Notice)
    requires Reaches(e, v, events, w) && n in w.server.core.log && n.Announced? && n.record.spawner == BIND_SPAWNER
    ensures n.id in w.server.hist
    ensures w.scene.Is(w.server.hist[n.id], Synchronizer) || w.scene.Is(w.server.hist[n.id], Spawner)
    ensures n.record.entities == if w.scene.Is(w.server.hist[n.id], Synchronizer) then [n.id] else []
  {
    ReachedInv(e, v, events, w);
    assert Shaped(e, n, w.server.hist, w.scene);
  }

  // --- The order of what is told ---

  /** Whether the step keeps each id announced once and then gone once: a drain tells of no captured node whose
      id has a record, and a detection finds no spawn gone that has none left. */
  ghost predicate Safe(e: Engine, w: World, event: Event) {
    match event
    case Drains(nodes) => SafeDrain(e, w.server, w.scene, nodes)
    case Detects(spawns, _) => AllRecorded(w.server, spawns)
    case _ => true
  }

  lemma DetectsTidy(e: Engine, w: World, event: Event)
    requires WorldInv(e, w) && Tidy(w.server, w.scene) && Enabled(w, event) && event.Detects?
    ensures Safe(e, w, event) ==> Tidy(Next(e, w, event).server, w.scene)
    ensures !Safe(e, w, event) ==> !Orderly(Next(e, w, event).server.core.log)
  {
    hide OnceOk;
    hide LogOk;
    hide IdsOk;
    hide Tidy;
    hide Orderly;
    var st1 := RetiredSpawns(w.server, event.spawns);
    RetiredSpawnsTidy(e, w.server, w.scene, event.spawns);
    RetiredSpawnsKeep(e, w.server, w.scene, event.spawns);
    RetiredSpawnsAre(w.server, event.spawns);
    RetiredBindsKeep(e, st1, w.scene, event.binds);
    if Safe(e, w, event) {
      RetiredBindsTidy(e, st1, w.scene, event.binds);
    } else if Orderly(RetiredBinds(st1, event.binds).core.log) {
      OrderlyBefore(st1.core.log, RetiredBinds(st1, event.binds).core.log);
    }
  }

  lemma RecordsStayTidy(w: World, w': World)
    requires RecordsTidy(w.server, w.scene) && IdsOk(w.server, w.scene)
    requires forall obj | obj in w.scene.kind :: w'.scene.Is(obj, w.scene.kind[obj])
    requires w'.server.ids == w.server.ids && w'.server.core == w.server.core && w'.server.released == w.server.released
    requires w'.server.spawned == w.server.spawned && w'.server.bindIds == w.server.bindIds
    requires w.server.owned <= w'.server.owned
    requires forall obj | obj in w.server.owned - w.server.toAdd :: obj !in w'.server.toAdd
    ensures RecordsTidy(w'.server, w'.scene)
  {
  }

  lemma QueuesTidy(e: Engine, w: World, event: Event)
    requires Tidy(w.server, w.scene) && WorldInv(e, w) && Enabled(w, event)
    requires event.Moves? || event.Wraps? || event.Captures? || event.Registers?
    ensures Tidy(Next(e, w, event).server, Next(e, w, event).scene)
  {
    hide Orderly;
    hide OnceOk;
    hide LogOk;
    hide IdsOk;
    hide RecordsTidy;
    RecordsStayTidy(w, Next(e, w, event));
  }

  lemma RemovedIsTidy(e: Engine, w: World, sync: nat)
    requires WorldInv(e, w) && Tidy(w.server, w.scene) && w.scene.Is(sync, Synchronizer)
    ensures Tidy(Removed(w.server, sync), w.scene)
  {
    RemovedTidy(w.server, w.scene, sync);
  }

  lemma StepOrder(e: Engine, w: World, event: Event)
    requires WorldInv(e, w) && Tidy(w.server, w.scene) && Enabled(w, event)
    ensures Safe(e, w, event) ==> Tidy(Next(e, w, event).server, Next(e, w, event).scene)
    ensures !Safe(e, w, event) ==> !Orderly(Next(e, w, event).server.core.log)
  {
    hide OnceOk;
    hide LogOk;
    hide IdsOk;
    hide Tidy;
    hide Orderly;
    match event
    case Unregisters(sync) => RemovedIsTidy(e, w, sync);
    case Drains(nodes) => DrainedTidy(e, w.server, w.scene, nodes);
    case Detects(_, _) => DetectsTidy(e, w, event);
    case Adds(syncs) => AddedAllTidy(e, w.server, w.scene, syncs);
    case _ => QueuesTidy(e, w, event);
  }

  ghost predicate AllSafe(e: Engine, v: World, events: seq<Event>)
    decreases |events|
  {
    events == [] || (Safe(e, v, events[0]) && AllSafe(e, Next(e, v, events[0]), events[1..]))
  }

  lemma {:induction false} RunOrder(e: Engine, v: World, events: seq<Event>, w: World)
    requires WorldInv(e, v) && Tidy(v.server, v.scene) && Leads(e, v, events, w)
    ensures AllSafe(e, v, events) ==> Tidy(w.server, w.scene)
    ensures !AllSafe(e, v, events) ==> !Orderly(w.server.core.log)
    decreases |events|
  {
    hide WorldInv;
    hide Next;
    hide Tidy;
    hide Safe;
    hide Orderly;
    if events != [] {
      var v' := Next(e, v, events[0]);
      StepTells(e, v, events[0]);
      StepOrder(e, v, events[0]);
      if Safe(e, v, events[0]) {
        RunOrder(e, v', events[1..], w);
      } else {
        RunKeeps(e, v', events[1..], w);
        if Orderly(w.server.core.log) {
          OrderlyBefore(v'.server.core.log, w.server.core.log);
        }
      }
    }
  }

  lemma {:induction false} LeftWereTold(log: seq<Notice>)
    requires Orderly(log)
    ensures Left(log) <= Told(log)
  {
    if log != [] {
      var front, last := log[..|log| - 1], log[|log| - 1];
      assert log == front + [last];
      LogGrows(front, last);
      LeftWereTold(front);
    }
  }

  lemma {:induction false} OrderlyMeans(log: seq<Notice>, i: nat, j: nat)
    requires Orderly(log) && i < j < |log| && log[i].id == log[j].id
    ensures log[i].Announced? && log[j].Gone?
  {
    var front := log[..|log| - 1];
    assert front[i] in front;
    assert if front[i].Announced? then front[i].id in Told(front) else front[i].id in Left(front);
    LeftWereTold(front);
    if j < |log| - 1 {
      OrderlyMeans(front, i, j);
    }
  }

  /** In every run the peers hear of each id once, and once that it is gone, after, if and only if every step
      was safe. */
  lemma ToldInOrderExactly(e: Engine, v: World, events: seq<Event>, w: World)
    requires Reaches(e, v, events, w)
    ensures Orderly(w.server.core.log) <==> AllSafe(e, v, events)
  {
    hide WorldInv;
    hide Orderly;
    FreshIsTidy(e, v);
    RunOrder(e, v, events, w);
    if AllSafe(e, v, events) {
      TidyIsOrderly(w.server, w.scene);
    }
  }

  /** And then the ids the server watches are those of the records still live, and of spawned nodes that
      unregistered. */
  lemma RecordsAreTracked(e: Engine, v: World, events: seq<Event>, w: World, i: nat, j: nat)
    requires Reaches(e, v, events, w) && AllSafe(e, v, events)
    ensures var st, core := w.server, w.server.core;
            && st.spawned !! st.bindIds && st.bindIds <= core.records.Keys <= st.spawned + st.bindIds
            && (forall id | id in st.spawned :: id in core.records || id in st.released)
            && core.records.Keys == Told(core.log) - Left(core.log) && Left(core.log) <= Told(core.log)
            && (i < j < |core.log| && core.log[i].id == core.log[j].id ==> core.log[i].Announced? && core.log[j].Gone?)
  {
    hide WorldInv;
    FreshIsTidy(e, v);
    RunOrder(e, v, events, w);
    var log := w.server.core.log;
    if i < j < |log| && log[i].id == log[j].id {
      OrderlyMeans(log, i, j);
    }
    LeftWereTold(log);
  }

  lemma TwiceTold(log: seq<Notice>, st: Server, scene: Scene, i: nat, j: nat)
    requires OnceOk(log, st.hist, st.released) && IdsOk(st, scene) && i < |log| && j < |log| && log[i].id != log[j].id
    requires log[i].Announced? && log[j].Announced?
    requires log[i].id in st.hist && log[j].id in st.hist && st.hist[log[i].id] == st.hist[log[j].id]
    ensures scene.Is(st.hist[log[i].id], Synchronizer) && (log[i].id in st.released || log[j].id in st.released)
  {
    assert log[i] in log && log[j] in log;
  }

  /** Nor is a node announced again under another id, unless it is a synchronizer that unregistered. */
  lemma ToldOnce(e: Engine, v: World, events: seq<Event>, w: World, i: nat, j: nat)
    requires Reaches(e, v, events, w) && AllSafe(e, v, events)
    requires var log, hist := w.server.core.log, w.server.hist;
             && i < j < |log| && log[i].Announced? && log[j].Announced?
             && log[i].id in hist && log[j].id in hist && hist[log[i].id] == hist[log[j].id]
    ensures var log, st := w.server.core.log, w.server;
            && w.scene.Is(st.hist[log[i].id], Synchronizer)
            && (log[i].id in st.released || log[j].id in st.released)
  {
    hide LogOk;
    hide Tidy;
    hide Orderly;
    hide OnceOk;
    hide IdsOk;
    hide Reaches;
    ToldInOrderExactly(e, v, events, w);
    ReachedInv(e, v, events, w);
    var log := w.server.core.log;
    if log[i].id == log[j].id {
      OrderlyMeans(log, i, j);
    }
    TwiceTold(log, w.server, w.scene, i, j);
  }

  ghost predicate Untold(w: World, node: nat) {
    forall n | n in w.server.core.log && n.Announced? && n.id in w.server.hist :: w.server.hist[n.id] != node
  }

  /** A node freed before the peers heard of it is one they never hear of. */
  lemma {:induction false} FreedIsNeverTold(e: Engine, v: World, events: seq<Event>, w: World, node: nat)
    requires WorldInv(e, v) && Leads(e, v, events, w)
    requires node in v.scene.kind && node !in v.scene.live && Untold(v, node)
    ensures Untold(w, node)
    decreases |events|
  {
    if events != [] {
      var v' := Next(e, v, events[0]);
      StepTells(e, v, events[0]);
      UntoldOn(e, v, v', node);
      FreedIsNeverTold(e, v', events[1..], w, node);
    }
  }

  lemma UntoldOn(e: Engine, v: World, v': World, node: nat)
    requires WorldInv(e, v) && Advances(e, v.server, v'.server, v.scene)
    requires node !in v.scene.live && Untold(v, node)
    ensures Untold(v', node)
  {
    var log, log' := v.server.core.log, v'.server.core.log;
    forall n | n in log' && n.Announced? && n.id in v'.server.hist
      ensures v'.server.hist[n.id] != node
    {
      var k :| 0 <= k < |log'| && log'[k] == n;
      if k < |log| {
        assert log[k] == n;
        assert n in log && Shaped(e, n, v.server.hist, v.scene);
      } else {
        assert Honest(e, log'[k], v'.server.hist, v'.server.released, v.scene);
      }
    }
  }

  /** After a poll's detection every record left is a live node's. */
  lemma DetectionIsComplete(e: Engine, w: World, event: Event)
    requires WorldInv(e, w) && Enabled(w, event) && event.Detects?
    ensures var st := Next(e, w, event).server;
            forall id | id in st.core.records :: st.ids.Object(id) in w.scene.live
  {
    DetectsKeep(e, w, event);
    var st1 := RetiredSpawns(w.server, event.spawns);
    RetiredSpawnsAre(w.server, event.spawns);
    RetiredBindsAre(st1, event.binds);
  }

  /** id's node is among the spawned, and named so. */
  ghost predicate IsSpawned(st: Server, node: nat) {
    node in st.ids.byObj && st.ids.byObj[node] in st.spawned
  }

  /** What one captured spawn comes to: it is a record if its node is there and in the tree, nothing if
      its node is gone, and waits otherwise. */
  ghost predicate Settled(st: Server, scene: Scene, node: nat) {
    if node !in scene.live then node !in st.pending
    else if node !in scene.inTree then node in st.pending
    else node !in st.pending && IsSpawned(st, node)
  }

  lemma {:induction false} ReadiedKeepsSpawned(st: Server, objs: seq<nat>, node: nat)
    requires IsSpawned(st, node)
    ensures IsSpawned(AllGiven(st, objs), node)
    ensures AllGiven(st, objs).pending == st.pending && AllGiven(st, objs).spawned == st.spawned
  {
    if objs != [] {
      ReadiedKeepsSpawned(st, objs[..|objs| - 1], node);
    }
  }

  lemma {:induction false} GivenLeavesQueues(st: Server, objs: seq<nat>)
    ensures var st' := AllGiven(st, objs);
            && st'.pending == st.pending && st'.spawned == st.spawned && st'.spawners == st.spawners
            && st'.bindIds == st.bindIds
  {
    if objs != [] {
      GivenLeavesQueues(st, objs[..|objs| - 1]);
    }
  }

  lemma DrainedOneSettles(e: Engine, st: Server, scene: Scene, node: nat)
    requires node in st.pending && st.pending[node].spawner in st.spawners
    ensures Settled(DrainedOne(st, e, scene, node), scene, node)
    ensures var st' := DrainedOne(st, e, scene, node);
            && st'.spawners == st.spawners && (forall o | o != node :: o in st.pending <==> o in st'.pending)
            && (forall o | o in st'.pending :: st'.pending[o] == st.pending[o])
  {
    GivenLeavesQueues(SpawnerGiven(st, scene, st.pending[node].spawner), scene.syncs(node));
  }

  lemma DrainedOneKeepsSpawned(e: Engine, st: Server, scene: Scene, node: nat, other: nat)
    requires IsSpawned(st, other)
    ensures IsSpawned(DrainedOne(st, e, scene, node), other)
  {
    if node in st.pending {
      ReadiedKeepsSpawned(SpawnerGiven(st, scene, st.pending[node].spawner), scene.syncs(node), other);
    }
  }

  lemma {:induction false} DrainedSettles(e: Engine, st: Server, scene: Scene, nodes: seq<nat>, node: nat)
    requires Distinct(nodes) && (forall o | o in nodes :: o in st.pending)
    requires forall o | o in st.pending :: st.pending[o].spawner in st.spawners
    ensures var st' := Drained(st, e, scene, nodes);
            && (node in nodes ==> Settled(st', scene, node))
            && (node !in nodes ==> (node in st.pending <==> node in st'.pending))
            && st'.spawners == st.spawners
            && (forall o | o in st'.pending :: o in st.pending && st'.pending[o] == st.pending[o])
  {
    if nodes != [] {
      var front, last := nodes[..|nodes| - 1], nodes[|nodes| - 1];
      var st1 := Drained(st, e, scene, front);
      DrainedSettles(e, st, scene, front, node);
      DrainedSettles(e, st, scene, front, last);
      assert last in nodes && last !in front && last in st1.pending;
      DrainedOneSettles(e, st1, scene, last);
      if IsSpawned(st1, node) {
        DrainedOneKeepsSpawned(e, st1, scene, last, node);
      }
    }
  }

  /** After a poll's drain every captured spawn is settled: none in the tree is left out. */
  lemma DrainIsComplete(e: Engine, w: World, event: Event, node: nat)
    requires WorldInv(e, w) && Enabled(w, event) && event.Drains? && node in w.server.pending
    ensures Settled(Next(e, w, event).server, w.scene, node)
  {
    DrainedSettles(e, w.server, w.scene, event.nodes, node);
  }

  /** What one waiting synchronizer comes to: live and ours it is an entity, with a bind record of its own
      unless its spawned node's names it; gone it is dropped; otherwise it waits. */
  ghost predicate Joined(st: Server, scene: Scene, sync: nat) {
    if sync !in scene.live then sync !in st.toAdd
    else if sync !in scene.inTree || sync !in scene.mine then sync in st.toAdd
    else
      && sync !in st.toAdd && sync in st.ids.byObj && st.ids.byObj[sync] in st.core.entities
      && (UnderSpawned(st, scene, sync) || st.ids.byObj[sync] in st.bindIds)
  }

  /** So what is captured is settled by the next drain. */
  lemma CapturedIsSettled(e: Engine, w: World, node: nat, spawner: nat, data: Variant, nodes: seq<nat>)
    requires WorldInv(e, w) && Enabled(w, Captures(node, spawner, data))
    requires Enabled(Next(e, w, Captures(node, spawner, data)), Drains(nodes))
    ensures var w1 := Next(e, w, Captures(node, spawner, data));
            node in nodes && Settled(Next(e, w1, Drains(nodes)).server, w.scene, node)
  {
    hide OnceOk;
    hide LogOk;
    hide IdsOk;
    StepTells(e, w, Captures(node, spawner, data));
    DrainIsComplete(e, Next(e, w, Captures(node, spawner, data)), Drains(nodes), node);
  }

  lemma UnderStays(st: Server, scene: Scene, obj: nat, sync: nat)
    requires 0 !in st.spawned && UnderSpawned(st, scene, sync)
    ensures UnderSpawned(Given(st, obj), scene, sync)
  {
    var k :| 0 <= k < |scene.lineage(sync)| && st.ids.Id(scene.lineage(sync)[k]) in st.spawned;
    assert Given(st, obj).ids.Id(scene.lineage(sync)[k]) == st.ids.Id(scene.lineage(sync)[k]);
  }

  lemma AddedOneJoins(st: Server, scene: Scene, sync: nat)
    requires sync in st.toAdd && 0 !in st.spawned
    ensures Joined(AddedOne(st, scene, sync), scene, sync)
    ensures AddedOne(st, scene, sync).spawned == st.spawned && AddedOne(st, scene, sync).toAdd >= st.toAdd - {sync}
  {
    var st' := Given(st, sync);
    if UnderSpawned(st', scene, sync) {
      var k :| 0 <= k < |scene.lineage(sync)| && st'.ids.Id(scene.lineage(sync)[k]) in st'.spawned;
      assert Entered(st', scene, sync).ids.Id(scene.lineage(sync)[k]) in Entered(st', scene, sync).spawned;
    }
  }

  lemma AddedOneKeepsJoined(st: Server, scene: Scene, sync: nat, other: nat)
    requires 0 !in st.spawned && other != sync && Joined(st, scene, other)
    ensures Joined(AddedOne(st, scene, sync), scene, other)
  {
    var st' := AddedOne(st, scene, sync);
    if other in st.ids.byObj && UnderSpawned(st, scene, other) && sync in scene.live && sync in scene.inTree
        && sync in scene.mine {
      UnderStays(st, scene, sync, other);
      var k :| 0 <= k < |scene.lineage(other)| && Given(st, sync).ids.Id(scene.lineage(other)[k]) in st.spawned;
      assert st'.ids.Id(scene.lineage(other)[k]) in st'.spawned;
    }
  }

  lemma {:induction false} AddedAllJoin(st: Server, scene: Scene, syncs: seq<nat>, sync: nat)
    requires Distinct(syncs) && 0 !in st.spawned && forall o | o in syncs :: o in st.toAdd
    ensures var st' := AddedAll(st, scene, syncs);
            && st'.spawned == st.spawned && (sync in syncs ==> Joined(st', scene, sync))
            && (sync !in syncs && sync in st.toAdd ==> sync in st'.toAdd)
  {
    if syncs != [] {
      var front, last := syncs[..|syncs| - 1], syncs[|syncs| - 1];
      var st1 := AddedAll(st, scene, front);
      AddedAllJoin(st, scene, front, sync);
      AddedAllJoin(st, scene, front, last);
      assert last in syncs && last !in front;
      AddedOneJoins(st1, scene, last);
      if sync in front {
        AddedOneKeepsJoined(st1, scene, last, sync);
      }
    }
  }

  /** After the entities are added none that is live and ours is left out. */
  lemma AddIsComplete(e: Engine, w: World, event: Event, sync: nat)
    requires WorldInv(e, w) && Enabled(w, event) && event.Adds? && sync in w.server.toAdd
    ensures Joined(Next(e, w, event).server, w.scene, sync)
  {
    AddedAllJoin(w.server, w.scene, event.syncs, sync);
  }

  /** So a synchronizer that registers is one when they are next added, if it is live by then and ours. */
  lemma RegisteredIsAdded(e: Engine, w: World, sync: nat, syncs: seq<nat>)
    requires WorldInv(e, w) && Enabled(w, Registers(sync))
    requires Enabled(Next(e, w, Registers(sync)), Adds(syncs))
    ensures var w1 := Next(e, w, Registers(sync));
            sync in syncs && sync in w1.server.owned && Joined(Next(e, w1, Adds(syncs)).server, w.scene, sync)
  {
    hide OnceOk;
    hide LogOk;
    hide IdsOk;
    StepTells(e, w, Registers(sync));
    AddIsComplete(e, Next(e, w, Registers(sync)), Adds(syncs), sync);
  }
}
