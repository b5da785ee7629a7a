/** A server's run and a client's, joined by the records that went between them. */
module SpawnAgreement {
  import opened Values
  import opened Args
  import opened SpawnServer
  import opened SpawnRuns
  import opened SpawnClient

  /** A client at the start of a session: it has learned nothing, though ids it gave out as a host
      may stand. */
  ghost predicate Joins(c: Client) {
    c.ids.Paired() && c.ids.Learned() == {} && c.spawned == {} && c.seen == {}
  }

  function After(e: Engine, c: Client, arrivals: seq<Arrival>): Client {
    if arrivals == [] then c else Applied(After(e, c, arrivals[..|arrivals| - 1]), e, arrivals[|arrivals| - 1])
  }

  /** What arrives is what the server said at some time, in any order and any number of times. */
  ghost predicate Genuine(arrivals: seq<Arrival>, log: seq<Notice>) {
    forall a | a in arrivals && a.Comes? :: a.notice in log
  }

  lemma {:induction false} SessionKeeps(e: Engine, c: Client, arrivals: seq<Arrival>, log: seq<Notice>)
    requires Joins(c) && Genuine(arrivals, log)
    ensures ClientInv(e, After(e, c, arrivals), log)
  {
    if arrivals == [] {
      assert forall id | id in c.ids.byId :: c.ids.byId[id].learned ==> id in c.ids.Learned();
    } else {
      SessionKeeps(e, c, arrivals[..|arrivals| - 1], log);
      ArrivalKeeps(e, After(e, c, arrivals[..|arrivals| - 1]), log, arrivals[|arrivals| - 1]);
    }
  }

  /** Whatever a session has seen was found by one of its arrivals. */
  lemma {:induction false} SeenWasFound(e: Engine, c: Client, arrivals: seq<Arrival>, s: Sighting) returns (a: Arrival)
    requires c.seen == {} && s in After(e, c, arrivals).seen
    ensures a in arrivals && Found(e, a, s)
  {
    var front := After(e, c, arrivals[..|arrivals| - 1]);
    if s in front.seen {
      a := SeenWasFound(e, c, arrivals[..|arrivals| - 1], s);
    } else {
      a := arrivals[|arrivals| - 1];
      ArrivalFinds(e, front, a, s);
    }
  }

  // --- What is built ---

  /** The arrival gives the client a spawner's function: the spawner enters the tree, or a bind record finds it. */
  ghost predicate GivesFunction(a: Arrival, spawner: nat) {
    match a
    case Enters(entered) => entered == spawner
    case Comes(Announced(_, record), here) =>
      record.spawner == BIND_SPAWNER && here.node(record.data) == spawner && spawner != 0 && here.isSpawner(spawner)
    case _ => false
  }

  /** A session wraps exactly the spawners that entered the tree or were found by their bind. */
  lemma {:induction false} WrappedExactly(e: Engine, c: Client, arrivals: seq<Arrival>, spawner: nat)
    ensures spawner in After(e, c, arrivals).wrapped <==>
            spawner in c.wrapped || exists a :: a in arrivals && GivesFunction(a, spawner)
  {
    if arrivals != [] {
      var front, last := arrivals[..|arrivals| - 1], arrivals[|arrivals| - 1];
      WrappedExactly(e, c, front, spawner);
      assert forall a :: a in arrivals <==> a in front || a == last;
      AppliedWraps(e, After(e, c, front), last, spawner);
    }
  }

  lemma AppliedWraps(e: Engine, c: Client, a: Arrival, spawner: nat)
    ensures spawner in Applied(c, e, a).wrapped <==> spawner in c.wrapped || GivesFunction(a, spawner)
  {
    if a.Comes? && a.notice.Announced? && a.notice.record.spawner != BIND_SPAWNER {
      SpawnBuiltExactly(c, e, a.notice.id, a.notice.record, a.here);
    }
  }

  /** So in any session, from when a spawner entered the tree or its bind was taken, each spawn record of an id that
      names it is built as it comes, if the data parses and there is a place for a node and a node; and the id names
      the node that was built. */
  lemma WrappedSpawnerBuilds(e: Engine, c: Client, arrivals: seq<Arrival>, log: seq<Notice>, a: Arrival, spawner: nat)
    requires Joins(c) && Genuine(arrivals, log) && exists b :: b in arrivals && GivesFunction(b, spawner)
    requires a.Comes? && a.notice.Announced? && a.notice.record.spawner != BIND_SPAWNER
    requires After(e, c, arrivals).ids.Object(a.notice.record.spawner) == spawner && a.here.live(spawner)
    ensures var id, data := a.notice.id, ReadSpawn(e, a.notice.record.data);
            var before, after := After(e, c, arrivals), After(e, c, arrivals + [a]);
            if data.Some? && a.here.hasRoot(spawner) && a.here.built != 0 then
              id in after.spawned && (Apart(id, data.value.0, a.here) ==> after.ids.Object(id) == a.here.built)
            else after == before
  {
    var c' := After(e, c, arrivals);
    assert (arrivals + [a])[..|arrivals|] == arrivals;
    WrappedExactly(e, c, arrivals, spawner);
    SessionKeeps(e, c, arrivals, log);
    SpawnBuiltExactly(c', e, a.notice.id, a.notice.record, a.here);
    if Buildable(c', e, a.notice.record, a.here)
        && Apart(a.notice.id, ReadSpawn(e, a.notice.record.data).value.0, a.here) {
      SpawnNamesAll(c', e, a.notice.id, a.notice.record, a.here);
    }
  }

  /** In particular the record that follows its spawner's bind. */
  lemma BindThenSpawn(e: Engine, c: Client, arrivals: seq<Arrival>, log: seq<Notice>, bind: Arrival, a: Arrival,
      spawner: nat)
    requires Joins(c) && Genuine(arrivals + [bind], log) && bind.Comes? && GivesFunction(bind, spawner)
    requires a.Comes? && a.notice.Announced? && a.notice.record.spawner == bind.notice.id != BIND_SPAWNER
    requires var data := ReadSpawn(e, a.notice.record.data);
             data.Some? && Apart(a.notice.id, data.value.0, a.here)
    requires a.here.live(spawner) && a.here.hasRoot(spawner) && a.here.built != 0
    ensures var after := After(e, c, arrivals + [bind] + [a]);
            a.notice.id in after.spawned && after.ids.Object(a.notice.id) == a.here.built
  {
    var bound := arrivals + [bind];
    assert bound[..|arrivals|] == arrivals && bound[|arrivals|] == bind;
    assert forall b | b in arrivals :: b in bound;
    SessionKeeps(e, c, arrivals, log);
    BindNames(After(e, c, arrivals), bind.notice.id, bind.notice.record.data, bind.here);
    WrappedSpawnerBuilds(e, c, bound, log, a, spawner);
  }

  // --- What the two ends agree on ---

  /** The scene shows id's own node where the description says. */
  ghost predicate Fits(scene: Scene, hist: map<nat, nat>, id: nat, d: Description) {
    && id in hist
    && match d
       case AtPath(path) => hist[id] in scene.live && scene.path(hist[id]) == path
       case BuiltFrom(root) => root == id && hist[id] in scene.live && hist[id] in scene.inTree
       case Below(root, path) =>
         && root in hist && hist[root] in scene.live
         && hist[id] in scene.syncs(hist[root]) && scene.pathTo(hist[root], hist[id]) == path
  }

  lemma HonestFits(e: Engine, n: Notice, id: nat, d: Description, hist: map<nat, nat>, released: set<nat>, scene: Scene)
    requires Honest(e, n, hist, released, scene) && Describes(e, n, id, d)
    ensures Fits(scene, hist, id, d)
  {
    if d.Below? {
      var syncs := ReadSpawn(e, n.record.data).value.0;
      var k :| 0 <= k < |syncs| && syncs[k] == SpawnSync(id, d.path);
      assert SpawnHonest(e, n.record, hist, scene, hist[n.id]);
    }
  }

  lemma FitsLater(scene: Scene, hist: map<nat, nat>, hist': map<nat, nat>, id: nat, d: Description)
    requires Fits(scene, hist, id, d) && Grows(hist, hist')
    ensures Fits(scene, hist', id, d)
  {
  }

  lemma NewFits(e: Engine, a: Server, b: Server, scene: Scene, n: Notice, id: nat, d: Description)
    requires Advances(e, a, b, scene) && n in b.core.log && n !in a.core.log && Describes(e, n, id, d)
    ensures Fits(scene, b.hist, id, d)
  {
    var k :| 0 <= k < |b.core.log| && b.core.log[k] == n;
    assert forall j | 0 <= j < |a.core.log| :: a.core.log[j] in a.core.log && b.core.log[j] == a.core.log[j];
    HonestFits(e, n, id, d, b.hist, b.released, scene);
  }

  lemma FirstStep(e: Engine, v: World, events: seq<Event>, w: World)
    requires WorldInv(e, v) && Leads(e, v, events, w) && events != []
    ensures var v' := Next(e, v, events[0]);
            && Enabled(v, events[0]) && WorldInv(e, v') && Leads(e, v', events[1..], w)
            && Advances(e, v.server, v'.server, v.scene) && Grows(v'.server.hist, w.server.hist)
  {
    StepTells(e, v, events[0]);
    SpawnRuns.RunKeeps(e, Next(e, v, events[0]), events[1..], w);
  }

  lemma OneEarlier(e: Engine, v: World, events: seq<Event>, m: nat, u: World)
    requires m < |events| && Enabled(v, events[0]) && Leads(e, Next(e, v, events[0]), events[1..][..m], u)
    ensures Leads(e, v, events[..m + 1], u)
  {
    assert events[..m + 1][1..] == events[1..][..m];
  }

  /** Whatever a notice describes, there was a moment in the run when the scene showed it so. */
  lemma {:induction false} HadItsMoment(e: Engine, v: World, events: seq<Event>, w: World, n: Notice, id: nat,
      d: Description)
      returns (m: nat, u: World)
    requires WorldInv(e, v) && Leads(e, v, events, w)
    requires n in w.server.core.log && n !in v.server.core.log && Describes(e, n, id, d)
    ensures m <= |events| && Leads(e, v, events[..m], u) && Fits(u.scene, w.server.hist, id, d)
    decreases |events|
  {
    var v' := Next(e, v, events[0]);
    FirstStep(e, v, events, w);
    if n in v'.server.core.log {
      NewFits(e, v.server, v'.server, v.scene, n, id, d);
      FitsLater(v.scene, v'.server.hist, w.server.hist, id, d);
      m, u := 0, v;
    } else {
      m, u := HadItsMoment(e, v', events[1..], w, n, id, d);
      OneEarlier(e, v, events, m, u);
      m := m + 1;
    }
  }

  /** A learned id's node was found by some arrival, whose record the server did send. */
  lemma LearnedWasFound(e: Engine, c: Client, arrivals: seq<Arrival>, log: seq<Notice>, id: nat)
      returns (d: Description, a: Arrival, n: Notice)
    requires Joins(c) && Genuine(arrivals, log)
    requires var ids := After(e, c, arrivals).ids; id in ids.byId && ids.byId[id].learned
    ensures a in arrivals && Found(e, a, Sighting(id, After(e, c, arrivals).ids.Object(id), d))
    ensures n in log && Describes(e, n, id, d)
  {
    var c' := After(e, c, arrivals);
    SessionKeeps(e, c, arrivals, log);
    assert Described(e, log, id, c'.ids.byId[id].obj, c'.seen);
    n, d :| n in log && Describes(e, n, id, d) && Sighting(id, c'.ids.byId[id].obj, d) in c'.seen;
    a := SeenWasFound(e, c, arrivals, Sighting(id, c'.ids.byId[id].obj, d));
  }

  /** The two ends agree. In every run of the server, and every session of a client to which its
      records come in any order and any number of times: an id the client has learned is one the server
      gave out, and one description of it, in a record that came, found the client's node for it then
      and was true of the server's own node at some moment of its run. */
  lemma EndsAgree(e: Engine, v: World, events: seq<Event>, w: World, c: Client, arrivals: seq<Arrival>, id: nat)
      returns (d: Description, a: Arrival, m: nat, u: World)
    requires Reaches(e, v, events, w) && Joins(c) && Genuine(arrivals, w.server.core.log)
    requires var ids := After(e, c, arrivals).ids; id in ids.byId && ids.byId[id].learned
    ensures a in arrivals && Found(e, a, Sighting(id, After(e, c, arrivals).ids.Object(id), d))
    ensures m <= |events| && Leads(e, v, events[..m], u) && Fits(u.scene, w.server.hist, id, d)
  {
    hide After;
    hide Found;
    hide Describes;
    hide Fits;
    var n: Notice;
    d, a, n := LearnedWasFound(e, c, arrivals, w.server.core.log, id);
    m, u := HadItsMoment(e, v, events, w, n, id, d);
  }

  lemma PlainIsBuilt(e: Engine, n: Notice, m: Notice, d: Description, hist: map<nat, nat>, scene: Scene)
    requires Shaped(e, m, hist, scene) && Describes(e, m, n.id, d) && n.id in hist && scene.Is(hist[n.id], Plain)
    ensures d == BuiltFrom(n.id)
  {
  }

  /** The id of a node that is neither a synchronizer nor a spawner is described by nothing but its own spawn
      record. */
  lemma SpawnIsSpawn(e: Engine, v: World, events: seq<Event>, w: World, n: Notice, m: Notice, d: Description)
    requires Reaches(e, v, events, w) && n in w.server.core.log && m in w.server.core.log
    requires n.id in w.server.hist && w.scene.Is(w.server.hist[n.id], Plain) && Describes(e, m, n.id, d)
    ensures d == BuiltFrom(n.id)
  {
    hide Shaped;
    hide Describes;
    ReachedInv(e, v, events, w);
    PlainIsBuilt(e, n, m, d, w.server.hist, w.scene);
  }

  /** A despawn frees the client's node for an id only if a spawn record of that very id was sent, and only the
      node that a record of the id found: but for a synchronizer's, the node the client itself built when the
      spawn record came. Any other id just names nothing from then on, and its node stays. */
  lemma DespawnFreesItsOwn(e: Engine, v: World, events: seq<Event>, w: World, c: Client, arrivals: seq<Arrival>,
      id: nat, here: Here)
      returns (a: Arrival, d: Description)
    requires Reaches(e, v, events, w) && Joins(c) && Genuine(arrivals, w.server.core.log)
    requires !here.live(0)
    ensures var c' := After(e, c, arrivals);
            var (c'', freed) := DespawnApplied(c', id, here);
            && c''.ids.Object(id) == 0 && id !in c''.spawned
            && (forall i | i != id :: c''.ids.Object(i) == c'.ids.Object(i))
            && (freed.Some? <==> id in c'.spawned && here.live(c'.ids.Object(id)))
            && (freed.Some? ==>
                  && a in arrivals && Found(e, a, Sighting(id, freed.value, d)) && id in w.server.hist
                  && (exists n ::
                        n in w.server.core.log && n.Announced? && n.id == id && n.record.spawner != BIND_SPAWNER)
                  && (w.scene.Is(w.server.hist[id], Plain) ==> d == BuiltFrom(id)))
  {
    var c' := After(e, c, arrivals);
    SessionKeeps(e, c, arrivals, w.server.core.log);
    if id in c'.spawned && id in c'.ids.byId {
      var n :| n in w.server.core.log && n.Announced? && n.id == id && n.record.spawner != BIND_SPAWNER;
      var m;
      d, a, m := LearnedWasFound(e, c, arrivals, w.server.core.log, id);
      SentIsShaped(e, v, events, w, n);
      if w.scene.Is(w.server.hist[id], Plain) {
        SpawnIsSpawn(e, v, events, w, n, m, d);
      }
    } else {
      a, d := *, *;
    }
  }

  lemma SentIsShaped(e: Engine, v: World, events: seq<Event>, w: World, n: Notice)
    requires Reaches(e, v, events, w) && n in w.server.core.log
    ensures n.id in w.server.hist
  {
    ReachedInv(e, v, events, w);
    assert Shaped(e, n, w.server.hist, w.scene);
  }
}
