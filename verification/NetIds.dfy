/** Which node each net id names, on either end. The server hands ids out, counting from 1; a client
    learns its ids from the server's records and drops them for a new session. Nodes are object ids,
    0 standing for none, as it does among net ids. */
module NetIds {
  datatype Entry = Entry(obj: nat, learned: bool)

  /** The two maps and the counter. */
  datatype Table = Table(byId: map<nat, Entry>, byObj: map<nat, nat>, next: nat) {
    /** The id obj has, or 0. */
    function Id(obj: nat): nat {
      if obj in byObj then byObj[obj] else 0
    }

    /** The node id names, or 0. */
    function Object(id: nat): nat {
      if id in byId then byId[id].obj else 0
    }

    function Put(id: nat, obj: nat, learned: bool): Table {
      Table(byId[id := Entry(obj, learned)], byObj[obj := id], next)
    }

    function Drop(id: nat): Table {
      if id in byId then Table(byId - {id}, byObj - {byId[id].obj}, next) else this
    }

    function Release(obj: nat): Table {
      Drop(Id(obj))
    }

    function Bind(id: nat, obj: nat): Table {
      Drop(id).Release(obj).Put(id, obj, true)
    }

    function Assign(obj: nat): Table {
      if obj in byObj then this else this.(next := next + 1).Put(next, obj, false)
    }

    function Learned(): set<nat> {
      set id | id in byId && byId[id].learned
    }

    /** Without these ids. */
    function Without(gone: set<nat>): Table {
      Table(byId - gone, byObj - (set id | id in gone && id in byId :: byId[id].obj), next)
    }

    function Forgotten(): Table {
      Without(Learned())
    }

    /** The maps are each other's inverse. */
    ghost predicate Paired() {
      && (forall id | id in byId :: byId[id].obj in byObj && byObj[byId[id].obj] == id)
      && (forall obj | obj in byObj :: byObj[obj] in byId && byId[byObj[obj]].obj == obj)
    }

    /** Every id handed out here is behind the counter. */
    ghost predicate Counted() {
      1 <= next && forall id | id in byId && !byId[id].learned :: 1 <= id < next
    }

    /** What id names, as a relation: who is called what. */
    ghost function Names(): map<nat, nat> {
      map id | id in byId :: byId[id].obj
    }
  }

  const Empty := Table(map[], map[], 1)

  datatype Op = Assigning(obj: nat) | Binding(id: nat, obj: nat) | Releasing(obj: nat) | Dropping(id: nat) | Forgetting

  function Apply(t: Table, op: Op): Table {
    match op
    case Assigning(obj) => t.Assign(obj)
    case Binding(id, obj) => t.Bind(id, obj)
    case Releasing(obj) => t.Release(obj)
    case Dropping(id) => t.Drop(id)
    case Forgetting => t.Forgotten()
  }

  /** The one guard the class does not check: a new id must not be one the end has learned. */
  predicate Clear(t: Table, op: Op) {
    op.Assigning? ==> op.obj in t.byObj || t.next !in t.byId
  }

  lemma DropKeeps(t: Table, id: nat)
    requires t.Paired()
    ensures t.Drop(id).Paired() && t.Drop(id).Names() == t.Names() - {id}
  {
  }

  /** The pair goes in over two names that are free. */
  lemma PutKeeps(t: Table, id: nat, obj: nat, learned: bool)
    requires t.Paired() && id !in t.byId && obj !in t.byObj
    ensures t.Put(id, obj, learned).Paired() && t.Put(id, obj, learned).Names() == t.Names()[id := obj]
  {
  }

  /** After a bind, id names obj and nothing else does; every other name stands, but that 0 is dropped
      when obj had no id of its own by then. */
  lemma BindKeeps(t: Table, id: nat, obj: nat)
    requires t.Paired()
    ensures var t' := t.Bind(id, obj);
            && t'.Paired() && t'.Object(id) == obj && t'.Id(obj) == id && t'.byId[id].learned
            && (forall i | i in t'.byId && i != id :: i in t.byId && t'.byId[i] == t.byId[i])
            && (forall i | i in t.byId && i != id && t.byId[i].obj != obj ::
                i in t'.byId <==> i != 0 || (obj in t.byObj && t.byObj[obj] != id))
  {
    var t1 := t.Drop(id);
    DropKeeps(t, id);
    DropKeeps(t1, t1.Id(obj));
    PutKeeps(t1.Release(obj), id, obj, true);
  }

  /** Only a record naming id 0, which no server that counts from 1 sends, gets that far: the next bind of a
      node without an id takes it away again. */
  lemma BindDropsZero()
    ensures Empty.Bind(0, 7).Object(0) == 7 && Empty.Bind(0, 7).Bind(1, 8).Object(0) == 0
  {
    BindKeeps(Empty, 0, 7);
    BindKeeps(Empty.Bind(0, 7), 1, 8);
  }

  /** Handing out the next id keeps the maps inverse exactly when obj has one already or nobody is
      called the next; the host's own ids alone never stand in the way. */
  lemma AssignKeeps(t: Table, obj: nat)
    requires t.Paired()
    ensures t.Assign(obj).Paired() <==> Clear(t, Assigning(obj))
    ensures t.Counted() && t.Learned() == {} ==> Clear(t, Assigning(obj))
  {
    var t' := t.Assign(obj);
    if Clear(t, Assigning(obj)) {
      if obj !in t.byObj {
        PutKeeps(t.(next := t.next + 1), t.next, obj, false);
      }
    } else {
      var other := t.byId[t.next].obj;
      assert t'.byObj[other] == t.next && t'.byId[t.next].obj == obj;
    }
    if t.next in t.byId && t.Counted() {
      assert t.next in t.Learned();
    }
  }

  /** A learned id equal to the counter is overwritten, and its node keeps pointing at it. */
  lemma AssignOverALearnedId()
    ensures var t := Empty.Bind(1, 7);
            t.Paired() && !Clear(t, Assigning(8)) && !t.Assign(8).Paired()
            && t.Assign(8).Id(7) == 1 && t.Assign(8).Object(1) == 8
  {
    BindKeeps(Empty, 1, 7);
    AssignKeeps(Empty.Bind(1, 7), 8);
  }

  /** An object's id is the same every time it is asked for, and nobody else's. */
  lemma AssignIsStable(t: Table, obj: nat, u: nat)
    requires t.Paired() && Clear(t, Assigning(obj))
    ensures t.Assign(obj).Assign(obj) == t.Assign(obj)
    ensures t.Assign(obj).Object(t.Assign(obj).Id(obj)) == obj
    ensures u != obj ==> t.Assign(obj).Id(u) == t.Id(u)
    ensures u in t.byObj && u != obj ==> t.Assign(obj).Id(u) != t.Assign(obj).Id(obj)
  {
    AssignKeeps(t, obj);
  }

  /** Forgetting takes exactly what the server taught and leaves what was handed out here. */
  lemma ForgottenKeeps(t: Table)
    requires t.Paired()
    ensures t.Forgotten().Paired() && t.Forgotten().Learned() == {}
    ensures forall id :: id in t.Forgotten().byId <==> id in t.byId && !t.byId[id].learned
    ensures forall id | id in t.Forgotten().byId :: t.Forgotten().byId[id] == t.byId[id]
  {
  }

  lemma ApplyKeeps(t: Table, op: Op)
    requires t.Paired() && t.Counted() && Clear(t, op)
    ensures Apply(t, op).Paired() && Apply(t, op).Counted() && t.next <= Apply(t, op).next
  {
    match op
    case Assigning(obj) => AssignKeeps(t, obj);
    case Binding(id, obj) => BindKeeps(t, id, obj);
    case Releasing(obj) => DropKeeps(t, t.Id(obj));
    case Dropping(id) => DropKeeps(t, id);
    case Forgetting => ForgottenKeeps(t);
  }

  /** What each operation is for: an object has its own id, an id names the object the server said, and what is
      released, dropped or forgotten names nothing. */
  lemma OpsMean(t: Table, op: Op)
    requires t.Paired() && Clear(t, op)
    ensures var t' := Apply(t, op);
            match op
            case Assigning(obj) => t'.Id(obj) == if obj in t.byObj then t.byObj[obj] else t.next
            case Binding(id, obj) => t'.Object(id) == obj && t'.Id(obj) == id
            case Releasing(obj) => obj !in t'.byObj
            case Dropping(id) => t'.Names() == t.Names() - {id}
            case Forgetting => t'.Learned() == {}
  {
    match op
    case Assigning(obj) => AssignKeeps(t, obj);
    case Binding(id, obj) => BindKeeps(t, id, obj);
    case Releasing(obj) => DropKeeps(t, t.Id(obj));
    case Dropping(id) => DropKeeps(t, id);
    case Forgetting => ForgottenKeeps(t);
  }

  // --- Whole runs ---

  function After(ops: seq<Op>): Table {
    if ops == [] then Empty else Apply(After(ops[..|ops| - 1]), ops[|ops| - 1])
  }

  ghost predicate AllClear(ops: seq<Op>) {
    forall k | 0 <= k < |ops| :: Clear(After(ops[..k]), ops[k])
  }

  /** The k-th operation hands out a new id. */
  predicate Issues(ops: seq<Op>, k: nat)
    requires k < |ops|
  {
    ops[k].Assigning? && ops[k].obj !in After(ops[..k]).byObj
  }

  lemma {:induction false} RunKeeps(ops: seq<Op>)
    requires AllClear(ops)
    ensures After(ops).Paired() && After(ops).Counted()
  {
    if ops != [] {
      var front := ops[..|ops| - 1];
      forall k | 0 <= k < |front|
        ensures Clear(After(front[..k]), front[k])
      {
        assert front[..k] == ops[..k];
      }
      RunKeeps(front);
      ApplyKeeps(After(front), ops[|ops| - 1]);
    }
  }

  lemma {:induction false} CounterGrows(ops: seq<Op>, j: nat, k: nat)
    requires j <= k <= |ops|
    ensures After(ops[..j]).next <= After(ops[..k]).next
    decreases k
  {
    if j < k {
      CounterGrows(ops, j, k - 1);
      assert ops[..k][..k - 1] == ops[..k - 1];
    }
  }

  /** In a session no id is handed out twice, however many were released, dropped or forgotten between. */
  lemma NeverReissued(ops: seq<Op>, j: nat, k: nat)
    requires j < k < |ops| && Issues(ops, j) && Issues(ops, k)
    ensures 1 <= After(ops[..j + 1]).Id(ops[j].obj) < After(ops[..k + 1]).Id(ops[k].obj)
  {
    CounterGrows(ops, 0, j);
    CounterGrows(ops, j + 1, k);
    assert ops[..0] == [] && ops[..j + 1][..j] == ops[..j] && ops[..k + 1][..k] == ops[..k];
  }

  /** An end that forgot what it learned hands out ids again without a clash, for as long as it learns
      none: the discipline of one session at a time. */
  lemma {:induction false} SessionIsClear(ops: seq<Op>, own: seq<Op>)
    requires AllClear(ops) && (After(ops).Learned() == {})
    requires forall k | 0 <= k < |own| :: !own[k].Binding?
    ensures AllClear(ops + own) && After(ops + own).Learned() == {}
    decreases |own|
  {
    hide AllClear;
    hide Apply;
    if own == [] {
      assert ops + own == ops;
    } else {
      var front, last := own[..|own| - 1], own[|own| - 1];
      SessionIsClear(ops, front);
      RunKeeps(ops + front);
      AssignKeeps(After(ops + front), if last.Assigning? then last.obj else 0);
      LearnsNothing(After(ops + front), last);
      assert ops + own == ops + front + [last] && (ops + own)[..|ops + front|] == ops + front;
      OneMoreClear(ops + front, last);
    }
  }

  lemma OneMoreClear(ops: seq<Op>, op: Op)
    requires AllClear(ops) && Clear(After(ops), op)
    ensures AllClear(ops + [op])
  {
    forall k | 0 <= k < |ops + [op]|
      ensures Clear(After((ops + [op])[..k]), (ops + [op])[k])
    {
      assert (ops + [op])[..k] == ops[..k];
    }
    assert ops[..|ops|] == ops;
  }

  lemma LearnsNothing(t: Table, op: Op)
    requires t.Paired() && t.Learned() == {} && !op.Binding?
    ensures Apply(t, op).Learned() == {}
  {
    assert forall id | id in t.byId :: id in t.Learned() || !t.byId[id].learned;
    match op
    case Assigning(obj) => assert forall id | id in t.Assign(obj).byId :: !t.Assign(obj).byId[id].learned;
    case Forgetting => ForgottenKeeps(t);
    case _ =>
  }

  lemma WithoutOneMore(t: Table, all: set<nat>, left: set<nat>, id: nat)
    requires id in left && left <= all
    ensures t.Without(all - left).Drop(id) == t.Without(all - (left - {id}))
  {
    var gone := all - left;
    assert all - (left - {id}) == gone + {id};
    if id !in t.byId {
      assert t.byId - (gone + {id}) == t.byId - gone;
    }
  }

  class NetIds {
    var byId: map<nat, Entry>
    var byObj: map<nat, nat>
    var next: nat

    constructor ()
      ensures State() == Empty
    {
      byId, byObj, next := map[], map[], 1;
    }

    function State(): Table
      reads this
    {
      Table(byId, byObj, next)
    }

    /** obj's id, handing it the next one if it has none. */
    method Assign(obj: nat) returns (id: nat)
      modifies this
      ensures State() == old(State()).Assign(obj) && id == State().Id(obj)
    {
      if obj in byObj {
        return byObj[obj];
      }
      id := next;
      next := next + 1;
      Put(id, obj, false);
    }

    /** The server says id names obj: replaces whatever either named before. */
    method Bind(id: nat, obj: nat)
      modifies this
      ensures State() == old(State()).Bind(id, obj)
    {
      Drop(id);
      var _ := Release(obj);
      Put(id, obj, true);
    }

    method Id(obj: nat) returns (id: nat)
      ensures id == State().Id(obj)
    {
      id := if obj in byObj then byObj[obj] else 0;
    }

    method Object(id: nat) returns (obj: nat)
      ensures obj == State().Object(id)
    {
      obj := if id in byId then byId[id].obj else 0;
    }

    /** obj has no id any more; the one it had, or 0. */
    method Release(obj: nat) returns (id: nat)
      modifies this
      ensures State() == old(State()).Release(obj) && id == old(State()).Id(obj)
    {
      id := Id(obj);
      Drop(id);
    }

    /** id names nothing any more. */
    method Drop(id: nat)
      modifies this
      ensures State() == old(State()).Drop(id)
    {
      if id in byId {
        byObj := byObj - {byId[id].obj};
        byId := byId - {id};
      }
    }

    method LearnedIds() returns (learned: set<nat>)
      ensures learned == State().Learned()
    {
      learned := {};
      var keys := byId.Keys;
      while keys != {}
        invariant keys <= byId.Keys
        invariant learned == set id | id in byId.Keys - keys && byId[id].learned
        decreases |keys|
      {
        var id :| id in keys;
        if byId[id].learned {
          learned := learned + {id};
        }
        keys := keys - {id};
      }
    }

    /** Forget every id the server gave, for a new session; a host's own stay. */
    method ForgetLearned()
      modifies this
      ensures State() == old(State()).Forgotten()
    {
      ghost var was := State();
      var learned := LearnedIds();
      ghost var all := learned;
      assert was.Without(all - learned) == was;
      while learned != {}
        invariant learned <= all
        invariant State() == was.Without(all - learned)
        decreases learned
      {
        var id :| id in learned;
        WithoutOneMore(was, all, learned, id);
        Drop(id);
        learned := learned - {id};
      }
      assert all - learned == all;
    }

    method Put(id: nat, obj: nat, learned: bool)
      modifies this
      ensures State() == old(State()).Put(id, obj, learned)
    {
      byId := byId[id := Entry(obj, learned)];
      byObj := byObj[obj := id];
    }
  }
}
