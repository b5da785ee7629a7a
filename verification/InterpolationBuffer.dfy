/** One entity's recent snapshots, and where it is drawn between them. Times and coordinates are reals;
    the engine's angle interpolation is a function given with each call. */
module InterpolationBuffer {
  import opened Options
  import opened Reals

  datatype Point = Point(x: real, y: real, z: real)

  datatype Axis = X | Y | Z

  datatype Snapshot = Snapshot(time: real, pos: Point, rot: Point, vel: Point, angVel: Point)

  datatype Settings = Settings(maxSize: int, teleportDistSq: real, extrapMax: real)

  datatype Sample = Sample(valid: bool, position: Point, rotation: Point, holding: bool, extrapolated: bool,
      anchor: Point)

  const ZERO := Point(0.0, 0.0, 0.0)

  function Along(p: Point, axis: Axis): real {
    match axis
    case X => p.x
    case Y => p.y
    case Z => p.z
  }

  function Square(x: real): real {
    x * x
  }

  function DistSq(a: Point, b: Point): real {
    Square(a.x - b.x) + Square(a.y - b.y) + Square(a.z - b.z)
  }

  // --- Taking snapshots in ---

  function Last<T>(buf: seq<T>): T
    requires buf != []
  {
    buf[|buf| - 1]
  }

  function Grown<T>(buf: seq<T>, late: bool, jumps: bool, s: T): seq<T> {
    if late then buf else if jumps then [s] else buf + [s]
  }

  /** No newer than the last. */
  predicate Late(buf: seq<Snapshot>, s: Snapshot) {
    buf != [] && s.time <= Last(buf).time
  }

  predicate Jumps(buf: seq<Snapshot>, cfg: Settings, s: Snapshot) {
    buf != [] && DistSq(s.pos, Last(buf).pos) > cfg.teleportDistSq
  }

  /** The snapshots since the last teleport, all of them. */
  function Recorded(history: seq<Snapshot>, cfg: Settings, s: Snapshot): seq<Snapshot> {
    Grown(history, Late(history, s), Jumps(history, cfg, s), s)
  }

  function Bounded<T>(buf: seq<T>, maxSize: int): seq<T> {
    if |buf| > maxSize && |buf| > 0 then buf[1..] else buf
  }

  function PushedOnto<T>(buf: seq<T>, maxSize: int, late: bool, jumps: bool, s: T): seq<T> {
    if late then buf else Bounded(Grown(buf, false, jumps, s), maxSize)
  }

  function Pushed(buf: seq<Snapshot>, cfg: Settings, s: Snapshot): seq<Snapshot> {
    PushedOnto(buf, cfg.maxSize, Late(buf, s), Jumps(buf, cfg, s), s)
  }

  // --- Sampling ---

  /** The latest snapshot at or before t, or -1. */
  function Latest(buf: seq<Snapshot>, t: real): (k: int)
    ensures -1 <= k < |buf|
    ensures k >= 0 ==> buf[k].time <= t
    ensures forall i | k < i < |buf| :: buf[i].time > t
  {
    if buf == [] then -1
    else if Last(buf).time <= t then |buf| - 1
    else Latest(buf[..|buf| - 1], t)
  }

  function Lerp(a: real, b: real, w: real): real {
    a + (b - a) * w
  }

  function LerpPoint(a: Point, b: Point, w: real): Point {
    Point(Lerp(a.x, b.x, w), Lerp(a.y, b.y, w), Lerp(a.z, b.z, w))
  }

  function Moved(p: Point, v: Point, dt: real): Point {
    Point(p.x + v.x * dt, p.y + v.y * dt, p.z + v.z * dt)
  }

  function Held(s: Snapshot): Sample {
    Sample(true, s.pos, s.rot, false, false, s.pos)
  }

  function Extrapolated(s: Snapshot, cfg: Settings, t: real): Sample {
    var overshoot := Clamp(t - s.time, 0.0, cfg.extrapMax);
    Sample(true, Moved(s.pos, s.vel, overshoot), Moved(s.rot, s.angVel, overshoot), t - s.time > cfg.extrapMax, true,
        s.pos)
  }

  function Weight(s0: Snapshot, s1: Snapshot, t: real): real {
    var dt := s1.time - s0.time;
    if dt > 0.0 then Clamp((t - s0.time) / dt, 0.0, 1.0) else 0.0
  }

  function Interpolated(s0: Snapshot, s1: Snapshot, t: real, lerpAngle: (real, real, real) -> real): Sample {
    var w := Weight(s0, s1, t);
    Sample(true, LerpPoint(s0.pos, s1.pos, w),
           Point(lerpAngle(s0.rot.x, s1.rot.x, w), lerpAngle(s0.rot.y, s1.rot.y, w), lerpAngle(s0.rot.z, s1.rot.z, w)),
           false, false, s0.pos)
  }

  function Sampled(buf: seq<Snapshot>, cfg: Settings, t: real, lerpAngle: (real, real, real) -> real): Sample {
    if buf == [] then Sample(false, ZERO, ZERO, false, false, ZERO)
    else if |buf| == 1 then Held(buf[0])
    else
      var k := Latest(buf, t);
      if k == -1 then Held(buf[0])
      else if k >= |buf| - 1 then Extrapolated(Last(buf), cfg, t)
      else Interpolated(buf[k], buf[k + 1], t, lerpAngle)
  }

  // --- What a buffer always is ---

  ghost predicate Increasing(buf: seq<Snapshot>) {
    forall i, j | 0 <= i < j < |buf| :: buf[i].time < buf[j].time
  }

  /** Nothing in it is a teleport. */
  ghost predicate Close(buf: seq<Snapshot>, cfg: Settings) {
    forall k | 0 < k < |buf| :: DistSq(buf[k].pos, buf[k - 1].pos) <= cfg.teleportDistSq
  }

  datatype Op = Push(s: Snapshot) | Clear

  function BufferAfter(cfg: Settings, ops: seq<Op>): seq<Snapshot> {
    if ops == [] then []
    else
      match ops[|ops| - 1]
      case Push(s) => Pushed(BufferAfter(cfg, ops[..|ops| - 1]), cfg, s)
      case Clear => []
  }

  function HistoryAfter(cfg: Settings, ops: seq<Op>): seq<Snapshot> {
    if ops == [] then []
    else
      match ops[|ops| - 1]
      case Push(s) => Recorded(HistoryAfter(cfg, ops[..|ops| - 1]), cfg, s)
      case Clear => []
  }

  lemma {:induction false} HistoryInOrder(cfg: Settings, ops: seq<Op>)
    ensures Increasing(HistoryAfter(cfg, ops)) && Close(HistoryAfter(cfg, ops), cfg)
  {
    if ops != [] {
      HistoryInOrder(cfg, ops[..|ops| - 1]);
    }
  }

  predicate Tail<T(==)>(buf: seq<T>, history: seq<T>) {
    |buf| <= |history| && buf == history[|history| - |buf|..]
  }

  predicate Newest<T(==)>(buf: seq<T>, history: seq<T>, maxSize: int) {
    if maxSize < 1 then |buf| == 0
    else Tail(buf, history) && |buf| == if |history| <= maxSize then |history| else maxSize
  }

  lemma TailOn<T>(buf: seq<T>, history: seq<T>, s: T)
    requires Tail(buf, history)
    ensures Tail(buf + [s], history + [s]) && (buf != [] ==> Last(buf) == Last(history))
  {
    assert history == history[..|history| - |buf|] + buf;
    assert history + [s] == history[..|history| - |buf|] + (buf + [s]);
  }

  lemma TailLess<T>(buf: seq<T>, history: seq<T>)
    requires Tail(buf, history) && buf != []
    ensures Tail(buf[1..], history)
  {
  }

  lemma NewestOn<T>(buf: seq<T>, history: seq<T>, maxSize: int, late: bool, jumps: bool, s: T)
    requires Newest(buf, history, maxSize) && (late ==> history != [])
    ensures Newest(PushedOnto(buf, maxSize, late && buf != [], jumps && buf != [], s), Grown(history, late, jumps, s),
                maxSize)
  {
    if maxSize >= 1 {
      TailOn(buf, history, s);
      TailLess(buf + [s], history + [s]);
      assert Tail([s], [s]);
      hide Tail;
    }
  }

  lemma LastIsKept<T>(buf: seq<T>, history: seq<T>, maxSize: int)
    requires Newest(buf, history, maxSize)
    ensures buf != [] ==> history != [] && Last(buf) == Last(history)
  {
  }

  /** After any pushes and clears the buffer is the newest of the history since the last teleport, as
      many as fit. */
  lemma {:induction false} BufferIsNewest(cfg: Settings, ops: seq<Op>)
    ensures Newest(BufferAfter(cfg, ops), HistoryAfter(cfg, ops), cfg.maxSize)
  {
    hide DistSq;
    hide Grown;
    hide PushedOnto;
    assert Newest<Snapshot>([], [], cfg.maxSize);
    hide Newest;
    if ops != [] {
      var front, last := ops[..|ops| - 1], ops[|ops| - 1];
      BufferIsNewest(cfg, front);
      if last.Push? {
        LastIsKept(BufferAfter(cfg, front), HistoryAfter(cfg, front), cfg.maxSize);
        var history := HistoryAfter(cfg, front);
        NewestOn(BufferAfter(cfg, front), history, cfg.maxSize, Late(history, last.s), Jumps(history, cfg, last.s),
            last.s);
      }
    }
  }

  /** Times strictly increase, neighbours are no teleport apart, and no more than maxSize are kept. */
  lemma BufferInOrder(cfg: Settings, ops: seq<Op>)
    ensures var buf := BufferAfter(cfg, ops);
            Increasing(buf) && Close(buf, cfg) && |buf| <= if cfg.maxSize < 0 then 0 else cfg.maxSize
  {
    HistoryInOrder(cfg, ops);
    BufferIsNewest(cfg, ops);
    var buf, history := BufferAfter(cfg, ops), HistoryAfter(cfg, ops);
    forall k | 0 < k < |buf|
      ensures DistSq(buf[k].pos, buf[k - 1].pos) <= cfg.teleportDistSq
    {
      var j := |history| - |buf| + k;
      assert buf[k] == history[j] && buf[k - 1] == history[j - 1];
    }
  }

  /** Two snapshots are enough to sample as the whole history would, from the older one's time on. */
  lemma TailSamplesAlike(buf: seq<Snapshot>, history: seq<Snapshot>, cfg: Settings, t: real,
      lerpAngle: (real, real, real) -> real)
    requires Tail(buf, history) && |buf| >= 2 && Increasing(history) && buf[0].time <= t
    ensures Sampled(buf, cfg, t, lerpAngle) == Sampled(history, cfg, t, lerpAngle)
  {
    var before := |history| - |buf|;
    var k, j := Latest(buf, t), Latest(history, t);
    assert k >= 0;
    assert buf[k] == history[before + k];
    if k < |buf| - 1 {
      assert buf[k + 1] == history[before + k + 1];
    }
    assert j == before + k;
  }

  /** The buffer serves for the unbounded history at t: nothing is lost, and from its oldest snapshot on
      it samples the same. */
  ghost predicate Serves(cfg: Settings, ops: seq<Op>, t: real, lerpAngle: (real, real, real) -> real) {
    var buf, history := BufferAfter(cfg, ops), HistoryAfter(cfg, ops);
    && (buf == [] ==> history == [])
    && (buf != [] && buf[0].time <= t ==> Sampled(buf, cfg, t, lerpAngle) == Sampled(history, cfg, t, lerpAngle))
  }

  lemma TwoServe(cfg: Settings, ops: seq<Op>, t: real, lerpAngle: (real, real, real) -> real)
    requires cfg.maxSize >= 2
    ensures Serves(cfg, ops, t, lerpAngle)
  {
    HistoryInOrder(cfg, ops);
    BufferIsNewest(cfg, ops);
    var buf, history := BufferAfter(cfg, ops), HistoryAfter(cfg, ops);
    if |buf| >= 2 && buf[0].time <= t {
      TailSamplesAlike(buf, history, cfg, t, lerpAngle);
    } else if |buf| == |history| {
      assert buf == history;
    }
  }

  /** One is not: the second snapshot pushes the first out, and where the history would be extrapolating
      the buffer holds. */
  lemma OneDoesNot(cfg: Settings, lerpAngle: (real, real, real) -> real) returns (ops: seq<Op>, t: real)
    requires cfg.maxSize < 2 && cfg.teleportDistSq >= 0.0
    ensures !Serves(cfg, ops, t, lerpAngle)
  {
    var s0, s1 := Snapshot(0.0, ZERO, ZERO, ZERO, ZERO), Snapshot(1.0, ZERO, ZERO, ZERO, ZERO);
    ops, t := [Push(s0), Push(s1)], 1.0;
    TwoOfThem(cfg, s0, s1);
    BufferIsNewest(cfg, ops);
  }

  lemma TwoOfThem(cfg: Settings, s0: Snapshot, s1: Snapshot)
    requires s0.time < s1.time && s0.pos == s1.pos && cfg.teleportDistSq >= 0.0
    ensures HistoryAfter(cfg, [Push(s0), Push(s1)]) == [s0, s1]
  {
    assert [Push(s0), Push(s1)][..1] == [Push(s0)] && [Push(s0)][..0] == [];
    assert DistSq(s1.pos, s0.pos) == 0.0;
    assert HistoryAfter(cfg, [Push(s0)]) == [s0];
  }

  /** For every run of pushes and clears, and every time from the oldest snapshot kept: the bounded
      buffer serves for the unbounded history exactly when it has room for two. */
  lemma ServesIffTwo(cfg: Settings, lerpAngle: (real, real, real) -> real)
    requires cfg.teleportDistSq >= 0.0
    ensures (forall ops: seq<Op>, t: real :: Serves(cfg, ops, t, lerpAngle)) <==> cfg.maxSize >= 2
  {
    if cfg.maxSize >= 2 {
      forall ops: seq<Op>, t: real
        ensures Serves(cfg, ops, t, lerpAngle)
      {
        TwoServe(cfg, ops, t, lerpAngle);
      }
    } else {
      var ops, t := OneDoesNot(cfg, lerpAngle);
    }
  }

  // --- Continuity ---

  /** Between its two snapshots a time divides exactly, so the clamp is never reached. */
  lemma WeightInside(s0: Snapshot, s1: Snapshot, t: real)
    requires s0.time <= t <= s1.time && s0.time < s1.time
    ensures Weight(s0, s1, t) == (t - s0.time) / (s1.time - s0.time) && 0.0 <= Weight(s0, s1, t) <= 1.0
    ensures Weight(s0, s1, t) * (s1.time - s0.time) == t - s0.time
    ensures t == s1.time ==> Weight(s0, s1, t) == 1.0
  {
    Quotient(t - s0.time, s1.time - s0.time);
  }

  lemma Quotient(x: real, y: real)
    requires 0.0 <= x <= y && 0.0 < y
    ensures 0.0 <= x / y <= 1.0 && x / y * y == x && (x == y ==> x / y == 1.0)
  {
  }

  lemma ProductGrows(x: real, y: real, d: real)
    requires x <= y && 0.0 <= d
    ensures x * d <= y * d
  {
    ProductIsNatural(y - x, d);
  }

  lemma ProductAbs(x: real, d: real)
    requires 0.0 <= d
    ensures Abs(x * d) == Abs(x) * d
  {
    if x >= 0.0 {
      ProductIsNatural(x, d);
    } else {
      ProductIsNatural(-x, d);
    }
  }

  /** How far something no faster than slope may move from t to u. */
  function Reach(slope: real, t: real, u: real): real {
    slope * (u - t)
  }

  lemma ReachAdds(slope: real, t: real, m: real, u: real)
    requires 0.0 <= slope && t <= m <= u
    ensures Reach(slope, t, m) + Reach(slope, m, u) == Reach(slope, t, u) && 0.0 <= Reach(slope, t, u)
  {
    ProductIsNatural(slope, u - t);
  }

  /** A rise over a run, no steeper than slope. */
  predicate Gentle(rise: real, run: real, slope: real) {
    Abs(rise) <= slope * run
  }

  function Climbed(rise: real, w: real): real {
    rise * w
  }

  /** The weights at t and u, over a run, are as far apart as t and u. */
  predicate Apart(run: real, v: real, w: real, t: real, u: real) {
    v <= w && run * (w - v) == u - t
  }

  /** From weight v to weight w along a rise no steeper than slope. */
  lemma RiseIsGentle(rise: real, run: real, slope: real, v: real, w: real, t: real, u: real)
    requires Gentle(rise, run, slope) && Apart(run, v, w, t, u)
    ensures Abs(Climbed(rise, w) - Climbed(rise, v)) <= Reach(slope, t, u)
  {
    var d := w - v;
    ProductGrows(Abs(rise), slope * run, d);
    ProductAbs(rise, d);
    assert rise * w - rise * v == rise * d;
    assert slope * run * d == slope * (run * d);
  }

  function Coordinate(buf: seq<Snapshot>, cfg: Settings, t: real, lerpAngle: (real, real, real) -> real,
      axis: Axis): real {
    Along(Sampled(buf, cfg, t, lerpAngle).position, axis)
  }

  function RiseOf(buf: seq<Snapshot>, k: nat, axis: Axis): real
    requires k + 1 < |buf|
  {
    Along(buf[k + 1].pos, axis) - Along(buf[k].pos, axis)
  }

  lemma LerpIs(a: Point, b: Point, w: real, axis: Axis)
    ensures Along(LerpPoint(a, b, w), axis) == Along(a, axis) + Climbed(Along(b, axis) - Along(a, axis), w)
  {
  }

  lemma LerpEnds(a: real, b: real)
    ensures a + Climbed(b - a, 0.0) == a && a + Climbed(b - a, 1.0) == b
  {
  }

  lemma StandsStill(p: Point, v: Point)
    ensures Moved(p, v, 0.0) == p
  {
  }

  lemma LatestIs(buf: seq<Snapshot>, t: real, k: nat)
    requires Increasing(buf) && k < |buf| && buf[k].time <= t && (k + 1 < |buf| ==> t < buf[k + 1].time)
    ensures Latest(buf, t) == k
  {
  }

  /** At a snapshot's own time it is where that snapshot was. */
  lemma AtSnapshot(buf: seq<Snapshot>, cfg: Settings, k: nat, lerpAngle: (real, real, real) -> real, axis: Axis)
    requires Increasing(buf) && |buf| >= 2 && k < |buf| && cfg.extrapMax >= 0.0
    ensures Coordinate(buf, cfg, buf[k].time, lerpAngle, axis) == Along(buf[k].pos, axis)
  {
    LatestIs(buf, buf[k].time, k);
    if k + 1 < |buf| {
      WeightInside(buf[k], buf[k + 1], buf[k].time);
      LerpIs(buf[k].pos, buf[k + 1].pos, 0.0, axis);
      LerpEnds(Along(buf[k].pos, axis), Along(buf[k + 1].pos, axis));
      assert Weight(buf[k], buf[k + 1], buf[k].time) == 0.0;
    } else {
      StandsStill(buf[k].pos, buf[k].vel);
    }
  }

  /** Between two snapshots it is on the line between them, ends and all. */
  lemma OnSegment(buf: seq<Snapshot>, cfg: Settings, k: nat, t: real, lerpAngle: (real, real, real) -> real, axis: Axis)
    requires Increasing(buf) && k + 1 < |buf| && buf[k].time <= t <= buf[k + 1].time && cfg.extrapMax >= 0.0
    ensures Coordinate(buf, cfg, t, lerpAngle, axis)
            == Along(buf[k].pos, axis) + Climbed(RiseOf(buf, k, axis), Weight(buf[k], buf[k + 1], t))
  {
    WeightInside(buf[k], buf[k + 1], t);
    if t < buf[k + 1].time {
      LatestIs(buf, t, k);
      LerpIs(buf[k].pos, buf[k + 1].pos, Weight(buf[k], buf[k + 1], t), axis);
    } else {
      AtSnapshot(buf, cfg, k + 1, lerpAngle, axis);
      LerpEnds(Along(buf[k].pos, axis), Along(buf[k + 1].pos, axis));
    }
  }

  lemma SegmentIsGentle(buf: seq<Snapshot>, cfg: Settings, k: nat, t: real, u: real,
      lerpAngle: (real, real, real) -> real, axis: Axis, slope: real)
    requires Increasing(buf) && k + 1 < |buf| && buf[k].time <= t <= u <= buf[k + 1].time && cfg.extrapMax >= 0.0
    requires Gentle(RiseOf(buf, k, axis), buf[k + 1].time - buf[k].time, slope)
    ensures Abs(Coordinate(buf, cfg, u, lerpAngle, axis) - Coordinate(buf, cfg, t, lerpAngle, axis))
            <= Reach(slope, t, u)
  {
    OnSegment(buf, cfg, k, t, lerpAngle, axis);
    OnSegment(buf, cfg, k, u, lerpAngle, axis);
    WeightsApart(buf[k], buf[k + 1], t, u);
    RiseIsGentle(RiseOf(buf, k, axis), buf[k + 1].time - buf[k].time, slope,
                 Weight(buf[k], buf[k + 1], t), Weight(buf[k], buf[k + 1], u), t, u);
  }

  lemma WeightsApart(s0: Snapshot, s1: Snapshot, t: real, u: real)
    requires s0.time <= t <= u <= s1.time && s0.time < s1.time
    ensures Apart(s1.time - s0.time, Weight(s0, s1, t), Weight(s0, s1, u), t, u)
  {
    WeightInside(s0, s1, t);
    WeightInside(s0, s1, u);
    WeightsGrow(Weight(s0, s1, t), Weight(s0, s1, u), s1.time - s0.time, t - s0.time, u - s0.time);
  }

  lemma WeightsGrow(v: real, w: real, run: real, x: real, y: real)
    requires 0.0 < run && v * run == x && w * run == y && x <= y
    ensures v <= w && run * (w - v) == y - x
  {
    if v > w {
      Positive(v - w, run);
    }
  }

  lemma Positive(x: real, y: real)
    requires 0.0 < x && 0.0 < y
    ensures 0.0 < x * y
  {
  }

  /** Past the last snapshot it coasts, then stands. */
  lemma BeyondIsGentle(buf: seq<Snapshot>, cfg: Settings, t: real, u: real, lerpAngle: (real, real, real) -> real,
      axis: Axis, slope: real)
    requires Increasing(buf) && |buf| >= 2 && Last(buf).time <= t <= u && cfg.extrapMax >= 0.0
    requires Abs(Along(Last(buf).vel, axis)) <= slope
    ensures Abs(Coordinate(buf, cfg, u, lerpAngle, axis) - Coordinate(buf, cfg, t, lerpAngle, axis))
            <= Reach(slope, t, u)
  {
    Coasts(buf, cfg, t, lerpAngle, axis);
    Coasts(buf, cfg, u, lerpAngle, axis);
    var last := Last(buf);
    var v, w := Clamp(t - last.time, 0.0, cfg.extrapMax), Clamp(u - last.time, 0.0, cfg.extrapMax);
    CoastIsGentle(Along(last.vel, axis), slope, v, w, t, u);
  }

  lemma Coasts(buf: seq<Snapshot>, cfg: Settings, t: real, lerpAngle: (real, real, real) -> real, axis: Axis)
    requires Increasing(buf) && |buf| >= 2 && Last(buf).time <= t
    ensures Coordinate(buf, cfg, t, lerpAngle, axis) ==
              Along(Last(buf).pos, axis) + Climbed(Along(Last(buf).vel, axis),
                  Clamp(t - Last(buf).time, 0.0, cfg.extrapMax))
  {
    LatestIs(buf, t, |buf| - 1);
    MovedIs(Last(buf).pos, Last(buf).vel, Clamp(t - Last(buf).time, 0.0, cfg.extrapMax), axis);
  }

  lemma MovedIs(p: Point, v: Point, dt: real, axis: Axis)
    ensures Along(Moved(p, v, dt), axis) == Along(p, axis) + Climbed(Along(v, axis), dt)
  {
  }

  lemma CoastIsGentle(speed: real, slope: real, v: real, w: real, t: real, u: real)
    requires Abs(speed) <= slope && v <= w && w - v <= u - t
    ensures Abs(Climbed(speed, w) - Climbed(speed, v)) <= Reach(slope, t, u)
  {
    var d := w - v;
    ProductAbs(speed, d);
    ProductGrows(Abs(speed), slope, d);
    ProductGrows(d, u - t, slope);
    assert speed * w - speed * v == speed * d;
  }

  /** No stretch of the way is steeper, nor the speed after it greater. */
  ghost predicate NoSteeper(buf: seq<Snapshot>, axis: Axis, slope: real) {
    && 0.0 <= slope
    && (forall k | 0 <= k < |buf| - 1 :: Gentle(RiseOf(buf, k, axis), buf[k + 1].time - buf[k].time, slope))
    && (buf != [] ==> Abs(Along(Last(buf).vel, axis)) <= slope)
  }

  lemma Triangle(a: real, b: real, c: real, x: real, y: real)
    requires Abs(b - a) <= x && Abs(c - b) <= y
    ensures Abs(c - a) <= x + y
  {
  }

  lemma StandsThroughout(buf: seq<Snapshot>, cfg: Settings, t: real, u: real, lerpAngle: (real, real, real) -> real,
      axis: Axis)
    requires |buf| < 2
    ensures Coordinate(buf, cfg, u, lerpAngle, axis) == Coordinate(buf, cfg, t, lerpAngle, axis)
  {
  }

  lemma BeforeFirst(buf: seq<Snapshot>, cfg: Settings, t: real, lerpAngle: (real, real, real) -> real, axis: Axis)
    requires Increasing(buf) && |buf| >= 2 && t < buf[0].time
    ensures Coordinate(buf, cfg, t, lerpAngle, axis) == Along(buf[0].pos, axis)
  {
    assert Latest(buf, t) == -1;
  }

  /** The drawn position never jumps: along each axis, over the whole of time, it moves no faster than
      the steepest stretch between snapshots or the last velocity. */
  lemma {:induction false} PositionIsLipschitz(buf: seq<Snapshot>, cfg: Settings, t: real, u: real,
      lerpAngle: (real, real, real) -> real, axis: Axis, slope: real)
    requires Increasing(buf) && cfg.extrapMax >= 0.0 && NoSteeper(buf, axis, slope) && t <= u
    ensures Abs(Coordinate(buf, cfg, u, lerpAngle, axis) - Coordinate(buf, cfg, t, lerpAngle, axis))
            <= Reach(slope, t, u)
    decreases |buf| - Latest(buf, t)
  {
    hide Coordinate;
    ReachAdds(slope, t, t, u);
    if |buf| < 2 {
      StandsThroughout(buf, cfg, t, u, lerpAngle, axis);
      return;
    }
    var k := Latest(buf, t);
    if k == |buf| - 1 {
      BeyondIsGentle(buf, cfg, t, u, lerpAngle, axis, slope);
      return;
    }
    var next := buf[k + 1].time;
    LatestIs(buf, next, k + 1);
    var m := if next < u then next else u;
    ReachAdds(slope, t, t, m);
    if k >= 0 {
      SegmentIsGentle(buf, cfg, k, t, m, lerpAngle, axis, slope);
    } else {
      BeforeFirst(buf, cfg, t, lerpAngle, axis);
      if m == next {
        AtSnapshot(buf, cfg, 0, lerpAngle, axis);
      } else {
        BeforeFirst(buf, cfg, m, lerpAngle, axis);
      }
    }
    if m < u {
      ReachAdds(slope, t, m, u);
      PositionIsLipschitz(buf, cfg, m, u, lerpAngle, axis, slope);
      Triangle(Coordinate(buf, cfg, t, lerpAngle, axis), Coordinate(buf, cfg, m, lerpAngle, axis),
               Coordinate(buf, cfg, u, lerpAngle, axis), Reach(slope, t, m), Reach(slope, m, u));
    }
  }

  /** So no coordinate does. */
  lemma MovesNoFaster(buf: seq<Snapshot>, cfg: Settings, t: real, u: real, lerpAngle: (real, real, real) -> real,
      slopes: Point)
    requires Increasing(buf) && cfg.extrapMax >= 0.0 && t <= u
    requires NoSteeper(buf, X, slopes.x) && NoSteeper(buf, Y, slopes.y) && NoSteeper(buf, Z, slopes.z)
    ensures var p, q := Sampled(buf, cfg, t, lerpAngle).position, Sampled(buf, cfg, u, lerpAngle).position;
            && Abs(q.x - p.x) <= slopes.x * (u - t) && Abs(q.y - p.y) <= slopes.y * (u - t)
            && Abs(q.z - p.z) <= slopes.z * (u - t)
  {
    hide Sampled;
    hide NoSteeper;
    hide Increasing;
    PositionIsLipschitz(buf, cfg, t, u, lerpAngle, X, slopes.x);
    PositionIsLipschitz(buf, cfg, t, u, lerpAngle, Y, slopes.y);
    PositionIsLipschitz(buf, cfg, t, u, lerpAngle, Z, slopes.z);
  }

  // --- All of a sample ---

  /** With nothing there is nothing to draw. */
  lemma NothingYet(cfg: Settings, t: real, lerpAngle: (real, real, real) -> real)
    ensures var s := Sampled([], cfg, t, lerpAngle);
            !s.valid && !s.holding && !s.extrapolated && s.position == s.rotation == s.anchor == Point(0.0, 0.0, 0.0)
  {
  }

  /** The sample is a snapshot's own position and rotation, held. */
  predicate StandsAt(s: Sample, snapshot: Snapshot) {
    && s.valid && !s.holding && !s.extrapolated
    && s.position == snapshot.pos && s.rotation == snapshot.rot && s.anchor == snapshot.pos
  }

  /** One snapshot alone is where the entity stands, at every time; of two or more the first is until its own time
      has come. Neither is a guess, nor given up on. */
  lemma StandsAtFirst(buf: seq<Snapshot>, cfg: Settings, t: real, lerpAngle: (real, real, real) -> real)
    requires Increasing(buf) && buf != [] && (|buf| == 1 || t < buf[0].time)
    ensures StandsAt(Sampled(buf, cfg, t, lerpAngle), buf[0])
  {
    if |buf| > 1 {
      assert Latest(buf, t) == -1;
    }
  }

  /** Between two the position is a share of the way, the same along each axis, and the angles go by the same share;
      the share grows evenly from 0 to 1. The sample is no guess, and is anchored where it came from. */
  lemma SharesTheWay(buf: seq<Snapshot>, cfg: Settings, k: nat, t: real, lerpAngle: (real, real, real) -> real)
      returns (w: real)
    requires Increasing(buf) && k + 1 < |buf| && buf[k].time <= t < buf[k + 1].time
    ensures 0.0 <= w < 1.0 && w * (buf[k + 1].time - buf[k].time) == t - buf[k].time
    ensures var s, a, b := Sampled(buf, cfg, t, lerpAngle), buf[k], buf[k + 1];
            && s.valid && !s.holding && !s.extrapolated && s.anchor == a.pos
            && s.position == Point(a.pos.x + (b.pos.x - a.pos.x) * w, a.pos.y + (b.pos.y - a.pos.y) * w,
                                   a.pos.z + (b.pos.z - a.pos.z) * w)
            && s.rotation == Point(lerpAngle(a.rot.x, b.rot.x, w), lerpAngle(a.rot.y, b.rot.y, w),
                                   lerpAngle(a.rot.z, b.rot.z, w))
  {
    LatestIs(buf, t, k);
    WeightInside(buf[k], buf[k + 1], t);
    w := Weight(buf[k], buf[k + 1], t);
  }

  /** Past the last of two or more it is a guess: that snapshot carried on at its velocities for the time since, up to
      the cap. It is anchored there, and given up on exactly when more time than the cap has passed. */
  lemma CarriesOn(buf: seq<Snapshot>, cfg: Settings, t: real, lerpAngle: (real, real, real) -> real)
    requires Increasing(buf) && |buf| >= 2 && Last(buf).time <= t && cfg.extrapMax >= 0.0
    ensures var s, last := Sampled(buf, cfg, t, lerpAngle), Last(buf);
            var dt := if t - last.time > cfg.extrapMax then cfg.extrapMax else t - last.time;
            && s.valid && s.extrapolated && s.anchor == last.pos && (s.holding <==> t - last.time > cfg.extrapMax)
            && s.position == Point(last.pos.x + last.vel.x * dt, last.pos.y + last.vel.y * dt,
                                   last.pos.z + last.vel.z * dt)
            && s.rotation == Point(last.rot.x + last.angVel.x * dt, last.rot.y + last.angVel.y * dt,
                                   last.rot.z + last.angVel.z * dt)
  {
    LatestIs(buf, t, |buf| - 1);
  }

  lemma SquareScales(x: real, r: real, w: real)
    requires x == r * w
    ensures Square(x) == Square(w) * Square(r)
  {
  }

  lemma SquareShrinks(w: real)
    requires 0.0 <= w <= 1.0
    ensures 0.0 <= Square(w) <= 1.0
  {
    SquareIsNatural(w);
    ProductIsNatural(w, 1.0 - w);
    assert w * (1.0 - w) == w - w * w;
  }

  /** Part of the way to b is no further from a than b is. */
  lemma PartOfTheWay(a: Point, b: Point, w: real)
    requires 0.0 <= w <= 1.0
    ensures DistSq(LerpPoint(a, b, w), a) <= DistSq(b, a)
  {
    SquareShrinks(w);
    PartOfAnAxis(a.x, b.x, w);
    PartOfAnAxis(a.y, b.y, w);
    PartOfAnAxis(a.z, b.z, w);
  }

  lemma PartOfAnAxis(a: real, b: real, w: real)
    requires 0.0 <= Square(w) <= 1.0
    ensures Square(Lerp(a, b, w) - a) <= Square(b - a)
  {
    SquareScales(Lerp(a, b, w) - a, b - a, w);
    SquareIsNatural(b - a);
    ProductGrows(Square(w), 1.0, Square(b - a));
  }

  lemma SquareIsNatural(x: real)
    ensures 0.0 <= Square(x)
  {
    if x >= 0.0 {
      ProductIsNatural(x, x);
    } else {
      ProductIsNatural(-x, -x);
    }
  }

  /** A bracketed sample lies between two real snapshots: it is not a guess, and it is no further from its
      anchor than a teleport would be. */
  lemma BracketedStaysClose(buf: seq<Snapshot>, cfg: Settings, t: real, lerpAngle: (real, real, real) -> real)
    requires Increasing(buf) && Close(buf, cfg) && |buf| >= 2 && 0 <= Latest(buf, t) < |buf| - 1
    ensures var s := Sampled(buf, cfg, t, lerpAngle);
            && s.valid && !s.holding && !s.extrapolated && s.anchor == buf[Latest(buf, t)].pos
            && DistSq(s.position, s.anchor) <= cfg.teleportDistSq
  {
    var k := Latest(buf, t);
    WeightInside(buf[k], buf[k + 1], t);
    PartOfTheWay(buf[k].pos, buf[k + 1].pos, Weight(buf[k], buf[k + 1], t));
    BracketIs(buf, cfg, t, lerpAngle);
  }

  lemma BracketIs(buf: seq<Snapshot>, cfg: Settings, t: real, lerpAngle: (real, real, real) -> real)
    requires |buf| >= 2 && 0 <= Latest(buf, t) < |buf| - 1
    ensures var k := Latest(buf, t);
            var s := Sampled(buf, cfg, t, lerpAngle);
            && s.valid && !s.holding && !s.extrapolated && s.anchor == buf[k].pos
            && s.position == LerpPoint(buf[k].pos, buf[k + 1].pos, Weight(buf[k], buf[k + 1], t))
  {
  }

  // --- The object ---

  class Buffer {
    const cfg: Settings
    var buf: seq<Snapshot>

    constructor (cfg: Settings)
      ensures this.cfg == cfg && buf == []
    {
      this.cfg := cfg;
      buf := [];
    }

    method LastTime() returns (t: Option<real>)
      ensures t == if buf == [] then None else Some(Last(buf).time)
    {
      t := if buf != [] then Some(buf[|buf| - 1].time) else None;
    }

    method ClearAll()
      modifies this`buf
      ensures buf == []
    {
      buf := [];
    }

    /** Take in one snapshot: late ones are dropped, and a teleport drops what was before it. */
    method PushSnapshot(s: Snapshot)
      modifies this`buf
      ensures buf == Pushed(old(buf), cfg, s)
    {
      var last := LastTime();
      if last.Some? && s.time <= last.value {
        return;
      }
      if buf != [] && DistSq(s.pos, buf[|buf| - 1].pos) > cfg.teleportDistSq {
        buf := [];
      }
      buf := buf + [s];
      if |buf| > cfg.maxSize {
        buf := buf[1..];
      }
    }

    /** Where the entity is drawn at t. */
    method SampleAt(t: real, lerpAngle: (real, real, real) -> real) returns (sample: Sample)
      ensures sample == Sampled(buf, cfg, t, lerpAngle)
    {
      if buf == [] {
        return Sample(false, ZERO, ZERO, false, false, ZERO);
      }
      if |buf| == 1 {
        return Held(buf[0]);
      }
      var k := |buf| - 1;
      while k >= 0 && buf[k].time > t
        invariant -1 <= k < |buf|
        invariant forall i | k < i < |buf| :: buf[i].time > t
      {
        k := k - 1;
      }
      LatestIsUnique(buf, t, k);
      if k == -1 {
        return Held(buf[0]);
      }
      if k >= |buf| - 1 {
        return Extrapolated(buf[|buf| - 1], cfg, t);
      }
      sample := Interpolated(buf[k], buf[k + 1], t, lerpAngle);
    }
  }

  lemma LatestIsUnique(buf: seq<Snapshot>, t: real, k: int)
    requires -1 <= k < |buf| && (k >= 0 ==> buf[k].time <= t) && forall i | k < i < |buf| :: buf[i].time > t
    ensures Latest(buf, t) == k
  {
  }
}
