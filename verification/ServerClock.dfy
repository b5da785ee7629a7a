/** The client's estimate of the server's clock. Each observation bounds the true offset from below by
    the delay it took; the largest recent one is the target, and the applied offset follows it at a
    bounded rate. Milliseconds are reals; local time and frame times are given with each call. */
module ServerClock {
  import opened Options
  import opened Reals

  datatype Config = Config(window: real, rate: real, slew: real, snap: real) {
    predicate Sane() {
      window >= 0.0 && rate >= 0.0 && slew >= 0.0 && snap >= 0.0
    }
  }

  datatype Sample = Sample(at: real, candidate: real)

  /** history is every observation accepted since the last reset; samples is what is kept of it. */
  datatype Clock = Clock(offset: real, initialized: bool, lastServer: int, samples: seq<Sample>, history: seq<Sample>)

  const Unsynced := Clock(0.0, false, -1, [], [])

  // --- The window ---

  /** Without the old ones at the front, but for the last. */
  function Pruned(samples: seq<Sample>, cutoff: real): seq<Sample> {
    if |samples| > 1 && samples[0].at < cutoff then Pruned(samples[1..], cutoff) else samples
  }

  function Observed(c: Clock, cfg: Config, server: int, local: int): Clock {
    if server <= c.lastServer then c
    else
      var s := Sample(local as real, (server - local) as real);
      Clock(if c.initialized then c.offset else s.candidate, true, server,
            Pruned(c.samples + [s], local as real - cfg.window), c.history + [s])
  }

  /** The largest candidate. */
  function Best(samples: seq<Sample>): (best: Option<real>)
    ensures best.Some? <==> samples != []
    ensures forall s | s in samples :: s.candidate <= best.value
    ensures best.Some? ==> exists s | s in samples :: s.candidate == best.value
  {
    if samples == [] then None
    else
      match Best(samples[..|samples| - 1])
      case None => Some(samples[|samples| - 1].candidate)
      case Some(best) => Some(if samples[|samples| - 1].candidate > best then samples[|samples| - 1].candidate
          else best)
  }

  // --- The applied offset ---

  /** What one frame may do: close this share of the gap, and move this far at most. */
  datatype Frame = Frame(gain: real, cap: real) {
    predicate Fair() {
      0.0 <= gain <= 1.0 && 0.0 <= cap
    }
  }

  function FrameOf(cfg: Config, delta: real): Frame {
    Frame(Clamp(cfg.rate * delta, 0.0, 1.0), cfg.slew * delta)
  }

  function Step(diff: real, f: Frame): real {
    Clamp(diff * f.gain, -f.cap, f.cap)
  }

  /** One frame's correction toward the target. */
  function Corrected(offset: real, target: real, snap: real, f: Frame): real {
    if Abs(target - offset) > snap then target else offset + Step(target - offset, f)
  }

  function Advanced(c: Clock, cfg: Config, delta: real): Clock {
    if !c.initialized || c.samples == [] then c
    else c.(offset := Corrected(c.offset, Best(c.samples).value, cfg.snap, FrameOf(cfg, delta)))
  }

  // --- What the window keeps ---

  predicate InOrder(history: seq<Sample>) {
    forall i, j | 0 <= i < j < |history| :: history[i].at <= history[j].at
  }

  /** samples is the end of history, cut where the window is: the newest stays whatever its age. */
  predicate Windowed(samples: seq<Sample>, history: seq<Sample>, window: real) {
    && |samples| <= |history| && samples == history[|history| - |samples|..]
    && (history != [] ==> samples != [])
    && InOrder(history)
    && (history != [] ==> Cut(history, |history| - |samples|, history[|history| - 1].at - window))
  }

  /** The first n are those before the cutoff, the newest aside. */
  predicate Cut(history: seq<Sample>, n: int, cutoff: real) {
    forall i | 0 <= i < |history| :: i < n <==> i < |history| - 1 && history[i].at < cutoff
  }

  ghost predicate ClockInv(c: Clock, cfg: Config) {
    Windowed(c.samples, c.history, cfg.window) && (c.initialized <==> c.history != [])
  }

  lemma {:induction false} PrunedIs(samples: seq<Sample>, cutoff: real)
    requires InOrder(samples)
    ensures var kept := Pruned(samples, cutoff);
            && |kept| <= |samples| && kept == samples[|samples| - |kept|..] && (samples != [] ==> kept != [])
            && Cut(samples, |samples| - |kept|, cutoff)
  {
    hide Cut;
    hide InOrder;
    if |samples| > 1 && samples[0].at < cutoff {
      RestIsInOrder(samples, 1);
      var kept := Pruned(samples[1..], cutoff);
      assert Pruned(samples, cutoff) == kept;
      hide Pruned;
      PrunedIs(samples[1..], cutoff);
      RestOfRest(samples, 1, |kept|);
      CutFurther(samples, 1, |kept|, cutoff);
    } else {
      NoneCut(samples, cutoff);
    }
  }

  lemma NoneCut(samples: seq<Sample>, cutoff: real)
    requires InOrder(samples) && (|samples| > 1 ==> samples[0].at >= cutoff)
    ensures Cut(samples, 0, cutoff)
  {
  }

  /** Cut the rest, and with what is before it the whole is cut. */
  lemma CutFurther(all: seq<Sample>, before: nat, left: nat, cutoff: real)
    requires before < |all| && left <= |all| - before && Cut(all[before..], |all| - before - left, cutoff)
    requires forall i | 0 <= i < before :: all[i].at < cutoff
    ensures Cut(all, |all| - left, cutoff)
  {
    forall i | 0 <= i < |all|
      ensures i < |all| - left <==> i < |all| - 1 && all[i].at < cutoff
    {
      if i >= before {
        assert all[before..][i - before] == all[i];
      }
    }
  }

  lemma LaterIsInOrder(history: seq<Sample>, s: Sample)
    requires InOrder(history) && (history != [] ==> history[|history| - 1].at <= s.at)
    ensures InOrder(history + [s])
  {
  }

  lemma RestIsInOrder(history: seq<Sample>, before: nat)
    requires InOrder(history) && before <= |history|
    ensures InOrder(history[before..])
  {
  }

  lemma CutBefore(history: seq<Sample>, s: Sample, n: nat, window: real)
    requires history != [] && n <= |history| && Cut(history, n, history[|history| - 1].at - window)
             && history[|history| - 1].at <= s.at
    ensures forall i | 0 <= i < n :: (history + [s])[i].at < s.at - window
  {
  }

  lemma RestOfRest(all: seq<Sample>, before: nat, left: nat)
    requires before + left <= |all|
    ensures all[before..][|all| - before - left..] == all[|all| - left..]
  {
  }

  /** Pruning all but the first few, which are before the cutoff, is pruning all. */
  lemma PrunedRest(all: seq<Sample>, before: nat, cutoff: real)
    requires before < |all| && InOrder(all) && forall i | 0 <= i < before :: all[i].at < cutoff
    ensures var kept := Pruned(all[before..], cutoff);
            |kept| <= |all| && kept == all[|all| - |kept|..] && kept != [] && Cut(all, |all| - |kept|, cutoff)
  {
    hide Pruned;
    hide InOrder;
    hide Cut;
    var kept := Pruned(all[before..], cutoff);
    RestIsInOrder(all, before);
    PrunedIs(all[before..], cutoff);
    CutFurther(all, before, |kept|, cutoff);
    RestOfRest(all, before, |kept|);
  }

  /** The window moves on over one more sample. */
  lemma WindowMoves(samples: seq<Sample>, history: seq<Sample>, s: Sample, window: real)
    requires Windowed(samples, history, window) && (history != [] ==> history[|history| - 1].at <= s.at)
    ensures Windowed(Pruned(samples + [s], s.at - window), history + [s], window)
  {
    hide Pruned;
    hide InOrder;
    hide Cut;
    var all, before := history + [s], |history| - |samples|;
    LaterIsInOrder(history, s);
    if history != [] {
      CutBefore(history, s, before, window);
    }
    assert samples + [s] == all[before..];
    PrunedRest(all, before, s.at - window);
    assert all[|all| - 1] == s;
  }

  predicate InWindow(history: seq<Sample>, cfg: Config, i: int)
    requires 0 <= i < |history|
  {
    i == |history| - 1 || history[i].at >= history[|history| - 1].at - cfg.window
  }

  lemma WindowIsKept(c: Clock, cfg: Config, i: int)
    requires ClockInv(c, cfg) && 0 <= i < |c.history|
    ensures InWindow(c.history, cfg, i) <==> |c.history| - |c.samples| <= i
    ensures InWindow(c.history, cfg, i) ==> c.history[i] in c.samples
  {
    if |c.history| - |c.samples| <= i {
      assert c.samples[i - (|c.history| - |c.samples|)] == c.history[i];
    }
  }

  lemma KeptIsWindow(c: Clock, cfg: Config, s: Sample) returns (i: nat)
    requires ClockInv(c, cfg) && s in c.samples
    ensures i < |c.history| && InWindow(c.history, cfg, i) && c.history[i] == s
  {
    var k :| 0 <= k < |c.samples| && c.samples[k] == s;
    i := |c.history| - |c.samples| + k;
  }

  lemma TargetIsHistoryMax(c: Clock, cfg: Config)
    requires ClockInv(c, cfg) && c.initialized
    ensures Best(c.samples).Some?
    ensures forall i | 0 <= i < |c.history| && InWindow(c.history, cfg, i) ::
            c.history[i].candidate <= Best(c.samples).value
    ensures exists i ::
              0 <= i < |c.history| && InWindow(c.history, cfg, i) && c.history[i].candidate == Best(c.samples).value
  {
    forall i | 0 <= i < |c.history| && InWindow(c.history, cfg, i)
      ensures c.history[i].candidate <= Best(c.samples).value
    {
      WindowIsKept(c, cfg, i);
    }
    assert Windowed(c.samples, c.history, cfg.window) && Best(c.samples).Some?;
    var s :| s in c.samples && s.candidate == Best(c.samples).value;
    var i := KeptIsWindow(c, cfg, s);
  }

  // --- The controller ---

  lemma FrameIsFair(cfg: Config, delta: real)
    requires cfg.Sane() && delta >= 0.0
    ensures FrameOf(cfg, delta).Fair()
  {
    ProductIsNatural(cfg.slew, delta);
  }

  function Gap(offset: real, target: real): real {
    Abs(target - offset)
  }

  /** What a frame takes off a gap of this size: the cap, or its share if that is less. */
  function Taken(gap: real, f: Frame): real {
    Least(Share(gap, f), f.cap)
  }

  function Share(gap: real, f: Frame): real {
    gap * f.gain
  }

  function Least(x: real, y: real): real {
    if x <= y then x else y
  }

  lemma StepTakes(diff: real, f: Frame)
    requires f.Fair()
    ensures Abs(Step(diff, f)) == Taken(Abs(diff), f) && 0.0 <= Taken(Abs(diff), f) <= Abs(diff)
            && Abs(Step(diff, f)) <= f.cap
    ensures if diff >= 0.0 then 0.0 <= Step(diff, f) <= diff else diff <= Step(diff, f) <= 0.0
  {
    var x, k := Abs(diff), f.gain;
    ProductIsNatural(x, k);
    ProductIsNatural(x, 1.0 - k);
    assert x * (1.0 - k) == x - x * k;
    assert diff * k == if diff >= 0.0 then x * k else -(x * k);
  }

  /** A frame never overshoots. Within the snap threshold it takes its cap off the gap, or its share;
      beyond it, the gap closes at once. */
  lemma CorrectedGap(offset: real, target: real, snap: real, f: Frame)
    requires f.Fair() && snap >= 0.0
    ensures var offset' := Corrected(offset, target, snap, f);
            var gap, gap' := Gap(offset, target), Gap(offset', target);
            && (if offset <= target then offset <= offset' <= target else target <= offset' <= offset)
            && gap' == (if gap > snap then 0.0 else gap - Taken(gap, f))
            && (gap <= snap ==> Abs(offset' - offset) <= f.cap)
  {
    StepTakes(target - offset, f);
  }

  /** What a frame of a given length does: past the threshold the whole gap is gone; within it, the share of it that
      the rate makes of the time, all of it at most, or the slew of that time if that is less. */
  lemma FrameTakes(c: Clock, cfg: Config, delta: real)
    requires cfg.Sane() && delta >= 0.0 && c.initialized && c.samples != []
    ensures var target, offset' := Best(c.samples).value, Advanced(c, cfg, delta).offset;
            var gap := Abs(target - c.offset);
            Abs(target - offset') ==
              if gap > cfg.snap then 0.0
              else gap - Least(Mul(gap, Least(Mul(cfg.rate, delta), 1.0)), Mul(cfg.slew, delta))
  {
    var f := FrameOf(cfg, delta);
    FrameIs(cfg, delta);
    FrameIsFair(cfg, delta);
    hide Mul;
    hide FrameOf;
    hide Corrected;
    hide Taken;
    CorrectedGap(c.offset, Best(c.samples).value, cfg.snap, f);
    TakesLeast(Gap(c.offset, Best(c.samples).value), f, Least(Mul(cfg.rate, delta), 1.0), Mul(cfg.slew, delta));
  }

  lemma FrameIs(cfg: Config, delta: real)
    requires cfg.Sane() && delta >= 0.0
    ensures FrameOf(cfg, delta) == Frame(Least(Mul(cfg.rate, delta), 1.0), Mul(cfg.slew, delta))
  {
    ProductIsNatural(cfg.rate, delta);
  }

  lemma TakesLeast(gap: real, f: Frame, gain: real, cap: real)
    requires f == Frame(gain, cap)
    ensures Taken(gap, f) == Least(Mul(gap, gain), cap)
  {
  }

  // --- Any interleaving ---

  datatype Call = Sampling(server: int, local: int) | Advancing(delta: real) | Resetting

  function Called(c: Clock, cfg: Config, call: Call): Clock {
    match call
    case Sampling(server, local) => Observed(c, cfg, server, local)
    case Advancing(delta) => Advanced(c, cfg, delta)
    case Resetting => Unsynced
  }

  function After(cfg: Config, calls: seq<Call>): Clock {
    if calls == [] then Unsynced else Called(After(cfg, calls[..|calls| - 1]), cfg, calls[|calls| - 1])
  }

  /** Local time does not go back, and no frame is negative. */
  predicate Timely(calls: seq<Call>) {
    && (forall i, j | 0 <= i < j < |calls| && calls[i].Sampling? && calls[j].Sampling? ::
        calls[i].local <= calls[j].local)
    && (forall i | 0 <= i < |calls| && calls[i].Advancing? :: calls[i].delta >= 0.0)
  }

  /** The times in the history are those of its calls. */
  lemma {:induction false} HistoryIsCalled(cfg: Config, calls: seq<Call>, s: Sample) returns (k: nat)
    requires s in After(cfg, calls).history
    ensures k < |calls| && calls[k].Sampling? && s.at == calls[k].local as real
  {
    var front, last := calls[..|calls| - 1], calls[|calls| - 1];
    if s in After(cfg, front).history && !last.Resetting? {
      k := HistoryIsCalled(cfg, front, s);
    } else {
      k := |calls| - 1;
    }
  }

  lemma AdvancedKeeps(c: Clock, cfg: Config, delta: real)
    requires ClockInv(c, cfg)
    ensures ClockInv(Advanced(c, cfg, delta), cfg)
  {
    hide Windowed;
  }

  lemma UnsyncedIsKept(cfg: Config)
    ensures ClockInv(Unsynced, cfg)
  {
  }

  /** Every call sequence keeps the window cut from the history. */
  lemma {:induction false} RunKeepsWindow(cfg: Config, calls: seq<Call>)
    requires Timely(calls)
    ensures ClockInv(After(cfg, calls), cfg)
  {
    hide Pruned;
    hide Windowed;
    hide Advanced;
    UnsyncedIsKept(cfg);
    if calls != [] {
      var front, last := calls[..|calls| - 1], calls[|calls| - 1];
      var c := After(cfg, front);
      RunKeepsWindow(cfg, front);
      if last.Advancing? {
        AdvancedKeeps(c, cfg, last.delta);
      } else if last.Sampling? {
        if c.history != [] {
          var k := HistoryIsCalled(cfg, front, c.history[|c.history| - 1]);
          assert calls[k] == front[k];
        }
        if last.server > c.lastServer {
          var s := Sample(last.local as real, (last.server - last.local) as real);
          WindowMoves(c.samples, c.history, s, cfg.window);
        }
      }
    }
  }

  // --- What is accepted ---

  /** The calls since the last reset. */
  function SinceReset(calls: seq<Call>): seq<Call> {
    if calls == [] then []
    else if calls[|calls| - 1].Resetting? then []
    else SinceReset(calls[..|calls| - 1]) + [calls[|calls| - 1]]
  }

  /** The k-th observed a server time later than every one before. */
  predicate News(calls: seq<Call>, k: nat)
    requires k < |calls|
  {
    && calls[k].Sampling? && calls[k].server >= 0
    && forall j | 0 <= j < k && calls[j].Sampling? :: calls[j].server < calls[k].server
  }

  /** What the observations with news in them saw: when, and by how much the server's clock was ahead. */
  function AllNews(calls: seq<Call>): seq<Sample> {
    if calls == [] then []
    else
      var n := |calls| - 1;
      AllNews(calls[..n]) +
      if News(calls, n) then [Sample(calls[n].local as real, (calls[n].server - calls[n].local) as real)] else []
  }

  ghost predicate LastIsLatest(c: Clock, calls: seq<Call>) {
    && c.lastServer >= -1
    && (forall k | 0 <= k < |calls| && calls[k].Sampling? :: calls[k].server <= c.lastServer || calls[k].server < 0)
    && (c.lastServer >= 0 ==> exists k :: 0 <= k < |calls| && calls[k].Sampling? && calls[k].server == c.lastServer)
  }

  lemma {:induction false} LastServerIs(cfg: Config, calls: seq<Call>)
    ensures LastIsLatest(After(cfg, calls), SinceReset(calls))
  {
    hide Pruned;
    hide Advanced;
    if calls != [] {
      var front, last := calls[..|calls| - 1], calls[|calls| - 1];
      LastServerIs(cfg, front);
      LastStays(cfg, After(cfg, front), last, SinceReset(front));
    }
  }

  lemma LastStays(cfg: Config, c: Clock, call: Call, calls: seq<Call>)
    requires LastIsLatest(c, calls)
    ensures LastIsLatest(Called(c, cfg, call), if call.Resetting? then [] else calls + [call])
  {
    hide Pruned;
    if !call.Resetting? {
      var all := calls + [call];
      assert all[|calls|] == call && forall k | 0 <= k < |calls| :: all[k] == calls[k];
    }
  }

  /** Whatever calls came, what was accepted is exactly what had news since the last reset: nothing late or
      repeated, and nothing else left out. */
  lemma {:induction false} HistoryIsNews(cfg: Config, calls: seq<Call>)
    ensures After(cfg, calls).history == AllNews(SinceReset(calls))
  {
    hide Pruned;
    hide Advanced;
    if calls != [] {
      var front, last := calls[..|calls| - 1], calls[|calls| - 1];
      HistoryIsNews(cfg, front);
      LastServerIs(cfg, front);
      if !last.Resetting? {
        var since := SinceReset(front);
        assert (since + [last])[..|since|] == since;
        NewsIsLater(After(cfg, front), since, last);
        OnlyOffset(After(cfg, front), cfg, last);
      }
    }
  }

  lemma NewsIsLater(c: Clock, calls: seq<Call>, last: Call)
    requires LastIsLatest(c, calls)
    ensures News(calls + [last], |calls|) <==> last.Sampling? && last.server > c.lastServer
  {
    var all := calls + [last];
    assert all[|calls|] == last && forall k | 0 <= k < |calls| :: all[k] == calls[k];
    if c.lastServer >= 0 {
      var k :| 0 <= k < |calls| && calls[k].Sampling? && calls[k].server == c.lastServer;
      assert all[k] == calls[k];
    }
  }

  lemma OnlyOffset(c: Clock, cfg: Config, call: Call)
    ensures call.Advancing? ==> Called(c, cfg, call).history == c.history
  {
  }

  /** After any calls the target is the largest candidate of all that had news since the last reset within the
      window of the newest, though most of that was dropped long ago. */
  lemma TargetIsWindowMax(cfg: Config, calls: seq<Call>)
    requires Timely(calls)
    ensures var best, news := Best(After(cfg, calls).samples), AllNews(SinceReset(calls));
            && (best.Some? <==> news != []) && (After(cfg, calls).initialized <==> news != [])
            && (best.Some? ==>
                  && (forall i | 0 <= i < |news| && InWindow(news, cfg, i) :: news[i].candidate <= best.value)
                  && exists i :: 0 <= i < |news| && InWindow(news, cfg, i) && news[i].candidate == best.value)
  {
    hide Windowed;
    hide AllNews;
    HistoryIsNews(cfg, calls);
    RunKeepsWindow(cfg, calls);
    var c := After(cfg, calls);
    if c.initialized {
      TargetIsHistoryMax(c, cfg);
    } else {
      NoneKept(c, cfg);
    }
  }

  lemma NoneKept(c: Clock, cfg: Config)
    requires ClockInv(c, cfg) && !c.initialized
    ensures c.history == [] && c.samples == []
  {
  }

  ghost predicate Between(history: seq<Sample>, low: real, high: real) {
    forall s | s in history :: low <= s.candidate <= high
  }

  lemma AdvancedInHull(c: Clock, cfg: Config, delta: real, low: real, high: real)
    requires cfg.Sane() && delta >= 0.0 && ClockInv(c, cfg) && c.initialized
    requires Between(c.history, low, high) && low <= c.offset <= high
    ensures low <= Advanced(c, cfg, delta).offset <= high
  {
    hide FrameOf;
    hide ClockInv;
    TargetIsHistoryMax(c, cfg);
    FrameIsFair(cfg, delta);
    CorrectedGap(c.offset, Best(c.samples).value, cfg.snap, FrameOf(cfg, delta));
  }

  /** Whatever calls came, in whatever order, the applied offset lies within the candidates accepted since
      the last reset. */
  lemma {:induction false} OffsetInHull(cfg: Config, calls: seq<Call>, low: real, high: real)
    requires cfg.Sane() && Timely(calls) && Between(After(cfg, calls).history, low, high)
    ensures After(cfg, calls).initialized ==> low <= After(cfg, calls).offset <= high
  {
    hide FrameOf;
    hide ClockInv;
    hide Pruned;
    if calls != [] {
      var front, last := calls[..|calls| - 1], calls[|calls| - 1];
      var c := After(cfg, front);
      RunKeepsWindow(cfg, front);
      if !last.Resetting? {
        assert forall s | s in c.history :: s in After(cfg, calls).history;
        OffsetInHull(cfg, front, low, high);
      }
      match last
      case Sampling(server, local) =>
        assert server > c.lastServer ==> Sample(local as real, (server - local) as real) in After(cfg, calls).history;
      case Advancing(delta) =>
        if c.initialized {
          AdvancedInHull(c, cfg, delta, low, high);
        }
      case Resetting =>
    }
  }

  function NowMs(c: Clock, local: int): real {
    if c.initialized then local as real + c.offset else local as real
  }

  /** If every observation took at most d to arrive, the estimate is never ahead of the server's clock
      and at most d behind it. */
  lemma NeverAhead(cfg: Config, calls: seq<Call>, truth: real, d: real, local: int)
    requires cfg.Sane() && Timely(calls) && After(cfg, calls).initialized
    requires Between(After(cfg, calls).history, truth - d, truth)
    ensures local as real + truth - d <= NowMs(After(cfg, calls), local) <= local as real + truth
  {
    OffsetInHull(cfg, calls, truth - d, truth);
  }

  // --- Convergence, and the timeline ---

  function OffsetAfter(offset: real, target: real, snap: real, frames: seq<Frame>): real {
    if frames == [] then offset
    else Corrected(OffsetAfter(offset, target, snap, frames[..|frames| - 1]), target, snap, frames[|frames| - 1])
  }

  lemma Monotone(x: real, y: real, z: real)
    requires x <= y && 0.0 <= z
    ensures x * z <= y * z && z * x <= z * y
  {
    ProductIsNatural(y - x, z);
  }

  predicate NoLess(g: Frame, f: Frame) {
    g.Fair() && f.Fair() && g.gain >= f.gain && g.cap >= f.cap
  }

  /** No frame does less than f. */
  predicate AtLeast(frames: seq<Frame>, f: Frame) {
    f.Fair() && forall k | 0 <= k < |frames| :: NoLess(frames[k], f)
  }

  lemma GainGrows(cfg: Config, d: real, delta: real)
    requires cfg.Sane() && d <= delta
    ensures FrameOf(cfg, delta).gain >= FrameOf(cfg, d).gain
  {
    Monotone(d, delta, cfg.rate);
  }

  lemma CapGrows(cfg: Config, d: real, delta: real)
    requires cfg.Sane() && d <= delta
    ensures FrameOf(cfg, delta).cap >= FrameOf(cfg, d).cap
  {
    Monotone(d, delta, cfg.slew);
  }

  /** Longer frames do no less. */
  lemma LongerFrames(cfg: Config, d: real, delta: real, f: Frame, g: Frame)
    requires cfg.Sane() && 0.0 <= d <= delta && f == FrameOf(cfg, d) && g == FrameOf(cfg, delta)
    ensures NoLess(g, f)
  {
    hide FrameOf;
    FrameIsFair(cfg, d);
    FrameIsFair(cfg, delta);
    GainGrows(cfg, d, delta);
    CapGrows(cfg, d, delta);
  }

  lemma TakesMore(gap: real, g: Frame, eps: real, f: Frame)
    requires NoLess(g, f) && eps <= gap && 0.0 <= gap
    ensures Taken(gap, g) >= Taken(eps, f)
  {
    hide Share;
    ShareGrows(eps, gap, f);
    SharesGrow(gap, f, g);
  }

  lemma ShareGrows(eps: real, gap: real, f: Frame)
    requires f.Fair() && eps <= gap
    ensures Share(eps, f) <= Share(gap, f)
  {
    ProductIsNatural(gap - eps, f.gain);
    assert (gap - eps) * f.gain == gap * f.gain - eps * f.gain;
  }

  lemma SharesGrow(gap: real, f: Frame, g: Frame)
    requires 0.0 <= gap && f.gain <= g.gain
    ensures Share(gap, f) <= Share(gap, g)
  {
    ProductIsNatural(gap, g.gain - f.gain);
    assert gap * (g.gain - f.gain) == gap * g.gain - gap * f.gain;
  }

  function Times(n: nat, share: real): real {
    n as real * share
  }

  lemma OneMoreTime(n: nat, share: real)
    ensures Times(n + 1, share) == Times(n, share) + share && Times(0, share) == 0.0
  {
  }

  lemma {:induction false} Descends(gaps: seq<real>, eps: real, share: real)
    requires gaps != []
    requires forall k | 0 <= k < |gaps| - 1 ::
             gaps[k + 1] <= gaps[k] && (eps <= gaps[k] ==> gaps[k + 1] <= gaps[k] - share)
    ensures var last := gaps[|gaps| - 1];
            last <= gaps[0] && (last <= eps || last <= gaps[0] - Times(|gaps| - 1, share))
  {
    if |gaps| > 1 {
      Descends(gaps[..|gaps| - 1], eps, share);
      OneMoreTime(|gaps| - 2, share);
    } else {
      OneMoreTime(0, share);
    }
  }

  function GapsOver(offset: real, target: real, snap: real, frames: seq<Frame>): seq<real> {
    seq(|frames| + 1, k requires 0 <= k <= |frames| => Gap(OffsetAfter(offset, target, snap, frames[..k]), target))
  }

  lemma OneMoreFrame(offset: real, target: real, snap: real, frames: seq<Frame>, k: nat, f: Frame, eps: real)
    requires k < |frames| && AtLeast(frames, f) && snap >= 0.0
             && Gap(OffsetAfter(offset, target, snap, frames[..k]), target) <= snap
    ensures var gap := Gap(OffsetAfter(offset, target, snap, frames[..k]), target);
            var gap' := Gap(OffsetAfter(offset, target, snap, frames[..k + 1]), target);
            gap' == gap - Taken(gap, frames[k]) && gap' <= gap && (eps <= gap ==> gap' <= gap - Taken(eps, f))
  {
    assert frames[..k + 1][..k] == frames[..k];
    var offset1 := OffsetAfter(offset, target, snap, frames[..k]);
    CorrectedGap(offset1, target, snap, frames[k]);
    StepTakes(target - offset1, frames[k]);
    if eps <= Gap(offset1, target) {
      TakesMore(Gap(offset1, target), frames[k], eps, f);
    }
  }

  lemma {:induction false} StaysWithin(offset: real, target: real, snap: real, frames: seq<Frame>, f: Frame, k: nat)
    requires AtLeast(frames, f) && Gap(offset, target) <= snap && k <= |frames|
    ensures Gap(OffsetAfter(offset, target, snap, frames[..k]), target) <= Gap(offset, target)
  {
    if k > 0 {
      StaysWithin(offset, target, snap, frames, f, k - 1);
      OneMoreFrame(offset, target, snap, frames, k - 1, f, 0.0);
    }
  }

  /** Frames that do no less than f bring the gap within eps after a bounded number: until it is, each
      takes off at least what f takes off eps. */
  lemma Converges(offset: real, target: real, snap: real, frames: seq<Frame>, f: Frame, eps: real)
    requires AtLeast(frames, f) && Gap(offset, target) <= snap
    ensures var gap := Gap(OffsetAfter(offset, target, snap, frames), target);
            && gap <= Gap(offset, target)
            && (gap <= eps || gap <= Gap(offset, target) - Times(|frames|, Taken(eps, f)))
  {
    var gaps := GapsOver(offset, target, snap, frames);
    forall k | 0 <= k < |frames|
      ensures gaps[k + 1] <= gaps[k] && (eps <= gaps[k] ==> gaps[k + 1] <= gaps[k] - Taken(eps, f))
    {
      StaysWithin(offset, target, snap, frames, f, k);
      OneMoreFrame(offset, target, snap, frames, k, f, eps);
    }
    Descends(gaps, eps, Taken(eps, f));
    assert frames[..|frames|] == frames && frames[..0] == [];
  }

  function Power(x: real, n: nat): real {
    if n == 0 then 1.0 else Power(x, n - 1) * x
  }

  function Steady(f: Frame, n: nat): seq<Frame> {
    seq(n, _ => f)
  }

  function Fallen(gap: real, k: real, n: nat): real {
    if n == 0 then gap else Fallen(gap, k, n - 1) - Fallen(gap, k, n - 1) * k
  }

  lemma {:induction false} FallenIsPower(gap: real, k: real, n: nat)
    ensures Fallen(gap, k, n) == gap * Power(1.0 - k, n)
  {
    if n > 0 {
      FallenIsPower(gap, k, n - 1);
      OneMoreFactor(gap, k, Power(1.0 - k, n - 1));
    }
  }

  lemma OneMoreFactor(gap: real, k: real, p: real)
    ensures gap * p - gap * p * k == gap * (p * (1.0 - k))
  {
  }

  predicate UnderCap(gap: real, f: Frame) {
    gap * f.gain <= f.cap
  }

  lemma UnderTheCap(gap: real, gap0: real, f: Frame)
    requires f.Fair() && gap <= gap0 && UnderCap(gap0, f)
    ensures gap - Taken(gap, f) == gap - gap * f.gain
  {
    Monotone(gap, gap0, f.gain);
  }

  predicate EachFalls(gaps: seq<real>, f: Frame) {
    forall k | 0 <= k < |gaps| - 1 :: gaps[k + 1] == gaps[k] - Taken(gaps[k], f) && gaps[k] <= gaps[0]
  }

  /** Once the correction is under its cap the gap falls geometrically. */
  lemma {:induction false} FallsGeometrically(gaps: seq<real>, f: Frame)
    requires f.Fair() && gaps != [] && UnderCap(gaps[0], f) && EachFalls(gaps, f)
    ensures gaps[|gaps| - 1] == Fallen(gaps[0], f.gain, |gaps| - 1)
  {
    if |gaps| > 1 {
      FallsGeometrically(gaps[..|gaps| - 1], f);
      UnderTheCap(gaps[|gaps| - 2], gaps[0], f);
    }
  }

  /** And the gaps of a steady run of frames within the snap threshold do fall so. */
  lemma GapsFall(offset: real, target: real, snap: real, f: Frame, n: nat)
    requires f.Fair() && Gap(offset, target) <= snap
    ensures var gaps := GapsOver(offset, target, snap, Steady(f, n));
            && EachFalls(gaps, f) && |gaps| == n + 1 && gaps[0] == Gap(offset, target)
            && gaps[n] == Gap(OffsetAfter(offset, target, snap, Steady(f, n)), target)
  {
    var frames := Steady(f, n);
    var gaps := GapsOver(offset, target, snap, frames);
    assert frames[..n] == frames && frames[..0] == [];
    forall k | 0 <= k < |gaps| - 1
      ensures gaps[k + 1] == gaps[k] - Taken(gaps[k], f) && gaps[k] <= gaps[0]
    {
      StaysWithin(offset, target, snap, frames, f, k);
      OneMoreFrame(offset, target, snap, frames, k, f, 0.0);
    }
  }

  /** So under its cap the gap shrinks geometrically: after n steady frames a power of what each leaves. */
  lemma GapIsPower(offset: real, target: real, snap: real, f: Frame, n: nat)
    requires f.Fair() && Gap(offset, target) <= snap && UnderCap(Gap(offset, target), f)
    ensures Gap(OffsetAfter(offset, target, snap, Steady(f, n)), target) == Gap(offset, target) * Power(1.0 - f.gain, n)
  {
    hide Power;
    hide Fallen;
    hide OffsetAfter;
    var gaps := GapsOver(offset, target, snap, Steady(f, n));
    GapsFall(offset, target, snap, f, n);
    FallsGeometrically(gaps, f);
    FallenIsPower(gaps[0], f.gain, n);
  }

  // --- As the calls come ---

  predicate AllAdvance(calls: seq<Call>, d: real) {
    forall k | 0 <= k < |calls| :: calls[k].Advancing? && calls[k].delta >= d
  }

  function FramesOf(cfg: Config, calls: seq<Call>): seq<Frame>
    requires AllAdvance(calls, 0.0)
  {
    seq(|calls|, k requires 0 <= k < |calls| => FrameOf(cfg, calls[k].delta))
  }

  /** Frame after frame with no sample in between, the target stands and the offset is corrected toward it. */
  lemma {:induction false} AdvancesCorrect(cfg: Config, calls: seq<Call>, more: seq<Call>)
    requires After(cfg, calls).initialized && After(cfg, calls).samples != [] && AllAdvance(more, 0.0)
    ensures var c := After(cfg, calls);
            After(cfg, calls + more)
            == c.(offset := OffsetAfter(c.offset, Best(c.samples).value, cfg.snap, FramesOf(cfg, more)))
  {
    hide Corrected;
    hide FrameOf;
    if more == [] {
      assert calls + more == calls;
    } else {
      var n := |more| - 1;
      AdvancesCorrect(cfg, calls, more[..n]);
      assert (calls + more)[..|calls + more| - 1] == calls + more[..n];
      assert FramesOf(cfg, more)[..n] == FramesOf(cfg, more[..n]);
    }
  }

  lemma FramesDoNoLess(cfg: Config, more: seq<Call>, d: real)
    requires cfg.Sane() && d >= 0.0 && AllAdvance(more, d)
    ensures AllAdvance(more, 0.0) && AtLeast(FramesOf(cfg, more), FrameOf(cfg, d))
  {
    FrameIsFair(cfg, d);
    forall k | 0 <= k < |more|
      ensures NoLess(FramesOf(cfg, more)[k], FrameOf(cfg, d))
    {
      LongerFrames(cfg, d, more[k].delta, FrameOf(cfg, d), FrameOf(cfg, more[k].delta));
    }
  }

  /** So after any calls, frames of at least d each bring the offset within eps of the target as soon as there are
      enough of them that what one takes off eps, taken so often, is the gap. */
  lemma FramesConverge(cfg: Config, calls: seq<Call>, more: seq<Call>, d: real, eps: real)
    requires cfg.Sane() && Timely(calls) && After(cfg, calls).initialized && d >= 0.0 && AllAdvance(more, d)
             && eps >= 0.0
    ensures var c, c' := After(cfg, calls), After(cfg, calls + more);
            c.samples != [] && c'.samples == c.samples
    ensures var c, c' := After(cfg, calls), After(cfg, calls + more);
            var target := Best(c.samples).value;
            var gap, share := Gap(c.offset, target), Taken(eps, FrameOf(cfg, d));
            gap <= cfg.snap && Times(|more|, share) >= gap ==> Gap(c'.offset, target) <= eps
  {
    hide FrameOf;
    hide Best;
    RunKeepsWindow(cfg, calls);
    FramesDoNoLess(cfg, more, d);
    AdvancesCorrect(cfg, calls, more);
    var c := After(cfg, calls);
    if Gap(c.offset, Best(c.samples).value) <= cfg.snap {
      Converges(c.offset, Best(c.samples).value, cfg.snap, FramesOf(cfg, more), FrameOf(cfg, d), eps);
    }
  }

  /** There are enough, where one frame takes anything off eps at all: as many as it takes to make up the gap, and
      hardly more. */
  lemma Enough(gap: real, share: real) returns (n: nat)
    requires gap >= 0.0 && share > 0.0
    ensures gap <= Times(n, share) <= gap + share
  {
    var q := gap / share;
    n := q.Floor + 1;
    assert q * share == gap;
    Monotone(q, n as real, share);
    Monotone(n as real - 1.0, q, share);
  }

  /** And a gap past the threshold is gone with the next frame. */
  lemma FrameSnaps(cfg: Config, calls: seq<Call>, delta: real)
    requires After(cfg, calls).initialized && After(cfg, calls).samples != []
    requires Gap(After(cfg, calls).offset, Best(After(cfg, calls).samples).value) > cfg.snap
    ensures After(cfg, calls + [Advancing(delta)]).offset == Best(After(cfg, calls).samples).value
  {
    assert (calls + [Advancing(delta)])[..|calls|] == calls;
  }

  lemma CapIsSlow(cfg: Config, delta: real)
    requires delta >= 0.0 && cfg.slew <= 1000.0
    ensures FrameOf(cfg, delta).cap <= 1000.0 * delta
  {
    Monotone(cfg.slew, 1000.0, delta);
  }

  /** Between snaps the timeline runs at most slew fast or slow, and forward if that is no more than a
      second per second. */
  lemma TimelineDilates(c: Clock, cfg: Config, delta: real, local: int, local': int)
    requires cfg.Sane() && delta >= 0.0 && (local' - local) as real == 1000.0 * delta
    requires c.initialized && c.samples != [] && Gap(c.offset, Best(c.samples).value) <= cfg.snap
    ensures var elapsed := NowMs(Advanced(c, cfg, delta), local') - NowMs(c, local);
            && Abs(elapsed - 1000.0 * delta) <= FrameOf(cfg, delta).cap
            && (cfg.slew <= 1000.0 ==> elapsed >= 0.0)
  {
    FrameIsFair(cfg, delta);
    var f, offset' := FrameOf(cfg, delta), Advanced(c, cfg, delta).offset;
    CorrectedGap(c.offset, Best(c.samples).value, cfg.snap, f);
    if cfg.slew <= 1000.0 {
      CapIsSlow(cfg, delta);
    }
    Elapsed(c.offset, offset', local as real, local' as real, 1000.0 * delta, f.cap);
  }

  lemma Elapsed(offset: real, offset': real, local: real, local': real, passed: real, cap: real)
    requires local' - local == passed && Abs(offset' - offset) <= cap
    ensures Abs((local' + offset') - (local + offset) - passed) <= cap
    ensures cap <= passed ==> (local' + offset') - (local + offset) >= 0.0
  {
  }

  // --- The object ---

  class ClockEstimator {
    const cfg: Config
    var offsetMs: real
    var initialized: bool
    var lastServerMs: int
    var samples: seq<Sample>
    ghost var history: seq<Sample>

    constructor (cfg: Config)
      ensures this.cfg == cfg && State() == Unsynced
    {
      this.cfg := cfg;
      offsetMs, initialized, lastServerMs, samples, history := 0.0, false, -1, [], [];
    }

    ghost function State(): Clock
      reads this
    {
      Clock(offsetMs, initialized, lastServerMs, samples, history)
    }

    /** One observation of the server's time; one no newer than the last is ignored. */
    method Observe(server: int, local: int)
      modifies this
      ensures State() == Observed(old(State()), cfg, server, local)
    {
      if server <= lastServerMs {
        return;
      }
      lastServerMs := server;
      var s := Sample(local as real, (server - local) as real);
      samples, history := samples + [s], history + [s];
      var cutoff := local as real - cfg.window;
      ghost var all := samples;
      assert all == old(samples) + [s];
      while |samples| > 1 && samples[0].at < cutoff
        modifies this`samples
        invariant samples != [] && samples[|samples| - 1] == s
        invariant Pruned(samples, cutoff) == Pruned(all, cutoff)
      {
        samples := samples[1..];
      }
      assert Pruned(samples, cutoff) == samples;
      if !initialized {
        offsetMs := samples[|samples| - 1].candidate;
        initialized := true;
      }
    }

    /** The largest candidate in the window, if there is any. */
    method TargetMs() returns (best: Option<real>)
      ensures best == Best(samples)
    {
      best := None;
      assert samples[..|samples|] == samples;
      for k := 0 to |samples|
        invariant best == Best(samples[..k])
      {
        assert samples[..k + 1][..k] == samples[..k];
        if best.None? || samples[k].candidate > best.value {
          best := Some(samples[k].candidate);
        }
      }
    }

    /** One frame's correction. */
    method Advance(delta: real)
      modifies this`offsetMs
      ensures State() == Advanced(old(State()), cfg, delta)
    {
      if !initialized || samples == [] {
        return;
      }
      var best := TargetMs();
      var target := best.value;
      var diff := target - offsetMs;
      if Abs(diff) > cfg.snap {
        offsetMs := target;
        return;
      }
      offsetMs := offsetMs + Step(diff, FrameOf(cfg, delta));
    }

    method Now(local: int) returns (ms: real)
      ensures ms == NowMs(State(), local)
    {
      ms := if initialized then local as real + offsetMs else local as real;
    }

    method Reset()
      modifies this
      ensures State() == Unsynced
    {
      offsetMs, initialized, lastServerMs, samples, history := 0.0, false, -1, [], [];
    }
  }
}
