/** The snapshot cadence. A send falls due an interval after the one before, whenever the polls come; the
    deadline advances by the interval and is given up only when a stall has left it a whole interval behind.
    The interval is that of the fastest synchronizer there is, so each poll may find another. Times are
    microseconds on a clock that does not run back; 0 means no poll has come yet. */
module Pacing {
  datatype Pace = Pace(last: nat, ticks: nat)

  const NotStarted := Pace(0, 0)

  /** A poll: when it comes, and the interval then. */
  datatype Turn = Turn(at: nat, iv: nat)

  function Started(p: Pace, now: nat): Pace {
    if p.last == 0 then p.(last := now) else p
  }

  predicate Due(p: Pace, t: Turn) {
    Started(p, t.at).last + t.iv <= t.at
  }

  /** Behind by a whole interval once this send is made up. */
  predicate Stalls(p: Pace, t: Turn) {
    Started(p, t.at).last + 2 * t.iv <= t.at
  }

  function Polled(p: Pace, t: Turn): Pace {
    var q := Started(p, t.at);
    if !Due(p, t) then q else Pace(if Stalls(p, t) then t.at else q.last + t.iv, q.ticks + 1)
  }

  function After(turns: seq<Turn>): Pace {
    if turns == [] then NotStarted else Polled(After(turns[..|turns| - 1]), turns[|turns| - 1])
  }

  predicate Ordered(turns: seq<Turn>) {
    && (forall i | 0 <= i < |turns| :: turns[i].iv >= 1)
    && (forall i, j | 0 <= i < j < |turns| :: turns[i].at <= turns[j].at)
  }

  /** The interval never changes. */
  predicate Even(turns: seq<Turn>, iv: nat) {
    forall i | 0 <= i < |turns| :: turns[i].iv == iv
  }

  /** No poll comes more than its own interval after the one before, less what that has shrunk by since. */
  predicate Prompt(turns: seq<Turn>) {
    forall i | 0 < i < |turns| :: turns[i].at + turns[i - 1].iv <= turns[i - 1].at + 2 * turns[i].iv
  }

  /** The k-th poll found itself a whole interval behind. */
  predicate StallsAt(turns: seq<Turn>, k: nat)
    requires k < |turns|
  {
    Stalls(After(turns[..k]), turns[k])
  }

  /** Each poll sends at most one tick, and none leaves a due one behind: the last deadline is never
      ahead of the clock and always less than an interval behind it. */
  lemma {:induction false} DeadlineIsNear(turns: seq<Turn>)
    requires turns != [] && Ordered(turns)
    ensures var p, now := After(turns), turns[|turns| - 1];
            && p.last <= now.at < p.last + now.iv
            && After(turns[..|turns| - 1]).ticks <= p.ticks <= After(turns[..|turns| - 1]).ticks + 1
  {
    var front := turns[..|turns| - 1];
    if front != [] {
      DeadlineIsNear(front);
    }
  }

  // --- Where the time goes ---

  /** The intervals of the ticks sent, each as it was at its own poll. */
  function Spent(turns: seq<Turn>): nat {
    if turns == [] then 0
    else
      var front, last := turns[..|turns| - 1], turns[|turns| - 1];
      Spent(front) + if Due(After(front), last) then last.iv else 0
  }

  /** The time given up at stalls. */
  function Lost(turns: seq<Turn>): nat {
    if turns == [] then 0
    else
      var front, last := turns[..|turns| - 1], turns[|turns| - 1];
      Lost(front) + if Stalls(After(front), last) then last.at - Started(After(front), last.at).last - last.iv else 0
  }

  /** The deadline is the first poll's time, the intervals of the ticks sent since, and what stalls lost: it
      never drifts, however the interval changes. */
  lemma {:induction false} DeadlineAddsUp(turns: seq<Turn>)
    requires turns != [] && Ordered(turns) && turns[0].at > 0
    ensures After(turns).last == turns[0].at + Spent(turns) + Lost(turns)
  {
    var n := |turns| - 1;
    var front := turns[..n];
    if n == 0 {
      assert front == [] && After(front) == NotStarted && Spent(front) == 0 && Lost(front) == 0;
    } else {
      DeadlineAddsUp(front);
    }
  }

  /** Nothing is lost exactly when no poll found a stall. */
  lemma {:induction false} LostAtStalls(turns: seq<Turn>)
    requires Ordered(turns)
    ensures Lost(turns) == 0 <==> forall k: nat | k < |turns| :: !StallsAt(turns, k)
  {
    if turns != [] {
      var n := |turns| - 1;
      LostAtStalls(turns[..n]);
      forall k: nat | k < n
        ensures StallsAt(turns[..n], k) == StallsAt(turns, k)
      {
        assert turns[..n][..k] == turns[..k];
      }
      assert Stalls(After(turns[..n]), turns[n]) == StallsAt(turns, n);
    }
  }

  /** So since the first poll there passed the intervals of the ticks sent, what stalls lost, and less than the
      interval of the last poll. */
  lemma TimePasses(turns: seq<Turn>)
    requires turns != [] && Ordered(turns) && turns[0].at > 0
    ensures var last := turns[|turns| - 1];
            0 <= last.at - turns[0].at - Spent(turns) - Lost(turns) < last.iv
    ensures Lost(turns) == 0 <==> forall k: nat | k < |turns| :: !StallsAt(turns, k)
  {
    DeadlineIsNear(turns);
    DeadlineAddsUp(turns);
    LostAtStalls(turns);
  }

  // --- One interval throughout ---

  function Times(n: nat, iv: nat): nat {
    n * iv
  }

  lemma OneMore(n: nat, iv: nat)
    ensures Times(n + 1, iv) == Times(n, iv) + iv && Times(0, iv) == 0
  {
  }

  lemma TimesGrow(m: nat, n: nat, iv: nat)
    requires m <= n
    ensures Times(m, iv) <= Times(n, iv)
  {
    assert (n - m) * iv >= 0;
  }

  lemma CountIs(x: nat, iv: nat, n: nat)
    requires iv >= 1 && Times(n, iv) <= x
    ensures n <= x / iv
    ensures x < Times(n + 1, iv) <==> x / iv == n
  {
    var q := x / iv;
    assert Times(q, iv) <= x < Times(q + 1, iv) by {
      OneMore(q, iv);
    }
    if q < n {
      TimesGrow(q + 1, n, iv);
    }
    if n < q {
      TimesGrow(n + 1, q, iv);
    }
  }

  lemma {:induction false} SpentEvenly(turns: seq<Turn>, iv: nat)
    requires Even(turns, iv)
    ensures Spent(turns) == Times(After(turns).ticks, iv) && (Lost(turns) > 0 ==> Lost(turns) >= iv)
  {
    OneMore(0, iv);
    if turns != [] {
      SpentEvenly(turns[..|turns| - 1], iv);
      OneMore(After(turns[..|turns| - 1]).ticks, iv);
    }
  }

  /** The ticks by now are exactly the intervals since the first poll, with no drift, exactly when no poll
      found a stall; and never more. */
  lemma TicksAreExact(turns: seq<Turn>, iv: nat)
    requires turns != [] && Ordered(turns) && Even(turns, iv) && turns[0].at > 0
    ensures var p, elapsed := After(turns), turns[|turns| - 1].at - turns[0].at;
            && p.ticks <= elapsed / iv
            && (p.ticks == elapsed / iv <==> forall k: nat | k < |turns| :: !StallsAt(turns, k))
  {
    hide After;
    hide Spent;
    hide Lost;
    hide StallsAt;
    var p, elapsed: nat := After(turns), turns[|turns| - 1].at - turns[0].at;
    TimePasses(turns);
    SpentEvenly(turns, iv);
    OneMore(p.ticks, iv);
    CountIs(elapsed, iv, p.ticks);
  }

  // --- Stalls ---

  /** Prompt polls never stall, so they send exactly on cadence. */
  lemma PromptNeverStalls(turns: seq<Turn>, k: nat)
    requires Ordered(turns) && Prompt(turns) && k < |turns| && turns[0].at > 0
    ensures !StallsAt(turns, k)
  {
    if k > 0 {
      DeadlineIsNear(turns[..k]);
      DeadlineAddsUp(turns[..k]);
    } else {
      assert turns[..0] == [];
    }
  }

  /** An interval that shrinks makes a stall of a wait that was none: a poll a microsecond after the one
      before gives up 90 of them. */
  lemma ShrinkingStalls()
    ensures var turns := [Turn(100, 100), Turn(199, 100), Turn(200, 10)];
            Ordered(turns) && StallsAt(turns, 2) && Lost(turns) == 90
  {
    var turns := [Turn(100, 100), Turn(199, 100), Turn(200, 10)];
    assert turns[..2] == [Turn(100, 100), Turn(199, 100)] && turns[..2][..1] == [Turn(100, 100)];
    assert turns[..1] == [Turn(100, 100)] && [Turn(100, 100)][..0] == [];
    assert After(turns[..1]) == Pace(100, 0) && After(turns[..2]) == Pace(100, 0);
  }

  /** A clock still at 0 has not started: polls then count for nothing. */
  lemma {:induction false} ZerosAreIgnored(zeros: seq<Turn>, turns: seq<Turn>)
    requires forall k | 0 <= k < |zeros| :: zeros[k].at == 0 && zeros[k].iv >= 1
    ensures After(zeros + turns) == After(turns)
    decreases |zeros| + |turns|
  {
    var all := zeros + turns;
    if turns != [] {
      assert all[..|all| - 1] == zeros + turns[..|turns| - 1];
      ZerosAreIgnored(zeros, turns[..|turns| - 1]);
    } else if zeros != [] {
      assert all[..|all| - 1] == zeros[..|zeros| - 1] + turns;
      ZerosAreIgnored(zeros[..|zeros| - 1], turns);
    }
  }

  class Pacer {
    var lastSendUs: nat
    ghost var ticks: nat

    constructor ()
      ensures State() == NotStarted
    {
      lastSendUs, ticks := 0, 0;
    }

    ghost function State(): Pace
      reads this
    {
      Pace(lastSendUs, ticks)
    }

    /** One poll: whether a snapshot goes out with it. Its interval is the one cached, or a microsecond while there is
        none. */
    method Poll(now: nat, cachedIntervalUs: nat) returns (tick: bool)
      requires lastSendUs <= now
      modifies this
      ensures State() == Polled(old(State()), Turn(now, if cachedIntervalUs == 0 then 1 else cachedIntervalUs))
      ensures tick <==> ticks == old(ticks) + 1
    {
      var iv := if cachedIntervalUs > 0 then cachedIntervalUs else 1;
      if lastSendUs == 0 {
        lastSendUs := now;
      }
      tick := now - lastSendUs >= iv;
      if tick {
        lastSendUs := lastSendUs + iv;
        if now - lastSendUs >= iv {
          lastSendUs := now;
        }
        ticks := ticks + 1;
      }
    }
  }
}
