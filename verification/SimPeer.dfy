/** The receive side of the network simulation: a peer in front of the real one that holds packets back,
    and loses unreliable ones, as a bad link would. What the simulation decides for each packet is given
    with each poll; that it keeps one sender's packets in order is its promise. */
module SimPeer {
  import opened Options
  import opened Wire

  datatype Packet = Packet(from: int, channel: int, reliable: bool, data: bytes)

  /** What the simulation would do with an unreliable packet: lose it, or find the link full. */
  datatype Fate = Fate(lost: bool, full: bool)

  datatype Arrival = Arrival(packet: Packet, fate: Fate)

  /** held is in the order it was queued, ready in the order it was let through. read and arrived are
      what the inner has read, and what the wrapped peer has handed over, of each sender's session. */
  datatype Peer = Peer(
    held: seq<Packet>,
    ready: seq<Packet>,
    current: bytes,
    deliveredBytes: nat,
    deliveredPackets: nat,
    read: seq<Packet>,
    arrived: seq<Packet>
  )

  const Idle := Peer([], [], [], 0, 0, [], [])

  // --- Steps ---

  function Delivered(p: Peer, packet: Packet): Peer {
    p.(ready := p.ready + [packet], deliveredBytes := p.deliveredBytes + |packet.data|,
        deliveredPackets := p.deliveredPackets + 1)
  }

  function Accepted(p: Peer, a: Arrival, active: bool): Peer {
    if !active && p.held == [] then Delivered(p, a.packet)
    else if !a.packet.reliable && (a.fate.lost || a.fate.full) then p
    else p.(held := p.held + [a.packet])
  }

  function Arrives(p: Peer, a: Arrival, active: bool): Peer {
    Accepted(p, a, active).(arrived := p.arrived + [a.packet])
  }

  function ArriveAll(p: Peer, all: seq<Arrival>, active: bool): Peer {
    if all == [] then p else Arrives(ArriveAll(p, all[..|all| - 1], active), all[|all| - 1], active)
  }

  /** Where the sender's oldest held packet is. */
  function Oldest(held: seq<Packet>, from: int): (k: Option<nat>)
    ensures k.Some? ==>
              && k.value < |held| && held[k.value].from == from
              && (forall i | 0 <= i < k.value :: held[i].from != from)
    ensures k.None? ==> forall i | 0 <= i < |held| :: held[i].from != from
  {
    if held == [] then None
    else if held[0].from == from then Some(0)
    else
      match Oldest(held[1..], from)
      case None => None
      case Some(k) => Some(k + 1)
  }

  /** The sender's oldest held packet is due. */
  function Released(p: Peer, from: int): Peer {
    match Oldest(p.held, from)
    case None => p
    case Some(k) => Delivered(p.(held := p.held[..k] + p.held[k + 1..]), p.held[k])
  }

  /** The senders whose packets are due, in the order they are. */
  function Pumped(p: Peer, due: seq<int>): Peer {
    if due == [] then p else Released(Pumped(p, due[..|due| - 1]), due[|due| - 1])
  }

  function Polled(p: Peer, all: seq<Arrival>, active: bool, due: seq<int>): Peer {
    Pumped(ArriveAll(p, all, active), due)
  }

  function Read(p: Peer): Peer {
    if p.ready == [] then p
    else p.(current := p.ready[0].data, ready := p.ready[1..], read := p.read + [p.ready[0]])
  }

  /** Without one sender's packets, and those alone. */
  function Without(s: seq<Packet>, from: int): seq<Packet> {
    if s == [] then []
    else if s[|s| - 1].from == from then Without(s[..|s| - 1], from)
    else Without(s[..|s| - 1], from) + [s[|s| - 1]]
  }

  function Of(s: seq<Packet>, from: int): seq<Packet> {
    if s == [] then []
    else if s[|s| - 1].from == from then Of(s[..|s| - 1], from) + [s[|s| - 1]]
    else Of(s[..|s| - 1], from)
  }

  /** All of a sender's packets go with it, and its session is over. */
  function Disconnected(p: Peer, from: int): Peer {
    p.(held := Without(p.held, from), ready := Without(p.ready, from), read := Without(p.read, from),
        arrived := Without(p.arrived, from))
  }

  /** Closing drops what was ready and what the server had in flight; another sender's packets in flight
      are all that is left, and are all its next session starts with. */
  function Closed(p: Peer): Peer {
    p.(held := Without(p.held, 1), ready := [], read := [], arrived := Without(p.held, 1))
  }

  datatype Step =
    | Poll(arrivals: seq<Arrival>, active: bool, due: seq<int>)
    | Take
    | Disconnect(from: int)
    | Close

  function Stepped(p: Peer, step: Step): Peer {
    match step
    case Poll(arrivals, active, due) => Polled(p, arrivals, active, due)
    case Take => Read(p)
    case Disconnect(from) => Disconnected(p, from)
    case Close => Closed(p)
  }

  function After(steps: seq<Step>): Peer {
    if steps == [] then Idle else Stepped(After(steps[..|steps| - 1]), steps[|steps| - 1])
  }

  // --- Order and conservation ---

  function Reliable(s: seq<Packet>): seq<Packet> {
    if s == [] then []
    else if s[|s| - 1].reliable then Reliable(s[..|s| - 1]) + [s[|s| - 1]]
    else Reliable(s[..|s| - 1])
  }

  /** a is b with some left out. */
  ghost predicate Within(a: seq<Packet>, b: seq<Packet>)
    decreases |b|
  {
    if a == [] then true
    else if b == [] then false
    else
      var front := b[..|b| - 1];
      Within(a, front) || (a[|a| - 1] == b[|b| - 1] && Within(a[..|a| - 1], front))
  }

  /** One sender's packets, wherever they are by now, oldest first. */
  function Passed(p: Peer, from: int): seq<Packet> {
    Of(p.read, from) + Of(p.ready, from) + Of(p.held, from)
  }

  /** In arrival order, and no reliable packet missing or there twice. */
  ghost predicate Kept(passed: seq<Packet>, arrived: seq<Packet>) {
    Within(passed, arrived) && Reliable(passed) == Reliable(arrived)
  }

  ghost predicate InOrder(p: Peer, from: int) {
    Kept(Passed(p, from), Of(p.arrived, from))
  }

  lemma {:induction false} OfJoins(s: seq<Packet>, t: seq<Packet>, from: int)
    ensures Of(s + t, from) == Of(s, from) + Of(t, from)
  {
    if t == [] {
      assert s + t == s;
    } else {
      assert (s + t)[..|s + t| - 1] == s + t[..|t| - 1];
      OfJoins(s, t[..|t| - 1], from);
    }
  }

  lemma OfOne(packet: Packet, from: int)
    ensures Of([packet], from) == if packet.from == from then [packet] else []
  {
    assert [packet][..0] == [];
  }

  lemma {:induction false} OfNone(s: seq<Packet>, from: int)
    requires forall i | 0 <= i < |s| :: s[i].from != from
    ensures Of(s, from) == []
  {
    if s != [] {
      OfNone(s[..|s| - 1], from);
    }
  }

  lemma {:induction false} OfWithout(s: seq<Packet>, gone: int, from: int)
    ensures Of(Without(s, gone), from) == if from == gone then [] else Of(s, from)
  {
    if s != [] {
      var front, last := s[..|s| - 1], s[|s| - 1];
      OfWithout(front, gone, from);
      OfJoins(Without(front, gone), [last], from);
      OfOne(last, from);
    }
  }

  /** The oldest of a sender's comes first among its own, whatever lies between. */
  lemma OfOldest(held: seq<Packet>, k: nat, from: int)
    requires k < |held| && forall i | 0 <= i < k :: held[i].from != held[k].from
    ensures Of([held[k]], from) + Of(held[..k] + held[k + 1..], from) == Of(held, from)
  {
    var before, oldest, rest := held[..k], [held[k]], held[k + 1..];
    assert held == before + (oldest + rest);
    OfOne(held[k], from);
    if from == held[k].from {
      OfNone(before, from);
    }
    OfMoved(before, oldest, rest, from);
  }

  lemma OfMoved(before: seq<Packet>, oldest: seq<Packet>, rest: seq<Packet>, from: int)
    requires Of(before, from) == [] || Of(oldest, from) == []
    ensures Of(oldest, from) + Of(before + rest, from) == Of(before + (oldest + rest), from)
  {
    OfJoins(before, oldest + rest, from);
    OfJoins(oldest, rest, from);
    OfJoins(before, rest, from);
  }

  lemma WithinOn(a: seq<Packet>, b: seq<Packet>, packet: Packet)
    requires Within(a, b)
    ensures Within(a, b + [packet]) && Within(a + [packet], b + [packet])
  {
    assert (b + [packet])[..|b|] == b && (a + [packet])[..|a|] == a;
  }

  lemma ReliableOn(s: seq<Packet>, packet: Packet)
    ensures Reliable(s + [packet]) == if packet.reliable then Reliable(s) + [packet] else Reliable(s)
  {
    assert (s + [packet])[..|s|] == s;
  }

  /** A packet that is not lost goes behind all of its sender's: one let straight through too, since
      then nothing is held that it could overtake. */
  lemma AcceptedPasses(p: Peer, a: Arrival, active: bool, from: int)
    ensures var lost := !a.packet.reliable && (a.fate.lost || a.fate.full) && (active || p.held != []);
            Passed(Accepted(p, a, active), from) == Passed(p, from) + if lost then [] else Of([a.packet], from)
  {
    OfJoins(p.ready, [a.packet], from);
    OfJoins(p.held, [a.packet], from);
  }

  lemma KeptOn(passed: seq<Packet>, arrived: seq<Packet>, packet: Packet)
    requires Kept(passed, arrived)
    ensures Kept(passed + [packet], arrived + [packet]) && (!packet.reliable ==> Kept(passed, arrived + [packet]))
  {
    WithinOn(passed, arrived, packet);
    ReliableOn(passed, packet);
    ReliableOn(arrived, packet);
  }

  lemma ArrivesTo(p: Peer, a: Arrival, active: bool, from: int)
    ensures var lost := !a.packet.reliable && (a.fate.lost || a.fate.full) && (active || p.held != []);
            var p' := Arrives(p, a, active);
            && Of(p'.arrived, from) == (if a.packet.from == from then Of(p.arrived, from) + [a.packet]
                else Of(p.arrived, from))
            && Passed(p', from) == (if a.packet.from == from
                && !lost then Passed(p, from) + [a.packet] else Passed(p, from))
  {
    AcceptedPasses(p, a, active, from);
    OfJoins(p.arrived, [a.packet], from);
    OfOne(a.packet, from);
    assert Passed(Arrives(p, a, active), from) == Passed(Accepted(p, a, active), from);
  }

  lemma ArrivesKeeps(p: Peer, a: Arrival, active: bool, from: int)
    requires InOrder(p, from)
    ensures InOrder(Arrives(p, a, active), from)
  {
    ArrivesTo(p, a, active, from);
    KeptOn(Passed(p, from), Of(p.arrived, from), a.packet);
  }

  lemma ReleasedKeeps(p: Peer, due: int, from: int)
    ensures Passed(Released(p, due), from) == Passed(p, from) && Released(p, due).arrived == p.arrived
  {
    if Oldest(p.held, due).Some? {
      var k := Oldest(p.held, due).value;
      OfOldest(p.held, k, from);
      OfJoins(p.ready, [p.held[k]], from);
    }
  }

  lemma {:induction false} PolledKeeps(p: Peer, all: seq<Arrival>, active: bool, due: seq<int>, from: int)
    requires InOrder(p, from)
    ensures InOrder(Polled(p, all, active, due), from)
    decreases |all| + |due|
  {
    if due != [] {
      PolledKeeps(p, all, active, due[..|due| - 1], from);
      ReleasedKeeps(Polled(p, all, active, due[..|due| - 1]), due[|due| - 1], from);
    } else if all != [] {
      PolledKeeps(p, all[..|all| - 1], active, [], from);
      ArrivesKeeps(ArriveAll(p, all[..|all| - 1], active), all[|all| - 1], active, from);
    }
  }

  lemma ReadKeeps(p: Peer, from: int)
    ensures Passed(Read(p), from) == Passed(p, from) && Read(p).arrived == p.arrived
  {
    hide Of;
    if p.ready != [] {
      var first, rest := [p.ready[0]], p.ready[1..];
      assert p.ready == first + rest;
      OfJoins(p.read, first, from);
      OfJoins(first, rest, from);
      Rejoined(Of(p.read, from), Of(first, from), Of(rest, from), Of(p.held, from));
    }
  }

  lemma DisconnectedKeeps(p: Peer, gone: int, from: int)
    requires InOrder(p, from)
    ensures InOrder(Disconnected(p, gone), from)
    ensures from == gone ==> Passed(Disconnected(p, gone), from) == []
    ensures from != gone ==> Passed(Disconnected(p, gone), from) == Passed(p, from)
  {
    OfWithout(p.held, gone, from);
    OfWithout(p.ready, gone, from);
    OfWithout(p.read, gone, from);
    OfWithout(p.arrived, gone, from);
  }

  lemma {:induction false} WithinItself(s: seq<Packet>)
    ensures Within(s, s)
  {
    if s != [] {
      WithinItself(s[..|s| - 1]);
    }
  }

  /** Closing leaves of each sender what was held of it, and nothing else; of the server, nothing. */
  lemma ClosedKeeps(p: Peer, from: int)
    ensures Passed(Closed(p), from) == if from == 1 then [] else Of(p.held, from)
    ensures InOrder(Closed(p), from)
  {
    OfWithout(p.held, 1, from);
    WithinItself(Of(Without(p.held, 1), from));
    assert Passed(Closed(p), from) == Of(Without(p.held, 1), from);
  }

  lemma {:induction false} NoneWithout(s: seq<Packet>, from: int)
    ensures Without(s, from) == [] <==> forall k | 0 <= k < |s| :: s[k].from == from
  {
    if s != [] {
      var front := s[..|s| - 1];
      NoneWithout(front, from);
      assert (forall k | 0 <= k < |s| :: s[k].from == from)
        <==> s[|s| - 1].from == from && forall k | 0 <= k < |front| :: front[k].from == from;
    }
  }

  /** So it leaves nothing at all exactly when everything held was the server's. */
  lemma ClosedIsEmpty(p: Peer)
    ensures (forall from: int :: Passed(Closed(p), from) == []) <==> forall k | 0 <= k < |p.held| :: p.held[k].from == 1
    ensures Closed(p).held == [] <==> forall k | 0 <= k < |p.held| :: p.held[k].from == 1
  {
    NoneWithout(p.held, 1);
    forall from: int
      ensures Passed(Closed(p), from) == if from == 1 then [] else Of(p.held, from)
    {
      ClosedKeeps(p, from);
    }
    if k: nat :| k < |p.held| && p.held[k].from != 1 {
      OfHas(p.held, k);
      assert Passed(Closed(p), p.held[k].from) != [];
    } else {
      forall from: int
        ensures Passed(Closed(p), from) == []
      {
        assert Closed(p).held == [];
      }
    }
  }

  lemma {:induction false} OfHas(s: seq<Packet>, k: nat)
    requires k < |s|
    ensures Of(s, s[k].from) != []
  {
    if k < |s| - 1 {
      OfHas(s[..|s| - 1], k);
    }
  }

  /** A run in which it does not: a client's packet is held back, and is still there after the peer closed. */
  lemma ClosingLeaves()
    ensures var packet := Packet(2, 0, true, [7]);
            After([Poll([Arrival(packet, Fate(false, false))], true, []), Close]).held == [packet]
  {
    var packet := Packet(2, 0, true, [7]);
    var poll := Poll([Arrival(packet, Fate(false, false))], true, []);
    assert [poll, Close][..1] == [poll] && [poll][..0] == [];
    assert After([poll]) == Stepped(Idle, poll);
    assert poll.arrivals[..0] == [];
    assert ArriveAll(Idle, poll.arrivals, true).held == [packet];
    assert After([poll]).held == [packet];
    assert [packet][..0] == [];
    assert Without([packet], 1) == [packet];
  }

  /** In every run, however the simulation is switched and set meanwhile: what the inner reads of each
      sender, then what is ready, then what is held, is what arrived of it in arrival order, and every
      reliable packet is in exactly one of the three. */
  lemma {:induction false} RunKeepsOrder(steps: seq<Step>, from: int)
    ensures InOrder(After(steps), from)
  {
    if steps != [] {
      var p := After(steps[..|steps| - 1]);
      RunKeepsOrder(steps[..|steps| - 1], from);
      match steps[|steps| - 1]
      case Poll(arrivals, active, due) => PolledKeeps(p, arrivals, active, due, from);
      case Take => ReadKeeps(p, from);
      case Disconnect(gone) => DisconnectedKeeps(p, gone, from);
      case Close => ClosedKeeps(p, from);
    }
  }

  // --- Everything comes ---

  /** The inner takes what has been ready longest. */
  lemma ReadTakesFirst(p: Peer)
    ensures p.ready == [] ==> Read(p) == p
    ensures p.ready != [] ==>
              && p.ready == [p.ready[0]] + Read(p).ready && Read(p).read == p.read + [p.ready[0]]
              && Read(p).current == p.ready[0].data && Read(p).held == p.held
  {
  }

  function Count(due: seq<int>, from: int): nat {
    if due == [] then 0 else Count(due[..|due| - 1], from) + if due[|due| - 1] == from then 1 else 0
  }

  lemma ReleasedOf(p: Peer, due: int, from: int)
    ensures var p' := Released(p, due);
            && |Of(p'.held, from)| == |Of(p.held, from)| - (if due == from && Of(p.held, from) != [] then 1 else 0)
            && |p'.ready| - |p.ready| == |p.held| - |p'.held|
            && p'.deliveredPackets - p.deliveredPackets == |p.held| - |p'.held|
            && p'.deliveredBytes - p.deliveredBytes == Bytes(p'.ready) - Bytes(p.ready)
  {
    if Oldest(p.held, due).Some? {
      var k := Oldest(p.held, due).value;
      OfOldest(p.held, k, from);
      OfHas(p.held, k);
      OfOne(p.held[k], from);
      assert (p.ready + [p.held[k]])[..|p.ready|] == p.ready;
    } else {
      OfNone(p.held, due);
    }
  }

  /** Of each sender as many held packets are let through, and counted, as fall due, or all that are held. */
  lemma {:induction false} PumpedOf(p: Peer, due: seq<int>, from: int)
    ensures var p' := Pumped(p, due);
            && |Of(p'.held, from)| ==
               (if Count(due, from) <= |Of(p.held, from)| then |Of(p.held, from)| - Count(due, from) else 0)
            && |p'.ready| - |p.ready| == |p.held| - |p'.held|
            && p'.deliveredPackets - p.deliveredPackets == |p.held| - |p'.held|
            && p'.deliveredBytes - p.deliveredBytes == Bytes(p'.ready) - Bytes(p.ready)
  {
    if due != [] {
      PumpedOf(p, due[..|due| - 1], from);
      ReleasedOf(Pumped(p, due[..|due| - 1]), due[|due| - 1], from);
    }
  }

  /** So when all that is held has fallen due, nothing is held. */
  lemma AllComes(p: Peer, due: seq<int>)
    requires forall from: int :: Count(due, from) >= |Of(p.held, from)|
    ensures Pumped(p, due).held == [] && |Pumped(p, due).ready| == |p.ready| + |p.held|
  {
    var p' := Pumped(p, due);
    PumpedOf(p, due, 0);
    if p'.held != [] {
      PumpedOf(p, due, p'.held[0].from);
      OfHas(p'.held, 0);
    }
  }

  function Packets(all: seq<Arrival>): seq<Packet> {
    seq(|all|, k requires 0 <= k < |all| => all[k].packet)
  }

  function Bytes(packets: seq<Packet>): nat {
    if packets == [] then 0 else Bytes(packets[..|packets| - 1]) + |packets[|packets| - 1].data|
  }

  /** Switched off, with nothing held, it is not there: everything comes straight through, in order and
      counted, the unreliable with the rest. */
  lemma {:induction false} OffPassesThrough(p: Peer, all: seq<Arrival>)
    requires p.held == []
    ensures var p', packets := ArriveAll(p, all, false), Packets(all);
            && p'.held == [] && p'.ready == p.ready + packets && p'.arrived == p.arrived + packets
            && p'.deliveredPackets == p.deliveredPackets + |all|
            && p'.deliveredBytes == p.deliveredBytes + Bytes(packets)
  {
    if all == [] {
      assert Packets(all) == [];
    } else {
      var front := all[..|all| - 1];
      OffPassesThrough(p, front);
      assert Packets(all)[..|all| - 1] == Packets(front) && Packets(all) == Packets(front) + [all[|all| - 1].packet];
    }
  }

  /** The rule it rests on: straight through past a held packet of the same sender is out of order, and
      could never be in it again. */
  lemma StraightWouldOvertake(p: Peer, packet: Packet)
    requires InOrder(p, packet.from) && Of(p.held, packet.from) != [] && packet.reliable
    requires packet !in Passed(p, packet.from)
    ensures !InOrder(Delivered(p, packet).(arrived := p.arrived + [packet]), packet.from)
  {
    StraightPasses(p, packet);
    OutOfOrder(Of(p.read, packet.from) + Of(p.ready, packet.from), Of(p.held, packet.from),
        Of(p.arrived, packet.from), packet);
  }

  lemma StraightPasses(p: Peer, packet: Packet)
    ensures var from, p' := packet.from, Delivered(p, packet).(arrived := p.arrived + [packet]);
            && Passed(p', from) == Of(p.read, from) + Of(p.ready, from) + [packet] + Of(p.held, from)
            && Of(p'.arrived, from) == Of(p.arrived, from) + [packet]
  {
    OfJoins(p.ready, [packet], packet.from);
    OfJoins(p.arrived, [packet], packet.from);
    OfOne(packet, packet.from);
    Rejoined(Of(p.read, packet.from), Of(p.ready, packet.from), [packet], Of(p.held, packet.from));
  }

  lemma Rejoined(a: seq<Packet>, b: seq<Packet>, c: seq<Packet>, d: seq<Packet>)
    ensures a + (b + c) + d == a + b + c + d
  {
  }

  lemma OutOfOrder(before: seq<Packet>, after: seq<Packet>, arrived: seq<Packet>, packet: Packet)
    requires Kept(before + after, arrived) && packet !in before + after && packet.reliable && after != []
    ensures !Within(before + [packet] + after, arrived + [packet])
  {
    var passed := before + [packet] + after;
    assert (arrived + [packet])[..|arrived|] == arrived;
    assert passed[|passed| - 1] == after[|after| - 1] && after[|after| - 1] in before + after;
    ReliableIn(arrived, packet);
    ReliableIn(before + after, packet);
    if Within(passed, arrived) {
      assert passed[|before|] == packet;
      WithinIn(passed, arrived, packet);
    }
  }

  lemma {:induction false} WithinIn(a: seq<Packet>, b: seq<Packet>, packet: Packet)
    requires Within(a, b) && packet in a
    ensures packet in b
    decreases |b|
  {
    var front := b[..|b| - 1];
    if Within(a, front) {
      WithinIn(a, front, packet);
    } else if packet in a[..|a| - 1] {
      WithinIn(a[..|a| - 1], front, packet);
    }
  }

  lemma {:induction false} ReliableIn(s: seq<Packet>, packet: Packet)
    ensures packet in Reliable(s) <==> packet in s && packet.reliable
  {
    if s != [] {
      ReliableIn(s[..|s| - 1], packet);
      assert s == s[..|s| - 1] + [s[|s| - 1]];
    }
  }

  // --- The object ---

  class SimulatedPeer {
    var held: seq<Packet>
    var ready: seq<Packet>
    var current: bytes
    var deliveredBytes: nat
    var deliveredPackets: nat
    ghost var read: seq<Packet>
    ghost var arrived: seq<Packet>

    constructor ()
      ensures State() == Idle
    {
      held, ready, current, deliveredBytes, deliveredPackets, read, arrived := [], [], [], 0, 0, [], [];
    }

    ghost function State(): Peer
      reads this
    {
      Peer(held, ready, current, deliveredBytes, deliveredPackets, read, arrived)
    }

    method Deliver(packet: Packet)
      modifies this`ready, this`deliveredBytes, this`deliveredPackets
      ensures State() == Delivered(old(State()), packet)
    {
      deliveredBytes := deliveredBytes + |packet.data|;
      deliveredPackets := deliveredPackets + 1;
      ready := ready + [packet];
    }

    /** Take everything the wrapped peer has, then let through what is due. */
    method PollAll(incoming: seq<Arrival>, active: bool, due: seq<int>)
      modifies this
      ensures State() == Polled(old(State()), incoming, active, due)
    {
      assert incoming[..|incoming|] == incoming && incoming[..0] == [];
      for k := 0 to |incoming|
        invariant State() == ArriveAll(old(State()), incoming[..k], active)
      {
        assert incoming[..k + 1][..k] == incoming[..k];
        var packet, fate := incoming[k].packet, incoming[k].fate;
        arrived := arrived + [packet];
        if !active && |held| == 0 {
          Deliver(packet);
          continue;
        }
        var droppable := !packet.reliable;
        if droppable && fate.lost {
          continue;
        }
        if droppable && fate.full {
          continue;
        }
        held := held + [packet];
      }
      Pump(due);
    }

    method Pump(due: seq<int>)
      modifies this`held, this`ready, this`deliveredBytes, this`deliveredPackets
      ensures State() == Pumped(old(State()), due)
    {
      assert due[..|due|] == due && due[..0] == [];
      for k := 0 to |due|
        invariant State() == Pumped(old(State()), due[..k])
      {
        assert due[..k + 1][..k] == due[..k];
        var oldest := Oldest(held, due[k]);
        if oldest.Some? {
          var packet := held[oldest.value];
          held := held[..oldest.value] + held[oldest.value + 1..];
          Deliver(packet);
        }
      }
    }

    /** The next packet for the inner, if there is one. */
    method GetPacket() returns (data: Option<bytes>)
      modifies this`current, this`ready, this`read
      ensures State() == Read(old(State()))
      ensures data == if old(ready) == [] then None else Some(old(ready)[0].data)
      ensures read == if old(ready) == [] then old(read) else old(read) + [old(ready)[0]]
    {
      if |ready| == 0 {
        return None;
      }
      read := read + [ready[0]];
      current := ready[0].data;
      ready := ready[1..];
      data := Some(current);
    }

    /** Whatever the peer had in flight goes with it. */
    method PeerDisconnected(from: int)
      modifies this
      ensures State() == Disconnected(old(State()), from)
    {
      held := Without(held, from);
      read, arrived := Without(read, from), Without(arrived, from);
      var kept: seq<Packet> := [];
      assert ready[..|ready|] == ready && ready[..0] == [];
      for k := 0 to |ready|
        invariant kept == Without(ready[..k], from)
      {
        assert ready[..k + 1][..k] == ready[..k];
        if ready[k].from != from {
          kept := kept + [ready[k]];
        }
      }
      ready := kept;
    }

    method CloseAll()
      modifies this
      ensures State() == Closed(old(State()))
    {
      ready, read := [], [];
      held := Without(held, 1);
      arrived := held;
    }
  }
}
