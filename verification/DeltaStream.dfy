/** The snapshot stream to one peer, as a transition system. The server writes its slots, sends
    frames coded against any frame the peer acked (or none), and forgets old frames; the network
    loses, repeats and reorders packets and acks; the client rebuilds frames from the ones it still
    holds. Slots are numbered across every entity the peer is sent.

    What is proved: whatever happens, every frame the client holds is the server's frame of that
    number, each slot as its kind leaves it. Error never builds up along a chain of deltas, as long as
    what is written Keeps its count; a value that does not spoils the next one stepped from it. */
module DeltaStream {
  import opened Options
  import opened Wire
  import opened Floats
  import opened Numbers
  import opened Values
  import opened SlotCodec

  type Frame = map<nat, Variant>

  datatype Packet = Packet(number: nat, base: Option<nat>, dropped: set<nat>, changed: seq<nat>, time: int64,
      data: bytes)

  datatype World = World(
    current: Frame,          // what the server's slots hold now
    next: nat,               // the number of the next frame
    sent: map<nat, Frame>,   // every frame ever sent
    ring: set<nat>,          // the ones the server still has
    acked: set<nat>,         // the acks that reached it
    packets: set<Packet>,    // in flight: sent, and deliverable any number of times or never
    acks: set<nat>,
    held: map<nat, Frame>,   // the frames the client has, as it decoded them
    newest: Option<nat>      // the last it applied
  )

  datatype Event =
    | Write(values: Frame)
    | Send(base: Option<nat>, frame: Frame, changed: seq<nat>, time: int64)
    | ServerForgets(number: nat)
    | Deliver(packet: Packet)
    | AckArrives(number: nat)
    | ClientForgets(number: nat)

  function FrameAt(frames: map<nat, Frame>, base: Option<nat>): Frame {
    if base.Some? && base.value in frames then frames[base.value] else map[]
  }

  /** What the slots may hold, and what they may without a count going astray. */
  ghost predicate FrameWritable(e: Engine, coding: seq<Slot>, f: Frame)
    requires ValidCoding(coding)
  {
    forall s | s in f :: s < |coding| && Encodable(e, coding[s], f[s]) && Countable(e, coding[s], f[s])
  }

  ghost predicate FrameFits(e: Engine, coding: seq<Slot>, f: Frame)
    requires ValidCoding(coding)
  {
    forall s | s in f :: s < |coding| && Fits(e, coding[s], f[s])
  }

  function Projected(e: Engine, coding: seq<Slot>, f: Frame): Frame
    requires ValidCoding(coding)
    requires forall s | s in f :: s < |coding|
  {
    map s | s in f :: Landed(e, coding[s], f[s])
  }

  /** What a frame may be: each slot the server's own value or, left out for want of room, the one
      the peer has at the base. `changed` names every slot that differs from the base, and may name
      others. */
  predicate Sendable(w: World, base: Option<nat>, frame: Frame, changed: seq<nat>) {
    && (base.Some? ==> base.value in w.ring && base.value in w.acked && base.value in w.sent)
    && (forall s | s in frame ::
          (s in w.current && frame[s] == w.current[s])
          || (s in FrameAt(w.sent, base) && frame[s] == FrameAt(w.sent, base)[s]))
    && Covers(FrameAt(w.sent, base), frame, changed)
  }

  predicate Covers(base: Frame, frame: Frame, changed: seq<nat>) {
    && (forall k | 0 <= k < |changed| :: changed[k] in frame)
    && (forall s | s in frame :: s in changed || (s in base && base[s] == frame[s]))
  }

  ghost predicate Enabled(e: Engine, coding: seq<Slot>, w: World, event: Event)
    requires ValidCoding(coding)
  {
    match event
    case Write(values) => FrameWritable(e, coding, values)
    case Send(base, frame, changed, _) => Sendable(w, base, frame, changed)
    case Deliver(packet) => packet in w.packets
    case AckArrives(number) => number in w.acks
    case _ => true
  }

  /** The client's answer to a packet: a stale one, one on a base it no longer has and one it cannot
      read to the end change nothing. */
  function Receive(e: Engine, coding: seq<Slot>, w: World, p: Packet): World
    requires ValidCoding(coding)
  {
    if w.newest.Some? && p.number <= w.newest.value then w
    else if p.base.Some? && p.base.value !in w.held then w
    else
      var bases := FrameAt(w.held, p.base);
      var read := ReadChanged(e, coding, p.changed, bases, p.time, p.data);
      if !read.complete then w
      else
        var frame := (bases - p.dropped) + read.values;
        w.(held := w.held[p.number := frame], newest := Some(p.number), acks := w.acks + {p.number})
  }

  function Next(e: Engine, coding: seq<Slot>, w: World, event: Event): World
    requires ValidCoding(coding)
    requires event.Send? ==> Known(coding, event.changed, event.frame)
  {
    match event
    case Write(values) => w.(current := values)
    case Send(base, frame, changed, time) =>
      var from := FrameAt(w.sent, base);
      var data := ChangedCode(e, coding, changed, frame, from, time);
      w.(next := w.next + 1,
         sent := w.sent[w.next := frame],
         ring := w.ring + {w.next},
         packets := w.packets + {Packet(w.next, base, from.Keys - frame.Keys, changed, time, data)})
    case ServerForgets(number) => w.(ring := w.ring - {number})
    case Deliver(packet) => Receive(e, coding, w, packet)
    case AckArrives(number) => w.(acked := w.acked + {number})
    case ClientForgets(number) => w.(held := w.held - {number})
  }

  const Start := World(map[], 1, map[], {}, {}, {}, {}, map[], None)

  /** A packet in flight is its frame coded against its base's, both as sent. */
  ghost predicate Genuine(e: Engine, coding: seq<Slot>, sent: map<nat, Frame>, p: Packet)
    requires ValidCoding(coding)
  {
    && p.number in sent && (p.base.Some? ==> p.base.value in sent)
    && var frame, base := sent[p.number], FrameAt(sent, p.base);
    && Known(coding, p.changed, frame) && Covers(base, frame, p.changed)
    && p.dropped == base.Keys - frame.Keys
    && p.data == ChangedCode(e, coding, p.changed, frame, base, p.time)
  }

  /** The claim itself: each frame the client holds is the one of that number, projected. */
  ghost predicate Agrees(e: Engine, coding: seq<Slot>, w: World)
    requires ValidCoding(coding)
  {
    forall n | n in w.held ::
      && n in w.sent && (forall s | s in w.sent[n] :: s < |coding|)
      && w.held[n] == Projected(e, coding, w.sent[n])
  }

  ghost predicate Inv(e: Engine, coding: seq<Slot>, w: World)
    requires ValidCoding(coding)
  {
    && FrameFits(e, coding, w.current)
    && (forall n | n in w.sent :: n < w.next && FrameFits(e, coding, w.sent[n]))
    && (forall p | p in w.packets :: Genuine(e, coding, w.sent, p))
    && Agrees(e, coding, w)
  }

  lemma ProjectedCountsAlike(e: Engine, coding: seq<Slot>, base: Frame, s: nat)
    requires e.Sound() && ValidCoding(coding) && s < |coding| && FrameFits(e, coding, base)
    ensures SameBase(e, coding[s], BaseOf(base, s), BaseOf(Projected(e, coding, base), s))
  {
    if s in base {
      LandedCountsAlike(e, coding[s], base[s]);
    }
  }

  /** The base's projection, less what was dropped, with the changed slots' projections over it. */
  lemma Merged(e: Engine, coding: seq<Slot>, base: Frame, frame: Frame, changed: seq<nat>)
    requires ValidCoding(coding) && Known(coding, changed, frame) && Covers(base, frame, changed)
    requires (forall s | s in frame :: s < |coding|) && (forall s | s in base :: s < |coding|)
    ensures (Projected(e, coding, base) - (base.Keys - frame.Keys)) + LandedAll(e, coding, changed, frame)
         == Projected(e, coding, frame)
  {
    var kept := Projected(e, coding, base) - (base.Keys - frame.Keys);
    var set' := LandedAll(e, coding, changed, frame);
    assert (kept + set').Keys == frame.Keys;
    forall s | s in frame
      ensures (kept + set')[s] == Landed(e, coding[s], frame[s])
    {
    }
  }

  /** One genuine packet read against the projection of its base gives the projection of its frame. */
  lemma FrameLands(e: Engine, coding: seq<Slot>, sent: map<nat, Frame>, p: Packet)
    requires e.Sound() && ValidCoding(coding) && Genuine(e, coding, sent, p)
    requires FrameFits(e, coding, sent[p.number]) && FrameFits(e, coding, FrameAt(sent, p.base))
    ensures var bases := Projected(e, coding, FrameAt(sent, p.base));
            var read := ReadChanged(e, coding, p.changed, bases, p.time, p.data);
            read.complete && (bases - p.dropped) + read.values == Projected(e, coding, sent[p.number])
  {
    var frame, base := sent[p.number], FrameAt(sent, p.base);
    var bases := Projected(e, coding, base);
    ChangedLands(e, coding, base, frame, p.changed, p.time);
    Merged(e, coding, base, frame, p.changed);
  }

  lemma ChangedLands(e: Engine, coding: seq<Slot>, base: Frame, frame: Frame, changed: seq<nat>, time: int64)
    requires e.Sound() && ValidCoding(coding) && Known(coding, changed, frame)
    requires FrameFits(e, coding, frame) && FrameFits(e, coding, base)
    ensures ReadChanged(e, coding, changed, Projected(e, coding, base), time,
            ChangedCode(e, coding, changed, frame, base, time))
         == Applied(LandedAll(e, coding, changed, frame), [], true)
  {
    var bases := Projected(e, coding, base);
    forall k | 0 <= k < |changed|
      ensures SameBase(e, coding[changed[k]], BaseOf(base, changed[k]), BaseOf(bases, changed[k]))
    {
      ProjectedCountsAlike(e, coding, base, changed[k]);
    }
    ChangedRoundTrip(e, coding, changed, frame, base, bases, time, []);
    var data := ChangedCode(e, coding, changed, frame, base, time);
    assert data + [] == data;
  }

  /** A packet either changes nothing or adds its own frame, projected, as the newest. */
  lemma ReceiveAdds(e: Engine, coding: seq<Slot>, w: World, p: Packet)
    requires e.Sound() && ValidCoding(coding) && Inv(e, coding, w) && p in w.packets
    ensures p.number in w.sent && (forall s | s in w.sent[p.number] :: s < |coding|)
    ensures Receive(e, coding, w, p) ==
              if (w.newest.Some? && p.number <= w.newest.value) || (p.base.Some? && p.base.value !in w.held) then w
              else w.(held := w.held[p.number := Projected(e, coding, w.sent[p.number])],
                      newest := Some(p.number), acks := w.acks + {p.number})
  {
    assert Genuine(e, coding, w.sent, p);
    if !(w.newest.Some? && p.number <= w.newest.value) && !(p.base.Some? && p.base.value !in w.held) {
      assert FrameAt(w.held, p.base) == Projected(e, coding, FrameAt(w.sent, p.base));
      FrameLands(e, coding, w.sent, p);
    }
  }

  /** Sending adds a number no older frame or packet mentions. */
  lemma GenuineStays(e: Engine, coding: seq<Slot>, sent: map<nat, Frame>, next: nat, frame: Frame, p: Packet)
    requires ValidCoding(coding) && Genuine(e, coding, sent, p) && next !in sent
    ensures Genuine(e, coding, sent[next := frame], p)
  {
    assert FrameAt(sent[next := frame], p.base) == FrameAt(sent, p.base);
  }

  lemma SentFits(e: Engine, coding: seq<Slot>, w: World, event: Event)
    requires ValidCoding(coding) && Inv(e, coding, w) && event.Send? && Enabled(e, coding, w, event)
    ensures FrameFits(e, coding, event.frame) && Known(coding, event.changed, event.frame)
  {
    forall s | s in event.frame
      ensures s < |coding| && Fits(e, coding[s], event.frame[s])
    {
    }
  }

  lemma SendKeeps(e: Engine, coding: seq<Slot>, w: World, event: Event)
    requires ValidCoding(coding) && Inv(e, coding, w) && event.Send? && Enabled(e, coding, w, event)
    ensures Known(coding, event.changed, event.frame)
    ensures Inv(e, coding, Next(e, coding, w, event))
  {
    SentFits(e, coding, w, event);
    var w' := Next(e, coding, w, event);
    forall p | p in w'.packets
      ensures Genuine(e, coding, w'.sent, p)
    {
      if p in w.packets {
        GenuineStays(e, coding, w.sent, w.next, event.frame, p);
      } else {
        assert FrameAt(w'.sent, event.base) == FrameAt(w.sent, event.base);
      }
    }
    assert forall n | n in w'.sent :: n < w'.next && FrameFits(e, coding, w'.sent[n]);
    assert Agrees(e, coding, w') by {
      assert Agrees(e, coding, w);
    }
  }

  lemma StepKeeps(e: Engine, coding: seq<Slot>, w: World, event: Event)
    requires e.Sound() && ValidCoding(coding) && Inv(e, coding, w) && Enabled(e, coding, w, event)
    requires event.Write? ==> FrameFits(e, coding, event.values)
    ensures event.Send? ==> Known(coding, event.changed, event.frame)
    ensures Inv(e, coding, Next(e, coding, w, event))
  {
    match event
    case Send(_, _, _, _) => SendKeeps(e, coding, w, event);
    case Deliver(p) => ReceiveAdds(e, coding, w, p);
    case _ =>
  }

  /** w is where `events`, each enabled in its turn, lead from the start. */
  ghost predicate Reaches(e: Engine, coding: seq<Slot>, events: seq<Event>, w: World)
    requires ValidCoding(coding)
    decreases |events|
  {
    if events == [] then w == Start
    else
      var last := events[|events| - 1];
      exists v: World ::
        && Reaches(e, coding, events[..|events| - 1], v)
        && Enabled(e, coding, v, last)
        && (last.Send? ==> Known(coding, last.changed, last.frame))
        && w == Next(e, coding, v, last)
  }

  /** Every grid value written Keeps. */
  ghost predicate AllFit(e: Engine, coding: seq<Slot>, events: seq<Event>)
    requires ValidCoding(coding)
  {
    forall k | 0 <= k < |events| && events[k].Write? :: FrameFits(e, coding, events[k].values)
  }

  lemma {:induction false} ReachedInv(e: Engine, coding: seq<Slot>, events: seq<Event>, w: World)
    requires e.Sound() && ValidCoding(coding) && Reaches(e, coding, events, w) && AllFit(e, coding, events)
    ensures Inv(e, coding, w)
    decreases |events|
  {
    if events != [] {
      var last := events[|events| - 1];
      var v: World :|
        && Reaches(e, coding, events[..|events| - 1], v)
        && Enabled(e, coding, v, last)
        && (last.Send? ==> Known(coding, last.changed, last.frame))
        && w == Next(e, coding, v, last);
      assert events[|events| - 1] == last;
      ReachedInv(e, coding, events[..|events| - 1], v);
      StepKeeps(e, coding, v, last);
    }
  }

  /** Over every run, each slot the client holds for a frame it applied is the server's value at that
      frame, projected by the slot's kind, whatever bases the deltas in between stepped from. */
  lemma ClientHoldsProjection(e: Engine, coding: seq<Slot>, events: seq<Event>, w: World, n: nat, s: nat)
    requires e.Sound() && ValidCoding(coding) && Reaches(e, coding, events, w) && AllFit(e, coding, events)
    requires n in w.held
    ensures n in w.sent && (s in w.held[n] <==> s in w.sent[n])
    ensures s in w.held[n] ==> s < |coding| && w.held[n][s] == Landed(e, coding[s], w.sent[n][s])
  {
    ReachedInv(e, coding, events, w);
  }

  /** What is forgotten is not stepped from: the server codes nothing against a frame it has not, and the client leaves
      a packet on one it has not; and nothing else is forgotten with it. */
  lemma ForgottenIsNoBase(e: Engine, coding: seq<Slot>, w: World, n: nat, frame: Frame, changed: seq<nat>, time: int64,
      p: Packet)
    requires ValidCoding(coding)
    ensures var server, client := Next(e, coding, w, ServerForgets(n)), Next(e, coding, w, ClientForgets(n));
            && Enabled(e, coding, w, ServerForgets(n)) && Enabled(e, coding, w, ClientForgets(n))
            && !Enabled(e, coding, server, Send(Some(n), frame, changed, time))
            && (p.base == Some(n) ==> Receive(e, coding, client, p) == client)
            && server.(ring := w.ring) == w && client.(held := w.held) == w
            && server.ring + {n} == w.ring + {n} && (forall m | m != n :: m in client.held <==> m in w.held)
            && (forall m | m in client.held :: client.held[m] == w.held[m])
  {
  }

  predicate Behind(sent: map<nat, Frame>, next: nat) {
    forall n | n in sent :: n < next
  }

  lemma NoneBehind()
    ensures Behind(map[], 1)
  {
  }

  lemma StaysBehind(e: Engine, coding: seq<Slot>, w: World, event: Event)
    requires ValidCoding(coding) && Behind(w.sent, w.next)
             && (event.Send? ==> Known(coding, event.changed, event.frame))
    ensures var w' := Next(e, coding, w, event); Behind(w'.sent, w'.next)
  {
  }

  lemma {:induction false} SentIsBehind(e: Engine, coding: seq<Slot>, events: seq<Event>, w: World)
    requires ValidCoding(coding) && Reaches(e, coding, events, w)
    ensures Behind(w.sent, w.next)
    decreases |events|
  {
    hide Behind;
    hide Next;
    hide Enabled;
    NoneBehind();
    if events != [] {
      var last := events[|events| - 1];
      var v: World :|
        && Reaches(e, coding, events[..|events| - 1], v)
        && Enabled(e, coding, v, last)
        && (last.Send? ==> Known(coding, last.changed, last.frame))
        && w == Next(e, coding, v, last);
      SentIsBehind(e, coding, events[..|events| - 1], v);
      StaysBehind(e, coding, v, last);
    }
  }

  /** A frame's content is settled when it is sent: nothing that happens later rewrites it. */
  lemma SentIsSettled(e: Engine, coding: seq<Slot>, events: seq<Event>, w: World, event: Event, n: nat)
    requires ValidCoding(coding) && Reaches(e, coding, events, w) && Enabled(e, coding, w, event)
    requires event.Send? ==> Known(coding, event.changed, event.frame)
    requires n in w.sent
    ensures var w' := Next(e, coding, w, event); n in w'.sent && w'.sent[n] == w.sent[n]
  {
    SentIsBehind(e, coding, events, w);
  }

  /** And a fresh packet on a base the client still has is always applied: whatever was lost before,
      one delivery brings the client to the whole of what the server sent. With a frame that left
      nothing out, that is the server's state, so a loss needs no retransmission to heal. */
  lemma OneDeliveryHeals(e: Engine, coding: seq<Slot>, events: seq<Event>, w: World, p: Packet)
    requires e.Sound() && ValidCoding(coding) && Reaches(e, coding, events, w) && AllFit(e, coding, events)
             && p in w.packets
    requires w.newest.Some? ==> p.number > w.newest.value
    requires p.base.Some? ==> p.base.value in w.held
    ensures p.number in w.sent && (forall s | s in w.sent[p.number] :: s < |coding|)
    ensures var w' := Receive(e, coding, w, p);
            && p.number in w'.held && w'.held[p.number] == Projected(e, coding, w.sent[p.number])
            && w'.newest == Some(p.number) && p.number in w'.acks
  {
    ReachedInv(e, coding, events, w);
    ReceiveAdds(e, coding, w, p);
  }

  // --- A run that goes astray ---

  lemma OneMore(e: Engine, coding: seq<Slot>, events: seq<Event>, v: World, last: Event)
    requires ValidCoding(coding) && Reaches(e, coding, events, v) && Enabled(e, coding, v, last)
    requires last.Send? ==> Known(coding, last.changed, last.frame)
    ensures Reaches(e, coding, events + [last], Next(e, coding, v, last))
  {
    hide Enabled;
    hide Next;
    var all := events + [last];
    assert all[..|all| - 1] == events && all[|all| - 1] == last;
  }

  /** The packet of a frame of one slot. */
  function Carrying(e: Engine, c: Slot, number: nat, base: Option<nat>, v: Variant, from: Option<Variant>,
      time: int64): Packet
    requires c.Valid()
  {
    Packet(number, base, {}, [0], time, SlotCode(e, c, v, from, time))
  }

  /** A value written, sent against a base and delivered. */
  function Trip(e: Engine, c: Slot, number: nat, base: Option<nat>, v: Variant, from: Option<Variant>,
      time: int64): seq<Event>
    requires c.Valid()
  {
    [Write(map[0 := v])] + [Send(base, map[0 := v], [0], time)] + [Deliver(Carrying(e, c, number, base, v, from, time))]
  }

  lemma OneSlotCode(e: Engine, c: Slot, v: Variant, bases: map<nat, Variant>, time: int64)
    requires c.Valid()
    ensures ChangedCode(e, [c], [0], map[0 := v], bases, time) == SlotCode(e, c, v, BaseOf(bases, 0), time)
  {
    var code := SlotCode(e, c, v, BaseOf(bases, 0), time);
    assert [0][1..] == [];
    assert code + [] == code;
  }

  lemma OneSlotRead(e: Engine, c: Slot, bases: map<nat, Variant>, time: int64, s: bytes, v: Variant)
    requires c.Valid() && ReadSlot(e, c, BaseOf(bases, 0), time, s) == Parsed(v, [])
    ensures ReadChanged(e, [c], [0], bases, time, s) == Applied(map[0 := v], [], true)
  {
    assert [0][1..] == [];
    assert map[0 := v] + map[] == map[0 := v];
  }

  lemma WritesAndSends(e: Engine, c: Slot, w: World, base: Option<nat>, v: Variant, time: int64)
    requires c.Valid() && Encodable(e, c, v) && Countable(e, c, v)
    requires base.Some? ==> base.value in w.ring && base.value in w.acked && base.value in w.sent
    requires FrameAt(w.sent, base).Keys <= {0}
    ensures var w1 := w.(current := map[0 := v]);
            var send := Send(base, map[0 := v], [0], time);
            var p := Carrying(e, c, w.next, base, v, BaseOf(FrameAt(w.sent, base), 0), time);
            && Enabled(e, [c], w, Write(map[0 := v])) && Next(e, [c], w, Write(map[0 := v])) == w1
            && Enabled(e, [c], w1, send) && Known([c], [0], map[0 := v])
            && Next(e, [c], w1, send)
               == w1.(next := w.next + 1, sent := w.sent[w.next := map[0 := v]], ring := w.ring + {w.next},
                   packets := w.packets + {p})
  {
    hide SlotCode;
    hide ChangedCode;
    var from := FrameAt(w.sent, base);
    OneSlotCode(e, c, v, from, time);
    assert from.Keys - map[0 := v].Keys == {};
  }

  lemma Delivers(e: Engine, c: Slot, w: World, p: Packet, v: Variant)
    requires c.Valid() && p in w.packets && (w.newest.Some? ==> p.number > w.newest.value)
    requires p.base.Some? ==> p.base.value in w.held
    requires p.changed == [0] && p.dropped == {} && FrameAt(w.held, p.base).Keys <= {0}
    requires ReadSlot(e, c, BaseOf(FrameAt(w.held, p.base), 0), p.time, p.data) == Parsed(v, [])
    ensures Enabled(e, [c], w, Deliver(p))
    ensures Next(e, [c], w, Deliver(p))
            == w.(held := w.held[p.number := map[0 := v]], newest := Some(p.number), acks := w.acks + {p.number})
  {
    hide ReadSlot;
    hide ReadChanged;
    var bases := FrameAt(w.held, p.base);
    OneSlotRead(e, c, bases, p.time, p.data, v);
    assert (bases - {}) + map[0 := v] == map[0 := v];
  }

  /** One more value gets to the client, as it reads it over the base it has. */
  lemma OneTrip(e: Engine, c: Slot, events: seq<Event>, w: World, base: Option<nat>, v: Variant, time: int64,
      landed: Variant) returns (w': World)
    requires c.Valid() && Reaches(e, [c], events, w) && Encodable(e, c, v) && Countable(e, c, v)
    requires base.Some? ==> base.value in w.ring && base.value in w.acked
    requires base.Some? ==> base.value in w.sent && base.value in w.held
    requires FrameAt(w.sent, base).Keys <= {0} && FrameAt(w.held, base).Keys <= {0}
             && (w.newest.Some? ==> w.next > w.newest.value)
    requires ReadSlot(e, c, BaseOf(FrameAt(w.held, base), 0), time,
             SlotCode(e, c, v, BaseOf(FrameAt(w.sent, base), 0), time))
          == Parsed(landed, [])
    ensures Reaches(e, [c], events + Trip(e, c, w.next, base, v, BaseOf(FrameAt(w.sent, base), 0), time), w')
    ensures w'.next == w.next + 1 && w'.sent == w.sent[w.next := map[0 := v]] && w'.ring == w.ring + {w.next}
            && w'.acked == w.acked
    ensures w'.held == w.held[w.next := map[0 := landed]] && w'.newest == Some(w.next) && w.next in w'.acks
  {
    hide Reaches;
    hide Enabled;
    hide Next;
    hide ReadSlot;
    hide SlotCode;
    var p := Carrying(e, c, w.next, base, v, BaseOf(FrameAt(w.sent, base), 0), time);
    var write, send := Write(map[0 := v]), Send(base, map[0 := v], [0], time);
    WritesAndSends(e, c, w, base, v, time);
    var w1 := Next(e, [c], w, write);
    OneMore(e, [c], events, w, write);
    var w2 := Next(e, [c], w1, send);
    OneMore(e, [c], events + [write], w1, send);
    Delivers(e, c, w2, p, landed);
    w' := Next(e, [c], w2, Deliver(p));
    OneMore(e, [c], events + [write] + [send], w2, Deliver(p));
    assert events + [write] + [send] + [Deliver(p)] == events + ([write] + [send] + [Deliver(p)]);
  }

  /** A value is sent whole, delivered and acked, and another sent against it. */
  function TwoFrames(e: Engine, c: Slot, v: Variant, u: Variant, time: int64): seq<Event>
    requires c.Valid()
  {
    Trip(e, c, 1, None, v, None, time) + [AckArrives(1)] + Trip(e, c, 2, Some(1), u, Some(v), time)
  }

  lemma FirstFrame(e: Engine, c: Slot, v: Variant, time: int64) returns (w: World)
    requires e.Sound() && c.Valid() && Encodable(e, c, v) && Countable(e, c, v)
    ensures Reaches(e, [c], Trip(e, c, 1, None, v, None, time) + [AckArrives(1)], w)
    ensures w.next == 2 && w.sent == map[1 := map[0 := v]] && w.ring == {1} && w.acked == {1} && w.newest == Some(1)
    ensures w.held == map[1 := map[0 := Landed(e, c, v)]]
  {
    hide SlotCode;
    hide ReadSlot;
    hide Landed;
    SlotRoundTrip(e, c, v, None, None, time, []);
    assert SlotCode(e, c, v, None, time) + [] == SlotCode(e, c, v, None, time);
    var first := Trip(e, c, 1, None, v, None, time);
    var w1 := OneTrip(e, c, [], Start, None, v, time, Landed(e, c, v));
    assert [] + first == first;
    OneMore(e, [c], first, w1, AckArrives(1));
    w := Next(e, [c], w1, AckArrives(1));
  }

  /** Exactly the values that Keep are safe to step from. Over any float grid slot: write v, send and ack it,
      then write u and send it against that frame. The client lands on u's own count if and only if v Keeps. */
  lemma SecondFrameLands(e: Engine, c: Slot, v: Variant, u: Variant, time: int64) returns (w: World)
    requires e.Sound() && c.Valid() && c.kind == SK_FLOAT_GRID && Countable(e, c, v) && Countable(e, c, u)
    ensures Reaches(e, [c], TwoFrames(e, c, v, u, time), w) && 2 in w.sent && w.sent[2] == map[0 := u]
    ensures var q := LandsOn(e, c, u, v, Landed(e, c, v));
            && 2 in w.held && w.held[2] == map[0 := Float(GridFloat(e, c, q))]
            && (q == GridSteps(e, c, e.asDouble(u)) <==> Keeps(e, c, v))
  {
    hide SlotCode;
    hide ReadSlot;
    hide Landed;
    hide Reaches;
    hide LandsOn;
    hide Keeps;
    StepsLandExactly(e, c, u, v, time, []);
    var code := SlotCode(e, c, u, Some(v), time);
    assert code + [] == code;
    var w1 := FirstFrame(e, c, v, time);
    w := OneTrip(e, c, Trip(e, c, 1, None, v, None, time) + [AckArrives(1)], w1, Some(1), u, time,
                  Float(GridFloat(e, c, LandsOn(e, c, u, v, Landed(e, c, v)))));
  }

  lemma DriftCounts(e: Engine, c: Slot)
    requires e.rounding.Ieee() && c.kind == SK_FLOAT_GRID && c.grid == 3.0 && c.Valid()
    ensures GridSteps(e, c, Finite(10500000000000002.0)) == 3500000000000001
    ensures GridFloat(e, c, 3500000000000001) == Finite(10500000000000004.0)
    ensures GridSteps(e, c, Finite(10500000000000004.0)) == 3500000000000002
    ensures GridSteps(e, c, Finite(0.0)) == 0 && GridFloat(e, c, 0) == Finite(0.0) && GridFloat(e, c, 1) == Finite(3.0)
  {
    hide Rounding.GridQ;
    hide Rounding.FromGrid;
    hide Rounding.Countable;
    hide Rounding.Ieee;
    hide Held;
    hide InFormat;
    hide Recounts.FloatKeeps;
    Recounts.FloatSlotDrifts(e.rounding);
    Recounts.ZeroAndOne(e.rounding, 3.0);
  }

  lemma DriftLandsOn(e: Engine, c: Slot, v: Variant, u: Variant)
    requires e.Sound() && c == Slot(SK_FLOAT_GRID, 3.0, QUANT_AUTO) && c.Valid()
    requires v == Float(Finite(10500000000000002.0)) && u == Float(Finite(0.0))
    ensures LandsOn(e, c, u, v, Landed(e, c, v)) == 1 && Landed(e, c, u) == u
  {
    hide GridSteps;
    hide GridFloat;
    hide Carried;
    DriftCounts(e, c);
    assert Landed(e, c, v) == Float(Finite(10500000000000004.0));
  }

  /** In numbers: on a grid of 3, after the double 10500000000000002 the client reads 0 as 3. */
  lemma DriftReachesTheClient(e: Engine, time: int64) returns (w: World)
    requires e.Sound()
    ensures var c := Slot(SK_FLOAT_GRID, 3.0, QUANT_AUTO);
            var v, u := Float(Finite(10500000000000002.0)), Float(Finite(0.0));
            && c.Valid() && Reaches(e, [c], TwoFrames(e, c, v, u, time), w)
            && 2 in w.sent && w.sent[2] == map[0 := u] && Landed(e, c, u) == u
            && 2 in w.held && w.held[2] == map[0 := Float(Finite(3.0))]
  {
    hide Reaches;
    hide LandsOn;
    hide Landed;
    hide GridFloat;
    hide Recounts.FloatKeeps;
    var c := Slot(SK_FLOAT_GRID, 3.0, QUANT_AUTO);
    Recounts.FloatSlotDrifts(e.rounding);
    Recounts.ZeroAndOne(e.rounding, 3.0);
    DriftCounts(e, c);
    DriftLandsOn(e, c, Float(Finite(10500000000000002.0)), Float(Finite(0.0)));
    w := SecondFrameLands(e, c, Float(Finite(10500000000000002.0)), Float(Finite(0.0)), time);
  }
}
