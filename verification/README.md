# Goldnet's Godot binding, verified

A Dafny model of the protocol logic in goldnet's Godot binding and its client helpers, and proofs of
what that logic is for: that two ends which never agree on anything but bytes still agree on what the
bytes meant, whatever the network does in between.

`dafny verify dfyconfig.toml` checks the whole project.

The transport core (`goldnet::Server`, `Client`, `NetSim`, `Writer`, `Reader`) lives in a submodule that
is not part of this model. What the binding needs of it appears as small explicit contracts: a writer and
a reader over bytes, a reliable stream in order and exactly once, datagrams that may be lost, repeated or
reordered, a ring of frames on each end, and a queue that keeps one sender's packets in order. What the
engine and the platform do (bit patterns, binary16, Godot's own Variant encoding, Variant conversions, the
scene tree, the clock) is a value of functions passed in, `Values.Engine` with its promises in `Sound`, or
a description of the scene given with each step. `Platform` has an engine that keeps all of its promises
(`Platform.PromisesCanBeKept`), with the formats and bit patterns of IEEE 754, and grid values that fit their
slots there (`Platform.GridValuesFit`).

| file | models |
|---|---|
| `Wire.dfy` | varints, fixed widths, blocks, steps modulo 2^64, rows of anything, and the byte writer and reader |
| `Reals.dfy` | absolute value, clamping, and products of reals |
| `Floats.dfy` | binary64 and binary32 of IEEE 754 as sets of reals, and rounding to the nearest, exactly |
| `Numbers.dfy` | counting in grid steps as the platform computes it, and angle steps |
| `Recounts.dfy` | when a count survives being stored and counted again |
| `Values.dfy` | Variants, the engine's contract, tagged values |
| `Platform.dfy` | one engine that keeps the contract, its floats those of IEEE 754 |
| `SlotCodec.dfy` | one replicated property on the wire, whole or as a step from a base |
| `DeltaStream.dfy` | the snapshot stream to one peer as a transition system |
| `Args.dfy` | RPC arguments and a spawn record's data |
| `Messages.dfy` | RPC targets registered lazily by id, over a reliable stream and lossy datagrams |
| `NetIds.dfy` | which node each id names, on either end |
| `SpawnServer.dfy`, `SpawnHost.dfy` | the server's spawn and bind records: the steps and what they keep, and the object |
| `SpawnOrder.dfy`, `SpawnRuns.dfy`, `SpawnCaptures.dfy` | which steps keep the records in order, whole runs of any steps, and what that asks of the game's spawn functions |
| `SpawnClient.dfy`, `SpawnAgreement.dfy` | the client's side, and what the two ends then agree on |
| `ServerClock.dfy` | the client's estimate of the server's clock |
| `InterpolationBuffer.dfy` | snapshots of one entity and where it is drawn between them |
| `SimPeer.dfy` | the peer that holds packets back as a bad link would |
| `Pacing.dfy` | the send deadline, with the interval each poll finds |
| `SyncSpec.dfy` | the table of replicated properties, its check, and the metas read back |
| `Commands.dfy` | calls that ride the uplink as commands |

Code that computes is functions with lemmas about them. Code that changes things step by step is methods
and classes (`Wire.Writer`, `Messages.Endpoint`, `NetIds.NetIds`, `SpawnHost.Host`, `SpawnClient.ClientEnd`,
`ServerClock.ClockEstimator`, `InterpolationBuffer.Buffer`, `SimPeer.SimulatedPeer`, `Pacing.Pacer`), each
proved to take its fields exactly where a function of the old state says; the theorems about whole runs are
about those functions.

## Main results

- Over every run of the snapshot stream, each slot the client holds is the server's value at that frame as
  the slot's kind leaves it, although the server steps from its raw value at the base and the client from
  the one it decoded (`DeltaStream.ClientHoldsProjection`). On a grid that rests on quantizing twice being
  quantizing once, which is characterised exactly (`SlotCodec.LandedCountsAlike`), and nothing less will do:
  after any value that fails it, the next one stepped from it lands wrong (`SlotCodec.StepsLandExactly`,
  `DeltaStream.SecondFrameLands`).
- It is a fact about rounding, settled for binary64 and binary32 themselves, ties and subnormals
  included. A Vector3 axis always counts as it did, with no bound on its count, unless what it decodes to is
  infinite (`Recounts.AxisSnapsBackExactly`): it is a binary32 value to begin with, so nothing nearer its
  grid point than itself can be half a step off. A float slot's value does if and only if the product it is
  stored as is near enough (`Recounts.FloatSnapsBackExactly`), which it is up to 2^51 steps
  (`Recounts.FloatSnapsBack`).
- What each hint, tag and slot kind leaves of a value is stated on the bytes, with neither end's tables in it
  (`Values.HintedArrives`, `Values.UnhintedArrives`, `SlotCodec.AngleSlotLands`, `SlotCodec.StepSlotLands`,
  `SlotCodec.WholeSlotLands`).
- Over every run of the two channels, no call meets an id its receiver does not know, and each is made on
  the sender's own path and method with the sender's arguments, on the node that is there now or on one an
  earlier arrival found there, exactly when its method is for anyone to call, or for its authority and the sender is
  that (`Messages.CallsResolve`).
- Over every run of the server, whatever its spawn functions return, a record is announced only of a node that is
  there, as the scene shows it, and called gone only when its node was freed or unregistered
  (`SpawnRuns.StepTells`); and however the records are ordered and repeated on the way, each id a client has
  learned names the node that a description of that id found when its record came, and one the server's own
  node met at some moment (`SpawnAgreement.EndsAgree`).
- A client builds a spawn record exactly when it can, and once it has a spawner's function every record of that
  spawner's is built as it comes (`SpawnClient.SpawnBuiltExactly`, `SpawnAgreement.WrappedSpawnerBuilds`).
- Each id is announced once, and called gone at most once, after it, if and only if every step of the run is safe:
  no captured node is told of whose id has a record already, and no node is found gone whose record went before
  (`SpawnRuns.ToldInOrderExactly`). Spawn functions that return new nodes, no synchronizers, never do otherwise
  (`SpawnCaptures.NewNodesKeepOrder`); two others do, below.
- After any calls, what the clock has accepted is exactly the observations with news in them since the last reset, and
  its target the best of those in the window (`ServerClock.HistoryIsNews`, `ServerClock.TargetIsWindowMax`).
- The clock's offset stays within the accepted candidates after any calls, so it is never ahead of the
  server (`ServerClock.NeverAhead`); it never overshoots, and calls that bring frames and no samples bring it
  within any distance of its target after a number of them that is stated (`ServerClock.FramesConverge`,
  `ServerClock.Enough`); once under its cap it closes in geometrically (`ServerClock.GapIsPower`).
- A bounded buffer samples as the unbounded history does if and only if it has room for two snapshots
  (`InterpolationBuffer.ServesIffTwo`), and the drawn position is Lipschitz over the whole of time
  (`InterpolationBuffer.PositionIsLipschitz`).
- Whatever interval each poll finds, the send deadline is the first poll's time, the intervals of the ticks sent
  since, and what stalls gave up (`Pacing.DeadlineAddsUp`); where it is the same throughout, the number of ticks
  is exactly the number of intervals since the first poll if and only if no poll found a stall
  (`Pacing.TicksAreExact`).
- The check of a table reports a line if and only if what it says is so (`SyncSpec.ReportedExactly`), and a table it
  finds nothing wrong with loses nothing (`SyncSpec.CleanTableLosesNothing`).

## What turned out false, or narrower than the source says

- `NetIds::assign` does not check that the next id is free. `NetIds.AssignOverALearnedId` gives the input
  that leaves the two maps disagreeing, and `NetIds.AssignKeeps` the condition under which they stay
  inverse, both ways; a client that resets between sessions meets it (`NetIds.SessionIsClear`).
- Binding an object that had no id drops id 0, if anything was bound to it (`NetIds.BindDropsZero`, and
  exactly when in `NetIds.BindKeeps`). Only a record naming id 0 gets there, and a server that counts from 1
  sends none.
- A spawn function that returns a node it returned before, out of the tree and not freed, has its id announced a
  second time: nothing checks for it. `SpawnCaptures.RecapturedIsToldTwice` is the run. Draining a captured node
  keeps each id announced once exactly when the node has no id (`SpawnOrder.PlainInOrder`); a synchronizer or a
  spawner may have one, if it has no record yet and is not the spawner it came from (`SpawnOrder.DrainedOneTidy`).
- A spawned node that is itself a synchronizer is called gone twice: when it unregisters, and again when its id,
  still watched and by then nobody's, is taken for a freed node's (`SpawnCaptures.SpawnedSyncIsGoneTwice`, as far
  as the core's removal of an entity takes its record whatever its kind). A detection keeps each id gone once
  exactly when every spawn it finds gone has its record still (`SpawnOrder.RetiredSpawnsTidy`).
- A call is made on the node first found for its target while that is in the tree, even after it was renamed and
  another took its path (`Messages.RenamedIsStillCalled`).
- An interpolation buffer with room for one snapshot never extrapolates, although its history would
  (`InterpolationBuffer.OneDoesNot`).
- A float slot's count can move when it is decoded and counted again: `Recounts.FloatSlotDrifts` gives a
  double, `Recounts.FloatSnapsBackExactly` the exact condition. A value stepped from such a base is off by what
  the two ends' counts of it differ by (`SlotCodec.GridStepCarriesDisagreement`);
  `DeltaStream.DriftReachesTheClient` is a run in which the client reads 0 as 3.
- A Vector3 axis loses its count only where narrowing overflows (`Recounts.AxisOverflows`), which takes a grid
  over 2^60 (`Recounts.AxisSnapsBack`).
- Polls each within its interval of the one before can find a stall all the same, when the interval shrinks
  (`Pacing.ShrinkingStalls`). They find none if each comes sooner than that by what it has shrunk
  (`Pacing.PromptNeverStalls`).
- A deadline of 0 means no poll has come yet, so polls at time 0 count for nothing
  (`Pacing.ZerosAreIgnored`).
- Closing the simulated peer drops what the server had in flight and everything ready, but another sender's
  held packets stay: `SimPeer.ClosingLeaves` is a run, and nothing stays if and only if everything held was
  the server's (`SimPeer.ClosedIsEmpty`).

## Model

| member | source | states |
|---|---|---|
| Wire.UvarintRoundTrip | src/goldnet_net_ids.h:4-5 | an unsigned base-128 varint followed by anything reads back as itself and takes exactly its bytes |
| Wire.UvarintWidth | src/goldnet_net_ids.h:4-5 | one byte exactly under 128, and two exactly from there under 16384 |
| Wire.VarintRoundTrip | src/goldnet_multiplayer.cpp:331-365 | a signed varint reads back as itself over all of int64 |
| Wire.StepRoundTrip | src/goldnet_multiplayer.cpp:333-336 | a step modulo 2^64 from any base reads back the exact int64 |
| Wire.StepFromAnother | src/goldnet_multiplayer.cpp:368-372 | added to another base it is off by exactly what the bases differ by |
| Wire.StepsRoundTrip | src/goldnet_multiplayer.cpp:350-357 | a row of steps, axis by axis |
| Wire.RowRoundTrip | src/goldnet_multiplayer.cpp:739-763 | rows of anything that reads back read back, and take exactly their bytes whatever follows |
| Wire.FixedRoundTrip | src/goldnet_multiplayer.cpp:157-211 | a fixed-width little-endian integer reads back as itself |
| Wire.BlockRoundTrip | src/goldnet_multiplayer.cpp:412-422 | a length and its bytes read back as those bytes |
| Numbers.SnapWithinHalf | src/goldnet_multiplayer.cpp:326-329 | the snap is within half a grid step of the value, in exact arithmetic |
| Recounts.AxisSnapsBackExactly | src/goldnet_multiplayer.cpp:387-391 | for every binary32 axis, every grid and every count a long long holds: decoded and counted again it is the same count if and only if what it decoded to is finite, and 0 otherwise |
| Recounts.AxisSnapsBack | src/goldnet_multiplayer.cpp:387-391 | so on a grid of at most 2^60 it always is, however many steps it is from zero |
| Recounts.AxisRecounts | src/goldnet_multiplayer.cpp:326-329 | why: a binary32 value whose nearest count is q is again the nearest to q steps, or what is nearer them is no half step off |
| Recounts.AxisOverflows | src/goldnet_multiplayer.cpp:387-391 | the largest binary32 value on a grid of 2^127 counts 2, is stored as infinity, and counts 0 |
| Recounts.FloatSnapsBackExactly | src/goldnet_multiplayer.cpp:383-386 | for every double, every binary64 grid and every count a long long holds: the same count again if and only if the stored double is finite and, under 2^52 steps, at most a quarter step further out than the exact product, and from there nearer to it than half a unit of the count's last place, a tie going to an even count |
| Recounts.FloatSnapsBack | src/goldnet_multiplayer.cpp:383-386 | so to 2^51 steps, on a grid of at most 2^60, always |
| Recounts.FloatRecounts | src/goldnet_multiplayer.cpp:326-329 | the same condition on positive reals, by where the quotient of the stored value lies |
| Recounts.FloatSlotDrifts | src/goldnet_multiplayer.cpp:383-386 | on a grid of 3 the double 10500000000000002 counts 3500000000000001 and, decoded, one more |
| Numbers.AngleStepShortest | src/goldnet_multiplayer.cpp:320-324 | the one representative of to - from in the half-open half turn, and no step that gets there is shorter |
| Numbers.AngleStepRecovers | src/goldnet_multiplayer.cpp:373-382 | the decoder's masked add gives back to, across wraps and negative sums |
| Values.TaggedRoundTrip | src/goldnet_multiplayer.cpp:157-211 | a payload reads back as its tag carries the value, for each tag, and takes exactly its bytes |
| Values.ValueRoundTrip | src/goldnet_multiplayer.cpp:243-301 | and with the tag in front |
| Values.HintedArrives | src/goldnet_multiplayer.cpp:213-230 | a hint of an angle in 16 or 8 bits, a half or three of them goes behind its own tag, whatever the type, and leaves what that precision does: the step of a full turn in 2^16 or 2^8, the binary16, or the three |
| Values.UnhintedArrives | src/goldnet_multiplayer.cpp:213-241 | with any other hint, or none, a value arrives as itself, a float as binary32 narrows it |
| Values.HintedWidths | src/goldnet_multiplayer.cpp:157-175 | a hint takes two bytes, one, two or six behind its tag |
| Values.StampWidth | src/goldnet_multiplayer.cpp:176-183 | a stamp within 64 ms of the packet takes one, whenever that is |
| Values.AutoIsLossless | src/goldnet_multiplayer.cpp:213-241 | without a lossy hint a value arrives as itself if and only if it is no float that narrowing changes |
| Values.PutPayload | src/goldnet_multiplayer.cpp:157-211 | appends exactly the payload |
| Values.PutValue | src/goldnet_multiplayer.cpp:243-247 | appends exactly the tag and payload |
| Values.GetTagged | src/goldnet_multiplayer.cpp:261-296 | reads what the parser reads, or fails where it does |
| Values.GetValue | src/goldnet_multiplayer.cpp:298-301 | the same with the tag in front |
| SlotCodec.SlotRoundTrip | src/goldnet_multiplayer.cpp:331-398 | a slot stepped from one base and added to another that counts alike lands on its own projected value, in its own bytes |
| SlotCodec.AngleSlotLands | src/goldnet_multiplayer.cpp:337-348 | a 16-bit angle slot lands on the step of 2^16 to the turn and an 8-bit one of 2^8, stepped or whole |
| SlotCodec.StepSlotLands | src/goldnet_multiplayer.cpp:383-391 | an int slot lands as the int, and a grid slot on the multiple of its own grid that the value counts, axis by axis |
| SlotCodec.WholeSlotLands | src/goldnet_multiplayer.cpp:157-211 | a slot of a tag's own kind goes whole as that tag's payload: each tag, what is left of the value; its base does not matter |
| SlotCodec.TaggedSlotLands | src/goldnet_multiplayer.cpp:358-360 | a slot with no declared type goes by its hint |
| SlotCodec.NoBaseIsZero | src/goldnet_multiplayer.cpp:331-357 | without a base a slot is coded as from a base of zero |
| SlotCodec.LandedCountsAlike | src/goldnet_multiplayer.cpp:331-398 | a landed value counts, as the next base, as the raw value does, if and only if it Keeps: on a float grid by the rounding condition, on a Vector3's if each axis decodes finite, and otherwise always |
| SlotCodec.GridStepCarriesDisagreement | src/goldnet_multiplayer.cpp:383-386 | a float grid lands right if and only if the two bases count alike, and otherwise off by just their difference |
| SlotCodec.VectorStepCarriesDisagreement | src/goldnet_multiplayer.cpp:387-391 | the same for a Vector3 grid, axis by axis |
| SlotCodec.StepsLandExactly | src/goldnet_multiplayer.cpp:331-398 | a value stepped from one the other end has decoded lands on its own count if and only if that base Keeps |
| SlotCodec.SafeGrids | src/goldnet_multiplayer.cpp:331-398 | every Vector3, and every float to 2^51 steps, Keeps on a grid of at most 2^60 |
| SlotCodec.IntStepExactly | src/goldnet_multiplayer.cpp:333-336 | an int lands right if and only if the bases are equal |
| SlotCodec.ChangedRoundTrip | src/goldnet_multiplayer.cpp:1821-1836 | an entity's changed slots, of any kinds and bases, read back one after another with none shifting a later one |
| SlotCodec.PutSlot | src/goldnet_multiplayer.cpp:331-365 | appends exactly the slot's code |
| SlotCodec.GetSlot | src/goldnet_multiplayer.cpp:368-398 | reads what the parser reads, or fails where it does |
| SlotCodec.ApplyChanged | src/goldnet_multiplayer.cpp:1821-1836 | applies the changed slots in order and stops at the first it has no slot for or cannot read |
| DeltaStream.StepKeeps | README.md:115-120 | every write of values that Keep, send, loss, repeat, reorder, apply, ack and forgetting keeps each packet genuine and each held frame projected |
| DeltaStream.ClientHoldsProjection | src/goldnet_multiplayer.cpp:1669-1672 | over every run whose grid values Keep, each slot held for a frame is the server's value at that frame, projected by its kind |
| DeltaStream.FrameLands | src/goldnet_multiplayer.cpp:1821-1836 | one packet against the projection of its base gives the projection of its whole frame |
| DeltaStream.SentIsSettled | README.md:115-120 | what a frame was when it was sent is never rewritten |
| DeltaStream.ForgottenIsNoBase | README.md:115-120 | a frame forgotten is stepped from no more, by the server or at the client, and no other is forgotten with it |
| DeltaStream.OneDeliveryHeals | README.md:115-120 | one newer packet on a base still held brings the client to the whole of its frame, whatever was lost |
| DeltaStream.SecondFrameLands | src/goldnet_multiplayer.cpp:331-398 | any value sent against a frame that held v on a float grid lands on its own count at the client if and only if v Keeps: a run of the stream for each pair |
| DeltaStream.DriftReachesTheClient | src/goldnet_multiplayer.cpp:383-386 | such a run in numbers, in which the client reads 0 as 3 |
| Args.ArgRoundTrip | src/goldnet_multiplayer.cpp:424-492 | every argument reads back as exactly itself: a double too, whether it goes as binary32 or as its 64 bits |
| Args.ArgsRoundTrip | src/goldnet_multiplayer.cpp:2227-2231 | and a list of them, taking exactly its bytes |
| Args.SpawnRoundTrip | src/goldnet_multiplayer.cpp:739-763 | a spawn record's synchronizers, then its unframed data |
| Args.PutArg | src/goldnet_multiplayer.cpp:424-460 | appends exactly the argument's code |
| Args.PutArgs | src/goldnet_multiplayer.cpp:2227-2231 | appends the count and every argument |
| Args.GetArg | src/goldnet_multiplayer.cpp:462-492 | reads what the parser reads, or fails where it does |
| Args.GetArgs | src/goldnet_multiplayer.cpp:2348-2352 | reads as many as it says, or fails |
| Args.PutSpawnData | src/goldnet_multiplayer.cpp:739-747 | appends exactly the record's data |
| Args.GetSpawnData | src/goldnet_multiplayer.cpp:749-763 | gives the parsed record, or none when it is cut short |
| Messages.ReceivePrinted | src/goldnet_multiplayer.cpp:2299-2352 | at the other end a message is what it was printed from: a registration, a bare call, or one carrying its registration |
| Messages.KeyInjective | src/goldnet_multiplayer.cpp:2212-2213 | no two scene targets share a key |
| Messages.ColonsWouldClash | src/goldnet_multiplayer.cpp:2212-2213 | with colons in a path two targets could |
| Messages.SendMeansItsCall | src/goldnet_multiplayer.cpp:2209-2277 | at most one message carries a call, with its own target and arguments; a reliable one always goes, an unreliable one if it fits, bare exactly when its registration is known to have arrived; a missing registration goes first, noted at its place |
| Messages.BareIsKnown | src/goldnet_multiplayer.cpp:2248-2256 | a bare call on its way has an id its registration has already brought, and to the same target |
| Messages.StepKeeps | src/goldnet_multiplayer.cpp:2209-2277 | every connect, send, arrival, ack and forgetting keeps queue places, ack counts and both tables in step |
| Messages.CallsResolve | src/goldnet_multiplayer.cpp:2299-2357 | over every run each call that arrives is made on the sender's own path and method with its arguments, if a node is found and its method is for anyone to call, or for its authority and the sender is that, and is refused otherwise; the node is the one at the path now, or one that an earlier arrival found there and that is still in the tree |
| Messages.ReachedFound | src/goldnet_multiplayer.cpp:2329-2340 | every node kept for a target is one that some arrival of the run found at its path |
| Messages.RenamedIsStillCalled | src/goldnet_multiplayer.cpp:2329-2340 | a node found before is called while it is in the tree, also when another is at its path by now |
| Messages.CutShortCallsNothing | src/goldnet_multiplayer.cpp:2299-2355 | a message cut short before its id, its registration or its arguments are whole calls nothing, nor does an id that was not registered, and none of them changes the table but for a node found |
| Messages.AcknowledgedGoesBare | src/goldnet_multiplayer.cpp:2234-2277 | when all of a stream has arrived the peer knows every target registered with it, and once that is acknowledged an unreliable call to one goes bare |
| Messages.InlineTeaches | src/goldnet_multiplayer.cpp:2299-2340 | a datagram that carries a registration files its target and finds its node, and touches no other |
| Messages.StepsAreApart | src/goldnet_multiplayer.cpp:593-598 | a step concerns its own peer: a forgotten one leaves nothing, a connected one starts with nothing, and ids once given stand |
| Messages.Endpoint.PrintRegistration | src/goldnet_multiplayer.cpp:2222-2226 | the registration message |
| Messages.Endpoint.PrintCall | src/goldnet_multiplayer.cpp:2249-2257 | the call message, with the id or the registration in front |
| Messages.Endpoint.AssignId | src/goldnet_multiplayer.cpp:2214-2221 | a target's id, the next one if it has none |
| Messages.Endpoint.QueueCall | src/goldnet_multiplayer.cpp:2261-2276 | the registration first if the peer has none, then the call, reliably or in the datagram |
| Messages.Endpoint.SendTo | src/goldnet_multiplayer.cpp:2234-2277 | registrations and both queues, the id settled |
| Messages.Endpoint.SendMessage | src/goldnet_multiplayer.cpp:2209-2277 | takes ids, registrations and both queues exactly where the plan says |
| Messages.Endpoint.TakeRegistration | src/goldnet_multiplayer.cpp:2303-2321 | files a registration, or nothing when it is cut short or names 0 |
| Messages.Endpoint.DispatchCall | src/goldnet_multiplayer.cpp:2322-2352 | makes a call on the node found for what its id names, the one kept from before while it is in the tree and otherwise the one at the path now, which is kept; whether it is made is CallsResolve's |
| Messages.Endpoint.DeliverMessage | src/goldnet_multiplayer.cpp:2299-2352 | one message: the new table, with the nodes found, and what became of the call |
| Messages.Endpoint.ForgetPeer | src/goldnet_multiplayer.cpp:593-598 | everything kept for one peer goes with it, and nothing else |
| NetIds.DropKeeps | src/goldnet_net_ids.h:49-54 | dropping an id removes that one pair from both maps |
| NetIds.BindKeeps | src/goldnet_net_ids.h:26-30 | after a bind the id names the object and nothing else does; exactly which other names stand |
| NetIds.BindDropsZero | src/goldnet_net_ids.h:26-47 | an id 0 that was bound is dropped by the next bind of a node without one |
| NetIds.AssignKeeps | src/goldnet_net_ids.h:16-23 | handing out an id keeps the maps inverse if and only if the object has one or the next is free |
| NetIds.AssignOverALearnedId | src/goldnet_net_ids.h:16-23 | a learned id equal to the counter breaks them |
| NetIds.AssignIsStable | src/goldnet_net_ids.h:16-23 | an object's id is the same each time, and nobody else's |
| NetIds.ForgottenKeeps | src/goldnet_net_ids.h:57-67 | forgetting takes exactly the learned ids |
| NetIds.OpsMean | src/goldnet_net_ids.h:13-67 | what each operation is for: an object has its id, an id the object the server said, and what is released, dropped or forgotten names nothing |
| NetIds.RunKeeps | src/goldnet_net_ids.h:13-83 | any sequence of operations that meets the condition keeps the maps inverse |
| NetIds.NeverReissued | src/goldnet_net_ids.h:3-5 | no id is handed out twice in a session: each new one is larger than those before, and none is 0 |
| NetIds.SessionIsClear | src/goldnet_multiplayer.cpp:563-564 | an end that forgot what it learned, and learns nothing, always meets the condition |
| NetIds.NetIds.Assign | src/goldnet_net_ids.h:16-23 | both maps and the counter are where Assign of the old ones puts them, and the id is the object's |
| NetIds.NetIds.Bind | src/goldnet_net_ids.h:26-30 | drop, release and put together are the Bind whose effect BindKeeps gives |
| NetIds.NetIds.Release | src/goldnet_net_ids.h:43-47 | the object's pair is gone from both maps; the id it had, or 0 |
| NetIds.NetIds.Drop | src/goldnet_net_ids.h:49-54 | the id's pair is gone from both maps, and an unknown id changes nothing |
| NetIds.NetIds.ForgetLearned | src/goldnet_net_ids.h:57-67 | collecting the learned ids and dropping each leaves just the others |
| SpawnServer.GivenKeeps | src/goldnet_multiplayer.cpp:863-872 | a new id joins the history under its object and disturbs no record, whatever nodes were captured |
| SpawnServer.BoundKeeps | src/goldnet_multiplayer.cpp:910-934 | announcing a bind record of a live synchronizer or spawner keeps every invariant and is honest: it carries the path its node is at |
| SpawnServer.PromotedKeeps | src/goldnet_multiplayer.cpp:855-874 | a promotion keeps every invariant, and whatever it announces is there as told |
| SpawnServer.DrainedKeeps | src/goldnet_multiplayer.cpp:837-879 | so does a whole drain, in any order; what becomes of each captured spawn is DrainIsComplete's |
| SpawnServer.RecordNamesAll | src/goldnet_multiplayer.cpp:855-871 | a peer reads from a spawn record its spawner and data, and every synchronizer we own under the node, by id and path, and no other |
| SpawnServer.RetiredKeeps | src/goldnet_multiplayer.cpp:884-905 | a freed node's id leaves the list, the ids and the core together, and every invariant stands |
| SpawnServer.RemovedKeeps | src/goldnet_multiplayer.cpp:2709-2731 | unregistering any synchronizer, a spawned one too, takes its id, entity and record together, and every invariant stands |
| SpawnServer.AddedAllKeeps | src/goldnet_multiplayer.cpp:1698-1735 | adding the entities keeps every invariant and adds only honest notices; which records they get is AddIsComplete's |
| SpawnHost.Host.SpawnTrampoline | src/goldnet_multiplayer.cpp:819-833 | a node built for a spawner we know waits under its id, and any other call changes nothing |
| SpawnHost.Host.SpawnerNetId | src/goldnet_multiplayer.cpp:910-920 | the spawner's id, announced the first time |
| SpawnHost.Host.NameSyncs | src/goldnet_multiplayer.cpp:860-868 | every synchronizer's id, and the names of the ones we own |
| SpawnHost.Host.Promote | src/goldnet_multiplayer.cpp:855-874 | the spawner, the synchronizers and the node have ids in that order, and the record is announced under the node's |
| SpawnHost.Host.DrainPendingSpawns | src/goldnet_multiplayer.cpp:837-879 | goes through every captured spawn once, in some order, promoting, dropping or keeping each as Drained says |
| SpawnHost.Host.DetectDespawns | src/goldnet_multiplayer.cpp:882-906 | finds exactly the watched ids whose node is gone, spawned ones first, and retires each once |
| SpawnHost.Host.IsUnderSpawned | src/goldnet_multiplayer.cpp:937-944 | whether the node or one above it is a spawned one |
| SpawnHost.Host.AddEntities | src/goldnet_multiplayer.cpp:1698-1735 | goes through every waiting synchronizer once, in some order, adding, dropping or keeping each as AddedAll says |
| SpawnHost.Host.ObjectConfigurationAdd | src/goldnet_multiplayer.cpp:2671-2708 | a synchronizer with anything to stream is owned and waits to be added; a spawner that spawned before it was known is wrapped, on the server; the rest is left to the inner |
| SpawnHost.Host.ObjectConfigurationRemove | src/goldnet_multiplayer.cpp:2709-2733 | its id goes, and if it was owned its entity, bind record and place in the queue |
| SpawnRuns.StepTells | src/goldnet_multiplayer.cpp:819-934 | every step, whatever live node a spawn function returns, keeps the invariant and adds only honest notices: what is announced is there as told, what is called gone was freed or unregistered; the ids' history only grows |
| SpawnRuns.BindsWaitForEntities | src/goldnet_multiplayer.cpp:910-934 | over every run a synchronizer's bind record waits for its own entity to be visible and a spawner's for nothing, and no other node has one |
| SpawnRuns.ToldInOrderExactly | src/goldnet_multiplayer.cpp:819-906 | over every run each id is announced once, then gone at most once, if and only if every step was safe |
| SpawnRuns.RecordsAreTracked | src/goldnet_multiplayer.cpp:869-906 | over every run of safe steps each id is announced once, then gone at most once, and the ids watched are those of the live records and of spawned nodes that unregistered |
| SpawnRuns.ToldOnce | src/goldnet_multiplayer.cpp:837-879 | and no node is announced under two ids, but a synchronizer that unregistered in between |
| SpawnRuns.FreedIsNeverTold | src/goldnet_multiplayer.cpp:843-847 | a node freed before it was announced never is |
| SpawnRuns.DetectionIsComplete | src/goldnet_multiplayer.cpp:882-906 | after a detection every record left is a live node's |
| SpawnRuns.DrainIsComplete | src/goldnet_multiplayer.cpp:837-879 | after a drain every captured spawn is a record if its node is in the tree, dropped if it was freed, and waiting otherwise |
| SpawnRuns.CapturedIsSettled | src/goldnet_multiplayer.cpp:819-879 | so what is captured is, by the next drain |
| SpawnRuns.AddIsComplete | src/goldnet_multiplayer.cpp:1698-1735 | after the entities are added each waiting synchronizer that is live and ours is one, with a bind record of its own unless a spawned node's names it |
| SpawnRuns.RegisteredIsAdded | src/goldnet_multiplayer.cpp:1698-1735 | and a synchronizer that registers is one when they are next added |
| SpawnOrder.DrainedOneTidy | src/goldnet_multiplayer.cpp:837-879 | draining one captured node keeps each id announced once if and only if telling of it is the first the peers hear of it |
| SpawnOrder.PlainInOrder | src/goldnet_multiplayer.cpp:869-874 | which for a node that is no synchronizer and no spawner is exactly when it has no id |
| SpawnOrder.DrainedTidy | src/goldnet_multiplayer.cpp:837-879 | a whole drain, if and only if each was when its turn came |
| SpawnOrder.RetiredSpawnsTidy | src/goldnet_multiplayer.cpp:882-896 | retiring the spawns found gone keeps each id gone once if and only if each has its record still |
| SpawnCaptures.NewNodesKeepOrder | src/goldnet_multiplayer.cpp:819-833 | where spawn functions return nodes that have no id and are no synchronizers or spawners, every run keeps the order, and the ids watched are exactly the live records |
| SpawnCaptures.RecapturedIsToldTwice | src/goldnet_multiplayer.cpp:819-874 | a run in which a node is returned a second time and its id announced again |
| SpawnCaptures.SpawnedSyncIsGoneTwice | src/goldnet_multiplayer.cpp:2717-2731 | a run in which a spawned synchronizer unregisters and its id is called gone twice |
| SpawnClient.ArrivalKeeps | src/goldnet_multiplayer.cpp:950-1029 | any record, any number of times, and any unregistering keeps every learned id on a node its record described |
| SpawnClient.LeavesUnnamed | src/goldnet_multiplayer.cpp:2717-2731 | a synchronizer that unregisters loses its id, and no other loses its own |
| SpawnClient.BindNames | src/goldnet_multiplayer.cpp:990-1005 | a bind is taken if and only if a node is at its path that is a spawner or has registered; then its id names that node, a spawner wrapped, and otherwise nothing changes |
| SpawnClient.SpawnNamesAll | src/goldnet_multiplayer.cpp:966-986 | a spawn that is built leaves its id naming the new node and each synchronizer's the one at its path |
| SpawnClient.SpawnBuiltExactly | src/goldnet_multiplayer.cpp:950-986 | a spawn record is built if and only if its id names a live wrapped spawner, its data parses, and there is a place for the node and a node; otherwise nothing changes, and it is done with only if its data does not parse |
| SpawnClient.ClientEnd.ApplySpawn | src/goldnet_multiplayer.cpp:950-986 | binds the node and each synchronizer found, or nothing; true unless the record must come again |
| SpawnClient.ClientEnd.ApplyBind | src/goldnet_multiplayer.cpp:990-1005 | binds the node at the path if it is a spawner, which is wrapped, or registered; false unless it is |
| SpawnClient.ClientEnd.ApplyDespawn | src/goldnet_multiplayer.cpp:1008-1029 | the id is dropped, and its node freed only if it was spawned here and still lives |
| SpawnClient.ClientEnd.ResetClientState | src/goldnet_multiplayer.cpp:563-575 | what the session taught of ids is gone, and wrapped spawners stay wrapped |
| SpawnAgreement.SessionKeeps | src/goldnet_multiplayer.cpp:950-1029 | over a whole session of a client |
| SpawnAgreement.WrappedExactly | src/goldnet_multiplayer.cpp:990-999 | a session wraps exactly the spawners that entered the tree or were found by their bind |
| SpawnAgreement.WrappedSpawnerBuilds | src/goldnet_multiplayer.cpp:950-986 | in any session, once a spawner was wrapped every spawn record of an id that names it, while it lives, is built as it comes, if it can be, and its id names the new node |
| SpawnAgreement.BindThenSpawn | src/goldnet_multiplayer.cpp:950-1005 | in particular the one that follows its bind |
| SpawnAgreement.HadItsMoment | src/goldnet_multiplayer.cpp:837-934 | whatever a record describes, the server's scene showed it so at some moment of the run |
| SpawnAgreement.EndsAgree | src/goldnet_multiplayer.cpp:950-1005 | over every run of the server, for each learned id one description, in a record of that id which came, found the client's node for it and was true of the server's own at some moment of the run |
| SpawnAgreement.SpawnIsSpawn | src/goldnet_multiplayer.cpp:720-731 | the id of a node that is no synchronizer and no spawner is described by its own spawn record alone |
| SpawnAgreement.DespawnFreesItsOwn | src/goldnet_multiplayer.cpp:1008-1029 | a despawn frees a node only if a spawn record of that id was sent, and then the one a record of that id found: for a node that is no synchronizer and no spawner the one this client built; any other id just unbinds |
| ServerClock.RunKeepsWindow | addons/goldnet/server_clock.gd:90-102 | after any calls the samples are the history cut at the window, newest kept |
| ServerClock.HistoryIsNews | addons/goldnet/server_clock.gd:90-102 | after any calls what was accepted is exactly the observations since the last reset whose server time is not negative and later than every one before, in order |
| ServerClock.TargetIsWindowMax | addons/goldnet/server_clock.gd:106-111 | after any calls the target is the largest candidate of those within the window of the newest |
| ServerClock.CorrectedGap | addons/goldnet/server_clock.gd:117-127 | a frame never overshoots; it takes off the cap or the gain's share, and past the threshold the whole gap |
| ServerClock.FrameTakes | addons/goldnet/server_clock.gd:117-127 | a frame of a given length takes off the gap the share the rate makes of its time, all of it at most, or the slew of that time if that is less, and past the threshold all of it |
| ServerClock.OffsetInHull | addons/goldnet/server_clock.gd:90-127 | after any calls the offset lies within the candidates accepted since the last reset |
| ServerClock.NeverAhead | addons/goldnet/server_clock.gd:17-22 | with delays of at most d the estimate is never ahead of the server and at most d behind |
| ServerClock.Converges | addons/goldnet/server_clock.gd:114-127 | frames that do at least what a given one does take its share off the gap each until it is within eps, and it never grows |
| ServerClock.AdvancesCorrect | addons/goldnet/server_clock.gd:114-127 | after any calls, frames with no sample between them leave the samples and correct the offset toward the one target |
| ServerClock.FramesConverge | addons/goldnet/server_clock.gd:114-127 | so after any calls a gap within the threshold is within eps once frames of at least d each have come so often that what one takes off eps, times their number, is the gap |
| ServerClock.Enough | addons/goldnet/server_clock.gd:117-127 | where a frame takes anything off eps, as many as make up the gap and at most one more |
| ServerClock.FrameSnaps | addons/goldnet/server_clock.gd:117-122 | a gap past the threshold is gone with the next frame |
| ServerClock.FallsGeometrically | addons/goldnet/server_clock.gd:125-127 | under the cap the gaps fall geometrically |
| ServerClock.GapsFall | addons/goldnet/server_clock.gd:117-127 | and the gaps of steady frames within the threshold do fall so |
| ServerClock.FallenIsPower | addons/goldnet/server_clock.gd:125-127 | which is the gap times a power of one less the gain |
| ServerClock.GapIsPower | addons/goldnet/server_clock.gd:117-127 | together: after n steady frames under the cap the gap is what it was times (1 - gain)^n |
| ServerClock.LongerFrames | addons/goldnet/server_clock.gd:125-127 | a longer frame does no less |
| ServerClock.TimelineDilates | addons/goldnet/server_clock.gd:52-56 | between snaps the timeline is at most the slew fast or slow, and does not run back |
| ServerClock.ClockEstimator.Observe | addons/goldnet/server_clock.gd:90-102 | a stale observation changes nothing; another joins the window, which is pruned, and the first sets the offset |
| ServerClock.ClockEstimator.TargetMs | addons/goldnet/server_clock.gd:106-111 | the running maximum is the largest candidate |
| ServerClock.ClockEstimator.Advance | addons/goldnet/server_clock.gd:117-127 | the offset moves by the correction CorrectedGap is about, and nothing else changes |
| ServerClock.ClockEstimator.Reset | addons/goldnet/server_clock.gd:131-135 | nothing is left |
| InterpolationBuffer.BufferInOrder | addons/goldnet/interpolation_buffer.gd:63-70 | after any pushes and clears times strictly increase, neighbours are no teleport apart, and no more than max_size are kept |
| InterpolationBuffer.BufferIsNewest | addons/goldnet/interpolation_buffer.gd:63-70 | the buffer is the newest of the history since the last teleport |
| InterpolationBuffer.TailSamplesAlike | addons/goldnet/interpolation_buffer.gd:88-146 | two snapshots sample as the whole history would, from the older one's time on |
| InterpolationBuffer.ServesIffTwo | addons/goldnet/interpolation_buffer.gd:33-70 | the bounded buffer serves for the history, in every run and at every time, if and only if max_size is at least 2 |
| InterpolationBuffer.OneDoesNot | addons/goldnet/interpolation_buffer.gd:93-95 | a run that shows one is too few |
| InterpolationBuffer.WeightInside | addons/goldnet/interpolation_buffer.gd:130-133 | the clamp between two snapshots is never reached |
| InterpolationBuffer.AtSnapshot | addons/goldnet/interpolation_buffer.gd:127-138 | at a snapshot's own time it is where that snapshot was |
| InterpolationBuffer.OnSegment | addons/goldnet/interpolation_buffer.gd:127-138 | between two snapshots it is on the line between them, ends and all |
| InterpolationBuffer.StandsAtFirst | addons/goldnet/interpolation_buffer.gd:93-110 | one snapshot alone, at any time, and the first of more before its time, is where the entity stands: position, rotation and anchor its own, neither a guess nor given up on |
| InterpolationBuffer.SharesTheWay | addons/goldnet/interpolation_buffer.gd:127-146 | between two the position goes the same share of the way along each axis and the angles by that share, which grows evenly with time; anchored at the earlier, and no guess |
| InterpolationBuffer.CarriesOn | addons/goldnet/interpolation_buffer.gd:112-125 | past the last it is a guess, carried on at both velocities up to the cap, anchored there, and given up on exactly when more than the cap has passed |
| InterpolationBuffer.NothingYet | addons/goldnet/interpolation_buffer.gd:89-91 | an empty buffer gives no valid sample |
| InterpolationBuffer.Coasts | addons/goldnet/interpolation_buffer.gd:112-125 | past the last it goes on at that snapshot's velocity, as far as the cap |
| InterpolationBuffer.PositionIsLipschitz | addons/goldnet/interpolation_buffer.gd:97-146 | along each axis the position moves no faster than the steepest stretch or the last velocity, across holding, interpolating, extrapolating and freezing |
| InterpolationBuffer.MovesNoFaster | addons/goldnet/interpolation_buffer.gd:97-146 | so no coordinate moves faster than its own bound |
| InterpolationBuffer.BracketedStaysClose | addons/goldnet/interpolation_buffer.gd:127-146 | a bracketed sample is no guess, and no further from its anchor than a teleport |
| InterpolationBuffer.Buffer.PushSnapshot | addons/goldnet/interpolation_buffer.gd:63-70 | drops a late snapshot, forgets what is before a teleport and the oldest past max_size |
| InterpolationBuffer.Buffer.ClearAll | addons/goldnet/interpolation_buffer.gd:55-56 | the buffer is empty |
| InterpolationBuffer.Buffer.SampleAt | addons/goldnet/interpolation_buffer.gd:88-146 | the backward scan finds the latest snapshot and the branches follow |
| SimPeer.RunKeepsOrder | src/goldnet_sim_peer.cpp:26-79 | in every run read, ready and held of a sender are what arrived of it, in order, with every reliable packet in exactly one |
| SimPeer.StraightWouldOvertake | src/goldnet_sim_peer.cpp:44-48 | straight through past a held packet of the same sender would be out of order |
| SimPeer.OffPassesThrough | src/goldnet_sim_peer.h:3-10 | switched off with nothing held, everything comes straight through in order and counted |
| SimPeer.PumpedOf | src/goldnet_sim_peer.cpp:55-68 | of each sender as many held packets are let through, and counted, as fall due |
| SimPeer.AllComes | src/goldnet_sim_peer.cpp:55-62 | when all that is held has fallen due nothing is held, and all of it is ready |
| SimPeer.ReadTakesFirst | src/goldnet_sim_peer.cpp:70-79 | the inner takes what has been ready longest |
| SimPeer.PolledKeeps | src/goldnet_sim_peer.cpp:34-62 | a poll keeps each sender's order and loses only unreliable packets |
| SimPeer.DisconnectedKeeps | src/goldnet_sim_peer.cpp:26-32 | a disconnected sender's packets go, and nobody else's |
| SimPeer.ClosedKeeps | src/goldnet_sim_peer.cpp:133-137 | closing leaves of each sender what was held of it, in order, and of the server nothing |
| SimPeer.ClosedIsEmpty | src/goldnet_sim_peer.cpp:133-137 | it leaves nothing if and only if every held packet was the server's |
| SimPeer.ClosingLeaves | src/goldnet_sim_peer.cpp:133-137 | a run in which a client's packet is held back and is still there after the close |
| SimPeer.SimulatedPeer.PollAll | src/goldnet_sim_peer.cpp:34-62 | drains the arrivals in order, each let through, lost or held, and then lets through what is due |
| SimPeer.SimulatedPeer.Deliver | src/goldnet_sim_peer.cpp:64-68 | the packet is ready and counted |
| SimPeer.SimulatedPeer.GetPacket | src/goldnet_sim_peer.cpp:70-79 | the bytes of the oldest ready packet, which joins what was read; or none |
| SimPeer.SimulatedPeer.PeerDisconnected | src/goldnet_sim_peer.cpp:26-32 | exactly the sender's packets leave held and ready |
| SimPeer.SimulatedPeer.CloseAll | src/goldnet_sim_peer.cpp:133-137 | nothing is ready, and nothing of the server's is held |
| Pacing.DeadlineIsNear | src/goldnet_multiplayer.cpp:2507-2520 | after every poll the deadline is less than that poll's interval behind the clock, and at most one tick went |
| Pacing.DeadlineAddsUp | src/goldnet_multiplayer.cpp:2507-2520 | whatever interval each poll finds, the deadline is the first poll's time, the intervals of the ticks sent, and what stalls gave up |
| Pacing.TimePasses | src/goldnet_multiplayer.cpp:2507-2520 | so the time since the first poll is that and less than one interval more; nothing is given up exactly when no poll stalled |
| Pacing.TicksAreExact | src/goldnet_multiplayer.cpp:2507-2520 | with one interval throughout the ticks are never more than the intervals since the first poll, and exactly that if and only if no poll found a stall |
| Pacing.PromptNeverStalls | src/goldnet_multiplayer.cpp:2507-2520 | polls within their interval of the one before, less what it has shrunk by since, find none |
| Pacing.ShrinkingStalls | src/goldnet_multiplayer.cpp:2507-2520 | three polls, each within its interval of the one before, of which the last finds a stall because the interval shrank |
| Pacing.ZerosAreIgnored | src/goldnet_multiplayer.cpp:2509-2511 | polls at time 0 count for nothing, whatever their intervals |
| Pacing.Pacer.Poll | src/goldnet_multiplayer.cpp:2507-2520 | the new deadline, and whether a snapshot goes, by the interval cached at the time |
| SyncSpec.SharersHaveNone | addons/goldnet/sync_spec.gd:155-165 | in a table with no problem two rows of one leaf have no hint, though only the first owner was compared |
| SyncSpec.RowReadsBack | addons/goldnet/sync_spec.gd:97-124 | what a row declared is what its own path reads back |
| SyncSpec.CodesOfNames | src/goldnet_multiplayer.cpp:116-133 | each of the five names has its own code, and the names with one are those the check knows |
| SyncSpec.CleanTableLosesNothing | addons/goldnet/sync_spec.gd:126-187 | with nothing reported every streamed slot is declared, and its hint and grid read back as declared for its full path, and its push too if its leaf is not the empty name |
| SyncSpec.ReportedExactly | addons/goldnet/sync_spec.gd:133-187 | a line is in the report if and only if what it says is so, for each of the twelve lines |
| SyncSpec.LinesInOrder | addons/goldnet/sync_spec.gd:143-156 | a row's lines come in this order |
| SyncSpec.SlotsAreStreamed | src/goldnet_multiplayer.cpp:1430-1442 | the slots are the streamed properties in order, as far as 32 |
| SyncSpec.BuildQuantHints | addons/goldnet/sync_spec.gd:97-103 | the quant meta |
| SyncSpec.BuildGrids | addons/goldnet/sync_spec.gd:107-113 | the grid meta |
| SyncSpec.BuildPushed | addons/goldnet/sync_spec.gd:117-122 | the push meta |
| SyncSpec.Validate | addons/goldnet/sync_spec.gd:133-187 | every problem of the table, the options and the config, in order |
| SyncSpec.CheckTable | addons/goldnet/sync_spec.gd:135-165 | every problem of the rows, the first owner of each leaf found as it goes |
| SyncSpec.GetSyncSlots | src/goldnet_multiplayer.cpp:1430-1442 | the streamed properties in config order, at most 32 |
| SyncSpec.ReadQuant | src/goldnet_multiplayer.cpp:1481-1502 | each slot's code, or none at all exactly when every one is automatic |
| SyncSpec.ReadPush | src/goldnet_multiplayer.cpp:1508-1531 | each slot's flag, or none at all exactly when none is pushed |
| Commands.RefusedUnlessFits | src/goldnet_multiplayer.cpp:2034-2101 | a call goes if and only if it has the signature's shape and every value is one its form takes |
| Commands.FormsTake | src/goldnet_multiplayer.cpp:2060-2091 | an int, a float and a bool go as any of the three, bytes only as bytes, and anything as a Variant |
| Commands.NamesAreKeys | src/goldnet_multiplayer.cpp:2044-2057 | as many distinct names as entries, all of them there, are exactly the keys |
| Commands.PositionalCall | src/goldnet_multiplayer.cpp:2034-2202 | a positional call is made with its own arguments, as their forms let them through |
| Commands.TableCall | src/goldnet_multiplayer.cpp:2034-2202 | a table's call is made with one Dictionary of the same keys |
| Commands.TableRebuilt | src/goldnet_multiplayer.cpp:2192-2198 | the same Dictionary, when every value is of its form's own type |
| Commands.TypedComesThrough | src/goldnet_multiplayer.cpp:2064-2091 | a value comes through as itself if and only if it is of its form's own type, and a float one binary32 holds |
| Commands.DeliveredExactly | src/goldnet_multiplayer.cpp:2146-2182 | whatever fields come, they make arguments if and only if there are as many as the signature has and every Variant one reads |
| Commands.CommandFromArgs | src/goldnet_multiplayer.cpp:2034-2101 | the fields, or none when the call does not fit |
| Commands.DeliverCommand | src/goldnet_multiplayer.cpp:2146-2200 | the arguments the method is called with; none when the fields do not make them, or the method is neither for anyone nor for its authority with the peer that one |

## Left out

- Recounts.FloatSnapsBackExactly: a count no long long holds is left out, as std::llround leaves it open; a
  Vector3 is one of binary32 axes, Godot's default.
- Values.AutoIsLossless: a NaN narrows to one NaN, whatever its payload.
- DeltaStream.ClientHoldsProjection: sequence numbers are unbounded, not 16 bits.
- DeltaStream.StepKeeps: a packet is read whole or not at all; an entity the client skips or is not ready for
  (src/goldnet_multiplayer.cpp:1790-1818) is not modelled.
- SpawnServer.RemovedKeeps: that removing an entity takes its record with it, a spawned one's too, is the core's promise, taken as one.
- Messages.CallsResolve: a node's path holds no colon, as Godot's node names cannot; ids are unbounded, not 32 bits.
- SpawnClient.ClientEnd.ResetClientState: the same lines clear slot codings, warnings, rates and the message
  tables, which are not among these fields.
- SpawnHost.Host.ObjectConfigurationAdd: refreshing the send interval, and the message printed for a spawn that
  was missed.
- SpawnHost.Host.ObjectConfigurationRemove: refreshing the send interval, dropping the cached slot coding, and what
  the client's core forgets.
- ServerClock.OffsetInHull: the settings are fixed for a run and not negative, and frame times are not negative.
- InterpolationBuffer.PositionIsLipschitz: positions are reals, not binary32, and the extrapolation cap is not negative.
- SimPeer.RunKeepsOrder: that the simulation lets one sender's packets through in the order they were queued is its promise, taken as one.
- Commands.TableRebuilt: a Dictionary is a map here, so the order of its entries is not compared.
- The core's packet budget, priorities, rates, fragments, choke and queue overflow: its code is not part of this model.
- Widths of ids and lengths: a u32 that would wrap is a natural number here.
- The one-byte check on slot kinds: it is a hash, and equal codings on both ends are taken for granted.
- The channel, transfer mode and connection checks before a call is sent, and relaying between clients.
- The memo in mark_dirty, RPC statistics, overflow disconnects, environment settings and the send-side simulation.
- Which slots get which kind from a property's declared type: the kind and grid of each slot are given.
- Rotation between snapshots: the engine's angle interpolation is a function passed in.
- That every entity's id reaches the client: a synchronizer added under a node already announced has no record of its own, so agreement is about the ids a client has learned.
