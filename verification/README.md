# A verified model of lib-disruptor

`lib-disruptor` coordinates producers and ordered consumers over a preallocated ring of reusable
events. This project models its coordination protocol and proves that the ring behaves, in every
interleaving, like an append-only log that is never overwritten.

There are two kinds of model.

**Concurrent machines.** One atomic load, store or compare-and-swap is one move, and any number of
threads interleave. Atomics are sequentially consistent, as in the section "Atomic Values" of The
Go Memory Model. A handler's read and change of its event, and a producer's write, are moves too.

| file | machine |
|---|---|
| `Log.dfy`, `Events.dfy` | the specification: an append-only log, its readers, and what its events hold |
| `Topology.dfy`, `Window.dfy`, `Consumers.dfy` | consumer graphs, slots, and the consumer shared by both modes |
| `MultiRing.dfy`, `MultiRingProof.dfy`, `MultiSafety.dfy` | the multi-producer ring, its refinement of the log, and what follows |
| `SingleRing.dfy`, `SingleRefinement.dfy` | the single-producer ring, refining the same log |
| `Told.dfy`, `MultiTold.dfy`, `SingleTold.dfy` | what the calls of a run amount to, told from its moves alone: claims, resolutions, events, handler calls, acknowledgements |
| `MultiClaims.dfy`, `SingleClaims.dfy` | why every claim call returns as it does |
| `Batches.dfy`, `MultiAlone.dfy`, `SingleAlone.dfy` | where a call leads when nobody else moves |
| `ProducerWaits.dfy`, `ConsumerWaits.dfy` | blocking waits, gate lists and signal lists |
| `RingWaits.dfy`, `MultiWaits.dfy`, `SingleWaits.dfy` | each ring and the producer waits moving together |
| `RunHalt.dfy`, `Shutdown.dfy` | the processor's life cycle; sealing, draining and closing |

A machine's `Enabled` and `Apply` follow the code branch by branch. Its `Inv` is inductive: one
lemma per kind of move shows that it is kept, and for the rings that the move is a step of the log.
The main theorems then quantify over whole runs from the initial state. They come in three kinds:
what no interleaving can break; what a caller gets for its calls, told from the moves and not from
what the machine says it did; and where a call leads when it runs alone, so that a machine that
merely refuses everything would not do.

**Code.** The sequential methods are modelled as classes with arrays and loops, over 64-bit
integers and the packed marker words, and proved against one specification, a history of claim
statuses (`History.dfy`): `Bits.dfy`, `Loops.dfy`, `Sequences.dfy`, `Gating.dfy`,
`MultiSequencers.dfy`, `SingleSequencers.dfy`, `RingBuffers.dfy`, `Processors.dfy`, `Pollers.dfy`.
`Agreement.dfy` drives both producer modes by the same calls, on any number of gates, and shows
that no caller can tell them apart.

## What the theorems assume

- The gates are non-empty and fixed before the first claim, and moved only by their own consumers.
  Every consumer is a gate or leads to one through consumers that depend on it. Gates that join
  later are in `ProducerWaits` and in the sequencer classes; `SingleSequencer.AddGatingSequences`
  says exactly when its cached gate still answers for a gate that joins late.
- Only the claimant resolves a sequence, and hands it over once it no longer writes the event.
  Duplicate and late resolutions by the claimant are allowed. In single-producer mode claims are
  resolved in claim order, and its theorems exclude a duplicate publication that ends before the
  cursor (see the next section); duplicate discards and longer duplicate publications are included.
- Each processor has its own barrier, and nobody else clears its alert.
- No publisher is inside a claim when `Shutdown` seals the ring.
- Sequences stay within int64. On a ring of one slot they stay below 2^62.

## Where the code and its documentation differ

- `docs/usage.md:103-104` says that duplicate resolutions are ignored. In single-producer mode
  `Publish` stores the cursor whatever it was (`sequencer_single.go:80-83`), so a duplicate is
  ignored exactly when its range does not end before the cursor. `SingleSequencer.Publish` states
  the condition both ways and `DuplicateHides` makes such calls on a ring of two slots. The
  multi-producer mode ignores every duplicate.
- `publication.go:25-27` shifts the lap flag left by two bits. With one slot the flag is the
  sequence itself, so sequences 2^62 apart share every marker (`SingleSlotMarkersCollide`); with
  two slots or more no two sequences of a slot do.
- `processor.go:129,141` and `ring_buffer.go:178,197` leave their loops on `sequence > end` over a
  wrapping counter. That happens if and only if `end` is not the largest int64
  (`Loops.GuardFailsExactlyWhen`; `LastSequenceNeverEnds` is the batch of that one sequence), so
  `ProcessBatch` and `TryPublishN` stop one short of it. The prepare, resolve, discard and scan
  loops leave on equality and do not (`EqualityLoopEnds`).
- On a sealed ring an invalid claim size is reported as such in multi-producer mode and as a closed
  ring in single-producer mode; both contracts say so.

## Model

| member | source | states |
|---|---|---|
| Bits.AcceptsExactlyPowersOfTwo | ring_buffer.go:45 | a size passes the test if and only if it is two to some power |
| Bits.SlotArithmetic | sequencer_multi.go:194-200 | for an accepted size the mask and the shift are remainder and quotient, for every non-negative int64, and together determine the sequence |
| Bits.MarkersCollideExactlyWhen | publication.go:25-27 | two packed markers are equal if and only if their flags agree in the low 62 bits and their states are equal |
| Bits.MarkerIsNeverInitial | sequencer_multi.go:31-35 | no marker is the -1 an unused slot holds |
| Bits.MarkersSeparateLaps | sequencer_multi.go:145-185 | with two slots or more, markers of two sequences of one slot are equal only for the same sequence and state |
| Bits.SingleSlotMarkersCollide | publication.go:25-27 | a concrete collision on a ring of one slot |
| Loops.GuardFailsExactlyWhen | processor.go:127-150 | the guard of an ascending loop over wrapping int64 fails after finitely many turns if and only if the last sequence is below the largest int64 |
| Loops.LastSequenceNeverEnds | processor.go:141-149 | from the largest int64 the counter wraps to the smallest and never passes the end |
| Loops.EqualityLoopEnds | sequencer_multi.go:145-173 | a loop that leaves on equality visits exactly its range, up to the largest int64 |
| Topology.GatesProtectAll | sequencer.go:152-162 | in any graph where every consumer leads to a gate, a lower bound on the gates is one on all consumers |
| Log.LogInvKept | processor.go:91-162 | every permitted step keeps acknowledged sequences equal to the live prefix, attempts a prefix of what follows, and dependencies ahead |
| Log.ExactlyOnce | processor.go:91-162 | in every run, a consumer has acknowledged exactly the published sequences up to its position, each once and in order, and its attempt covers exactly the published ones from there on |
| Log.OnlyLastFlagged | processor.go:127-150 | a completed batch flags exactly its last delivered event, however many of its sequences are discarded |
| Log.ResolutionIsFinal | ring_buffer.go:110-127 | between any two states of a run a resolved sequence keeps its resolution |
| Events.BodyIsContents | ring_buffer.go:75-77 | a record holds the last value written to its sequence, or else what the sequence one lap before left; nothing is overwritten while it can be read |
| Consumers.ConsumerKept | processor.go:107-150 | a consumer reading true values takes only steps the log permits: live sequences in order, the last one flagged, the acknowledgement after the batch |
| Window.UnresolvedInWindow | sequencer_multi.go:145-156 | an unresolved sequence is ahead of every consumer and still owns its slot |
| MultiRing.SwapExactlyWhenOpen | sequencer_multi.go:158-173 | the swap of a resolution succeeds if and only if its sequence is claimed, prepared and unresolved; stale laps, duplicates and unprepared slots fail |
| MultiRingProof.MoveRefines | sequencer_multi.go:45-185 | every atomic move of producers and consumers is a permitted step of the log and keeps the invariant |
| MultiRingProof.RunRefinesLog | sequencer_multi.go:45-185 | every interleaving of the multi-producer ring is a run of the append-only log |
| MultiSafety.RunIsSafe | sequencer_multi.go:45-131 | in every reachable state slots are exclusive, the cursor and the racy cache never pass a gate, scans and batches have no gap and span at most one lap, and positions follow the graph |
| MultiSafety.ClaimsPartition | sequencer_multi.go:68-71 | each sequence up to the cursor belongs to exactly one producer and later ones to none |
| MultiSafety.FirstResolutionWins | sequencer_multi.go:158-185 | once a slot reads published or discarded it reads the same until it is claimed for a later lap |
| MultiTold.TakenByOne | sequencer_multi.go:68-71 | told from the moves: every sequence up to the cursor was taken by the winning swap of exactly one producer, and no other by any |
| MultiTold.FirstCallDecides | sequencer_multi.go:101-109 | in every interleaving a sequence still in its slot reads published or discarded exactly as its claimant's first call for it asked, once that call has returned, and unresolved if there was none |
| MultiTold.HandlerReadsContents | ring_buffer.go:75-77 | a handler finds the last value its sequence's claimant, or a handler of it, put there by the moves of the run, and otherwise what the same rule gives one lap before |
| MultiTold.AcknowledgedExactlyOnce | processor.go:91-162 | in every interleaving the handler calls behind the stores of a consumer's sequence are for exactly the sequences up to it that their claimants published, each once and in order, and the attempt in progress for exactly those that follow |
| MultiTold.StoreEndsBatch | processor.go:115-123 | a consumer's sequence moves only by a store that ends a whole attempt: every call returned well, exactly the last is flagged, they are for exactly the published sequences passed, within the batch limit |
| MultiTold.FailedBatchIsReplayed | processor.go:119-123 | after a failed call the sequence stays until a whole new attempt, made since, has called for everything published from it on and returned well throughout |
| MultiClaims.ClaimsBegin | sequencer_multi.go:45-48 | a claim goes on if and only if it asks for at least one sequence and no more than the size |
| MultiClaims.ClaimsReturn | sequencer_multi.go:45-99 | every claim call, in every interleaving, ends sealed, or blocking and cancelled, or not blocking and refused when at some point of the call there was no room, or granted exactly what it asked by a swap of its own made when there was room |
| MultiClaims.CancelsReturn | sequencer_multi.go:60-63 | a cancelled or sealed claim returns with nothing taken or changed |
| MultiAlone.ClaimAlone | sequencer_multi.go:45-99 | from any reachable state a claim that runs alone is granted if and only if no gate would be lapped; otherwise it is refused with nothing taken, or goes to wait |
| MultiAlone.ResolutionAlone | sequencer_multi.go:101-109 | from any reachable state a publication or discard that runs alone returns, changing only markers and the discard flag |
| MultiAlone.BatchAlone | processor.go:105-124 | from any reachable state a resting consumer that runs alone stores the end of the longest unbroken resolved run its dependencies and its limit allow |
| SingleRing.DiscardsAreExact | sequencer_single.go:85-112 | for a visible sequence some consumer has not passed, the discard test is true if and only if it was discarded, whatever cursor the test loaded |
| SingleRing.MoveRefines | sequencer_single.go:40-112 | every atomic move of the single-producer ring is a permitted step of the log and keeps the invariant |
| SingleRefinement.RunRefinesLog | sequencer_single.go:40-112 | every interleaving of the single-producer ring is a run of the same log |
| SingleRefinement.RunIsSafe | sequencer_single.go:40-83 | in every reachable state the producer never writes a slot some consumer still needs, two consumers' batches never share a slot for different sequences, neither the claims, the cache nor a minimum in hand pass a consumer they cover, and positions and batches follow the graph and the cursor |
| SingleTold.TakenUpToNext | sequencer_single.go:40-78 | told from the moves, exactly the sequences up to the claim position were taken |
| SingleTold.FirstCallDecides | sequencer_single.go:80-112 | a claimed sequence becomes visible by the first call that asked for it, and the discard test is true if and only if that call was a discard, for any cursor loaded since and over any number of laps |
| SingleTold.HandlerReadsContents | ring_buffer.go:75-77 | as for the multi-producer ring |
| SingleTold.AcknowledgedExactlyOnce | processor.go:91-162 | as for the multi-producer ring |
| SingleTold.StoreEndsBatch | processor.go:115-123 | as for the multi-producer ring |
| SingleTold.FailedBatchIsReplayed | processor.go:119-123 | as for the multi-producer ring |
| SingleClaims.ClaimsReturn | sequencer_single.go:40-78 | every claim call ends sealed, or with an illegal number, or blocking and cancelled, or refused when there was no room, or granted exactly what it asked when there was room |
| SingleClaims.CancelsReturn | sequencer_single.go:50-53 | a cancelled or sealed claim returns with nothing taken or changed |
| SingleAlone.ClaimAlone | sequencer_single.go:40-78 | from any reachable state a claim that runs alone is granted if and only if no gate would be lapped |
| SingleAlone.ResolutionAlone | sequencer_single.go:80-99 | from any reachable state a publication or discard that runs alone returns with the cursor at the end of its range or beyond |
| SingleAlone.BatchAlone | processor.go:105-124 | from any reachable state a resting consumer that runs alone stores the end of the longest run its dependencies and its limit allow |
| ProducerWaits.RegistrationKept | sequencer.go:95-150 | every step of adding, removing, closing and of other rings keeps the registrations in agreement with the gate list |
| ProducerWaits.RunRegistration | sequence.go:71-115 | in every run with the mutex free, the gates are those the additions and removals so far leave, in order, and the waiter is registered once on each and nowhere else, and nowhere after closing |
| ProducerWaits.NoLostProducerWakeup | producer_wait.go:74-128 | a producer asleep on the current channel with room available implies a thread between its gate store or removal and its signal |
| ProducerWaits.OwedIsPaid | sequence.go:44-63 | a thread that owes a signal, moving a gate, adding or removing one, gives it by steps of its own |
| ProducerWaits.HolderFinishes | sequencer.go:95-150 | an addition, removal or closing that holds the mutex releases it by steps of its own |
| ProducerWaits.WaitsEnd | producer_wait.go:84-118 | a wait ends if and only if its scan found room or no gates, its channel or the ring was closed, or it was cancelled; a scan without room sleeps |
| RingWaits.TogetherKeeps | sequencer.go:175-189 | a ring move and its counterpart in the waits keep the two in agreement: gates, positions, scans and the wrap points slept on |
| MultiWaits.RoomyClaimIsOwed | sequencer_multi.go:45-73 | in every joint run of the multi-producer ring and the waits, a claim asleep on the current channel that would fit at the present cursor implies a thread that owes a signal |
| SingleWaits.RoomyClaimIsOwed | sequencer_single.go:40-58 | the same for the single producer, by its own claim position |
| ConsumerWaits.NoLostConsumerWakeup | wait_strategy.go:150-185 | a consumer asleep on the current channel whose sequence is visible, or barrier alerted, implies a publisher, discarder or alerter that has yet to signal |
| ConsumerWaits.PublisherPays | sequencer_multi.go:101-109 | such a publisher signals by steps of its own |
| ConsumerWaits.RangesBecomeVisible | sequencer_multi.go:101-109 | what was published or discarded is visible once the call has returned |
| ConsumerWaits.WaitsEnd | wait_strategy.go:150-170 | a wait ends if and only if the cursor has come to its sequence, its barrier is alerted or it was cancelled; a wakeup only makes it look again |
| RunHalt.HaltIsNotLost | processor.go:91-125 | one Run owns a processor; once a Halt has won its swap and stored its alert, then until another Run takes over, the alert stands while the Run processes, it starts at most one more batch and makes at most five more moves, after which it has returned |
| RunHalt.HaltDuringStart | processor.go:167-181 | once a Halt has won while its Run has not confirmed its start, alert stored or not, that Run processes in no later state: it starts no batch |
| RunHalt.RunsStop | processor.go:91-125 | a Run stops if and only if it was cancelled or alerted, a wait or a batch failed, or it was halted before it confirmed its start |
| RunHalt.HaltsReturn | processor.go:167-181 | Halt returns if and only if it found the processor idle or halted, or stored the alert after a winning swap of its own |
| RunHalt.HaltAlone | processor.go:167-181 | a Halt that runs alone on a starting or running processor halts and alerts it |
| RunHalt.RunAlone | processor.go:91-125 | a Run that runs alone on an idle processor starts, and goes from batch to batch |
| Shutdown.ShutdownDrains | sequencer.go:191-231 | when Shutdown returns nil every consumer has acknowledged the final claim and every claim was delivered or discarded; a Shutdown that won the seal leaves the ring closed |
| Shutdown.FailuresExplained | sequencer.go:191-231 | a Shutdown that sealed the ring and did not return nil was cancelled or found the ring closed while it drained; one that did not seal it found it closed or sealed |
| Shutdown.ShutdownReturnsNil | sequencer.go:216-231 | from any reachable state of an open ring whose gates have acknowledged the final claim, a Shutdown that is draining, or one that starts with no claim under way, returns nil by moves of its own |
| Shutdown.CloseCloses | sequencer.go:164-173 | when Close has returned the ring is sealed and closed |
| Shutdown.NoClaimAfterSeal | sequencer_multi.go:80-82 | no claim call that starts after the seal succeeds |
| Sequences.Sequence.Store | sequence.go:44-47 | the value is stored and every registered waiter's channel closed once |
| Sequences.Sequence.CompareAndSwap | sequence.go:57-63 | a failed swap changes nothing and signals nobody |
| Sequences.Sequence.AddSignal | sequence.go:71-90 | a waiter is registered once however often it is added |
| Sequences.Sequence.RemoveSignal | sequence.go:92-115 | exactly one registration goes, the waiter's, and the others keep their order |
| Sequences.MinimumSequence | sequence.go:151-162 | the slowest sequence, or the fallback when there are none |
| Sequences.LoadGroup | sequence.go:138-149 | the slowest dependency |
| Gating.JoinGates | sequencer.go:95-116 | the new gates follow the old ones, nil entries skipped, each at the cursor with the ring's waiter registered once in blocking mode; a cache behind the old gates stays behind all of them |
| MultiSequencers.MultiSequencer.Prepare | sequencer_multi.go:145-156 | the slots of the claim read unresolved and the others are untouched, up to the largest int64; an empty range changes nothing |
| MultiSequencers.MultiSequencer.TryNext | sequencer_multi.go:75-99 | granted exactly as the capacity allows, whatever the cache holds and wherever the gates are, gates or none, with the stated error otherwise |
| MultiSequencers.MultiSequencer.CapacityFor | sequencer_multi.go:83-92 | the cached answer is the gates' answer |
| MultiSequencers.MultiSequencer.Resolve | sequencer_multi.go:158-173 | resolves exactly the open claims of the range that still own their slot; lapped and unclaimed sequences are left alone and the first resolution wins |
| MultiSequencers.MultiSequencer.Resolution | sequencer_multi.go:175-185 | reads the resolution of a sequence in its lap and unresolved otherwise |
| MultiSequencers.MultiSequencer.HighestPublished | sequencer_multi.go:119-131 | stops at the bound or just before the first unresolved sequence |
| MultiSequencers.MultiSequencer.IsAvailable | sequencer_multi.go:111-113 | true if and only if the sequence is resolved and still in its slot |
| MultiSequencers.MultiSequencer.IsDiscarded | sequencer_multi.go:115-117 | true if and only if the sequence is discarded and still in its slot |
| MultiSequencers.MultiSequencer.RemainingCapacity | sequencer_multi.go:133-137 | size minus the claims the slowest gate has not passed |
| MultiSequencers.MultiSequencer.AddGatingSequences | sequencer.go:95-116 | a closed ring changes nothing; otherwise the new gates join the list at the cursor, registered, and the cache stays sound |
| MultiSequencers.WordRead | sequencer_multi.go:175-185 | a slot's word equals the marker of a resolution if and only if the reader's sequence has that resolution now |
| SingleSequencers.SingleSequencer.TryNext | sequencer_single.go:60-78 | granted exactly as the capacity allows, whatever the cache holds and wherever the gates are, gates or none, with the stated error otherwise |
| SingleSequencers.SingleSequencer.Publish | sequencer_single.go:80-83 | resolves the open claims of the range and stays consistent if and only if the cursor does not go back |
| SingleSequencers.SingleSequencer.AddGatingSequences | sequencer.go:95-116 | a closed ring changes nothing; otherwise the new gates join at the cursor, registered, and the cached gate answers for them if and only if it is not beyond the cursor or is beyond the claims |
| SingleSequencers.DuplicateHides | docs/usage.md:103-104 | after two sequences are claimed and published, publishing the first again takes the second out of view and the sequencer is no longer consistent |
| SingleSequencers.SingleSequencer.Discard | sequencer_single.go:85-99 | resolves exactly the open claims of the range as discarded and skips resolved ones |
| SingleSequencers.SingleSequencer.IsDiscarded | sequencer_single.go:106-112 | true if and only if the sequence was discarded and the claim of its slot's next lap is not resolved yet |
| SingleSequencers.SingleSequencer.IsAvailable | sequencer_single.go:101-104 | true if and only if the sequence is resolved and the claim of its slot's next lap is not |
| SingleSequencers.SingleSequencer.HighestPublished | sequencer_single.go:114 | everything up to the result is resolved |
| SingleSequencers.SingleSequencer.RemainingCapacity | sequencer_single.go:116-119 | size minus the claims the slowest gate has not passed |
| Agreement.Lockstep | sequencer_single.go:60-119 | for every sequence of calls, on any number of gates, both modes give the observations of one specification without cursor, cache or marker: claims, errors, capacity and visible prefix |
| Agreement.GrantedExactlyWithin | sequencer_multi.go:133-137 | on any number of gates, a claim of n is granted if and only if 1 <= n <= the capacity last reported |
| RingBuffers.New | ring_buffer.go:44-72 | for every int64 size, a ring exists if and only if the size is two to some power |
| RingBuffers.RingBuffer.Get | ring_buffer.go:75-77 | the event in the slot of the sequence |
| RingBuffers.RingBuffer.IsDiscarded | ring_buffer.go:129-131 | in both modes, true if and only if a sequence still in its slot was discarded |
| RingBuffers.RingBuffer.WaitFor | barrier.go:38-47 | in both modes: the alert first, then what the wait came back with if it failed or fell short, and otherwise an unbroken resolved run that stops only at the bound or before an unresolved sequence |
| RingBuffers.RingBuffer.DiscardRange | ring_buffer.go:121-124 | the flag is set, even for an empty range, and the open claims are discarded, so a clear flag means no discards |
| RingBuffers.RingBuffer.Translate | ring_buffer.go:197-201 | each event becomes its translation up to the first error or panic, later ones are untouched |
| RingBuffers.RingBuffer.TryPublishN | ring_buffer.go:187-203 | claims exactly as the capacity allows; whatever the translator then does, the whole range is published; without a claim nothing changes |
| Processors.ProcessBatch | processor.go:127-150 | with and without the discard flag: the calls are those of the batch up to a failure, the result is what the handler's own reactions make it, and so are the events |
| Processors.LastDelivered | processor.go:137-140 | the backward search finds the last live sequence of the batch |
| Processors.AttemptsDeliverPrefixes | processor.go:127-150 | a completed attempt calls exactly the batch's live sequences, a failed one exactly those up to the failure |
| Processors.AttemptFollows | processor.go:127-162 | told from the handler's reactions to the calls made, with the flags passed: done if and only if every call was handled; otherwise every call but the last was, and the last gives an error or panic with its own sequence |
| Pollers.Poller.Poll | poller.go:66-99 | what is reported is what was due; a completed poll handled every call of the longest batch allowed, acknowledged it once and signalled the producers waiting on this gate; one whose handler erred or panicked reports that call and acknowledges nothing |
| Pollers.Poller.Select | poller.go:70-94 | idle, gating, closed or the longest batch, each exactly when it is due |

## Left out

- Liveness and fairness: the no-lost-wakeup theorems, and where calls lead when they run alone, are
  proved instead of what comes about under a fair scheduler. A producer asleep when the ring is sealed
  may wake only when it is closed.
- Shutdown.ShutdownDrains: like the other theorems of `Shutdown` it stands above the log that both
  rings refine, so the cursor it reads is the log's length, and the sealed test is a move of its own
  rather than a step inside the ring machines.
- ProducerWaits.NoLostProducerWakeup: covers the adding and removing of gates, but the ring machines
  themselves have a fixed gate list; a gate added between claims may already be lapped.
- MultiWaits.RoomyClaimIsOwed: the joint runs keep the gate list of the ring, and the same holds for
  `SingleWaits.RoomyClaimIsOwed`; consumer waits are not joined to the rings.
- Agreement.Lockstep: in-order resolution and an open ring; a duplicate publication that ends before
  the cursor and calls that would leave int64 are skipped.
- RingBuffers.RingBuffer.TryPublishN: in single-producer mode nothing may be outstanding, since the
  publication would resolve earlier claims too; the range ends below the largest int64.
- RingBuffers.RingBuffer.WaitFor: the wait strategies are a parameter, their outcome a value no
  further than the cursor; the desired sequence is still in its slot.
- MultiSequencers.MultiSequencer.TryNext: the compare-and-swap retry is not in the sequential method;
  the concurrent machine has it. The same holds for blocking `Next` and for `Run`, whose loops are
  the machines' `ProducerPc`, `ConsumerPc` and `RunnerPc`.
- Processors.ProcessBatch: a handler is a function of the calls so far and its event, and does not
  call back into the ring.
- Reads of an event are exact, so two consumers of one stage that both change an event are ordered by
  the interleaving; data races in the event itself are outside the model.
- Context internals, timers, spin counts, wait counters, padding, error texts and options.
- `RemainingCapacity` as a concurrent reading, concurrent rings without gates, gates moved backwards
  by their users, out-of-order resolution in single-producer mode, and positions that wrap around int64.
