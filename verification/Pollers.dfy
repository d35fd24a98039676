/** `EventPoller.Poll` in code. */
module Pollers {
  import opened Bits
  import opened Topology
  import opened Log
  import opened Sequences
  import opened RingBuffers
  import opened Processors

  /** The poll states and errors; `PollFailed` is `PollProcessing` with a handler's error. */
  datatype PollResult = PollIdle | PollGating | PollProcessing | PollAlerted | PollClosed
      | PollFailed(cause: BatchResult)

  /** What there is to report: an alert, a batch, a closed ring, a gap or slow dependency, or nothing new. */
  datatype Due = DueAlert | DueBatch | DueClose | DueGating | DueIdle

  /** A due batch is processed, and its handler may fail. */
  predicate Reports(r: PollResult, due: Due) {
    match due
    case DueAlert => r.PollAlerted?
    case DueBatch => r.PollProcessing? || r.PollFailed?
    case DueClose => r.PollClosed?
    case DueGating => r.PollGating?
    case DueIdle => r.PollIdle?
  }

  lemma BatchWasDue(r: PollResult, due: Due)
    requires Reports(r, due) && r.PollProcessing?
    ensures Reports(PollProcessing, due) && forall cause :: Reports(PollFailed(cause), due)
  {
  }

  datatype Snapshot = Snapshot(
    next: int,
    calls: seq<Delivery>,
    acked: seq<int>,
    entries: seq<Event>,
    generations: seq<nat>)

  /** A consumer: its acknowledged sequence, every handler call so far, and what it acknowledged. */
  class Poller {
    const ring: RingBuffer
    const sequence: Sequence
    const deps: seq<Sequence>
    const maxBatch: int64
    var alerted: bool
    var closed: bool
    var calls: seq<Delivery>
    ghost var acked: seq<int>

    /** Everything up to the consumer's sequence is resolved, and acknowledged exactly once. */
    ghost predicate Consistent(h: seq<Status>)
      reads this, sequence
    {
      && maxBatch >= 1 && Distinct(sequence.signals)
      && -1 <= sequence.value as int < |h|
      && |h| - 1 - ring.size as int <= sequence.value as int
      && AllResolved(Records(h), 0, sequence.value as int + 1)
      && acked == Live(Records(h), 0, sequence.value as int + 1)
    }

    constructor (ring: RingBuffer, deps: seq<Sequence>, maxBatch: int64)
      requires ring.Valid() && ring.Past() == [] && maxBatch >= 1
      ensures this.ring == ring && this.deps == deps && this.maxBatch == maxBatch
      ensures Consistent(ring.Past()) && calls == [] && fresh(sequence) && sequence.signals == []
    {
      this.ring, this.deps, this.maxBatch := ring, deps, maxBatch;
      alerted, closed, calls, acked := false, false, [], [];
      sequence := new Sequence(INITIAL);
    }

    /** Acknowledges a delivered batch, and signals the producers waiting for this gate. */
    method Acknowledge(ghost h: seq<Status>, end: int64)
      requires Consistent(h) && sequence.value <= end && end as int < |h|
      requires AllResolved(Records(h), 0, end as int + 1)
      modifies sequence`value, this`acked, sequence.signals
      ensures Consistent(h) && sequence.value == end
      ensures acked == old(acked) + Live(Records(h), old(sequence.value) as int + 1, end as int + 1)
      ensures Signalled(sequence.signals, old(GenerationsOf(sequence.signals)), true)
    {
      LiveSplits(Records(h), 0, sequence.value as int + 1, end as int + 1);
      acked := acked + Live(Records(h), sequence.value as int + 1, end as int + 1);
      sequence.Store(end);
    }

    /** Dependencies are consumers of the same ring: they acknowledge only what is visible. */
    ghost predicate DepsOK()
      reads deps
      reads if ring.sequencer.Single? then {ring.sequencer.s} else {}
      reads if ring.sequencer.Multi? then {ring.sequencer.m} else {}
    {
      forall i :: 0 <= i < |deps| ==> deps[i].value <= ring.Cursor()
    }

    /** The producer cursor has passed `k`, and every dependency has acknowledged it. */
    ghost predicate Reached(k: int)
      reads deps
      reads if ring.sequencer.Single? then {ring.sequencer.s} else {}
      reads if ring.sequencer.Multi? then {ring.sequencer.m} else {}
    {
      k <= ring.Cursor() as int && forall i :: 0 <= i < |deps| ==> k <= deps[i].value as int
    }

    /** The slowest dependency, or the producer cursor when there is none. */
    method Dependent() returns (v: int64)
      requires DepsOK()
      ensures v <= ring.Cursor() && forall k :: Reached(k) <==> k <= v as int
    {
      if deps == [] {
        v := ring.Cursor();
      } else {
        v := LoadGroup(deps);
      }
    }

    /** A sequence this consumer may be given. */
    ghost predicate Deliverable(k: int)
      reads deps
      reads if ring.sequencer.Single? then {ring.sequencer.s} else {}
      reads if ring.sequencer.Multi? then {ring.sequencer.m} else {}
    {
      Reached(k) && 0 <= k < |ring.Past()| && ring.Past()[k].Resolved()
    }

    /** The longest batch the limit allows: an unbroken run of deliverable sequences. */
    ghost predicate Longest(next: int, end: int)
      reads deps
      reads if ring.sequencer.Single? then {ring.sequencer.s} else {}
      reads if ring.sequencer.Multi? then {ring.sequencer.m} else {}
    {
      && 0 <= next <= end < next + maxBatch as int && end < |ring.Past()|
      && (forall k :: next <= k <= end ==> Deliverable(k))
      && (end == next + maxBatch as int - 1 || !Deliverable(end + 1))
    }

    /** The visible sequences after the consumer's own: none, or an unbroken resolved run. */
    method Look(next: int64, dependent: int64) returns (available: int64)
      requires ring.Valid() && Consistent(ring.Past()) && dependent <= ring.Cursor()
      requires next as int == sequence.value as int + 1 && next <= dependent
      ensures next - 1 <= available <= dependent && Selectable(ring, next as int, available as int)
      ensures available < dependent ==> !ring.Past()[available as int + 1].Resolved()
    {
      available := ring.HighestPublished(next, dependent);
    }

    /** The calls since `was` are an attempt at the batch up to `end`, with this result. */
    ghost predicate Attempted(handler: Handler, was: Snapshot, end: int, r: BatchResult)
      reads `calls, ring.entries
      reads if ring.sequencer.Single? then {ring.sequencer.s} else {}
      reads if ring.sequencer.Multi? then {ring.sequencer.m} else {}
    {
      && was.calls <= calls
      && Ran(handler, was.entries, was.calls, ring.Past(), was.next, end, calls[|was.calls|..], r, ring.entries[..])
    }

    /** What a poll starts from: the next sequence, and what was called, acknowledged and left so far. */
    ghost function Now(): Snapshot
      reads this, sequence, sequence.signals, ring.entries
    {
      Snapshot(sequence.value as int + 1, calls, acked, ring.entries[..], GenerationsOf(sequence.signals))
    }

    /**
     * The longest batch after `was` was attempted and completed: the sequence moved to its end, and
     * exactly its live sequences were acknowledged.
     */
    ghost predicate CompletedFrom(handler: Handler, was: Snapshot)
      reads this, sequence, deps, ring.entries
      reads if ring.sequencer.Single? then {ring.sequencer.s} else {}
      reads if ring.sequencer.Multi? then {ring.sequencer.m} else {}
    {
      && Longest(was.next, sequence.value as int) && Attempted(handler, was, sequence.value as int, Done)
      && acked == was.acked + Live(Records(ring.Past()), was.next, sequence.value as int + 1)
    }

    /**
     * The longest batch after `was` was attempted and failed: nothing was acknowledged, so the next
     * poll delivers the batch again from its start.
     */
    ghost predicate FailedFrom(handler: Handler, was: Snapshot, cause: BatchResult)
      reads this, sequence, deps, ring.entries
      reads if ring.sequencer.Single? then {ring.sequencer.s} else {}
      reads if ring.sequencer.Multi? then {ring.sequencer.m} else {}
    {
      && !cause.Done? && sequence.value as int + 1 == was.next && acked == was.acked
      && exists end :: Longest(was.next, end) && Attempted(handler, was, end, cause)
    }

    /** What the next poll is to report: whatever is deliverable comes before a closed ring. */
    ghost function DueNow(): Due
      reads this, sequence, deps
      reads if ring.sequencer.Single? then {ring.sequencer.s} else {}
      reads if ring.sequencer.Multi? then {ring.sequencer.m} else {}
    {
      var next := sequence.value as int + 1;
      if alerted then DueAlert
      else if Deliverable(next) then DueBatch
      else if closed then DueClose
      else if next <= ring.Cursor() as int then DueGating
      else DueIdle
    }

    /** What a poll leaves behind: a completed batch, a failed one, or everything as it was. */
    ghost predicate Leaves(handler: Handler, was: Snapshot, r: PollResult)
      reads this, sequence, sequence.signals, deps, ring.entries
      reads if ring.sequencer.Single? then {ring.sequencer.s} else {}
      reads if ring.sequencer.Multi? then {ring.sequencer.m} else {}
    {
      match r
      case PollProcessing => CompletedFrom(handler, was) && Signalled(sequence.signals, was.generations, true)
      case PollFailed(cause) => FailedFrom(handler, was, cause) && Signalled(sequence.signals, was.generations, false)
      case _ => Now() == was
    }

    /**
     * Poll: at most one batch, and the longest there is within the limit. Whatever is deliverable
     * is delivered before a closed ring is reported.
     */
    method Poll(handler: Handler) returns (r: PollResult)
      requires ring.Valid() && Consistent(ring.Past()) && DepsOK() && sequence !in deps
      requires |ring.Past()| < MAX_INT64 as int
      modifies this`calls, this`acked, sequence`value, sequence.signals, ring.entries
      ensures Consistent(ring.Past()) && Reports(r, old(DueNow()))
      ensures Leaves(handler, old(Now()), r)
    {
      assert -1 <= sequence.value as int < |ring.Past()|;
      var next := sequence.value + 1;
      hide *;
      var end;
      r, end := Select(next);
      if r.PollProcessing? {
        BatchWasDue(r, DueNow());
        r := Process(handler, next, end);
      } else {
        NothingDone(handler, Now(), r);
      }
    }

    lemma NothingDone(handler: Handler, was: Snapshot, r: PollResult)
      requires Now() == was && !r.PollProcessing? && !r.PollFailed?
      ensures Leaves(handler, was, r)
    {
    }

    /** The attempt at a selected batch, and what becomes of it. */
    method Process(handler: Handler, next: int64, end: int64) returns (r: PollResult)
      requires ring.Valid() && Consistent(ring.Past()) && sequence !in deps
      requires Selectable(ring, next as int, end as int) && Longest(next as int, end as int)
      requires next as int == sequence.value as int + 1 && next <= end < MAX_INT64
      modifies this`calls, this`acked, sequence`value, sequence.signals, ring.entries
      ensures Consistent(ring.Past()) && (r.PollProcessing? || r.PollFailed?)
      ensures Leaves(handler, old(Now()), r)
    {
      hide RingBuffer.Valid, Deliverable, Reached, Consistent, Attempted, Selectable, Signalled, GenerationsOf, Live;
      var cause := Deliver(handler, next, end);
      assert Longest(next as int, end as int);
      r := if cause.Done? then PollProcessing else PollFailed(cause);
    }

    /** What there is to process, or the reason for there being nothing. */
    method Select(next: int64) returns (r: PollResult, end: int64)
      requires ring.Valid() && Consistent(ring.Past()) && DepsOK()
      requires |ring.Past()| < MAX_INT64 as int && next as int == sequence.value as int + 1
      ensures r.PollProcessing? ==>
                && next <= end < MAX_INT64
                && Selectable(ring, next as int, end as int) && Longest(next as int, end as int)
      ensures Reports(r, old(DueNow())) && !r.PollFailed?
      ensures ring.Valid() && Consistent(ring.Past()) && Now() == old(Now())
    {
      hide RingBuffer.Valid;
      end := next - 1;
      if alerted {
        return PollAlerted, end;
      }
      var producer := ring.Cursor();
      var dependent := Dependent();
      assert Reached(next as int) <==> next <= dependent;
      if dependent < next {
        return if closed then PollClosed else if producer >= next then PollGating else PollIdle, end;
      }
      var available := Look(next, dependent);
      if available < next {
        return if closed then PollClosed else PollGating, end;
      }
      end := if available - next >= maxBatch then next + (maxBatch - 1) else available;
      assert Reached(end as int + 1) <==> end < dependent;
      assert forall k :: next as int <= k <= end as int ==> Deliverable(k);
      r := PollProcessing;
    }

    /** The attempt at a batch. */
    method Call(handler: Handler, next: int64, end: int64) returns (cause: BatchResult)
      requires ring.Valid() && Selectable(ring, next as int, end as int)
      requires next as int == sequence.value as int + 1 && next <= end < MAX_INT64
      modifies this`calls, ring.entries
      ensures Attempted(handler, old(Now()), end as int, cause)
    {
      hide RingBuffer.Valid, Attempt, Last, Ran;
      var made;
      made, cause := ProcessBatch(ring, handler, calls, next, end);
      calls := calls + made;
      assert calls[|old(calls)|..] == made;
    }

    /** One batch: acknowledged when every call succeeded, and not at all otherwise. */
    method Deliver(handler: Handler, next: int64, end: int64) returns (cause: BatchResult)
      requires ring.Valid() && Consistent(ring.Past()) && Selectable(ring, next as int, end as int)
      requires next as int == sequence.value as int + 1 && next <= end < MAX_INT64
      modifies this`calls, this`acked, sequence`value, sequence.signals, ring.entries
      ensures Consistent(ring.Past()) && Attempted(handler, old(Now()), end as int, cause)
      ensures sequence.value == if cause.Done? then end else old(sequence.value)
      ensures acked == old(acked) + if cause.Done? then Live(Records(ring.Past()), next as int, end as int + 1) else []
      ensures Signalled(sequence.signals, old(GenerationsOf(sequence.signals)), cause.Done?)
    {
      hide RingBuffer.Valid, Attempted, Live, Last, Records, Signalled, GenerationsOf;
      cause := Call(handler, next, end);
      Settle(cause.Done?, next, end);
    }

    /** What becomes of an attempt: the acknowledgement, if it completed. */
    method Settle(completed: bool, next: int64, end: int64)
      requires Consistent(ring.Past()) && Selectable(ring, next as int, end as int)
      requires next as int == sequence.value as int + 1 && next <= end < MAX_INT64
      modifies this`acked, sequence`value, sequence.signals
      ensures Consistent(ring.Past())
      ensures sequence.value == if completed then end else old(sequence.value)
      ensures acked == old(acked) + if completed then Live(Records(ring.Past()), next as int, end as int + 1) else []
      ensures Signalled(sequence.signals, old(GenerationsOf(sequence.signals)), completed)
    {
      hide RingBuffer.Valid, Live;
      if completed {
        AllResolvedExtends(ring.Past(), next as int, end as int);
        Acknowledge(ring.Past(), end);
      }
    }
  }

  lemma AllResolvedExtends(h: seq<Status>, next: int, end: int)
    requires 0 <= next <= end + 1 <= |h| && AllResolved(Records(h), 0, next)
    requires forall k :: next <= k <= end ==> h[k].Resolved()
    ensures AllResolved(Records(h), 0, end + 1)
  {
  }

  ghost function GenerationsOf(signals: seq<Waiter>): (r: seq<nat>)
    reads signals
    ensures |r| == |signals|
  {
    seq(|signals|, i requires 0 <= i < |signals| reads signals => signals[i].generation)
  }

  /** Every registered waiter's channel closed once, or none did. */
  ghost predicate Signalled(signals: seq<Waiter>, before: seq<nat>, moved: bool)
    reads signals
  {
    && |before| == |signals|
    && forall i :: 0 <= i < |signals| ==> signals[i].generation == before[i] + if moved then 1 else 0
  }
}
