/** The ring buffer over either sequencer: events in slots, publication helpers and discards. */
module RingBuffers {
  import opened Bits
  import opened Topology
  import opened Log
  import opened History
  import opened MultiSequencers
  import opened SingleSequencers

  datatype Sequencer = Single(s: SingleSequencer) | Multi(m: MultiSequencer)

  /** What a translator does to the event it is given: it may write it, and may then fail. */
  datatype Translation = Wrote(event: Event) | Failed(event: Event) | Panicked(event: Event)

  type Translator = (Event, int) -> Translation

  datatype PublishResult = Completed | NotClaimed(error: Error) | TranslatorError | TranslatorPanic

  datatype WaitError = ErrAlerted | ErrWaitClosed | ErrContext

  /** What a wait comes back with. */
  datatype Waited = Interrupted(error: WaitError) | Reached(available: int64)

  class RingBuffer {
    const size: int64
    const entries: array<Event>
    const sequencer: Sequencer
    var discarded: bool

    ghost predicate Sized() {
      SizeAccepted(size as int) && entries.Length == size as int
    }

    ghost predicate Valid()
      reads this
      reads if sequencer.Single? then {sequencer.s} else {}, if sequencer.Multi? then {sequencer.m} else {}
      reads if sequencer.Single? then {sequencer.s.discarded} else {}
      reads if sequencer.Multi? then {sequencer.m.available} else {}
      reads if sequencer.Single? then sequencer.s.gates else sequencer.m.gates
    {
      && Sized()
      && (match sequencer
          case Single(s) => s.Valid() && s.size == size
          case Multi(m) => m.Valid() && m.size == size)
      && (!discarded ==> NoDiscards(Past()))
    }

    constructor (size: int64, multi: bool, blocking: bool, factory: Event)
      requires SizeAccepted(size as int)
      ensures Valid() && Past() == [] && this.size == size && sequencer.Multi? == multi && !Sealed()
      ensures forall i :: 0 <= i < entries.Length ==> entries[i] == factory
      ensures fresh(entries) && !discarded
    {
      this.size := size;
      entries := new Event[size as int](_ => factory);
      discarded := false;
      if multi {
        var m := new MultiSequencer(size, blocking);
        sequencer := Multi(m);
      } else {
        var s := new SingleSequencer(size, blocking);
        sequencer := Single(s);
      }
    }

    /** The history of the sequencer. */
    ghost function Past(): seq<Status>
      reads if sequencer.Single? then {sequencer.s} else {}, if sequencer.Multi? then {sequencer.m} else {}
    {
      match sequencer
      case Single(s) => s.history
      case Multi(m) => m.history
    }

    method Get(sequence: int64) returns (event: Event)
      requires Sized() && sequence >= 0
      ensures event == entries[Slot(entries.Length, sequence as int)]
    {
      event := entries[Position(size, sequence)];
    }

    /** A sequence no newer claim has overwritten. */
    ghost predicate Held(sequence: int)
      reads if sequencer.Single? then {sequencer.s} else {}, if sequencer.Multi? then {sequencer.m} else {}
    {
      0 <= sequence < |Past()| && |Past()| - 1 - size as int < sequence
    }

    method IsDiscarded(sequence: int64) returns (b: bool)
      requires Valid() && Held(sequence as int)
      ensures b <==> Past()[sequence as int].Discarded?
    {
      match sequencer {
        case Single(s) => b := s.IsDiscarded(sequence);
        case Multi(m) => b := m.IsDiscarded(sequence);
      }
    }

    /** The producer cursor a barrier reads: in single mode, what has been published. */
    function Cursor(): int64
      reads if sequencer.Single? then {sequencer.s} else {}, if sequencer.Multi? then {sequencer.m} else {}
    {
      match sequencer
      case Single(s) => s.cursor
      case Multi(m) => m.cursor
    }

    method HighestPublished(lower: int64, available: int64) returns (r: int64)
      requires Valid() && 0 <= lower <= available <= Cursor()
      requires |Past()| - 1 - size as int < lower as int
      ensures lower - 1 <= r <= available
      ensures forall k :: lower as int <= k <= r as int ==> Held(k) && Past()[k].Resolved()
      ensures r < available ==> !Past()[r as int + 1].Resolved()
    {
      CursorsKnown(this);
      hide RingBuffer.Valid, SingleSequencer.Valid, MultiSequencer.Valid;
      match sequencer {
        case Single(s) => r := s.HighestPublished(lower, available);
        case Multi(m) => r := Scan(m, lower, available);
      }
    }

    /**
     * `SequenceBarrier.WaitFor`, given the barrier's alert and what the wait strategy came back
     * with. A value below `desired` is passed on; otherwise the scan never crosses a gap.
     */
    method WaitFor(desired: int64, alerted: bool, waited: Waited) returns (r: Waited)
      requires Valid() && 0 <= desired && |Past()| - 1 - size as int < desired as int
      requires waited.Reached? ==> waited.available <= Cursor()
      ensures alerted ==> r == Interrupted(ErrAlerted)
      ensures !alerted && (waited.Interrupted? || waited.available < desired) ==> r == waited
      ensures !alerted && waited.Reached? && desired <= waited.available ==>
                && r.Reached? && desired - 1 <= r.available <= waited.available
                && (forall k :: desired as int <= k <= r.available as int ==> Held(k) && Past()[k].Resolved())
                && (r.available < waited.available ==> !Past()[r.available as int + 1].Resolved())
    {
      if alerted {
        return Interrupted(ErrAlerted);
      }
      if waited.Interrupted? || waited.available < desired {
        return waited;
      }
      var available := HighestPublished(desired, waited.available);
      r := Reached(available);
    }

    /** `gate` is the slowest gate, or the last claim when there is none. */
    ghost predicate Gate(gate: int64)
      reads if sequencer.Single? then {sequencer.s} else {}, if sequencer.Multi? then {sequencer.m} else {}
      reads if sequencer.Single? then sequencer.s.gates else sequencer.m.gates
    {
      match sequencer
      case Single(s) => s.Gate(gate)
      case Multi(m) => m.Gate(gate)
    }

    /** What resolving a range makes of a history: claims that lost their slot cannot be resolved. */
    ghost function Settled(h: seq<Status>, low: int, high: int, status: Status): seq<Status> {
      if sequencer.Multi? then SettleHeld(size as int, h, low, high, status) else Settle(h, low, high, status)
    }

    /** The sequences a resolution may name: any in multi-producer mode, those in claim order in single. */
    ghost predicate Resolvable(low: int64, high: int64)
      reads if sequencer.Single? then {sequencer.s} else {}
    {
      && 0 <= low && (high as int) < Room(size as int)
      && (sequencer.Single? ==> low - 1 <= sequencer.s.cursor && high <= sequencer.s.nextValue)
    }

    /** Discards: the flag is set before any discard can become visible, and even for an empty range. */
    method DiscardRange(low: int64, high: int64)
      requires Valid() && (low <= high ==> Resolvable(low, high))
      modifies this`discarded
      modifies if sequencer.Single? then {sequencer.s} else {}, if sequencer.Multi? then {sequencer.m} else {}
      modifies if sequencer.Single? then {sequencer.s.discarded} else {}
      modifies if sequencer.Multi? then {sequencer.m.available} else {}
      ensures Valid() && discarded && Past() == Settled(old(Past()), low as int, high as int, Discarded)
      ensures |Past()| == |old(Past())|
      ensures forall s :: 0 <= s < |Past()| && old(Past())[s].Resolved() ==> Past()[s] == old(Past())[s]
      ensures forall s :: low as int <= s <= high as int && Held(s) && old(Past())[s].Open? ==> Past()[s].Discarded?
    {
      discarded := true;
      match sequencer {
        case Single(s) => s.Discard(low, high);
        case Multi(m) => m.Resolve(low, high, Discarded);
      }
    }

    /**
     * Fills the events of a fresh claim. Translation stops at the first error or panic, leaving
     * the later events of the range as they were. The loop needs a successor of `high`.
     */
    method Translate(low: int64, high: int64, translator: Translator) returns (r: PublishResult)
      requires Sized() && 0 <= low <= high < MAX_INT64 && high as int - low as int < size as int
      modifies entries
      ensures Translated(size as int, old(entries[..]), entries[..], low as int, high as int, translator, r)
    {
      ghost var before := entries[..];
      var sequence := low;
      while sequence <= high
        invariant low <= sequence && sequence - 1 <= high
        invariant WrittenUpTo(size as int, before, entries[..], low as int, sequence as int, high as int, translator)
      {
        var i := Position(size, sequence);
        var t := translator(entries[i], sequence as int);
        WriteStep(size as int, before, entries[..], low as int, sequence as int, high as int, translator);
        entries[i] := t.event;
        match t {
          case Wrote(_) =>
          case Failed(_) => return TranslatorError;
          case Panicked(_) => return TranslatorPanic;
        }
        sequence := sequence + 1;
      }
      assert TranslationOf(size as int, before, high as int, translator).Wrote?;
      r := Completed;
    }

    function Sealed(): bool
      reads if sequencer.Single? then {sequencer.s} else {}, if sequencer.Multi? then {sequencer.m} else {}
    {
      match sequencer
      case Single(s) => s.sealed
      case Multi(m) => m.sealed
    }

    /** `TryNextN` on whichever sequencer the ring has. */
    method TryClaimN(count: int64, ghost gate: int64) returns (r: ClaimResult)
      requires Valid() && Gate(gate)
      requires 1 <= count <= size ==> |Past()| + count as int <= Room(size as int)
      modifies if sequencer.Single? then {sequencer.s} else {}, if sequencer.Multi? then {sequencer.m} else {}
      modifies if sequencer.Multi? then {sequencer.m.available} else {}
      ensures Valid() && Past() == After(old(Past()), r)
      ensures !old(Sealed()) ==> r == TryClaim(size as int, old(Past()), gate as int, count as int)
      ensures old(Sealed()) ==> r.Refused?
      ensures sequencer.Single? ==>
                sequencer.s.cursor == old(sequencer.s.cursor) && sequencer.s.nextValue as int == |Past()| - 1
    {
      ghost var before := Past();
      match sequencer {
        case Single(s) => r := s.TryNext(count, gate);
        case Multi(m) => r := m.TryNext(count, gate);
      }
      ClaimsAreNotDiscards(before, r);
    }

    method PublishRange(low: int64, high: int64)
      requires Valid() && low <= high && Resolvable(low, high)
      requires sequencer.Single? ==> sequencer.s.cursor <= high
      modifies if sequencer.Single? then {sequencer.s} else {}, if sequencer.Multi? then {sequencer.m} else {}
      modifies if sequencer.Multi? then {sequencer.m.available} else {}
      ensures Valid() && Past() == Settled(old(Past()), low as int, high as int, Status.Published)
    {
      PublishingAddsNoDiscards(size as int, Past(), low as int, high as int);
      match sequencer {
        case Single(s) => s.Publish(low, high);
        case Multi(m) => m.Resolve(low, high, Status.Published);
      }
    }

    /**
     * Claims, translates and publishes a range. Whatever the translator does, an error or a panic
     * included, the complete range is published, so no gap is left behind.
     */
    method TryPublishN(count: int64, translator: Translator, ghost gate: int64) returns (r: PublishResult)
      requires Valid() && Gate(gate)
      requires 1 <= count <= size ==> |Past()| + count as int <= Room(size as int) && |Past()| + count as int < TWO_63
      requires sequencer.Single? ==> sequencer.s.cursor == sequencer.s.nextValue
      modifies entries
      modifies if sequencer.Single? then {sequencer.s} else {}, if sequencer.Multi? then {sequencer.m} else {}
      modifies if sequencer.Multi? then {sequencer.m.available} else {}
      ensures Valid()
      ensures old(Sealed()) ==> r.NotClaimed?
      ensures !old(Sealed()) ==> Answers(r, TryClaim(size as int, old(Past()), gate as int, count as int))
      ensures r.NotClaimed? ==> Past() == old(Past()) && entries[..] == old(entries[..])
      ensures !r.NotClaimed? ==>
                1 <= count <= size && Filled(old(Past()), old(entries[..]), count as int, translator, r)
    {
      hide RingBuffer.Valid, Translated, Settle, SettleHeld, Settled, Resolvable, TryClaim, Slot;
      ghost var before := Past();
      var claim := ClaimToPublish(count, gate);
      if claim.Refused? {
        return NotClaimed(claim.error);
      }
      var high := claim.high as int64;
      PublishedInFull(before, count as int);
      r := FillAndPublish(high - count + 1, high, translator);
    }

    /** The claim of a publication, after which the whole claimed range can be published. */
    method ClaimToPublish(count: int64, ghost gate: int64) returns (r: ClaimResult)
      requires Valid() && Gate(gate)
      requires 1 <= count <= size ==> |Past()| + count as int <= Room(size as int) && |Past()| + count as int < TWO_63
      requires sequencer.Single? ==> sequencer.s.cursor == sequencer.s.nextValue
      modifies if sequencer.Single? then {sequencer.s} else {}, if sequencer.Multi? then {sequencer.m} else {}
      modifies if sequencer.Multi? then {sequencer.m.available} else {}
      ensures Valid() && Past() == After(old(Past()), r) && entries[..] == old(entries[..])
      ensures !old(Sealed()) ==> r == TryClaim(size as int, old(Past()), gate as int, count as int)
      ensures old(Sealed()) ==> r.Refused?
      ensures r.Granted? ==>
                && 1 <= count <= size && r.high == |old(Past())| - 1 + count as int && r.high < MAX_INT64 as int
                && Resolvable(r.high as int64 - count + 1, r.high as int64)
                && (sequencer.Single? ==> sequencer.s.cursor as int <= r.high)
    {
      NothingOutstanding(this);
      hide RingBuffer.Valid;
      ghost var events := entries[..];
      r := TryClaimN(count, gate);
      assert entries[..] == events;
    }

    lemma PublishedInFull(before: seq<Status>, n: nat)
      requires n <= size as int
      ensures Settled(Opened(before, n), |before|, |before| + n - 1, Status.Published)
              == before + seq(n, i => Status.Published)
    {
      SettleOpened(size as int, before, n, Status.Published);
    }

    /** The whole range was published after translation, as far as that came. */
    ghost predicate Filled(past: seq<Status>, events: seq<Event>, count: int, translator: Translator, r: PublishResult)
      reads entries
      reads if sequencer.Single? then {sequencer.s} else {}, if sequencer.Multi? then {sequencer.m} else {}
    {
      && count >= 1 && Past() == past + seq(count, i => Status.Published)
      && Translated(size as int, events, entries[..], |past|, |past| + count - 1, translator, r)
    }

    /** The deferred publication happens on every way out of the translation loop. */
    method FillAndPublish(low: int64, high: int64, translator: Translator) returns (r: PublishResult)
      requires Valid() && low <= high < MAX_INT64 && Resolvable(low, high) && high as int - low as int < size as int
      requires sequencer.Single? ==> sequencer.s.cursor <= high
      modifies entries
      modifies if sequencer.Single? then {sequencer.s} else {}, if sequencer.Multi? then {sequencer.m} else {}
      modifies if sequencer.Multi? then {sequencer.m.available} else {}
      ensures Valid() && Past() == Settled(old(Past()), low as int, high as int, Status.Published)
      ensures !r.NotClaimed?
      ensures Translated(size as int, old(entries[..]), entries[..], low as int, high as int, translator, r)
    {
      ValidIsSized(this);
      hide RingBuffer.Valid, Translated, Settled;
      r := Translate(low, high, translator);
      ghost var events := entries[..];
      PublishRange(low, high);
      assert entries[..] == events;
    }
  }

  lemma CursorsKnown(ring: RingBuffer)
    requires ring.Valid()
    ensures match ring.sequencer
            case Single(s) =>
              && s.Valid() && s.size == ring.size && s.cursor as int < |ring.Past()|
              && (s.cursor as int + 1 < |ring.Past()| ==> !ring.Past()[s.cursor as int + 1].Resolved())
            case Multi(m) => m.Valid() && m.size == ring.size && m.cursor as int == |ring.Past()| - 1
  {
  }

  lemma ValidIsSized(ring: RingBuffer)
    requires ring.Valid()
    ensures ring.Sized() && ring.entries.Length >= 1
  {
  }

  /** A publication that made no claim reports the claim's error, and one that did had it granted. */
  predicate Answers(r: PublishResult, claim: ClaimResult) {
    if claim.Refused? then r == NotClaimed(claim.error) else !r.NotClaimed?
  }

  lemma NothingOutstanding(ring: RingBuffer)
    requires ring.Valid()
    ensures ring.sequencer.Single? ==> ring.sequencer.s.nextValue as int == |ring.Past()| - 1
  {
  }

  lemma ClaimsAreNotDiscards(h: seq<Status>, r: ClaimResult)
    ensures NoDiscards(h) ==> NoDiscards(After(h, r))
  {
  }

  predicate NoDiscards(h: seq<Status>) {
    forall k :: 0 <= k < |h| ==> !h[k].Discarded?
  }

  lemma PublishingAddsNoDiscards(size: int, h: seq<Status>, low: int, high: int)
    ensures NoDiscards(h) ==> NoDiscards(Settle(h, low, high, Published))
    ensures NoDiscards(h) ==> NoDiscards(SettleHeld(size, h, low, high, Published))
  {
  }

  /** Publishing a fresh claim in full. */
  lemma SettleOpened(size: int, h: seq<Status>, n: nat, status: Status)
    requires n <= size
    ensures Settle(Opened(h, n), |h|, |h| + n - 1, status) == h + seq(n, i => status)
    ensures SettleHeld(size, Opened(h, n), |h|, |h| + n - 1, status) == h + seq(n, i => status)
  {
  }

  /** A multi-producer scan within the current lap. */
  method Scan(m: MultiSequencer, lower: int64, available: int64) returns (r: int64)
    requires m.Valid() && 0 <= lower <= available <= m.cursor
    requires m.cursor as int - m.size as int < lower as int
    ensures lower - 1 <= r <= available
    ensures forall k :: lower as int <= k <= r as int ==> m.history[k].Resolved()
    ensures r < available ==> !m.history[r as int + 1].Resolved()
  {
    r := m.HighestPublished(lower, available);
    forall k | lower as int <= k <= r as int ensures m.history[k].Resolved() {
      assert m.Seen(k).Resolved();
    }
    if r < available {
      assert !m.Seen(r as int + 1).Resolved();
    }
  }

  /** `New`: a ring exactly for the sizes that are powers of two. */
  method New(size: int64, multi: bool, blocking: bool, factory: Event) returns (ring: RingBuffer?)
    ensures ring != null <==> exists k: nat :: size as int == Pow2(k)
    ensures ring != null ==>
              && fresh(ring) && ring.Valid() && ring.Past() == [] && ring.size == size && !ring.Sealed()
              && ring.sequencer.Multi? == multi
  {
    AcceptsExactlyPowersOfTwo(size as int);
    if size < 1 || And(size as int, size as int - 1) != 0 {
      return null;
    }
    ring := new RingBuffer(size, multi, blocking, factory);
  }

  /** The translator's outcome for one sequence, from the event its slot held before. */
  function TranslationOf(size: int, before: seq<Event>, s: int, translator: Translator): Translation
    requires size >= 1 && |before| == size
  {
    translator(before[Slot(size, s)], s)
  }

  /** The events `low..k-1` are those written by successful translations; the others are as before. */
  ghost predicate WrittenUpTo(size: int, before: seq<Event>, after: seq<Event>, low: int, k: int, high: int,
                              translator: Translator) {
    && size >= 1 && |before| == |after| == size
    && (forall s :: low <= s < k ==>
          TranslationOf(size, before, s, translator).Wrote?
          && after[Slot(size, s)] == TranslationOf(size, before, s, translator).event)
    && (forall s :: k <= s < low + size ==> after[Slot(size, s)] == before[Slot(size, s)])
  }

  /** The whole of a translation: written up to the first failure, whose event is also written. */
  ghost predicate Translated(size: int, before: seq<Event>, after: seq<Event>, low: int, high: int,
                               translator: Translator, r: PublishResult) {
    && size >= 1 && |before| == |after| == size && !r.NotClaimed?
    && exists k :: low <= k <= high
         && (forall s :: low <= s < k ==> TranslationOf(size, before, s, translator).Wrote?)
         && (forall s :: low <= s <= k ==> after[Slot(size, s)] == TranslationOf(size, before, s, translator).event)
         && (forall s :: k < s < low + size ==> after[Slot(size, s)] == before[Slot(size, s)])
         && (match TranslationOf(size, before, k, translator)
             case Wrote(_) => r.Completed? && k == high
             case Failed(_) => r.TranslatorError?
             case Panicked(_) => r.TranslatorPanic?)
  }

  lemma WriteStep(size: int, before: seq<Event>, after: seq<Event>, low: int, k: int, high: int, translator: Translator)
    requires WrittenUpTo(size, before, after, low, k, high, translator) && low <= k <= high < low + size
    ensures after[Slot(size, k)] == before[Slot(size, k)]
    ensures var after' := after[Slot(size, k) := TranslationOf(size, before, k, translator).event];
            && (forall s :: low <= s <= k ==> after'[Slot(size, s)] == TranslationOf(size, before, s, translator).event)
            && (forall s :: k < s < low + size ==> after'[Slot(size, s)] == before[Slot(size, s)])
  {
    forall s | low <= s < low + size && s != k ensures Slot(size, s) != Slot(size, k) {
      if Slot(size, s) == Slot(size, k) {
        NearbySlotsDiffer(size, s, k);
      }
    }
  }
}
