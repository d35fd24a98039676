/** The single-producer sequencer, method by method, for calls that do not overlap. */
module SingleSequencers {
  import opened Bits
  import opened Topology
  import opened Log
  import opened History
  import opened Sequences
  import opened Gating

  /**
   * Markers name discarded sequences of their slot, and every discard that the window test lets
   * through is marked.
   */
  ghost predicate MarksHold(size: int, marks: seq<int64>, h: seq<Status>, cursor: int) {
    && size >= 1 && |marks| == size
    && (forall i :: 0 <= i < size && marks[i] != -1 ==>
          0 <= marks[i] as int < |h| && Slot(size, marks[i] as int) == i && h[marks[i] as int].Discarded?)
    && (forall s :: 0 <= s < |h| && cursor - size < s <= cursor && h[s].Discarded? ==> marks[Slot(size, s)] as int == s)
  }

  lemma MarksAfterDiscard(size: int, marks: seq<int64>, h: seq<Status>, s: int64)
    requires MarksHold(size, marks, h, s as int - 1) && 0 <= s as int < |h|
    ensures MarksHold(size, marks[Slot(size, s as int) := s], h[s as int := Discarded], s as int)
  {
    var h', k := h[s as int := Discarded], s as int;
    forall t | 0 <= t < |h| && k - size < t < k && h'[t].Discarded?
      ensures Slot(size, t) != Slot(size, k)
    {
      if Slot(size, t) == Slot(size, k) {
        NearbySlotsDiffer(size, t, k);
      }
    }
  }

  lemma MarksAfterClaim(size: int, marks: seq<int64>, h: seq<Status>, cursor: int, n: nat)
    requires MarksHold(size, marks, h, cursor) && cursor < |h|
    ensures MarksHold(size, marks, Opened(h, n), cursor)
  {
  }

  class SingleSequencer {
    const size: int64
    const discarded: array<int64>
    const blocking: bool
    const waiter: Waiter
    var cursor: int64
    var nextValue: int64
    var cachedGate: int64
    var gates: seq<Sequence>
    var sealed: bool
    var closed: bool
    ghost var history: seq<Status>

    ghost predicate Sized() {
      SizeAccepted(size as int) && discarded.Length == size as int
    }

    /** Nothing beyond the cursor is resolved, and everything up to it is. */
    ghost predicate Frontier()
      reads this, discarded
    {
      && Sized()
      && nextValue as int == |history| - 1 && |history| <= TWO_63 && -1 <= cursor <= nextValue
      && (forall s :: 0 <= s < |history| ==>
            !history[s].Claimed? && (history[s].Resolved() <==> s <= cursor as int))
      && MarksHold(size as int, discarded[..], history, cursor as int)
    }

    /** The cached gate is behind every gate unless it is ahead of the claims, where it is not trusted. */
    ghost predicate Valid()
      reads this, discarded, gates
    {
      Frontier() && (cachedGate <= nextValue ==> Behind(cachedGate, gates))
    }

    constructor (size: int64, blocking: bool)
      requires SizeAccepted(size as int)
      ensures Valid() && history == [] && gates == [] && cursor == cachedGate == INITIAL && !sealed && !closed
      ensures this.size == size && this.blocking == blocking && fresh(discarded) && fresh(waiter)
    {
      this.size, this.blocking := size, blocking;
      discarded := new int64[size as int](_ => INITIAL);
      waiter := new Waiter();
      cursor, nextValue, cachedGate, gates, sealed, closed := INITIAL, INITIAL, INITIAL, [], false, false;
      history := [];
    }

    /** `m` is the slowest gate, or the last claim when there is none. */
    ghost predicate Gate(m: int64)
      reads this, gates
    {
      IsMinimum(gates, nextValue, m)
    }

    /**
     * There are gates, and they are moved by their own consumers, which acknowledge only what is
     * visible; so no claim has been lapped.
     */
    ghost predicate Gated()
      reads this, gates
    {
      && gates != [] && (forall i :: 0 <= i < |gates| ==> gates[i].value <= cursor)
      && nextValue as int - size as int <= cursor as int
    }

    /**
     * A closed ring takes no gates; otherwise the new gates join the list at the cursor. The cached
     * gate then still answers for the gates unless it lies beyond the cursor, which is only so
     * when claims were made without gates and are still outstanding.
     */
    method AddGatingSequences(sequences: seq<Sequence?>)
      requires Valid() && AllDistinct(SignalsOf(sequences))
      modifies this`gates, sequences, Registrants(SignalsOf(sequences)), waiter
      ensures Valid() <==> closed || Present(sequences) == [] || cachedGate <= cursor || nextValue < cachedGate
      ensures closed ==> gates == old(gates)
      ensures closed ==> Untouched(sequences, old(SignalsOf(sequences)), old(ValuesOf(sequences)))
      ensures !closed ==> gates == old(gates) + Present(sequences)
      ensures !closed ==> JoinedUpTo(sequences, old(SignalsOf(sequences)), |sequences|, cursor, blocking, waiter)
    {
      if closed {
        return;
      }
      ghost var cached := if cachedGate <= cursor then cachedGate else cursor;
      gates := JoinGates(gates, sequences, cached, cursor, blocking, waiter);
      if Present(sequences) == [] {
        NonePresent(sequences);
      } else {
        PresentMembers(sequences, Present(sequences)[0]);
        assert gates[|old(gates)|].value == cursor;
      }
    }

    method RemainingCapacity(ghost gate: int64) returns (n: int)
      requires Valid() && Gate(gate)
      ensures n == Remaining(size as int, history, gate as int)
      ensures Bounds(size as int, history, gate as int, n)
    {
      var consumed := MinimumSequence(gates, nextValue);
      MinimumIsUnique(gates, nextValue, gate, consumed);
      n := size as int - (nextValue as int - consumed as int);
    }

    /**
     * The non-blocking claim: exactly what the capacity allows, whatever the cache holds and
     * wherever the gates are.
     */
    method TryNext(count: int64, ghost gate: int64) returns (r: ClaimResult)
      requires Valid() && Gate(gate)
      requires 1 <= count <= size ==> |history| + count as int <= TWO_63
      modifies this`history, this`nextValue, this`cachedGate
      ensures Valid() && (old(Gated()) ==> Gated())
      ensures !sealed ==> r == TryClaim(size as int, old(history), gate as int, count as int)
      ensures sealed ==> r == Refused(ErrClosed)
      ensures history == After(old(history), r)
      ensures !sealed ==>
                (r.Granted? <==>
                   1 <= count <= size && old(nextValue) as int + count as int - size as int <= gate as int)
      ensures r.Granted? ==> r.high == nextValue as int == old(nextValue) as int + count as int
      ensures r.Refused? ==> nextValue == old(nextValue)
    {
      if sealed {
        return Refused(ErrClosed);
      }
      if count < 1 || count > size {
        return Refused(ErrInvalidClaimSize);
      }
      var next := nextValue + count;
      var room := CapacityFor(next - size, gate);
      if !room {
        return Refused(ErrInsufficientCapacity);
      }
      assert gates != [] ==> gate <= gates[0].value;
      MarksAfterClaim(size as int, discarded[..], history, cursor as int, count as int);
      hide MarksHold, Slot;
      nextValue := next;
      history := Opened(history, count as int);
      r := Granted(next as int);
    }

    /** The cached gate answers when it can; otherwise the gates are read and the cache refreshed. */
    method CapacityFor(wrapPoint: int64, ghost gate: int64) returns (room: bool)
      requires Valid() && Gate(gate) && wrapPoint <= nextValue
      modifies this`cachedGate
      ensures Valid() && Behind(cachedGate, gates)
      ensures room <==> wrapPoint <= gate
    {
      room := true;
      if wrapPoint > cachedGate || cachedGate > nextValue {
        var minimum := MinimumSequence(gates, nextValue);
        MinimumIsUnique(gates, nextValue, gate, minimum);
        cachedGate := minimum;
        room := wrapPoint <= minimum;
      }
    }

    /**
     * Publishing stores the cursor whatever it was. A duplicate is ignored, as documented, and the
     * sequencer stays consistent, exactly when the range does not end before the cursor; otherwise
     * sequences already resolved disappear from view.
     */
    method Publish(low: int64, high: int64)
      requires Valid() && -1 <= high <= nextValue && 0 <= low && low - 1 <= cursor
      modifies this`cursor, this`history
      ensures cursor == high
      ensures Valid() <==> old(cursor) <= high
      ensures old(cursor) <= high ==> history == Settle(old(history), low as int, high as int, Published)
      ensures high < old(cursor) ==> history == old(history) && history[high as int + 1].Resolved()
      ensures old(Gated()) && old(cursor) <= high ==> Gated()
    {
      ghost var before := cursor;
      cursor := high;
      if before <= high {
        history := Settle(history, low as int, high as int, Published);
      } else {
        assert history[before as int].Resolved();
      }
    }

    /** Discarding marks a sequence before the cursor shows it, and skips what is resolved already. */
    method Discard(low: int64, high: int64)
      requires Valid() && (low <= high ==> 0 <= low && low - 1 <= cursor && high <= nextValue)
      modifies discarded, this`cursor, this`history
      ensures Valid() && history == Settle(old(history), low as int, high as int, Discarded)
      ensures old(cursor) <= cursor && (low <= high ==> high <= cursor)
      ensures old(Gated()) ==> Gated()
    {
      if low > high {
        assert history == Settle(history, low as int, high as int, Discarded);
        return;
      }
      ghost var before := history;
      SettleNext(before, low as int, low as int, Discarded);
      var sequence := low;
      while true
        invariant Valid() && low <= sequence <= high <= nextValue && sequence - 1 <= cursor
        invariant old(cursor) <= cursor
        invariant history == Settle(before, low as int, sequence as int - 1, Discarded)
        decreases high - sequence
      {
        SettleNext(before, low as int, sequence as int, Discarded);
        DiscardOne(sequence);
        if sequence == high {
          break;
        }
        sequence := sequence + 1;
      }
    }

    method DiscardOne(sequence: int64)
      requires Valid() && 0 <= sequence <= nextValue && sequence - 1 <= cursor
      modifies discarded, this`cursor, this`history
      ensures Valid() && sequence <= cursor && old(cursor) <= cursor
      ensures history == Settle(old(history), sequence as int, sequence as int, Discarded)
    {
      if sequence > cursor {
        MarksAfterDiscard(size as int, discarded[..], history, sequence);
        discarded[Position(size, sequence)] := sequence;
        cursor := sequence;
        history := history[sequence as int := Discarded];
      }
    }

    /** Resolved, and the claim of the next lap in its slot is not. */
    ghost predicate Shown(s: int)
      reads this
    {
      && 0 <= s < |history| && history[s].Resolved()
      && (0 <= s + size as int < |history| ==> !history[s + size as int].Resolved())
    }

    method IsAvailable(sequence: int64) returns (b: bool)
      requires Valid() && 0 <= sequence
      ensures b <==> Shown(sequence as int)
    {
      b := sequence <= cursor && sequence > cursor - size;
    }

    /** Exact for every sequence shown, and never true of one that was published. */
    method IsDiscarded(sequence: int64) returns (b: bool)
      requires Valid() && 0 <= sequence
      ensures b <==> Shown(sequence as int) && history[sequence as int].Discarded?
    {
      if sequence > cursor || sequence <= cursor - size {
        return false;
      }
      b := discarded[Position(size, sequence)] == sequence;
    }

    method HighestPublished(lower: int64, available: int64) returns (r: int64)
      requires Valid() && available <= cursor
      ensures r == available && forall s :: 0 <= s <= r as int ==> history[s].Resolved()
    {
      r := available;
    }
  }

  /**
   * A duplicate that is not ignored: sequences 0 and 1 are claimed and published, and publishing 0
   * again takes 1 out of view.
   */
  method DuplicateHides() returns (s: SingleSequencer, first: ClaimResult)
    ensures s.history == [Published, Published] && first == Granted(1)
    ensures s.cursor == 0 && !s.Valid()
  {
    s := new SingleSequencer(2, false);
    first := s.TryNext(2, -1);
    s.Publish(0, 1);
    s.Publish(0, 0);
  }
}
