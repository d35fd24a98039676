/** The multi-producer sequencer, method by method, for calls that do not overlap. */
module MultiSequencers {
  import opened Bits
  import opened Topology
  import opened Log
  import opened History
  import opened Sequences
  import opened Gating

  /** The availability words of a history: those of the newest claims, and -1 before any. */
  ghost predicate SlotsHold(size: int, words: seq<int64>, h: seq<Status>) {
    && size >= 1 && |words| == size
    && (forall s :: 0 <= s < |h| && |h| - 1 - size < s ==> words[Slot(size, s)] == Word(size, s, h[s]))
    && (forall i :: |h| <= i < size ==> words[i] == -1)
  }

  /** The prepare loop, about to open `k`. */
  ghost predicate PreparedUpTo(size: int, words: seq<int64>, words': seq<int64>, low: int, k: int, high: int) {
    && size >= 1 && |words| == |words'| == size
    && (forall s :: low <= s < k ==> words'[Slot(size, s)] == Word(size, s, Open))
    && (forall s :: low - size <= s < low && high < s + size ==> words'[Slot(size, s)] == words[Slot(size, s)])
  }

  lemma PrepareStep(size: int, words: seq<int64>, words': seq<int64>, low: int, k: int, high: int)
    requires PreparedUpTo(size, words, words', low, k, high) && low <= k <= high < low + size
    ensures PreparedUpTo(size, words, words'[Slot(size, k) := Word(size, k, Open)], low, k + 1, high)
  {
    forall s | k - size < s < k ensures Slot(size, s) != Slot(size, k) {
      if Slot(size, s) == Slot(size, k) {
        NearbySlotsDiffer(size, s, k);
      }
    }
  }

  lemma SlotsAfterClaim(size: int, words: seq<int64>, words': seq<int64>, h: seq<Status>, n: nat)
    requires SlotsHold(size, words, h) && 1 <= n <= size
    requires PreparedUpTo(size, words, words', |h|, |h| + n, |h| + n - 1)
    ensures SlotsHold(size, words', Opened(h, n))
  {
    forall i | |h| + n <= i < size ensures words'[i] == -1 {
      FirstLap(size, i);
      PreviousLap(size, i);
      assert words'[Slot(size, i - size)] == words[Slot(size, i - size)];
    }
  }

  lemma SlotsAfterSwap(size: int, words: seq<int64>, h: seq<Status>, s: int, status: Status)
    requires SlotsHold(size, words, h) && 0 <= s < |h| && |h| - 1 - size < s
    ensures SlotsHold(size, words[Slot(size, s) := Word(size, s, status)], h[s := status])
  {
    forall t | |h| - 1 - size < t < |h| && t != s ensures Slot(size, t) != Slot(size, s) {
      if Slot(size, t) == Slot(size, s) {
        NearbySlotsDiffer(size, s, t);
      }
    }
    if |h| < size {
      FirstLap(size, s);
    }
  }

  /** A word names at most one sequence of its slot. */
  lemma WordRead(size: int, words: seq<int64>, h: seq<Status>, s: int)
    requires SizeAccepted(size) && size < TWO_63 && SlotsHold(size, words, h) && |h| <= Room(size)
    requires 0 <= s < Room(size) && forall t :: 0 <= t < |h| ==> !h[t].Claimed?
    ensures forall a: Status :: a.Resolved() ==>
              (words[Slot(size, s)] == Word(size, s, a) <==> Reading(size, h, s) == a)
  {
    forall a: Status | a.Resolved()
      ensures words[Slot(size, s)] == Word(size, s, a) <==> Reading(size, h, s) == a
    {
      if 0 <= s < |h| && |h| - 1 - size < s {
        WordsOfOneSequence(size, s, h[s], a);
      } else {
        OtherLap(size, words, h, s, a);
      }
    }
  }

  lemma OtherLap(size: int, words: seq<int64>, h: seq<Status>, s: int, a: Status)
    requires SizeAccepted(size) && size < TWO_63 && SlotsHold(size, words, h) && |h| <= Room(size)
    requires 0 <= s < Room(size) && (s >= |h| || s <= |h| - 1 - size)
    ensures words[Slot(size, s)] != Word(size, s, a)
  {
    var n := Newest(size, |h| - 1, s);
    if s < |h| {
      NewestShares(size, |h| - 1, s);
    } else {
      NewestBelow(size, |h| - 1, s);
    }
    hide Newest, Slot, Lap, Word, SizeAccepted;
    if n >= 0 {
      WordsOfTwoLaps(size, s, n, a, h[n]);
    } else {
      FirstLap(size, n + size);
      PreviousLap(size, n + size);
      WordsOfOneSequence(size, s, a, a);
    }
  }

  class MultiSequencer {
    const size: int64
    const available: array<int64>
    const blocking: bool
    const waiter: Waiter
    var cursor: int64
    var gateCache: int64
    var gates: seq<Sequence>
    var sealed: bool
    var closed: bool
    ghost var history: seq<Status>

    ghost predicate Sized() {
      SizeAccepted(size as int) && available.Length == size as int
    }

    /** The cursor is the last claim, and the words are those of the newest claims. */
    ghost predicate Prepared()
      reads this, available
    {
      && Sized()
      && cursor as int == |history| - 1
      && |history| <= Room(size as int)
      && (forall s :: 0 <= s < |history| ==> !history[s].Claimed?)
      && SlotsHold(size as int, available[..], history)
    }

    /** The cached gate is behind every gate unless it is ahead of the cursor, where it is not trusted. */
    ghost predicate Valid()
      reads this, available, gates
    {
      Prepared() && (gateCache <= cursor ==> Behind(gateCache, gates))
    }

    constructor (size: int64, blocking: bool)
      requires SizeAccepted(size as int)
      ensures Valid() && history == [] && gates == [] && cursor == INITIAL && !sealed && !closed
      ensures this.size == size && this.blocking == blocking && fresh(available) && fresh(waiter)
    {
      this.size, this.blocking := size, blocking;
      available := new int64[size as int](_ => -1);
      waiter := new Waiter();
      cursor, gateCache, gates, sealed, closed := INITIAL, INITIAL, [], false, false;
      history := [];
    }

    /** Opens the slots of a fresh claim, up to the largest int64. */
    method Prepare(low: int64, high: int64)
      requires Sized() && (low <= high ==> 0 <= low && high as int - low as int < size as int)
      modifies available
      ensures low > high ==> available[..] == old(available[..])
      ensures low <= high ==>
                PreparedUpTo(size as int, old(available[..]), available[..], low as int, high as int + 1, high as int)
    {
      if low > high {
        return;
      }
      ghost var words := available[..];
      var sequence := low;
      while true
        invariant low <= sequence <= high
        invariant PreparedUpTo(size as int, words, available[..], low as int, sequence as int, high as int)
        decreases high - sequence
      {
        PrepareStep(size as int, words, available[..], low as int, sequence as int, high as int);
        available[Position(size, sequence)] := Word(size as int, sequence as int, Open);
        if sequence == high {
          return;
        }
        sequence := sequence + 1;
      }
    }

    method MinimumGate(fallback: int64) returns (minimum: int64)
      ensures IsMinimum(gates, fallback, minimum)
    {
      minimum := MinimumSequence(gates, fallback);
    }

    /** `m` is the slowest gate, or the cursor when there is none. */
    ghost predicate Gate(m: int64)
      reads this, gates
    {
      IsMinimum(gates, cursor, m)
    }

    /**
     * There are gates, and they are moved by their own consumers, which acknowledge only what is
     * visible; so no claim has been lapped.
     */
    ghost predicate Gated()
      reads this, gates
    {
      && gates != [] && (forall i :: 0 <= i < |gates| ==> gates[i].value as int <= Visible(history))
      && Unlapped(size as int, history)
    }

    /** A closed ring takes no gates; otherwise the new gates join the list at the cursor. */
    method AddGatingSequences(sequences: seq<Sequence?>)
      requires Valid() && AllDistinct(SignalsOf(sequences))
      modifies this`gates, sequences, Registrants(SignalsOf(sequences)), waiter
      ensures Valid()
      ensures closed ==> gates == old(gates)
      ensures closed ==> Untouched(sequences, old(SignalsOf(sequences)), old(ValuesOf(sequences)))
      ensures !closed ==> gates == old(gates) + Present(sequences)
      ensures !closed ==> JoinedUpTo(sequences, old(SignalsOf(sequences)), |sequences|, cursor, blocking, waiter)
    {
      if closed {
        return;
      }
      ghost var cached := if gateCache <= cursor then gateCache else cursor;
      gates := JoinGates(gates, sequences, cached, cursor, blocking, waiter);
    }

    method RemainingCapacity(ghost gate: int64) returns (n: int)
      requires Valid() && Gate(gate)
      ensures n == Remaining(size as int, history, gate as int)
      ensures Bounds(size as int, history, gate as int, n)
    {
      var consumed := MinimumGate(cursor);
      MinimumIsUnique(gates, cursor, gate, consumed);
      n := size as int - (cursor as int - consumed as int);
    }

    /**
     * The non-blocking claim: exactly what the capacity allows, whatever the cache holds and
     * wherever the gates are.
     */
    method TryNext(count: int64, ghost gate: int64) returns (r: ClaimResult)
      requires Valid() && Gate(gate)
      requires 1 <= count <= size ==> |history| + count as int <= Room(size as int)
      modifies available, this`history, this`cursor, this`gateCache
      ensures Valid() && (old(Gated()) ==> Gated())
      ensures !sealed ==> r == TryClaim(size as int, old(history), gate as int, count as int)
      ensures sealed ==> r == Refused(if 1 <= count <= size then ErrClosed else ErrInvalidClaimSize)
      ensures history == After(old(history), r)
      ensures !sealed ==>
                (r.Granted? <==> 1 <= count <= size && old(cursor) as int + count as int - size as int <= gate as int)
      ensures r.Granted? ==> r.high == cursor as int == old(cursor) as int + count as int
      ensures r.Refused? ==> cursor == old(cursor)
    {
      if count < 1 || count > size {
        return Refused(ErrInvalidClaimSize);
      }
      if sealed {
        return Refused(ErrClosed);
      }
      var next := cursor + count;
      var room := CapacityFor(next - size, gate);
      if !room {
        return Refused(ErrInsufficientCapacity);
      }
      ClaimStaysGated(gate, count as int);
      Commit(next);
      r := Granted(next as int);
    }

    /** A claim within the capacity of gated consumers laps none of them. */
    lemma ClaimStaysGated(gate: int64, n: nat)
      requires Gate(gate) && |history| - 1 + n - size as int <= gate as int
      ensures Gated() ==> Unlapped(size as int, Opened(history, n)) && Visible(Opened(history, n)) == Visible(history)
    {
      VisibleStays(history, n);
      assert gates != [] ==> gate <= gates[0].value;
    }

    /** The cached gate answers when it can; otherwise the gates are read and the cache refreshed. */
    method CapacityFor(wrapPoint: int64, ghost gate: int64) returns (room: bool)
      requires Valid() && Gate(gate) && wrapPoint <= cursor
      modifies this`gateCache
      ensures Valid() && Behind(gateCache, gates)
      ensures room <==> wrapPoint <= gate
    {
      room := true;
      if wrapPoint > gateCache || gateCache > cursor {
        var minimum := MinimumGate(cursor);
        MinimumIsUnique(gates, cursor, gate, minimum);
        gateCache := minimum;
        room := wrapPoint <= minimum;
      }
    }

    /** Winning the cursor: the claim is taken, then its slots are prepared. */
    method Commit(next: int64)
      requires Valid() && Behind(gateCache, gates)
      requires cursor < next && next as int - cursor as int <= size as int && next as int < Room(size as int)
      modifies available, this`history, this`cursor
      ensures Valid() && history == Opened(old(history), next as int - old(cursor) as int)
    {
      var current := cursor;
      cursor := next;
      ghost var words := available[..];
      Prepare(current + 1, next);
      SlotsAfterClaim(size as int, words, available[..], history, next as int - current as int);
      history := Opened(history, next as int - current as int);
    }

    /**
     * Resolves the claims of a range that still own their slot. The first resolution of each
     * sequence wins; lapped sequences, and sequences not claimed yet, are left alone.
     */
    method Resolve(low: int64, high: int64, status: Status)
      requires Valid() && status.Resolved()
      requires low <= high ==> 0 <= low && (high as int) < Room(size as int)
      modifies available, this`history
      ensures Valid() && history == SettleHeld(size as int, old(history), low as int, high as int, status)
      ensures Unlapped(size as int, old(history)) ==> history == Settle(old(history), low as int, high as int, status)
      ensures old(Gated()) ==> Gated()
    {
      ghost var before := history;
      SettleShows(before, low as int, high as int, status);
      if Unlapped(size as int, before) {
        HeldSettles(size as int, before, low as int, high as int, status);
      }
      if low > high {
        assert before == SettleHeld(size as int, before, low as int, high as int, status);
        return;
      }
      SettleHeldNext(size as int, before, low as int, low as int, status);
      var sequence := low;
      while true
        invariant Valid() && low <= sequence <= high
        invariant history == SettleHeld(size as int, before, low as int, sequence as int - 1, status)
        decreases high - sequence
      {
        SettleHeldNext(size as int, before, low as int, sequence as int, status);
        ResolveOne(sequence, status);
        if sequence == high {
          return;
        }
        sequence := sequence + 1;
      }
    }

    /** The compare-and-swap of one resolution. */
    method ResolveOne(sequence: int64, status: Status)
      requires Valid() && status.Resolved() && 0 <= sequence && (sequence as int) < Room(size as int)
      modifies available, this`history
      ensures Valid() && history == SettleHeld(size as int, old(history), sequence as int, sequence as int, status)
    {
      var index, open := Position(size, sequence), Word(size as int, sequence as int, Open);
      ghost var s := sequence as int;
      if s < |history| && |history| - 1 - size as int < s {
        WordsOfOneSequence(size as int, s, history[s], Open);
      } else {
        OtherLap(size as int, available[..], history, s, Open);
      }
      if available[index] == open {
        SlotsAfterSwap(size as int, available[..], history, s, status);
        available[index] := Word(size as int, sequence as int, status);
        history := history[s := status];
      }
    }

    ghost function Seen(s: int): Status
      reads this
    {
      Reading(size as int, history, s)
    }

    /** `resolution`: never the word of another lap. */
    method Resolution(sequence: int64) returns (r: Status)
      requires Valid() && 0 <= sequence && sequence as int < Room(size as int)
      ensures Valid() && history == old(history) && r == Seen(sequence as int) && !r.Claimed?
    {
      var flag, word := sequence as int, available[Position(size, sequence)];
      WordRead(size as int, available[..], history, sequence as int);
      if word == Word(size as int, flag, Published) {
        return Published;
      }
      if word == Word(size as int, flag, Discarded) {
        return Discarded;
      }
      r := Open;
    }

    method IsAvailable(sequence: int64) returns (b: bool)
      requires Valid() && 0 <= sequence && sequence as int < Room(size as int)
      ensures b <==> Seen(sequence as int).Resolved()
    {
      var r := Resolution(sequence);
      b := !r.Open?;
    }

    method IsDiscarded(sequence: int64) returns (b: bool)
      requires Valid() && 0 <= sequence && sequence as int < Room(size as int)
      ensures b <==> Seen(sequence as int).Discarded?
    {
      var r := Resolution(sequence);
      b := r.Discarded?;
    }

    /** The scan stops at `available` or just before the first unresolved sequence. */
    method HighestPublished(lower: int64, available: int64) returns (r: int64)
      requires Valid() && 0 <= lower && available as int < Room(size as int)
      ensures lower > available ==> r == available
      ensures lower <= available ==>
                && lower - 1 <= r <= available
                && (forall s :: lower as int <= s <= r as int ==> Seen(s).Resolved())
                && (r < available ==> !Seen(r as int + 1).Resolved())
      ensures Valid() && history == old(history)
    {
      hide MultiSequencer.Valid;
      if lower > available {
        return available;
      }
      var sequence := lower;
      while true
        invariant Valid() && history == old(history) && lower <= sequence <= available
        invariant forall s :: lower as int <= s < sequence as int ==> Seen(s).Resolved()
        decreases available - sequence
      {
        var resolution := Resolution(sequence);
        if resolution.Open? {
          return sequence - 1;
        }
        if sequence == available {
          return available;
        }
        sequence := sequence + 1;
      }
    }
  }
}
