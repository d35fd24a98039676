/** Consumers in code: the batch loop, handler calls and `EventPoller.Poll`. */
module Processors {
  import opened Bits
  import opened Topology
  import opened Log
  import opened History
  import opened RingBuffers

  datatype Outcome = Handled | Erred | Panicked

  /** What a handler does: its outcome, and the event as it leaves it. */
  datatype Reaction = Reaction(outcome: Outcome, event: Event)

  /** A handler; its reaction may depend on every call made before. */
  type Handler = (seq<Delivery>, Event, int, bool) -> Reaction

  /** `HandlerError` and `HandlerPanic` carry the failing sequence. */
  datatype BatchResult = Done | HandlerError(seqno: int) | HandlerPanic(seqno: int)

  function Verdict(outcome: Outcome, seqno: int): BatchResult {
    match outcome
    case Handled => Done
    case Erred => HandlerError(seqno)
    case Panicked => HandlerPanic(seqno)
  }

  /** The calls of an attempt, how it ended, and the events it left behind. */
  datatype Attempted = Attempted(calls: seq<Delivery>, result: BatchResult, entries: seq<Event>)

  /**
   * The specification of a batch attempt from `k` on: the live sequences are handled in order, the
   * call for `last` is flagged, and the first failure ends the attempt after its call.
   */
  function Attempt(handler: Handler, entries: seq<Event>, h: seq<Status>, past: seq<Delivery>, k: nat,
                     end: int, last: int)
      : Attempted
    requires |entries| >= 1 && end < |h|
    decreases end + 1 - k
  {
    if k > end then Attempted([], Done, entries)
    else if h[k].Discarded? then Attempt(handler, entries, h, past, k + 1, end, last)
    else
      var call := Delivery(k, k == last);
      var reaction := handler(past, entries[Slot(|entries|, k)], k, k == last);
      var entries' := entries[Slot(|entries|, k) := reaction.event];
      var r := Verdict(reaction.outcome, k);
      if r.Done? then
        var rest := Attempt(handler, entries', h, past + [call], k + 1, end, last);
        Attempted([call] + rest.calls, rest.result, rest.entries)
      else Attempted([call], r, entries')
  }

  /** A history as records, for the delivery functions of the log. */
  function Records(h: seq<Status>): seq<Record> {
    seq(|h|, i requires 0 <= i < |h| => Record(0, h[i], 0))
  }

  /** The last live sequence of a batch. */
  function Last(h: seq<Status>, next: int, end: int): int
    requires 0 <= next && end < |h|
  {
    LastLive(Records(h), next, end + 1)
  }

  /** The calls for the live sequences of `next..k-1`, flagged at the last one of the batch. */
  function Calls(h: seq<Status>, next: int, k: int, end: int): seq<Delivery>
    requires 0 <= next && k <= |h| && end < |h|
  {
    Deliveries(Records(h), next, k, Last(h, next, end))
  }

  /**
   * A completed attempt has made exactly the calls of its batch; a failed one exactly those up to
   * and including the call that failed.
   */
  ghost predicate Delivered(h: seq<Status>, calls: seq<Delivery>, r: BatchResult, next: int, end: int)
    requires 0 <= next <= end + 1 && end < |h|
  {
    if r.Done? then calls == Calls(h, next, end + 1, end)
    else next <= r.seqno <= end && !h[r.seqno].Discarded? && calls == Calls(h, next, r.seqno + 1, end)
  }

  lemma {:induction false} AttemptsDeliverPrefixes(handler: Handler, entries: seq<Event>, h: seq<Status>,
                                                   past: seq<Delivery>, next: nat, k: nat, end: int)
    requires |entries| >= 1 && end < |h| && next <= k <= end + 1
    ensures var a := Attempt(handler, entries, h, past, k, end, Last(h, next, end));
            Delivered(h, Calls(h, next, k, end) + a.calls, a.result, next, end)
            && (a.result.Done? || a.result.seqno >= k)
    decreases end + 1 - k
  {
    if k <= end {
      var call := Delivery(k, k == Last(h, next, end));
      assert Calls(h, next, k + 1, end) == Calls(h, next, k, end) + (if h[k].Discarded? then [] else [call]);
      if h[k].Discarded? {
        AttemptsDeliverPrefixes(handler, entries, h, past, next, k + 1, end);
        assert Calls(h, next, k, end) + [] == Calls(h, next, k, end);
      } else {
        var event := handler(past, entries[Slot(|entries|, k)], k, call.last).event;
        var entries' := entries[Slot(|entries|, k) := event];
        AttemptsDeliverPrefixes(handler, entries', h, past + [call], next, k + 1, end);
        var rest := Attempt(handler, entries', h, past + [call], k + 1, end, Last(h, next, end));
        assert Calls(h, next, k, end) + ([call] + rest.calls) == Calls(h, next, k + 1, end) + rest.calls;
      }
    } else {
      assert Calls(h, next, k, end) + [] == Calls(h, next, k, end);
    }
  }

  // What the handler's own reactions say

  /** The reaction to call `i`, made with its own flag, on the event its slot held before. */
  function ReactionTo(handler: Handler, entries: seq<Event>, past: seq<Delivery>, calls: seq<Delivery>, i: nat)
      : Reaction
    requires |entries| >= 1 && i < |calls|
  {
    handler(past + calls[..i], entries[Slot(|entries|, calls[i].seqno)], calls[i].seqno, calls[i].last)
  }

  /**
   * The result is what the handler's reactions make it: done exactly when every call was handled,
   * and otherwise every call but the last was, and the last one failed in the way reported.
   */
  ghost predicate Follows(handler: Handler, entries: seq<Event>, past: seq<Delivery>, calls: seq<Delivery>,
                          r: BatchResult)
    requires |entries| >= 1
  {
    && (r.Done? <==> forall i :: 0 <= i < |calls| ==> ReactionTo(handler, entries, past, calls, i).outcome.Handled?)
    && (!r.Done? ==>
          && calls != []
          && (forall i :: 0 <= i < |calls| - 1 ==> ReactionTo(handler, entries, past, calls, i).outcome.Handled?)
          && var n := |calls| - 1;
             match ReactionTo(handler, entries, past, calls, n).outcome
             case Handled => false
             case Erred => r == HandlerError(calls[n].seqno)
             case Panicked => r == HandlerPanic(calls[n].seqno))
  }

  /** Each called event is as its handler left it, and every other event as it was. */
  ghost predicate Handed(handler: Handler, entries: seq<Event>, past: seq<Delivery>, calls: seq<Delivery>,
                         after: seq<Event>)
    requires |entries| >= 1
  {
    && |after| == |entries|
    && (forall i :: 0 <= i < |calls| ==>
          after[Slot(|entries|, calls[i].seqno)] == ReactionTo(handler, entries, past, calls, i).event)
    && (forall x :: 0 <= x < |entries| && (forall i :: 0 <= i < |calls| ==> Slot(|entries|, calls[i].seqno) != x)
          ==> after[x] == entries[x])
  }

  /**
   * What is promised of an attempt at `next..end`: it makes the calls of the batch, up to the one
   * that fails, and its result and the events it leaves are what the handler's reactions make them.
   */
  ghost predicate Ran(handler: Handler, entries: seq<Event>, past: seq<Delivery>, h: seq<Status>, next: int, end: int,
                      calls: seq<Delivery>, r: BatchResult, after: seq<Event>)
  {
    && |entries| >= 1 && 0 <= next <= end + 1 && end < |h|
    && Delivered(h, calls, r, next, end)
    && Follows(handler, entries, past, calls, r)
    && Handed(handler, entries, past, calls, after)
  }

  predicate InBatch(calls: seq<Delivery>, k: int, end: int) {
    forall i :: 0 <= i < |calls| ==> k <= calls[i].seqno <= end
  }

  /** A later call of the batch uses another slot, so an earlier handler does not change what it gets. */
  lemma LaterReaction(handler: Handler, entries: seq<Event>, past: seq<Delivery>, call: Delivery, calls: seq<Delivery>,
                      event: Event, end: int, i: nat)
    requires |entries| >= 1 && InBatch(calls, call.seqno + 1, end) && end < call.seqno + |entries| && i < |calls|
    ensures Slot(|entries|, calls[i].seqno) != Slot(|entries|, call.seqno)
    ensures ReactionTo(handler, entries, past, [call] + calls, i + 1)
            == ReactionTo(handler, entries[Slot(|entries|, call.seqno) := event], past + [call], calls, i)
  {
    if Slot(|entries|, calls[i].seqno) == Slot(|entries|, call.seqno) {
      NearbySlotsDiffer(|entries|, calls[i].seqno, call.seqno);
    }
    var all := [call] + calls;
    assert all[..i + 1] == [call] + calls[..i];
    assert past + all[..i + 1] == past + [call] + calls[..i];
  }

  lemma FirstReaction(handler: Handler, entries: seq<Event>, past: seq<Delivery>, call: Delivery, calls: seq<Delivery>)
    requires |entries| >= 1
    ensures ReactionTo(handler, entries, past, [call] + calls, 0) == ReactionTo(handler, entries, past, [call], 0)
  {
    assert ([call] + calls)[..0] == [call][..0];
  }

  /** One more call in front, handled, on a slot the others do not use. */
  lemma FollowsMore(handler: Handler, entries: seq<Event>, past: seq<Delivery>, call: Delivery, calls: seq<Delivery>,
                    r: BatchResult, event: Event, end: int)
    requires |entries| >= 1 && InBatch(calls, call.seqno + 1, end) && end < call.seqno + |entries|
    requires ReactionTo(handler, entries, past, [call], 0).outcome.Handled?
    requires Follows(handler, entries[Slot(|entries|, call.seqno) := event], past + [call], calls, r)
    ensures Follows(handler, entries, past, [call] + calls, r)
  {
    var entries', all := entries[Slot(|entries|, call.seqno) := event], [call] + calls;
    FirstReaction(handler, entries, past, call, calls);
    forall i | 0 <= i < |calls|
      ensures ReactionTo(handler, entries, past, all, i + 1) == ReactionTo(handler, entries', past + [call], calls, i)
    {
      LaterReaction(handler, entries, past, call, calls, event, end, i);
    }
    hide ReactionTo, InBatch, Slot;
    forall i | 0 < i < |all|
      ensures ReactionTo(handler, entries, past, all, i) == ReactionTo(handler, entries', past + [call], calls, i - 1)
    {
      assert ReactionTo(handler, entries, past, all, (i - 1) + 1)
             == ReactionTo(handler, entries', past + [call], calls, i - 1);
    }
    if r.Done? {
    } else {
      var n := |calls| - 1;
      assert ReactionTo(handler, entries, past, all, n + 1) == ReactionTo(handler, entries', past + [call], calls, n);
    }
    if forall i :: 0 <= i < |all| ==> ReactionTo(handler, entries, past, all, i).outcome.Handled? {
      forall i | 0 <= i < |calls| ensures ReactionTo(handler, entries', past + [call], calls, i).outcome.Handled? {
        assert ReactionTo(handler, entries, past, all, i + 1).outcome.Handled?;
      }
    }
  }

  lemma HandedMore(handler: Handler, entries: seq<Event>, past: seq<Delivery>, call: Delivery, calls: seq<Delivery>,
                   after: seq<Event>, end: int)
    requires |entries| >= 1 && InBatch(calls, call.seqno + 1, end) && end < call.seqno + |entries|
    requires var event := ReactionTo(handler, entries, past, [call], 0).event;
             Handed(handler, entries[Slot(|entries|, call.seqno) := event], past + [call], calls, after)
    ensures Handed(handler, entries, past, [call] + calls, after)
  {
    var event := ReactionTo(handler, entries, past, [call], 0).event;
    var n, x, all := |entries|, Slot(|entries|, call.seqno), [call] + calls;
    var entries' := entries[x := event];
    FirstReaction(handler, entries, past, call, calls);
    forall i | 0 <= i < |calls|
      ensures Slot(n, calls[i].seqno) != x
      ensures ReactionTo(handler, entries, past, all, i + 1) == ReactionTo(handler, entries', past + [call], calls, i)
    {
      LaterReaction(handler, entries, past, call, calls, event, end, i);
    }
    hide ReactionTo, InBatch, Slot;
    forall i | 0 <= i < |all| ensures after[Slot(n, all[i].seqno)] == ReactionTo(handler, entries, past, all, i).event {
      if i == 0 {
        assert after[x] == entries'[x];
      } else {
        assert all[i] == calls[i - 1];
        assert ReactionTo(handler, entries, past, all, (i - 1) + 1)
               == ReactionTo(handler, entries', past + [call], calls, i - 1);
      }
    }
    forall y | 0 <= y < n && (forall i :: 0 <= i < |all| ==> Slot(n, all[i].seqno) != y)
      ensures after[y] == entries[y]
    {
      assert Slot(n, all[0].seqno) != y;
      forall i | 0 <= i < |calls| ensures Slot(n, calls[i].seqno) != y {
        assert Slot(n, all[i + 1].seqno) != y;
      }
    }
  }

  /** An attempt's result, and the events it leaves, are what the handler's reactions make them. */
  lemma {:induction false} AttemptFollows(handler: Handler, entries: seq<Event>, h: seq<Status>, past: seq<Delivery>,
                                          k: nat, end: int, last: int)
    requires |entries| >= 1 && end < |h| && k <= end + 1 && end < k + |entries|
    ensures var a := Attempt(handler, entries, h, past, k, end, last);
            && InBatch(a.calls, k, end) && Follows(handler, entries, past, a.calls, a.result)
            && Handed(handler, entries, past, a.calls, a.entries)
    decreases end + 1 - k
  {
    if k <= end {
      if h[k].Discarded? {
        AttemptFollows(handler, entries, h, past, k + 1, end, last);
      } else {
        var call := Delivery(k, k == last);
        assert past + [call][..0] == past;
        var reaction := ReactionTo(handler, entries, past, [call], 0);
        var entries' := entries[Slot(|entries|, k) := reaction.event];
        if reaction.outcome.Handled? {
          AttemptFollows(handler, entries', h, past + [call], k + 1, end, last);
          var rest := Attempt(handler, entries', h, past + [call], k + 1, end, last);
          FollowsMore(handler, entries, past, call, rest.calls, rest.result, reaction.event, end);
          HandedMore(handler, entries, past, call, rest.calls, rest.entries, end);
        }
      }
    }
  }

  lemma LastStep(h: seq<Status>, next: int, k: int)
    requires 0 <= next <= k < |h|
    ensures Last(h, next, k) == if h[k].Discarded? then Last(h, next, k - 1) else k
    ensures Last(h, next, next - 1) == next - 1
  {
  }

  /** The sequences of a batch are resolved and still in their slots. */
  ghost predicate Selectable(ring: RingBuffer, next: int, end: int)
    reads if ring.sequencer.Single? then {ring.sequencer.s} else {}
    reads if ring.sequencer.Multi? then {ring.sequencer.m} else {}
  {
    && 0 <= next && next <= end + 1 && end < |ring.Past()|
    && forall k :: next <= k <= end ==> ring.Held(k) && ring.Past()[k].Resolved()
  }

  /** One handler call on the event in its slot, with errors and recovered panics as results. */
  method HandleEvent(ring: RingBuffer, handler: Handler, past: seq<Delivery>, seqno: int64, endOfBatch: bool)
      returns (r: BatchResult)
    requires ring.Sized() && seqno >= 0
    modifies ring.entries
    ensures var i := Slot(ring.entries.Length, seqno as int);
            var reaction := handler(past, old(ring.entries[i]), seqno as int, endOfBatch);
            ring.entries[..] == old(ring.entries[..])[i := reaction.event]
            && r == Verdict(reaction.outcome, seqno as int)
  {
    var event := ring.Get(seqno);
    var reaction := handler(past, event, seqno as int, endOfBatch);
    ring.entries[Position(ring.size, seqno)] := reaction.event;
    match reaction.outcome {
      case Handled => r := Done;
      case Erred => r := HandlerError(seqno as int);
      case Panicked => r := HandlerPanic(seqno as int);
    }
  }

  /**
   * The batch loop. The fast path, taken while the discard flag is clear, and the discard-aware
   * path make the same calls, come to the same result and leave the same events: those of the
   * specification.
   */
  method ProcessBatch(ring: RingBuffer, handler: Handler, past: seq<Delivery>, next: int64, end: int64)
      returns (calls: seq<Delivery>, r: BatchResult)
    requires ring.Valid() && end < MAX_INT64 && Selectable(ring, next as int, end as int)
    modifies ring.entries
    ensures var last := Last(ring.Past(), next as int, end as int);
            Attempted(calls, r, ring.entries[..])
            == Attempt(handler, old(ring.entries[..]), ring.Past(), past, next as int, end as int, last)
    ensures Ran(handler, old(ring.entries[..]), past, ring.Past(), next as int, end as int, calls, r, ring.entries[..])
  {
    ValidIsSized(ring);
    AttemptIsRight(ring, handler, past, next as int, end as int);
    assert !ring.discarded ==> NoDiscards(ring.Past());
    hide RingBuffer.Valid, RingBuffer.Sized, Attempt, Ran, Last;
    if !ring.discarded {
      calls, r := FastLoop(ring, handler, past, ring.Past(), next, end);
    } else {
      var last := LastDelivered(ring, next, end);
      calls, r := SlowLoop(ring, handler, past, next, end, last);
    }
  }

  /** The specification of an attempt at a selected batch meets what is promised of it. */
  lemma AttemptIsRight(ring: RingBuffer, handler: Handler, past: seq<Delivery>, next: int, end: int)
    requires ring.Valid() && Selectable(ring, next, end) && ring.entries.Length >= 1
    ensures var a := Attempt(handler, ring.entries[..], ring.Past(), past, next, end, Last(ring.Past(), next, end));
            Ran(handler, ring.entries[..], past, ring.Past(), next, end, a.calls, a.result, a.entries)
  {
    var h, entries := ring.Past(), ring.entries[..];
    if next <= end {
      assert ring.Held(next);
    }
    AttemptFollows(handler, entries, h, past, next, end, Last(h, next, end));
    AttemptsDeliverPrefixes(handler, entries, h, past, next, next, end);
    var a := Attempt(handler, entries, h, past, next, end, Last(h, next, end));
    assert Calls(h, next, next, end) + a.calls == a.calls;
  }

  /** What is left to do, on the events as they are, after the calls made so far completes the attempt. */
  ghost predicate Resumes(whole: Attempted, handler: Handler, entries: seq<Event>, h: seq<Status>, past: seq<Delivery>,
                          end: int, last: int, calls: seq<Delivery>, k: nat)
    requires |entries| >= 1 && end < |h|
  {
    var rest := Attempt(handler, entries, h, past + calls, k, end, last);
    whole == Attempted(calls + rest.calls, rest.result, rest.entries)
  }

  lemma ResumeStep(whole: Attempted, handler: Handler, entries: seq<Event>, h: seq<Status>, past: seq<Delivery>,
                   end: int, last: int, calls: seq<Delivery>, k: nat)
    requires |entries| >= 1 && end < |h| && k <= end && Resumes(whole, handler, entries, h, past, end, last, calls, k)
    ensures h[k].Discarded? ==> Resumes(whole, handler, entries, h, past, end, last, calls, k + 1)
    ensures !h[k].Discarded? ==>
              var reaction := handler(past + calls, entries[Slot(|entries|, k)], k, k == last);
              var entries' := entries[Slot(|entries|, k) := reaction.event];
              var r, calls' := Verdict(reaction.outcome, k), calls + [Delivery(k, k == last)];
              if r.Done? then Resumes(whole, handler, entries', h, past, end, last, calls', k + 1)
              else whole == Attempted(calls', r, entries')
  {
    if !h[k].Discarded? {
      var call := Delivery(k, k == last);
      assert past + (calls + [call]) == past + calls + [call];
      var event := handler(past + calls, entries[Slot(|entries|, k)], k, k == last).event;
      var rest := Attempt(handler, entries[Slot(|entries|, k) := event], h, past + calls + [call], k + 1, end, last);
      assert calls + ([call] + rest.calls) == calls + [call] + rest.calls;
    }
  }

  lemma ResumeStart(handler: Handler, entries: seq<Event>, h: seq<Status>, past: seq<Delivery>, next: nat,
                    end: int, last: int)
    requires |entries| >= 1 && end < |h|
    ensures var whole := Attempt(handler, entries, h, past, next, end, last);
            Resumes(whole, handler, entries, h, past, end, last, [], next)
  {
    assert past + [] == past;
    var all := Attempt(handler, entries, h, past, next, end, last);
    assert [] + all.calls == all.calls;
  }

  lemma ResumeEnd(whole: Attempted, handler: Handler, entries: seq<Event>, h: seq<Status>, past: seq<Delivery>,
                  end: int, last: int, calls: seq<Delivery>)
    requires |entries| >= 1 && -1 <= end < |h| && Resumes(whole, handler, entries, h, past, end, last, calls, end + 1)
    ensures whole == Attempted(calls, Done, entries)
  {
    assert calls + [] == calls;
  }

  method FastLoop(ring: RingBuffer, handler: Handler, past: seq<Delivery>, ghost h: seq<Status>,
                    next: int64, end: int64)
      returns (calls: seq<Delivery>, r: BatchResult)
    requires ring.Sized()
    requires 0 <= next && end < MAX_INT64 && next as int <= end as int + 1 <= |h| && NoDiscards(h)
    modifies ring.entries
    ensures var last := Last(h, next as int, end as int);
            Attempted(calls, r, ring.entries[..])
            == Attempt(handler, old(ring.entries[..]), h, past, next as int, end as int, last)
  {
    ghost var last := end as int;
    ghost var whole := Attempt(handler, ring.entries[..], h, past, next as int, end as int, last);
    if next <= end {
      LastStep(h, next as int, end as int);
    }
    calls, r := [], Done;
    ResumeStart(handler, ring.entries[..], h, past, next as int, end as int, last);
    hide Attempt, Resumes;
    var seqno := next;
    while seqno <= end
      invariant next <= seqno && seqno - 1 <= end && r.Done?
      invariant Resumes(whole, handler, ring.entries[..], h, past, end as int, last, calls, seqno as int)
    {
      ResumeStep(whole, handler, ring.entries[..], h, past, end as int, last, calls, seqno as int);
      r := HandleEvent(ring, handler, past + calls, seqno, seqno == end);
      calls := calls + [Delivery(seqno as int, seqno == end)];
      if !r.Done? {
        return;
      }
      seqno := seqno + 1;
    }
    ResumeEnd(whole, handler, ring.entries[..], h, past, end as int, last, calls);
  }

  /** The backward search for the last live sequence of the batch. */
  method LastDelivered(ring: RingBuffer, next: int64, end: int64) returns (last: int64)
    requires ring.Valid() && Selectable(ring, next as int, end as int)
    ensures last as int == Last(ring.Past(), next as int, end as int)
  {
    hide RingBuffer.Valid;
    ghost var h := ring.Past();
    last := end;
    while last >= next
      invariant next - 1 <= last <= end
      invariant Last(h, next as int, last as int) == Last(h, next as int, end as int)
    {
      LastStep(h, next as int, last as int);
      var discarded := ring.IsDiscarded(last);
      if !discarded {
        break;
      }
      last := last - 1;
    }
  }

  /** One turn of the discard-aware loop: a call, unless the sequence was discarded. */
  method HandleLive(ring: RingBuffer, handler: Handler, past: seq<Delivery>, seqno: int64, endOfBatch: bool)
      returns (called: bool, r: BatchResult)
    requires ring.Valid() && ring.Held(seqno as int)
    modifies ring.entries
    ensures ring.Valid() && ring.Past() == old(ring.Past())
    ensures called <==> !ring.Past()[seqno as int].Discarded?
    ensures !called ==> r.Done? && ring.entries[..] == old(ring.entries[..])
    ensures called ==>
              var i := Slot(ring.entries.Length, seqno as int);
              var reaction := handler(past, old(ring.entries[i]), seqno as int, endOfBatch);
              ring.entries[..] == old(ring.entries[..])[i := reaction.event]
              && r == Verdict(reaction.outcome, seqno as int)
  {
    var discarded := ring.IsDiscarded(seqno);
    called, r := !discarded, Done;
    if !discarded {
      r := HandleEvent(ring, handler, past, seqno, endOfBatch);
    }
  }

  method SlowLoop(ring: RingBuffer, handler: Handler, past: seq<Delivery>, next: int64, end: int64, last: int64)
      returns (calls: seq<Delivery>, r: BatchResult)
    requires ring.Valid() && end < MAX_INT64 && Selectable(ring, next as int, end as int)
    modifies ring.entries
    ensures Attempted(calls, r, ring.entries[..])
            == Attempt(handler, old(ring.entries[..]), ring.Past(), past, next as int, end as int, last as int)
  {
    ValidIsSized(ring);
    ghost var h := ring.Past();
    ghost var whole := Attempt(handler, ring.entries[..], h, past, next as int, end as int, last as int);
    calls, r := [], Done;
    ResumeStart(handler, ring.entries[..], h, past, next as int, end as int, last as int);
    hide RingBuffer.Valid, RingBuffer.Sized, Attempt, Resumes, Verdict;
    var seqno := next;
    while seqno <= end
      invariant ring.Valid() && ring.Past() == h && next <= seqno && seqno - 1 <= end && r.Done?
      invariant Resumes(whole, handler, ring.entries[..], h, past, end as int, last as int, calls, seqno as int)
    {
      ResumeStep(whole, handler, ring.entries[..], h, past, end as int, last as int, calls, seqno as int);
      var called;
      called, r := HandleLive(ring, handler, past + calls, seqno, seqno == last);
      if called {
        calls := calls + [Delivery(seqno as int, seqno == last)];
        if !r.Done? {
          return;
        }
      }
      seqno := seqno + 1;
    }
    ResumeEnd(whole, handler, ring.entries[..], h, past, end as int, last as int, calls);
  }
}
