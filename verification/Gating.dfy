/** The gate list of a sequencer in code: adding gates, with their waiter registrations. */
module Gating {
  import opened Bits
  import opened Sequences

  /** The sequences of a list that are not nil. */
  function Present(sequences: seq<Sequence?>): seq<Sequence> {
    if sequences == [] then []
    else if sequences[0] == null then Present(sequences[1..])
    else [sequences[0]] + Present(sequences[1..])
  }

  lemma {:induction false} PresentExtends(sequences: seq<Sequence?>, x: Sequence?)
    ensures Present(sequences + [x]) == Present(sequences) + (if x == null then [] else [x])
  {
    if sequences != [] {
      assert (sequences + [x])[1..] == sequences[1..] + [x];
      PresentExtends(sequences[1..], x);
    }
  }

  lemma {:induction false} PresentMembers(sequences: seq<Sequence?>, x: Sequence)
    ensures x in Present(sequences) <==> x in sequences
  {
    if sequences != [] {
      PresentMembers(sequences[1..], x);
    }
  }

  lemma {:induction false} NonePresent(sequences: seq<Sequence?>)
    requires Present(sequences) == []
    ensures forall k :: 0 <= k < |sequences| ==> sequences[k] == null
  {
    if sequences != [] {
      NonePresent(sequences[1..]);
    }
  }

  /** The waiters registered on each sequence of a list. */
  ghost function SignalsOf(sequences: seq<Sequence?>): (r: seq<seq<Waiter>>)
    reads sequences
    ensures |r| == |sequences|
  {
    seq(|sequences|, k requires 0 <= k < |sequences| reads sequences =>
      if sequences[k] == null then [] else sequences[k].signals)
  }

  ghost function ValuesOf(sequences: seq<Sequence?>): seq<int64>
    reads sequences
  {
    seq(|sequences|, k requires 0 <= k < |sequences| reads sequences =>
      if sequences[k] == null then INITIAL else sequences[k].value)
  }

  ghost predicate Untouched(sequences: seq<Sequence?>, signals: seq<seq<Waiter>>, values: seq<int64>)
    reads sequences
  {
    SignalsOf(sequences) == signals && ValuesOf(sequences) == values
  }

  /** A cached minimum is behind every gate. */
  ghost predicate Behind(cached: int64, gates: seq<Sequence>)
    reads gates
  {
    forall i :: 0 <= i < |gates| ==> cached <= gates[i].value
  }

  function Registrants(signals: seq<seq<Waiter>>): set<Waiter> {
    set k, w | 0 <= k < |signals| && w in signals[k] :: w
  }

  /** Waiters are registered at most once on each sequence, as `addSignal` sees to. */
  predicate AllDistinct(signals: seq<seq<Waiter>>) {
    forall k :: 0 <= k < |signals| ==> Distinct(signals[k])
  }

  /** A signal list that has the waiter registered, when waits are blocking. */
  function With(signals: seq<Waiter>, blocking: bool, waiter: Waiter): seq<Waiter> {
    if !blocking || waiter in signals then signals else signals + [waiter]
  }

  /** The gates before `i` start at the cursor with their registrations; the others may follow. */
  ghost predicate JoinedUpTo(sequences: seq<Sequence?>, before: seq<seq<Waiter>>, i: int, cursor: int64, blocking: bool,
                             waiter: Waiter)
    reads sequences
  {
    && |before| == |sequences|
    && forall k :: 0 <= k < |sequences| && sequences[k] != null ==>
         if k < i then sequences[k].value == cursor && sequences[k].signals == With(before[k], blocking, waiter)
         else sequences[k].signals == before[k] || sequences[k].signals == With(before[k], blocking, waiter)
  }

  lemma WithIsDistinct(signals: seq<Waiter>, blocking: bool, waiter: Waiter)
    requires Distinct(signals)
    ensures Distinct(With(signals, blocking, waiter))
    ensures With(With(signals, blocking, waiter), blocking, waiter) == With(signals, blocking, waiter)
  {
  }

  /**
   * The list with the new gates behind the old ones. Each new gate starts at the cursor, so it
   * holds nothing back that was claimed before, and in blocking mode has the ring's waiter
   * registered once. Other rings' waiters stay registered.
   */
  method JoinGates(gates: seq<Sequence>, sequences: seq<Sequence?>, ghost cached: int64, cursor: int64, blocking: bool,
                   waiter: Waiter)
      returns (next: seq<Sequence>)
    requires AllDistinct(SignalsOf(sequences)) && cached <= cursor
    modifies sequences, Registrants(SignalsOf(sequences)), waiter
    ensures next == gates + Present(sequences)
    ensures JoinedUpTo(sequences, old(SignalsOf(sequences)), |sequences|, cursor, blocking, waiter)
    ensures old(Behind(cached, gates)) ==> Behind(cached, next)
  {
    ghost var before := SignalsOf(sequences);
    next := gates;
    for i := 0 to |sequences|
      invariant next == gates + Present(sequences[..i])
      invariant JoinedUpTo(sequences, before, i, cursor, blocking, waiter)
      invariant old(Behind(cached, gates)) ==> Behind(cached, next)
    {
      assert sequences[..i + 1] == sequences[..i] + [sequences[i]];
      PresentExtends(sequences[..i], sequences[i]);
      if sequences[i] != null {
        Covered(before, i, blocking, waiter, sequences[i].signals);
        JoinAt(sequences, i, before, cursor, blocking, waiter);
        next := next + [sequences[i]];
      }
    }
    assert sequences[..|sequences|] == sequences;
  }

  lemma Covered(before: seq<seq<Waiter>>, i: nat, blocking: bool, waiter: Waiter, signals: seq<Waiter>)
    requires i < |before| && (signals == before[i] || signals == With(before[i], blocking, waiter))
    ensures forall w: object :: w in signals ==> w in Registrants(before) || w == waiter
  {
  }

  /** A repeated sequence had the same registrations everywhere. */
  ghost predicate Agreeing(sequences: seq<Sequence?>, before: seq<seq<Waiter>>) {
    && |before| == |sequences|
    && forall j, k :: 0 <= j < |sequences| && 0 <= k < |sequences| && sequences[j] == sequences[k]
           ==> before[j] == before[k]
  }

  method JoinAt(sequences: seq<Sequence?>, i: nat, ghost before: seq<seq<Waiter>>, cursor: int64, blocking: bool,
                waiter: Waiter)
    requires i < |sequences| && sequences[i] != null && Agreeing(sequences, before) && AllDistinct(before)
    requires JoinedUpTo(sequences, before, i, cursor, blocking, waiter)
    modifies sequences[i], sequences[i].signals
    ensures JoinedUpTo(sequences, before, i + 1, cursor, blocking, waiter) && sequences[i].value == cursor
  {
    WithIsDistinct(before[i], blocking, waiter);
    sequences[i].Store(cursor);
    if blocking {
      sequences[i].AddSignal(waiter);
    }
  }
}
