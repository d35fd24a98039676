/** Logical positions, the producer waiters registered on them, and minimum scans. */
module Sequences {
  import opened Bits

  const INITIAL: int64 := -1

  /** `producerWaiter` in blocking mode; `generation` stands for the channel that is current. */
  class Waiter {
    var generation: nat

    constructor ()
      ensures generation == 0
    {
      generation := 0;
    }

    method Prepare() returns (prepared: nat)
      ensures prepared == generation
    {
      prepared := generation;
    }

    method SignalAll()
      modifies this
      ensures generation == old(generation) + 1
    {
      generation := generation + 1;
    }
  }

  predicate Distinct(ws: seq<Waiter>) {
    forall i, j :: 0 <= i < j < |ws| ==> ws[i] != ws[j]
  }

  class Sequence {
    var value: int64
    var signals: seq<Waiter>

    constructor (initial: int64)
      ensures value == initial && signals == []
    {
      value := initial;
      signals := [];
    }

    /** Value first, signals after: every registered waiter's channel closes exactly once. */
    method Store(v: int64)
      requires Distinct(signals)
      modifies this`value, signals
      ensures value == v
      ensures forall w :: w in signals ==> w.generation == old(w.generation) + 1
    {
      value := v;
      SignalAll();
    }

    method Add(delta: int64) returns (v: int64)
      requires Distinct(signals)
      requires -0x8000_0000_0000_0000 <= value as int + delta as int <= MAX_INT64 as int
      modifies this`value, signals
      ensures v == value == old(value) + delta
      ensures forall w :: w in signals ==> w.generation == old(w.generation) + 1
    {
      value := value + delta;
      v := value;
      SignalAll();
    }

    /** A failed compare-and-swap changes nothing and signals nobody. */
    method CompareAndSwap(expected: int64, replacement: int64) returns (swapped: bool)
      requires Distinct(signals)
      modifies this`value, signals
      ensures swapped <==> old(value) == expected
      ensures value == if swapped then replacement else old(value)
      ensures forall w :: w in signals ==> w.generation == old(w.generation) + (if swapped then 1 else 0)
    {
      swapped := value == expected;
      if swapped {
        value := replacement;
        SignalAll();
      }
    }

    method SignalAll()
      requires Distinct(signals)
      modifies signals
      ensures forall w :: w in signals ==> w.generation == old(w.generation) + 1
    {
      for i := 0 to |signals|
        invariant forall j :: 0 <= j < i ==> signals[j].generation == old(signals[j].generation) + 1
        invariant forall j :: i <= j < |signals| ==> signals[j].generation == old(signals[j].generation)
      {
        assert forall j :: 0 <= j < |signals| && j != i ==> signals[j] != signals[i];
        signals[i].SignalAll();
      }
    }

    /** Registers a waiter once, however often it is added. */
    method AddSignal(w: Waiter)
      requires Distinct(signals)
      modifies this`signals
      ensures Distinct(signals)
      ensures signals == if w in old(signals) then old(signals) else old(signals) + [w]
    {
      for i := 0 to |signals|
        invariant w !in signals[..i] && signals == old(signals)
      {
        if signals[i] == w {
          return;
        }
      }
      assert signals[..|signals|] == signals;
      signals := signals + [w];
    }

    /** Removes exactly the registration of `w`, keeping the others and their order. */
    method RemoveSignal(w: Waiter)
      requires Distinct(signals)
      modifies this`signals
      ensures Distinct(signals) && w !in signals
      ensures w !in old(signals) ==> signals == old(signals)
      ensures w in old(signals) ==>
                exists i :: 0 <= i < |old(signals)| && old(signals)[i] == w
                  && signals == old(signals)[..i] + old(signals)[i + 1..]
    {
      var i := 0;
      while i < |signals| && signals[i] != w
        invariant 0 <= i <= |signals| && w !in signals[..i] && signals == old(signals)
      {
        i := i + 1;
      }
      if i < |signals| {
        signals := signals[..i] + signals[i + 1..];
      } else {
        assert signals[..i] == signals;
      }
    }
  }

  /** The slowest of some sequences, and `fallback` when there are none. */
  ghost predicate IsMinimum(sequences: seq<Sequence>, fallback: int64, m: int64)
    reads sequences
  {
    if sequences == [] then m == fallback
    else (forall i :: 0 <= i < |sequences| ==> m <= sequences[i].value)
         && exists i :: 0 <= i < |sequences| && sequences[i].value == m
  }

  method MinimumSequence(sequences: seq<Sequence>, fallback: int64) returns (minimum: int64)
    ensures IsMinimum(sequences, fallback, minimum)
  {
    if |sequences| == 0 {
      return fallback;
    }
    minimum := sequences[0].value;
    for i := 1 to |sequences|
      invariant forall j :: 0 <= j < i ==> minimum <= sequences[j].value
      invariant exists j :: 0 <= j < i && sequences[j].value == minimum
    {
      if sequences[i].value < minimum {
        minimum := sequences[i].value;
      }
    }
  }

  /** `sequenceGroup.Load`: a barrier's view of the consumers it depends on. */
  method LoadGroup(sequences: seq<Sequence>) returns (minimum: int64)
    ensures IsMinimum(sequences, INITIAL, minimum)
  {
    minimum := MinimumSequence(sequences, INITIAL);
  }

  lemma MinimumIsUnique(sequences: seq<Sequence>, fallback: int64, m: int64, n: int64)
    requires IsMinimum(sequences, fallback, m) && IsMinimum(sequences, fallback, n)
    ensures m == n
  {
  }
}
