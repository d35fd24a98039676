/**
 * The two shapes of sequence loops over wrapping int64 counters: `for s := low; s <= end; s++` in
 * `processBatch` and `PublishN`, and the prepare, resolve and scan loops, which leave on `s == high`.
 */
module Loops {
  import opened Bits

  const MIN: int := -0x8000_0000_0000_0000
  const MAX: int := 0x7FFF_FFFF_FFFF_FFFF

  /** `s++` on an int64. */
  function Incremented(s: int): int {
    ToInt64(ToUint64(s) + 1)
  }

  /** The counter after `n` turns. */
  function Counter(low: int, n: nat): int {
    if n == 0 then low else Incremented(Counter(low, n - 1))
  }

  predicate IsInt64(s: int) {
    MIN <= s <= MAX
  }

  lemma IncrementWraps(s: int)
    requires IsInt64(s)
    ensures Incremented(s) == if s == MAX then MIN else s + 1
  {
    if s >= 0 {
      assert ToUint64(s) == s;
    } else {
      assert ToUint64(s) == s + TWO_64;
    }
  }

  lemma {:induction false} CounterStaysInt64(low: int, n: nat)
    requires IsInt64(low)
    ensures IsInt64(Counter(low, n))
  {
    if n > 0 {
      CounterStaysInt64(low, n - 1);
    }
  }

  /** Short of the largest int64 the counter only counts. */
  lemma {:induction false} CounterCounts(low: int, n: nat)
    requires IsInt64(low) && low + n <= MAX
    ensures Counter(low, n) == low + n
  {
    if n > 0 {
      CounterCounts(low, n - 1);
      IncrementWraps(low + n - 1);
    }
  }

  /** The guard `s <= end` fails after some number of turns if and only if `end` has a successor. */
  lemma GuardFailsExactlyWhen(low: int, end: int)
    requires IsInt64(low) && IsInt64(end)
    ensures (exists n: nat :: Counter(low, n) > end) <==> end < MAX
  {
    if end < MAX {
      var n := if low > end then 0 else end + 1 - low;
      CounterCounts(low, n);
      assert Counter(low, n) > end;
    } else {
      forall n: nat ensures Counter(low, n) <= end {
        CounterStaysInt64(low, n);
      }
    }
  }

  /** A batch of the one sequence that has no successor: the loop goes on from the smallest int64. */
  lemma LastSequenceNeverEnds(n: nat)
    ensures Counter(MAX, 1) == MIN
    ensures Counter(MAX, n) <= MAX
  {
    assert Counter(MAX, 1) == Incremented(Counter(MAX, 0));
    IncrementWraps(MAX);
    CounterStaysInt64(MAX, n);
  }

  /** Leaving on equality visits exactly `low..high`, the largest int64 included. */
  lemma EqualityLoopEnds(low: int, high: int)
    requires IsInt64(low) && IsInt64(high) && low <= high
    ensures Counter(low, high - low) == high
    ensures forall n :: 0 <= n <= high - low ==> Counter(low, n) == low + n
  {
    forall n | 0 <= n <= high - low ensures Counter(low, n) == low + n {
      CounterCounts(low, n);
    }
  }
}
