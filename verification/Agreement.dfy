/** The two producer modes driven side by side by the same calls. */
module Agreement {
  import opened Bits
  import opened Log
  import opened History
  import opened Sequences
  import opened Gating
  import opened MultiSequencers
  import opened SingleSequencers

  /** A call of a history. `Acknowledge` is a consumer storing the position of gate `i`. */
  datatype Call =
    | Claim(count: int64)
    | Publish(low: int64, high: int64)
    | Discard(low: int64, high: int64)
    | Acknowledge(i: nat, to: int64)

  /** What a caller can observe after each call. */
  datatype Observation = Observation(result: ClaimResult, capacity: int, visible: int)

  /** The specification of both modes: a history and the gates, with no cursor, cache or marker. */
  datatype Abstract = Abstract(h: seq<Status>, gates: seq<int>)

  const NOTHING := Refused(ErrInvalidClaimSize)

  /** The slowest of some positions. */
  function Slowest(gates: seq<int>): int
    requires gates != []
  {
    if |gates| == 1 then gates[0]
    else
      var rest := Slowest(gates[..|gates| - 1]);
      if gates[|gates| - 1] < rest then gates[|gates| - 1] else rest
  }

  lemma {:induction false} SlowestIsLeast(gates: seq<int>)
    requires gates != []
    ensures exists i :: 0 <= i < |gates| && gates[i] == Slowest(gates)
    ensures forall i :: 0 <= i < |gates| ==> Slowest(gates) <= gates[i]
  {
    if |gates| == 1 {
      assert gates[0] == Slowest(gates);
    } else {
      var rest := gates[..|gates| - 1];
      SlowestIsLeast(rest);
      var i :| 0 <= i < |rest| && rest[i] == Slowest(rest);
      assert gates[i] == rest[i];
      forall j | 0 <= j < |rest| ensures Slowest(gates) <= gates[j] {
        assert gates[j] == rest[j];
      }
    }
  }

  /**
   * Resolutions come in claim order: a range starts no later than the first unresolved claim, and
   * a publication does not end before the last resolved one, so duplicates are allowed up to that.
   */
  predicate InOrder(h: seq<Status>, low: int, high: int) {
    0 <= low <= Visible(h) + 1 && high < |h|
  }

  /** Calls outside the contract are skipped: claims beyond int64 and resolutions out of order. */
  function Step(size: int, a: Abstract, call: Call): (Abstract, ClaimResult)
    requires a.gates != []
  {
    match call
    case Claim(count) =>
      if 1 <= count as int <= size ==> |a.h| + count as int <= Room(size) then
        var r := TryClaim(size, a.h, Slowest(a.gates), count as int);
        (a.(h := After(a.h, r)), r)
      else (a, NOTHING)
    case Publish(low, high) =>
      if InOrder(a.h, low as int, high as int) && Visible(a.h) <= high as int
      then (a.(h := Settle(a.h, low as int, high as int, Published)), NOTHING) else (a, NOTHING)
    case Discard(low, high) =>
      if InOrder(a.h, low as int, high as int)
      then (a.(h := Settle(a.h, low as int, high as int, Discarded)), NOTHING) else (a, NOTHING)
    case Acknowledge(i, to) =>
      if i < |a.gates| && a.gates[i] < to as int <= Visible(a.h)
      then (a.(gates := a.gates[i := to as int]), NOTHING) else (a, NOTHING)
  }

  /** The state after a history on a ring with `n` gates. */
  function Outcome(size: int, n: nat, calls: seq<Call>): (a: Abstract)
    requires n > 0
    ensures |a.gates| == n
    decreases |calls|
  {
    if calls == [] then Abstract([], seq(n, i => -1))
    else Step(size, Outcome(size, n, calls[..|calls| - 1]), calls[|calls| - 1]).0
  }

  function Seen(size: int, a: Abstract, r: ClaimResult): Observation
    requires a.gates != []
  {
    Observation(r, Remaining(size, a.h, Slowest(a.gates)), Visible(a.h))
  }

  /** What every call of a history shows its caller, by the specification. */
  function Expected(size: int, n: nat, calls: seq<Call>): seq<Observation>
    requires n > 0
  {
    seq(|calls|, i requires 0 <= i < |calls| =>
      var before := Outcome(size, n, calls[..i]);
      Seen(size, Step(size, before, calls[i]).0, Step(size, before, calls[i]).1))
  }

  // The two rings

  ghost function PositionsOf(gs: seq<Sequence>): seq<int>
    reads gs
  {
    seq(|gs|, i requires 0 <= i < |gs| reads gs => gs[i].value as int)
  }

  /** The minimum a scan of the gates finds is the slowest of their positions. */
  lemma MinimumIsSlowest(gs: seq<Sequence>, fallback: int64, gate: int64)
    requires gs != [] && IsMinimum(gs, fallback, gate)
    ensures gate as int == Slowest(PositionsOf(gs))
  {
    var p := PositionsOf(gs);
    SlowestIsLeast(p);
    var i :| 0 <= i < |gs| && gs[i].value == gate;
    assert p[i] == gate as int;
    var j :| 0 <= j < |p| && p[j] == Slowest(p);
    assert p[j] == gs[j].value as int;
  }

  predicate Different(gs: seq<Sequence>) {
    forall i, j :: 0 <= i < j < |gs| ==> gs[i] != gs[j]
  }

  /** Nobody is registered on the gates. */
  ghost predicate Quiet(gs: seq<Sequence>)
    reads gs
  {
    forall i :: 0 <= i < |gs| ==> gs[i].signals == [] && -1 <= gs[i].value
  }

  /** The claims have not lapped the gates. */
  ghost predicate Ahead(gs: seq<Sequence>, k: int)
    reads gs
  {
    forall i :: 0 <= i < |gs| ==> k <= gs[i].value as int
  }

  /** The gates of both rings: distinct sequences, none of them lapped. */
  ghost predicate Shared(s: SingleSequencer, m: MultiSequencer, gs: seq<Sequence>)
    reads s, m, gs
  {
    && s.gates == m.gates == gs && gs != [] && Different(gs) && Quiet(gs)
    && Ahead(gs, m.cursor as int - m.size as int)
  }

  /** The sequencers are in the same state. */
  ghost predicate Alike(s: SingleSequencer, m: MultiSequencer)
    reads s, s.discarded, s.gates, m, m.available, m.gates
  {
    && s.Valid() && m.Valid() && s.Gated() && m.Gated()
    && s.size == m.size && s.history == m.history && !s.sealed && !m.sealed && s.discarded != m.available
  }

  /** Two rings of one size, gated by the same consumers, in the same state. */
  ghost predicate Paired(s: SingleSequencer, m: MultiSequencer, gs: seq<Sequence>)
    reads s, s.discarded, s.gates, m, m.available, m.gates, gs
  {
    Shared(s, m, gs) && Alike(s, m)
  }

  lemma PairedGate(s: SingleSequencer, m: MultiSequencer, gs: seq<Sequence>, gate: int64)
    requires Paired(s, m, gs) && IsMinimum(gs, INITIAL, gate)
    ensures s.Gate(gate) && m.Gate(gate)
    ensures -1 <= gate <= s.cursor && m.cursor as int - m.size as int <= gate as int
  {
    var i :| 0 <= i < |gs| && gs[i].value == gate;
  }

  lemma PairedCursors(s: SingleSequencer, m: MultiSequencer, gs: seq<Sequence>)
    requires Paired(s, m, gs)
    ensures s.cursor as int == Visible(m.history) && -1 <= s.cursor <= s.nextValue == m.cursor
    ensures m.cursor as int == |m.history| - 1 && |m.history| <= Room(m.size as int) && m.size >= 1 && gs != []
  {
    VisibleIs(m.history, s.cursor as int);
  }

  /** The abstract state of a pair. */
  ghost function State(m: MultiSequencer, gs: seq<Sequence>): Abstract
    reads m, gs
  {
    Abstract(m.history, PositionsOf(gs))
  }

  method FindSlowest(s: SingleSequencer, m: MultiSequencer, gs: seq<Sequence>) returns (gate: int64)
    requires Paired(s, m, gs)
    ensures Paired(s, m, gs) && PositionsOf(gs) == old(PositionsOf(gs))
    ensures gs != [] && IsMinimum(gs, INITIAL, gate) && gate as int == Slowest(PositionsOf(gs))
  {
    PairedCursors(s, m, gs);
    hide Paired;
    gate := MinimumSequence(gs, INITIAL);
    MinimumIsSlowest(gs, INITIAL, gate);
  }

  method ClaimAlike(s: SingleSequencer, m: MultiSequencer, ghost gate: int64, count: int64)
      returns (a: ClaimResult, b: ClaimResult)
    requires Alike(s, m) && s.Gate(gate) && m.Gate(gate)
    requires 1 <= count <= m.size ==> |m.history| + count as int <= Room(m.size as int)
    modifies s`history, s`nextValue, s`cachedGate, m`history, m`cursor, m`gateCache, m.available
    ensures Alike(s, m) && m.history == After(old(m.history), a) && m.cursor as int == |m.history| - 1
    ensures a == b == TryClaim(m.size as int, old(m.history), gate as int, count as int)
  {
    hide SingleSequencer.Valid, SingleSequencer.Gated, SingleSequencer.Gate;
    hide MultiSequencer.Valid, MultiSequencer.Gated, MultiSequencer.Gate;
    a := s.TryNext(count, gate);
    b := m.TryNext(count, gate);
    CursorAtEnd(m);
  }

  lemma CursorAtEnd(m: MultiSequencer)
    requires m.Valid()
    ensures m.cursor as int == |m.history| - 1
  {
  }

  method ClaimBoth(s: SingleSequencer, m: MultiSequencer, gs: seq<Sequence>, ghost gate: int64, count: int64)
      returns (a: ClaimResult, b: ClaimResult)
    requires Paired(s, m, gs) && IsMinimum(gs, INITIAL, gate)
    requires 1 <= count <= m.size ==> |m.history| + count as int <= Room(m.size as int)
    modifies s`history, s`nextValue, s`cachedGate, m`history, m`cursor, m`gateCache, m.available
    ensures Paired(s, m, gs) && m.history == After(old(m.history), a)
    ensures a == b == TryClaim(m.size as int, old(m.history), gate as int, count as int)
  {
    PairedGate(s, m, gs, gate);
    StaysAhead(m, gs, gate, count);
    hide Alike, IsMinimum, SingleSequencer.Gate, MultiSequencer.Gate, Ahead, Different, Quiet;
    a, b := ClaimAlike(s, m, gate, count);
  }

  lemma StaysAhead(m: MultiSequencer, gs: seq<Sequence>, gate: int64, n: int64)
    requires m.Valid() && IsMinimum(gs, INITIAL, gate) && gs != [] && Ahead(gs, m.cursor as int - m.size as int)
    ensures var h := After(m.history, TryClaim(m.size as int, m.history, gate as int, n as int));
            Ahead(gs, |h| - 1 - m.size as int)
  {
  }

  method PublishBoth(s: SingleSequencer, m: MultiSequencer, gs: seq<Sequence>, low: int64, high: int64)
    requires Paired(s, m, gs) && 0 <= low && low - 1 <= s.cursor <= high <= s.nextValue
    modifies s`cursor, s`history, m`history, m.available
    ensures Paired(s, m, gs) && m.history == Settle(old(m.history), low as int, high as int, Published)
  {
    s.Publish(low, high);
    m.Resolve(low, high, Published);
  }

  method DiscardBoth(s: SingleSequencer, m: MultiSequencer, gs: seq<Sequence>, low: int64, high: int64)
    requires Paired(s, m, gs) && 0 <= low && low - 1 <= s.cursor && high <= s.nextValue
    modifies s`cursor, s`history, s.discarded, m`history, m.available
    ensures Paired(s, m, gs) && m.history == Settle(old(m.history), low as int, high as int, Discarded)
  {
    s.Discard(low, high);
    m.Resolve(low, high, Discarded);
  }

  /** One gate moves forward. */
  method Advance(gs: seq<Sequence>, i: nat, to: int64)
    requires i < |gs| && Different(gs) && Quiet(gs) && gs[i].value < to
    modifies gs[i]
    ensures Quiet(gs) && PositionsOf(gs) == old(PositionsOf(gs))[i := to as int]
    ensures forall j :: 0 <= j < |gs| ==> gs[j].value == if j == i then to else old(gs[j].value)
  {
    gs[i].Store(to);
  }

  method AcknowledgeBoth(s: SingleSequencer, m: MultiSequencer, gs: seq<Sequence>, i: nat, to: int64)
    requires Paired(s, m, gs) && i < |gs| && gs[i].value < to <= s.cursor
    modifies gs[i]
    ensures Paired(s, m, gs) && PositionsOf(gs) == old(PositionsOf(gs))[i := to as int] && m.history == old(m.history)
  {
    PairedCursors(s, m, gs);
    hide SingleSequencer.Frontier, MultiSequencer.Prepared, Visible, PositionsOf, Quiet, Different;
    Advance(gs, i, to);
  }

  method View(s: SingleSequencer, m: MultiSequencer, gs: seq<Sequence>, gate: int64) returns (vs: int64, vm: int64)
    requires Paired(s, m, gs) && IsMinimum(gs, INITIAL, gate)
    ensures Paired(s, m, gs) && vs == vm == s.cursor && PositionsOf(gs) == old(PositionsOf(gs))
  {
    PairedGate(s, m, gs, gate);
    PairedCursors(s, m, gs);
    hide SingleSequencer.Valid, MultiSequencer.Valid, Visible;
    vs, vm := s.cursor, m.cursor;
    if gate < m.cursor {
      vs := s.HighestPublished(gate + 1, s.cursor);
      vm := m.HighestPublished(gate + 1, m.cursor);
    }
    SameView(s, m, gs, gate, vm);
  }

  lemma SameView(s: SingleSequencer, m: MultiSequencer, gs: seq<Sequence>, gate: int64, v: int64)
    requires Paired(s, m, gs) && -1 <= gate <= s.cursor
    requires m.cursor as int - m.size as int <= gate as int
    requires gate == m.cursor ==> v == m.cursor
    requires gate < m.cursor ==>
               && gate <= v <= m.cursor
               && (forall k :: gate as int + 1 <= k <= v as int ==> m.Seen(k).Resolved())
               && (v < m.cursor ==> !m.Seen(v as int + 1).Resolved())
    ensures v == s.cursor
  {
    if v < m.cursor {
      assert m.Seen(v as int + 1) == m.history[v as int + 1];
    }
    if gate < v {
      assert m.Seen(v as int) == m.history[v as int];
    }
  }

  method Capacities(s: SingleSequencer, m: MultiSequencer, gs: seq<Sequence>, ghost gate: int64)
      returns (cs: int, cm: int)
    requires Paired(s, m, gs) && IsMinimum(gs, INITIAL, gate)
    ensures Paired(s, m, gs) && IsMinimum(gs, INITIAL, gate) && PositionsOf(gs) == old(PositionsOf(gs))
    ensures cs == cm == Remaining(m.size as int, m.history, gate as int)
  {
    PairedGate(s, m, gs, gate);
    hide SingleSequencer.Valid, MultiSequencer.Valid, SingleSequencer.Gated, MultiSequencer.Gated, IsMinimum;
    cs := s.RemainingCapacity(gate);
    cm := m.RemainingCapacity(gate);
  }

  /** Each mode answers from its own state. */
  method Observe(s: SingleSequencer, m: MultiSequencer, gs: seq<Sequence>, a: ClaimResult, b: ClaimResult)
      returns (x: Observation, y: Observation)
    requires Paired(s, m, gs) && a == b
    ensures x == y == Seen(m.size as int, State(m, gs), a)
    ensures Paired(s, m, gs) && State(m, gs) == old(State(m, gs))
  {
    PairedCursors(s, m, gs);
    hide Paired, IsMinimum, Visible, Slowest, PositionsOf;
    var gate := FindSlowest(s, m, gs);
    var cs, cm := Capacities(s, m, gs, gate);
    var vs, vm := View(s, m, gs, gate);
    x, y := Observation(a, cs, vs as int), Observation(b, cm, vm as int);
  }

  /** One call on both rings. */
  method Drive(s: SingleSequencer, m: MultiSequencer, gs: seq<Sequence>, call: Call)
      returns (x: Observation, y: Observation)
    requires Paired(s, m, gs)
    modifies s`history, s`nextValue, s`cachedGate, s`cursor, s.discarded
    modifies m`history, m`cursor, m`gateCache, m.available, gs
    ensures Paired(s, m, gs) && State(m, gs) == Step(m.size as int, old(State(m, gs)), call).0
    ensures x == y == Seen(m.size as int, State(m, gs), Step(m.size as int, old(State(m, gs)), call).1)
  {
    var a, b := Perform(s, m, gs, call);
    x, y := Observe(s, m, gs, a, b);
  }

  method Perform(s: SingleSequencer, m: MultiSequencer, gs: seq<Sequence>, call: Call)
      returns (a: ClaimResult, b: ClaimResult)
    requires Paired(s, m, gs)
    modifies s`history, s`nextValue, s`cachedGate, s`cursor, s.discarded
    modifies m`history, m`cursor, m`gateCache, m.available, gs
    ensures Paired(s, m, gs)
    ensures a == b && (State(m, gs), a) == Step(m.size as int, old(State(m, gs)), call)
  {
    hide Paired, Step;
    if call.Claim? {
      a, b := PerformClaim(s, m, gs, call);
    } else if call.Acknowledge? {
      a, b := PerformAcknowledge(s, m, gs, call);
    } else {
      a, b := PerformResolution(s, m, gs, call);
    }
  }

  method PerformClaim(s: SingleSequencer, m: MultiSequencer, gs: seq<Sequence>, call: Call)
      returns (a: ClaimResult, b: ClaimResult)
    requires Paired(s, m, gs) && call.Claim?
    modifies s`history, s`nextValue, s`cachedGate, s`cursor, s.discarded
    modifies m`history, m`cursor, m`gateCache, m.available, gs
    ensures Paired(s, m, gs)
    ensures a == b && (State(m, gs), a) == Step(m.size as int, old(State(m, gs)), call)
  {
    a, b := NOTHING, NOTHING;
    PairedCursors(s, m, gs);
    hide Paired, Slowest, Visible, IsMinimum, PositionsOf, TryClaim;
    if !(1 <= call.count <= m.size) || m.cursor as int + 1 + call.count as int <= Room(m.size as int) {
      var gate := FindSlowest(s, m, gs);
      a, b := ClaimBoth(s, m, gs, gate, call.count);
    }
  }

  method PerformAcknowledge(s: SingleSequencer, m: MultiSequencer, gs: seq<Sequence>, call: Call)
      returns (a: ClaimResult, b: ClaimResult)
    requires Paired(s, m, gs) && call.Acknowledge?
    modifies s`history, s`nextValue, s`cachedGate, s`cursor, s.discarded
    modifies m`history, m`cursor, m`gateCache, m.available, gs
    ensures Paired(s, m, gs)
    ensures a == b && (State(m, gs), a) == Step(m.size as int, old(State(m, gs)), call)
  {
    a, b := NOTHING, NOTHING;
    PairedCursors(s, m, gs);
    hide Alike, Shared, Slowest, Visible;
    if call.i < |gs| && gs[call.i].value < call.to <= s.cursor {
      AcknowledgeBoth(s, m, gs, call.i, call.to);
    }
  }

  method PerformResolution(s: SingleSequencer, m: MultiSequencer, gs: seq<Sequence>, call: Call)
      returns (a: ClaimResult, b: ClaimResult)
    requires Paired(s, m, gs) && (call.Publish? || call.Discard?)
    modifies s`history, s`nextValue, s`cachedGate, s`cursor, s.discarded
    modifies m`history, m`cursor, m`gateCache, m.available, gs
    ensures Paired(s, m, gs)
    ensures a == b && (State(m, gs), a) == Step(m.size as int, old(State(m, gs)), call)
  {
    a, b := NOTHING, NOTHING;
    PairedCursors(s, m, gs);
    hide Alike, Shared, Slowest, Visible, Settle;
    if 0 <= call.low && call.low - 1 <= s.cursor && call.high <= s.nextValue {
      if call.Discard? {
        DiscardBoth(s, m, gs, call.low, call.high);
      } else if s.cursor <= call.high {
        PublishBoth(s, m, gs, call.low, call.high);
      }
    }
  }

  lemma {:induction false} AllPresent(gs: seq<Sequence>)
    ensures Present(gs) == gs
  {
    if gs != [] {
      AllPresent(gs[1..]);
    }
  }

  method NewGates(n: nat) returns (gs: seq<Sequence>)
    ensures |gs| == n && Different(gs)
    ensures forall i :: 0 <= i < n ==> fresh(gs[i]) && gs[i].signals == []
  {
    gs := [];
    for k := 0 to n
      invariant |gs| == k && Different(gs)
      invariant forall i :: 0 <= i < k ==> fresh(gs[i]) && gs[i].signals == []
    {
      var g := new Sequence(INITIAL);
      gs := gs + [g];
    }
  }

  method Setup(size: int64, n: nat) returns (s: SingleSequencer, m: MultiSequencer, gs: seq<Sequence>)
    requires SizeAccepted(size as int) && n > 0
    ensures Paired(s, m, gs) && m.size == size && State(m, gs) == Abstract([], seq(n, i => -1))
    ensures fresh(s) && fresh(s.discarded) && fresh(m) && fresh(m.available)
    ensures forall i :: 0 <= i < |gs| ==> fresh(gs[i])
  {
    s := new SingleSequencer(size, false);
    m := new MultiSequencer(size, false);
    gs := NewGates(n);
    AddBoth(s, m, gs);
    StartsAlike(s, m, gs);
  }

  ghost predicate Silent(signals: seq<seq<Waiter>>) {
    forall k :: 0 <= k < |signals| ==> signals[k] == []
  }

  lemma NoRegistrants(gs: seq<Sequence>)
    requires forall i :: 0 <= i < |gs| ==> gs[i].signals == []
    ensures Silent(SignalsOf(gs)) && AllDistinct(SignalsOf(gs)) && Registrants(SignalsOf(gs)) == {}
  {
  }

  /** Gates added without blocking waits start at the cursor, and nobody is registered on them. */
  ghost predicate Added(gs: seq<Sequence>, cursor: int64)
    reads gs
  {
    forall i :: 0 <= i < |gs| ==> gs[i].signals == [] && gs[i].value == cursor
  }

  lemma JoinedQuietly(gs: seq<Sequence>, before: seq<seq<Waiter>>, cursor: int64, waiter: Waiter)
    requires Silent(before) && JoinedUpTo(gs, before, |gs|, cursor, false, waiter)
    ensures Added(gs, cursor)
  {
    var all: seq<Sequence?> := gs;
    forall i | 0 <= i < |gs| ensures gs[i].signals == [] && gs[i].value == cursor {
      assert all[i] == gs[i];
    }
  }

  method AddBoth(s: SingleSequencer, m: MultiSequencer, gs: seq<Sequence>)
    requires s.Valid() && m.Valid() && s.history == m.history == [] && s.gates == m.gates == []
    requires !s.blocking && !m.blocking && !s.closed && !m.closed && s.cachedGate == INITIAL
    requires forall i :: 0 <= i < |gs| ==> gs[i].signals == []
    modifies s`gates, m`gates, gs, s.waiter, m.waiter
    ensures s.Valid() && m.Valid() && s.gates == m.gates == gs && Added(gs, INITIAL)
  {
    AddSingle(s, gs);
    AddMulti(m, gs);
  }

  method AddSingle(s: SingleSequencer, gs: seq<Sequence>)
    requires s.Valid() && s.history == [] && s.gates == [] && !s.blocking && !s.closed && s.cachedGate == INITIAL
    requires forall i :: 0 <= i < |gs| ==> gs[i].signals == []
    modifies s`gates, gs, s.waiter
    ensures s.Valid() && s.gates == gs && Added(gs, INITIAL)
  {
    AllPresent(gs);
    NoRegistrants(gs);
    assert s.cursor == INITIAL;
    ghost var before := SignalsOf(gs);
    hide SingleSequencer.Valid, SignalsOf, Registrants, AllDistinct, JoinedUpTo, Silent, Added, Present;
    s.AddGatingSequences(gs);
    JoinedQuietly(gs, before, INITIAL, s.waiter);
  }

  method AddMulti(m: MultiSequencer, gs: seq<Sequence>)
    requires m.Valid() && m.history == [] && m.gates == [] && !m.blocking && !m.closed
    requires forall i :: 0 <= i < |gs| ==> gs[i].signals == []
    modifies m`gates, gs, m.waiter
    ensures m.Valid() && m.gates == gs && Added(gs, INITIAL)
  {
    AllPresent(gs);
    NoRegistrants(gs);
    assert m.cursor == INITIAL;
    ghost var before := SignalsOf(gs);
    hide MultiSequencer.Valid, SignalsOf, Registrants, AllDistinct, JoinedUpTo, Silent, Added, Present;
    m.AddGatingSequences(gs);
    JoinedQuietly(gs, before, INITIAL, m.waiter);
  }

  lemma StartsAlike(s: SingleSequencer, m: MultiSequencer, gs: seq<Sequence>)
    requires s.Valid() && m.Valid() && s.history == m.history == [] && s.gates == m.gates == gs && gs != []
    requires s.size == m.size && !s.sealed && !m.sealed && s.discarded != m.available
    requires Different(gs) && Added(gs, INITIAL)
    ensures Paired(s, m, gs) && State(m, gs) == Abstract([], seq(|gs|, i => -1))
  {
  }

  /**
   * In every sequential history with in-order resolution, on any number of gates, the two modes
   * are indistinguishable, and both answer as the specification does, as if they had no gate
   * cache: a claim of `n` is granted exactly when `1 <= n <= capacity`, and capacities and visible
   * prefixes agree after every call.
   */
  method Lockstep(size: int64, n: nat, calls: seq<Call>) returns (single: seq<Observation>, multi: seq<Observation>)
    requires SizeAccepted(size as int) && n > 0
    ensures single == multi == Expected(size as int, n, calls)
  {
    var s, m, gs := Setup(size, n);
    single, multi := [], [];
    for i := 0 to |calls|
      invariant Paired(s, m, gs) && m.size == size
      invariant State(m, gs) == Outcome(size as int, n, calls[..i])
      invariant single == multi == Expected(size as int, n, calls)[..i]
    {
      var x, y := Drive(s, m, gs, calls[i]);
      ExpectedStep(size as int, n, calls, i);
      single, multi := single + [x], multi + [y];
    }
    assert calls[..|calls|] == calls;
  }

  lemma OutcomeStep(size: int, n: nat, calls: seq<Call>, i: nat)
    requires n > 0 && i < |calls|
    ensures Outcome(size, n, calls[..i + 1]) == Step(size, Outcome(size, n, calls[..i]), calls[i]).0
  {
    assert calls[..i + 1][..i] == calls[..i];
  }

  lemma ExpectedStep(size: int, n: nat, calls: seq<Call>, i: nat)
    requires n > 0 && i < |calls|
    ensures var (a, r) := Step(size, Outcome(size, n, calls[..i]), calls[i]);
            && Outcome(size, n, calls[..i + 1]) == a
            && Expected(size, n, calls)[..i + 1] == Expected(size, n, calls)[..i] + [Seen(size, a, r)]
  {
    hide Step, Outcome, Seen, Visible, Slowest;
    OutcomeStep(size, n, calls, i);
  }

  ghost predicate GatesBehind(a: Abstract) {
    forall g :: 0 <= g < |a.gates| ==> a.gates[g] <= Visible(a.h)
  }

  lemma StepStaysBehind(size: int, a: Abstract, call: Call)
    requires size >= 1 && a.gates != [] && GatesBehind(a)
    ensures GatesBehind(Step(size, a, call).0)
  {
    hide Slowest, VisibleFrom;
    match call
    case Claim(count) =>
      var r := TryClaim(size, a.h, Slowest(a.gates), count as int);
      if r.Granted? {
        VisibleStays(a.h, count as int);
      }
    case Publish(low, high) => SettleShows(a.h, low as int, high as int, Published);
    case Discard(low, high) => SettleShows(a.h, low as int, high as int, Discarded);
    case Acknowledge(_, _) =>
  }

  /** No gate ever passes the visible prefix. */
  lemma {:induction false} OutcomeStaysBehind(size: int, n: nat, calls: seq<Call>, i: nat)
    requires size >= 1 && n > 0 && i <= |calls|
    ensures GatesBehind(Outcome(size, n, calls[..i]))
  {
    if i > 0 {
      OutcomeStaysBehind(size, n, calls, i - 1);
      OutcomeStep(size, n, calls, i - 1);
      StepStaysBehind(size, Outcome(size, n, calls[..i - 1]), calls[i - 1]);
    }
  }

  lemma GrantedWithin(size: int, a: Abstract, n: int)
    requires a.gates != [] && GatesBehind(a)
    ensures TryClaim(size, a.h, Slowest(a.gates), n).Granted? <==> 1 <= n <= Remaining(size, a.h, Slowest(a.gates))
  {
    SlowestIsLeast(a.gates);
    var i :| 0 <= i < |a.gates| && a.gates[i] == Slowest(a.gates);
  }

  lemma ShownBefore(size: int, n: nat, calls: seq<Call>, i: nat)
    requires n > 0 && 0 < i < |calls|
    ensures var a := Outcome(size, n, calls[..i]);
            Expected(size, n, calls)[i - 1].capacity == Remaining(size, a.h, Slowest(a.gates))
  {
    hide Outcome, Slowest, Visible, Remaining;
    OutcomeStep(size, n, calls, i - 1);
  }

  /** A claim succeeds exactly when it fits the capacity that the call before it showed. */
  lemma GrantedExactlyWithin(size: int, n: nat, calls: seq<Call>, i: nat)
    requires size >= 1 && n > 0 && 0 < i < |calls| && calls[i].Claim?
    requires 1 <= calls[i].count as int <= size ==>
               |Outcome(size, n, calls[..i]).h| + calls[i].count as int <= Room(size)
    ensures Expected(size, n, calls)[i].result.Granted?
            <==> 1 <= calls[i].count as int <= Expected(size, n, calls)[i - 1].capacity
  {
    var a := Outcome(size, n, calls[..i]);
    OutcomeStaysBehind(size, n, calls, i);
    GrantedWithin(size, a, calls[i].count as int);
    ShownBefore(size, n, calls, i);
    hide Outcome, Slowest, Visible, TryClaim, Remaining, GatesBehind;
    assert Expected(size, n, calls)[i].result == TryClaim(size, a.h, Slowest(a.gates), calls[i].count as int);
  }
}
