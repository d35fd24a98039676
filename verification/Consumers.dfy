/**
 * A consumer over a barrier: the waits of `SequenceBarrier.WaitFor`, the scan of
 * `HighestPublished`, and the batch loop shared by `BatchProcessor.Run` and `EventPoller.Poll`.
 * Each move is one atomic access to shared state; the module says what those accesses must
 * return for the consumer to be a reader of the log.
 */
module Consumers {
  import opened Topology
  import opened Log

  /** What a consumer is about to do. Its acknowledged position is kept by the ring. */
  datatype ConsumerPc =
    | Resting
    | Loading(i: nat, low: int)
    | Scanning(k: int, available: int)
    | Chosen(end: int)
    | Backing(end: int, k: int)
    | Testing(end: int, k: int, last: int)
    | Calling(end: int, k: int, last: int, fast: bool)
    | Handling(end: int, k: int, last: int, fast: bool)
    | Storing(end: int)

  datatype ConsumerMove =
    | Load(v: int)
    | Scan(resolved: bool, polling: bool)
    | ReadFlag(flagged: bool)
    | Test(discarded: bool)
    | Call
    | See(v: Event)
    | Change(v: Event)
    | Return(ok: bool)
    | Store

  function Min(a: int, b: int): int {
    if b < a then b else a
  }

  /** The end of the batch chosen from the visible sequences `next..available`. */
  function Limit(next: int, available: int, max: int): int {
    if available - next + 1 > max then next + max - 1 else available
  }

  /** What the wait does with the slowest dependency position it found. */
  function Loaded(cfg: Config, c: nat, q: int, available: int): ConsumerPc
    requires c < |cfg.batch|
  {
    if available < q + 1 then Resting
    else if cfg.multi then Scanning(q + 1, available)
    else Chosen(Limit(q + 1, available, cfg.batch[c]))
  }

  function Advance(end: int, k: int, last: int, fast: bool): ConsumerPc {
    if k == end then Storing(end)
    else if fast then Calling(end, k + 1, last, true) else Testing(end, k + 1, last)
  }

  /** Consumer moves are determined by the program counter. */
  predicate Ready(pc: ConsumerPc, m: ConsumerMove) {
    match m
    case Load(_) => pc.Resting? || pc.Loading?
    case Scan(_, _) => pc.Scanning?
    case ReadFlag(_) => pc.Chosen?
    case Test(_) => pc.Backing? || pc.Testing?
    case Call => pc.Calling?
    case See(_) => pc.Handling?
    case Change(_) => pc.Handling?
    case Return(_) => pc.Handling?
    case Store => pc.Storing?
  }

  /** The program counter after a move of consumer `c` whose acknowledged position is `q`. */
  function Next(cfg: Config, c: nat, q: int, pc: ConsumerPc, m: ConsumerMove): ConsumerPc
    requires c < |cfg.batch| && c < |cfg.deps| && Ready(pc, m)
  {
    match m
    case Load(v) =>
      var low := Found(pc, v);
      var i := if pc.Resting? then 1 else pc.i + 1;
      if i < |cfg.deps[c]| then Loading(i, low) else Loaded(cfg, c, q, low)
    case Scan(resolved, polling) =>
      if !resolved then
        (if polling && pc.k - 1 < q + 1 then Resting else Chosen(Limit(q + 1, pc.k - 1, cfg.batch[c])))
      else if pc.k == pc.available then Chosen(Limit(q + 1, pc.available, cfg.batch[c]))
      else Scanning(pc.k + 1, pc.available)
    case ReadFlag(flagged) =>
      if pc.end < q + 1 then Storing(pc.end)
      else if flagged then Backing(pc.end, pc.end)
      else Calling(pc.end, q + 1, pc.end, true)
    case Test(discarded) =>
      if pc.Backing? then
        (if !discarded then Testing(pc.end, q + 1, pc.k)
         else if pc.k - 1 >= q + 1 then Backing(pc.end, pc.k - 1)
         else Testing(pc.end, q + 1, pc.k - 1))
      else if discarded then Advance(pc.end, pc.k, pc.last, false)
      else Calling(pc.end, pc.k, pc.last, false)
    case Call => Handling(pc.end, pc.k, pc.last, pc.fast)
    case See(_) => pc
    case Change(_) => pc
    case Return(ok) => if ok then Advance(pc.end, pc.k, pc.last, pc.fast) else Resting
    case Store => Resting
  }

  /** The log action a consumer move performs. */
  function ActionOf(c: nat, pc: ConsumerPc, m: ConsumerMove): Action
    requires Ready(pc, m)
  {
    match m
    case Call => Deliver(c, pc.k, pc.k == pc.last)
    case See(v) => Observe(c, pc.k, v)
    case Change(v) => Modify(c, pc.k, v)
    case Return(ok) => if ok then Complete(c) else Abandon(c)
    case Store => Acknowledge(c, pc.end)
    case _ => Silent
  }

  /** What the shared accesses of a move return, in terms of the log. */
  ghost predicate Truthful(cfg: Config, L: LogState, c: nat, pc: ConsumerPc, m: ConsumerMove)
    requires cfg.Valid() && LogInv(cfg, L) && c < |cfg.deps| && Ready(pc, m)
  {
    match m
    case Load(v) =>
      var i := if pc.Resting? then 0 else pc.i;
      if cfg.deps[c] == [] then
        -1 <= v < |L.recs| && (!cfg.multi ==> AllResolved(L.recs, 0, v + 1))
      else i < |cfg.deps[c]| ==> v == L.readers[cfg.deps[c][i]].pos
    case Scan(resolved, _) => 0 <= pc.k < |L.recs| ==> (resolved <==> L.recs[pc.k].status.Resolved())
    case ReadFlag(flagged) => !flagged ==> forall t :: 0 <= t < |L.recs| ==> !L.recs[t].status.Discarded?
    case Test(discarded) => 0 <= pc.k < |L.recs| ==> (discarded <==> L.recs[pc.k].status.Discarded?)
    case See(v) => 0 <= pc.k < |L.recs| ==> v == L.recs[pc.k].body
    case _ => true
  }

  // The invariant of one consumer

  ghost predicate AllDiscarded(recs: seq<Record>, a: int, b: int) {
    forall t :: a <= t < b && 0 <= t < |recs| ==> recs[t].status.Discarded?
  }

  ghost predicate NoneDiscarded(recs: seq<Record>, a: int, b: int) {
    forall t :: a <= t < b && 0 <= t < |recs| ==> !recs[t].status.Discarded?
  }

  ghost predicate Batch(cfg: Config, L: LogState, c: nat, end: int)
    requires c < |L.readers|
  {
    L.readers[c].pos <= end < |L.recs| && Upstream(cfg, L.readers, c, end) && AllResolved(L.recs, 0, end + 1)
  }

  ghost predicate Fresh(r: Reader) {
    r.attempt == [] && !r.handling
  }

  /** The calls made so far in the attempt: those for the live sequences before `k`. */
  ghost predicate Made(L: LogState, c: nat, k: int, last: int)
    requires c < |L.readers|
  {
    var r := L.readers[c];
    -1 <= r.pos && k <= |L.recs| && r.attempt == Deliveries(L.recs, r.pos + 1, k, last)
  }

  ghost predicate Selected(cfg: Config, L: LogState, c: nat, end: int, k: int, last: int)
    requires c < |L.readers|
  {
    var q := L.readers[c].pos;
    -1 <= q < k <= end && Batch(cfg, L, c, end) && last == LastLive(L.recs, q + 1, end + 1)
  }

  ghost predicate ConsumerInv(cfg: Config, L: LogState, c: nat, pc: ConsumerPc)
    requires c < |L.readers| && |L.readers| == |cfg.deps|
  {
    var r := L.readers[c];
    match pc
    case Resting => Fresh(r)
    case Loading(i, low) =>
      && Fresh(r) && 0 < i < |cfg.deps[c]|
      && forall j :: 0 <= j < i && cfg.deps[c][j] < |L.readers| ==> low <= L.readers[cfg.deps[c][j]].pos
    case Scanning(k, available) =>
      && Fresh(r) && cfg.multi
      && -1 <= r.pos < k <= available < |L.recs| && Upstream(cfg, L.readers, c, available)
      && AllResolved(L.recs, 0, k)
    case Chosen(end) => Fresh(r) && Batch(cfg, L, c, end)
    case Backing(end, k) =>
      && Fresh(r) && Batch(cfg, L, c, end)
      && -1 <= r.pos < k <= end && AllDiscarded(L.recs, k + 1, end + 1)
    case Testing(end, k, last) =>
      !r.handling && Selected(cfg, L, c, end, k, last) && Made(L, c, k, last)
    case Calling(end, k, last, fast) =>
      && !r.handling && Selected(cfg, L, c, end, k, last) && Made(L, c, k, last)
      && !L.recs[k].status.Discarded? && (fast ==> NoneDiscarded(L.recs, r.pos + 1, end + 1))
    case Handling(end, k, last, fast) =>
      && r.handling && Selected(cfg, L, c, end, k, last) && Made(L, c, k + 1, last)
      && !L.recs[k].status.Discarded? && (fast ==> NoneDiscarded(L.recs, r.pos + 1, end + 1))
    case Storing(end) =>
      && !r.handling && -1 <= r.pos && Batch(cfg, L, c, end)
      && Made(L, c, end + 1, LastLive(L.recs, r.pos + 1, end + 1))
  }

  lemma {:induction false} LastLiveIs(recs: seq<Record>, a: int, k: int, b: int)
    requires 0 <= a <= k < b <= |recs| || 0 <= a == k + 1 <= b <= |recs|
    requires a <= k ==> !recs[k].status.Discarded?
    requires AllDiscarded(recs, k + 1, b)
    ensures LastLive(recs, a, b) == k
    decreases b - a
  {
    if k < b - 1 {
      LastLiveIs(recs, a, k, b - 1);
    }
  }

  lemma {:induction false} LastLiveStable(recs: seq<Record>, recs': seq<Record>, a: int, b: int)
    requires 0 <= a && b <= |recs| && Evolves(recs, recs') && AllResolved(recs, a, b)
    ensures LastLive(recs', a, b) == LastLive(recs, a, b)
    decreases b - a
  {
    if a < b {
      LastLiveStable(recs, recs', a, b - 1);
    }
  }

  /** The slowest dependency found, once all of them have been read. */
  function Found(pc: ConsumerPc, v: int): int
    requires pc.Resting? || pc.Loading?
  {
    if pc.Resting? then v else Min(pc.low, v)
  }

  /** The last of the dependencies has been read. */
  predicate LastLoad(cfg: Config, c: nat, pc: ConsumerPc)
    requires c < |cfg.deps|
  {
    (pc.Resting? && |cfg.deps[c]| <= 1) || (pc.Loading? && |cfg.deps[c]| <= pc.i + 1)
  }

  lemma FoundUpstream(cfg: Config, L: LogState, c: nat, pc: ConsumerPc, v: int)
    requires cfg.Valid() && LogInv(cfg, L) && c < |cfg.deps| && LastLoad(cfg, c, pc)
    requires ConsumerInv(cfg, L, c, pc) && Truthful(cfg, L, c, pc, Load(v))
    ensures Upstream(cfg, L.readers, c, Found(pc, v))
  {
  }

  lemma FoundBounds(cfg: Config, L: LogState, c: nat, pc: ConsumerPc, v: int)
    requires cfg.Valid() && LogInv(cfg, L) && c < |cfg.deps| && LastLoad(cfg, c, pc)
    requires ConsumerInv(cfg, L, c, pc) && Truthful(cfg, L, c, pc, Load(v))
    requires Upstream(cfg, L.readers, c, Found(pc, v))
    ensures Found(pc, v) < |L.recs| && (!cfg.multi ==> AllResolved(L.recs, 0, Found(pc, v) + 1))
  {
    if cfg.deps[c] != [] {
      var d := cfg.deps[c][0];
      assert Found(pc, v) <= L.readers[d].pos;
      assert ReaderOK(cfg, L.recs, L.readers[d]);
    }
  }

  lemma LoadKept(cfg: Config, L: LogState, c: nat, pc: ConsumerPc, m: ConsumerMove)
    requires cfg.Valid() && LogInv(cfg, L) && c < |cfg.deps|
    requires ConsumerInv(cfg, L, c, pc) && Ready(pc, m) && Truthful(cfg, L, c, pc, m)
    requires m.Load?
    ensures ConsumerInv(cfg, L, c, Next(cfg, c, L.readers[c].pos, pc, m))
  {
    if LastLoad(cfg, c, pc) {
      assert ReaderOK(cfg, L.recs, L.readers[c]);
      FoundUpstream(cfg, L, c, pc, m.v);
      FoundBounds(cfg, L, c, pc, m.v);
      LoadedKept(cfg, L, c, Found(pc, m.v));
    }
  }

  lemma LoadedKept(cfg: Config, L: LogState, c: nat, low: int)
    requires cfg.Valid() && |L.readers| == |cfg.deps| && c < |cfg.deps|
    requires ReaderOK(cfg, L.recs, L.readers[c]) && Fresh(L.readers[c])
    requires Upstream(cfg, L.readers, c, low)
    requires low < |L.recs| && (!cfg.multi ==> AllResolved(L.recs, 0, low + 1))
    ensures ConsumerInv(cfg, L, c, Loaded(cfg, c, L.readers[c].pos, low))
  {
  }

  lemma ScanKept(cfg: Config, L: LogState, c: nat, pc: ConsumerPc, m: ConsumerMove)
    requires cfg.Valid() && LogInv(cfg, L) && c < |cfg.deps|
    requires ConsumerInv(cfg, L, c, pc) && m.Scan? && Ready(pc, m) && Truthful(cfg, L, c, pc, m)
    ensures ConsumerInv(cfg, L, c, Next(cfg, c, L.readers[c].pos, pc, m))
  {
    var q := L.readers[c].pos;
    assert ReaderOK(cfg, L.recs, L.readers[c]);
  }

  lemma ReadFlagKept(cfg: Config, L: LogState, c: nat, pc: ConsumerPc, m: ConsumerMove)
    requires cfg.Valid() && LogInv(cfg, L) && c < |cfg.deps|
    requires ConsumerInv(cfg, L, c, pc) && m.ReadFlag? && Ready(pc, m) && Truthful(cfg, L, c, pc, m)
    ensures ConsumerInv(cfg, L, c, Next(cfg, c, L.readers[c].pos, pc, m))
  {
    var q := L.readers[c].pos;
    assert ReaderOK(cfg, L.recs, L.readers[c]);
    if !m.flagged && pc.end >= q + 1 {
      LastLiveIs(L.recs, q + 1, pc.end, pc.end + 1);
    }
  }

  /** The backward search for the last live sequence. */
  lemma BackingKept(cfg: Config, L: LogState, c: nat, pc: ConsumerPc, discarded: bool)
    requires cfg.Valid() && c < |cfg.deps| && |L.readers| == |cfg.deps| && c < |cfg.batch| && pc.Backing?
    requires ConsumerInv(cfg, L, c, pc) && (discarded <==> L.recs[pc.k].status.Discarded?)
    ensures ConsumerInv(cfg, L, c, Next(cfg, c, L.readers[c].pos, pc, Test(discarded)))
  {
    var q := L.readers[c].pos;
    if !discarded {
      LastLiveIs(L.recs, q + 1, pc.k, pc.end + 1);
    } else if pc.k == q + 1 {
      LastLiveIs(L.recs, q + 1, q, pc.end + 1);
    }
  }

  lemma TestKept(cfg: Config, L: LogState, c: nat, pc: ConsumerPc, m: ConsumerMove)
    requires cfg.Valid() && LogInv(cfg, L) && c < |cfg.deps|
    requires ConsumerInv(cfg, L, c, pc) && m.Test? && Ready(pc, m) && Truthful(cfg, L, c, pc, m)
    ensures ConsumerInv(cfg, L, c, Next(cfg, c, L.readers[c].pos, pc, m))
  {
    assert ReaderOK(cfg, L.recs, L.readers[c]);
    if pc.Backing? {
      BackingKept(cfg, L, c, pc, m.discarded);
    }
  }

  lemma CallPermitted(cfg: Config, L: LogState, c: nat, pc: ConsumerPc)
    requires cfg.Valid() && |L.readers| == |cfg.deps| && c < |cfg.deps|
    requires pc.Calling? && ConsumerInv(cfg, L, c, pc)
    ensures Permitted(cfg, L, Deliver(c, pc.k, pc.k == pc.last))
  {
    var q := L.readers[c].pos;
    assert Upstream(cfg, L.readers, c, pc.k);
    SeqnosOfDeliveries(L.recs, q + 1, pc.k, pc.last);
    assert AllResolved(L.recs, q + 1, pc.k);
    assert L.recs[pc.k].status.Resolved();
  }

  lemma CallKept(cfg: Config, L: LogState, c: nat, pc: ConsumerPc)
    requires cfg.Valid() && |L.readers| == |cfg.deps| && c < |cfg.deps|
    requires pc.Calling? && ConsumerInv(cfg, L, c, pc)
    requires Permitted(cfg, L, Deliver(c, pc.k, pc.k == pc.last))
    ensures ConsumerInv(cfg, Perform(cfg, L, Deliver(c, pc.k, pc.k == pc.last)), c,
                        Handling(pc.end, pc.k, pc.last, pc.fast))
  {
    var L' := Perform(cfg, L, Deliver(c, pc.k, pc.k == pc.last));
    assert Upstream(cfg, L.readers, c, pc.end);
    assert Upstream(cfg, L'.readers, c, pc.end);
    assert Batch(cfg, L', c, pc.end);
    assert Made(L', c, pc.k + 1, pc.last);
  }

  /** A successful call: on to the next sequence of the batch, or to the acknowledgement. */
  lemma CompleteKept(cfg: Config, L: LogState, c: nat, pc: ConsumerPc)
    requires cfg.Valid() && |L.readers| == |cfg.deps| && c < |cfg.deps|
    requires pc.Handling? && ConsumerInv(cfg, L, c, pc)
    ensures ConsumerInv(cfg, Perform(cfg, L, Complete(c)), c, Advance(pc.end, pc.k, pc.last, pc.fast))
  {
    var L' := Perform(cfg, L, Complete(c));
    assert Upstream(cfg, L.readers, c, pc.end);
    assert Upstream(cfg, L'.readers, c, pc.end);
    if pc.k < pc.end && pc.fast {
      assert !L.recs[pc.k + 1].status.Discarded?;
    }
  }

  lemma ReturnKept(cfg: Config, L: LogState, c: nat, pc: ConsumerPc, m: ConsumerMove)
    requires cfg.Valid() && |L.readers| == |cfg.deps| && c < |cfg.deps|
    requires ConsumerInv(cfg, L, c, pc) && Ready(pc, m) && m.Return?
    ensures Permitted(cfg, L, ActionOf(c, pc, m))
    ensures ConsumerInv(cfg, Perform(cfg, L, ActionOf(c, pc, m)), c, Next(cfg, c, L.readers[c].pos, pc, m))
  {
    if m.ok {
      CompleteKept(cfg, L, c, pc);
    }
  }

  lemma StoreKept(cfg: Config, L: LogState, c: nat, pc: ConsumerPc, m: ConsumerMove)
    requires cfg.Valid() && LogInv(cfg, L) && c < |cfg.deps|
    requires ConsumerInv(cfg, L, c, pc) && Ready(pc, m) && Truthful(cfg, L, c, pc, m)
    requires m.Store?
    ensures Permitted(cfg, L, ActionOf(c, pc, m))
    ensures ConsumerInv(cfg, Perform(cfg, L, ActionOf(c, pc, m)), c, Next(cfg, c, L.readers[c].pos, pc, m))
  {
  }

  lemma HandlerKept(cfg: Config, L: LogState, c: nat, pc: ConsumerPc, m: ConsumerMove)
    requires cfg.Valid() && LogInv(cfg, L) && c < |cfg.deps|
    requires ConsumerInv(cfg, L, c, pc) && Ready(pc, m) && Truthful(cfg, L, c, pc, m)
    requires m.See? || m.Change?
    ensures Permitted(cfg, L, ActionOf(c, pc, m))
    ensures ConsumerInv(cfg, Perform(cfg, L, ActionOf(c, pc, m)), c, Next(cfg, c, L.readers[c].pos, pc, m))
  {
    assert Handles(L.readers[c], pc.k);
    ConsumerUndisturbed(cfg, L, ActionOf(c, pc, m), c, pc);
  }

  /**
   * A consumer whose accesses are truthful only ever takes steps the log permits, and keeps its
   * invariant: it delivers the live sequences after its position in order, flags exactly the last
   * one of the batch, and acknowledges the batch it delivered.
   */
  lemma ConsumerKept(cfg: Config, L: LogState, c: nat, pc: ConsumerPc, m: ConsumerMove)
    requires cfg.Valid() && LogInv(cfg, L) && c < |cfg.deps|
    requires ConsumerInv(cfg, L, c, pc) && Ready(pc, m) && Truthful(cfg, L, c, pc, m)
    ensures Permitted(cfg, L, ActionOf(c, pc, m))
    ensures ConsumerInv(cfg, Perform(cfg, L, ActionOf(c, pc, m)), c, Next(cfg, c, L.readers[c].pos, pc, m))
  {
    match m
    case Load(_) => LoadKept(cfg, L, c, pc, m);
    case Scan(_, _) => ScanKept(cfg, L, c, pc, m);
    case ReadFlag(_) => ReadFlagKept(cfg, L, c, pc, m);
    case Test(_) => TestKept(cfg, L, c, pc, m);
    case See(_) => HandlerKept(cfg, L, c, pc, m);
    case Change(_) => HandlerKept(cfg, L, c, pc, m);
    case Call =>
      CallPermitted(cfg, L, c, pc);
      CallKept(cfg, L, c, pc);
    case Return(_) => ReturnKept(cfg, L, c, pc, m);
    case Store => StoreKept(cfg, L, c, pc, m);
  }

  /** The log moved on without consumer `c`: records evolved and positions grew. */
  ghost predicate Around(L: LogState, L': LogState, c: nat)
    requires c < |L.readers|
  {
    && Evolves(L.recs, L'.recs)
    && |L'.readers| == |L.readers| && L'.readers[c] == L.readers[c]
    && forall d :: 0 <= d < |L.readers| ==> L.readers[d].pos <= L'.readers[d].pos
  }

  lemma ConsumerStable(cfg: Config, L: LogState, L': LogState, c: nat, pc: ConsumerPc)
    requires |L.readers| == |cfg.deps| && c < |cfg.deps|
    requires ConsumerInv(cfg, L, c, pc) && Around(L, L', c)
    ensures ConsumerInv(cfg, L', c, pc)
  {
    hide Deliveries, LastLive, Upstream;
    var q := L.readers[c].pos;
    match pc
    case Testing(end, k, last) => BatchStable(cfg, L, L', c, end, k, last);
    case Calling(end, k, last, _) => BatchStable(cfg, L, L', c, end, k, last);
    case Handling(end, k, last, _) => BatchStable(cfg, L, L', c, end, k + 1, last);
    case Storing(end) => BatchStable(cfg, L, L', c, end, end + 1, LastLive(L.recs, q + 1, end + 1));
    case _ => SearchStable(cfg, L, L', c, pc);
  }

  predicate Searching(pc: ConsumerPc) {
    pc.Resting? || pc.Loading? || pc.Scanning? || pc.Chosen? || pc.Backing?
  }

  /** Before the first call of a batch. */
  lemma SearchStable(cfg: Config, L: LogState, L': LogState, c: nat, pc: ConsumerPc)
    requires |L.readers| == |cfg.deps| && c < |cfg.deps| && Searching(pc)
    requires ConsumerInv(cfg, L, c, pc) && Around(L, L', c)
    ensures ConsumerInv(cfg, L', c, pc)
  {
  }

  /** Actions of the log that are not moves of consumer `d` leave its invariant alone. */
  lemma ConsumerUndisturbed(cfg: Config, L: LogState, act: Action, d: nat, pc: ConsumerPc)
    requires cfg.Valid() && |L.readers| == |cfg.deps| && d < |cfg.deps| && Permitted(cfg, L, act)
    requires act.Deliver? || act.Complete? || act.Abandon? || act.Acknowledge? ==> act.c != d
    requires ConsumerInv(cfg, L, d, pc)
    ensures ConsumerInv(cfg, Perform(cfg, L, act), d, pc)
  {
    PerformEvolves(cfg, L, act);
    assert Around(L, Perform(cfg, L, act), d);
    ConsumerStable(cfg, L, Perform(cfg, L, act), d, pc);
  }

  lemma BatchStable(cfg: Config, L: LogState, L': LogState, c: nat, end: int, k: int, last: int)
    requires c < |L.readers| && Around(L, L', c) && Batch(cfg, L, c, end) && -1 <= L.readers[c].pos
    requires k <= end + 1
    ensures Batch(cfg, L', c, end)
    ensures LastLive(L'.recs, L.readers[c].pos + 1, end + 1) == LastLive(L.recs, L.readers[c].pos + 1, end + 1)
    ensures Deliveries(L'.recs, L.readers[c].pos + 1, k, last) == Deliveries(L.recs, L.readers[c].pos + 1, k, last)
  {
    LastLiveStable(L.recs, L'.recs, L.readers[c].pos + 1, end + 1);
    DeliveriesStable(L.recs, L'.recs, L.readers[c].pos + 1, k, last);
  }

  /** The batch a consumer has selected and not yet acknowledged contains `s`. */
  ghost predicate Selects(q: int, pc: ConsumerPc, s: int) {
    match pc
    case Resting => false
    case Loading(_, _) => false
    case Scanning(_, _) => false
    case _ => q < s <= pc.end
  }

  /** A selected batch is no longer than the consumer's limit. */
  predicate WithinLimit(max: int, q: int, pc: ConsumerPc) {
    match pc
    case Resting => true
    case Loading(_, _) => true
    case Scanning(_, _) => true
    case _ => pc.end <= q + max
  }

  lemma LimitKept(cfg: Config, c: nat, q: int, pc: ConsumerPc, m: ConsumerMove)
    requires c < |cfg.batch| && c < |cfg.deps| && cfg.batch[c] >= 1 && Ready(pc, m) && WithinLimit(cfg.batch[c], q, pc)
    ensures WithinLimit(cfg.batch[c], if m.Store? then pc.end else q, Next(cfg, c, q, pc, m))
  {
  }
}
