/**
 * The single-producer ring as a concurrent machine: one producer with a private claim position,
 * a published cursor, and discard markers that are never cleared. Its consumers are those of the
 * multi-producer ring, and it refines the same log.
 */
module SingleRing {
  import opened Topology
  import opened Log
  import opened Consumers
  import opened Window

  datatype ProducerPc =
    | Free
    | Top(n: int, blocking: bool)
    | Checked(n: int, blocking: bool)
    | Retry(n: int)
    | Gating(n: int, blocking: bool, i: nat, low: int)
    | Waiting(n: int)
    | Publishing(high: int)
    | Flagging(low: int, high: int)
    | Sifting(k: int, high: int)
    | Marking(k: int, high: int)
    | Showing(k: int, high: int)

  /** The cursor a consumer loaded for the window test of `IsDiscarded`, if it is inside one. */
  datatype Probe = Out | In(cursor: int)

  /**
   * `next` and `cached` are private to the producer; `handed` is the last sequence it has passed
   * to a resolution call, so it may still write the claims after it.
   */
  datatype State = State(
    next: int,
    cached: int,
    handed: int,
    pc: ProducerPc,
    cursor: int,
    marks: seq<int>,
    entries: seq<Event>,
    flag: bool,
    seqs: seq<int>,
    cons: seq<ConsumerPc>,
    probes: seq<Probe>)

  datatype ProducerMove =
    | Begin(n: int, blocking: bool)
    | Refuse
    | Pass
    | Decide
    | LoadGate
    | Wake
    | Cancel
    | StartPublish(low: int, high: int)
    | StoreCursor
    | StartDiscard(low: int, high: int)
    | SetFlag
    | Compare
    | StoreMark
    | WriteEvent(s: int, v: Event)

  datatype Move = Produce(pm: ProducerMove) | Peek(c: nat) | Consume(c: nat, cm: ConsumerMove)

  ghost predicate Shape(cfg: Config, st: State) {
    && |st.marks| == cfg.size && |st.entries| == cfg.size
    && |st.seqs| == |cfg.deps| && |st.cons| == |cfg.deps| && |st.probes| == |cfg.deps|
  }

  function Initial(cfg: Config): State {
    State(-1, -1, -1, Free, -1, seq(if cfg.size >= 0 then cfg.size else 0, i => -1), cfg.factory, false,
          seq(|cfg.deps|, i => -1), seq(|cfg.deps|, i => Resting), seq(|cfg.deps|, i => Out))
  }

  /** Resolutions come in claim order: a range starts no later than the first unresolved claim. */
  predicate InClaimOrder(st: State, low: int, high: int) {
    low <= st.cursor + 1 && high <= st.next
  }

  predicate CanProduce(st: State, pm: ProducerMove) {
    match pm
    case Begin(_, _) => st.pc.Free?
    case Refuse => st.pc.Top? || st.pc.Retry?
    case Pass => st.pc.Top? || st.pc.Retry?
    case Decide => st.pc.Checked?
    case LoadGate => st.pc.Gating?
    case Wake => st.pc.Waiting?
    case Cancel => st.pc.Waiting?
    case StartPublish(low, high) => st.pc.Free? && InClaimOrder(st, low, high) && st.cursor <= high
    case StoreCursor => st.pc.Publishing? || st.pc.Showing?
    case StartDiscard(low, high) => st.pc.Free? && InClaimOrder(st, low, high) && 0 <= low
    case SetFlag => st.pc.Flagging?
    case Compare => st.pc.Sifting?
    case StoreMark => st.pc.Marking?
    case WriteEvent(s, _) => st.pc.Free? && st.handed < s <= st.next
  }

  function Claimed(st: State, n: int, cached: int): State {
    st.(next := st.next + n, cached := cached, pc := Free)
  }

  /** After reading gate `i` of the scan. */
  function Gated(cfg: Config, st: State, v: int): State
    requires st.pc.Gating?
  {
    var pc := st.pc;
    var low := if pc.i == 0 then v else Min(pc.low, v);
    var wrap := st.next + pc.n - cfg.size;
    if pc.i + 1 < |cfg.gates| then st.(pc := Gating(pc.n, pc.blocking, pc.i + 1, low))
    else if wrap <= low then Claimed(st, pc.n, low)
    else if pc.blocking then st.(pc := Waiting(pc.n))
    else st.(cached := low, pc := Free)
  }

  function AfterDiscard(k: int, high: int): ProducerPc {
    if k == high then Free else Sifting(k + 1, high)
  }

  function Produced(cfg: Config, st: State, pm: ProducerMove): (st': State)
    requires cfg.size >= 1 && |st.marks| == cfg.size && |st.entries| == cfg.size && CanProduce(st, pm)
    ensures st'.seqs == st.seqs && st'.cons == st.cons && st'.probes == st.probes
    ensures |st'.marks| == cfg.size && |st'.entries| == cfg.size
  {
    var pc := st.pc;
    match pm
    case Begin(n, blocking) => st.(pc := Top(n, blocking))
    case Refuse => st.(pc := Free)
    case Pass =>
      if pc.Retry? then st.(pc := Gating(pc.n, true, 0, 0))
      else st.(pc := if 1 <= pc.n <= cfg.size then Checked(pc.n, pc.blocking) else Free)
    case Decide =>
      if st.next + pc.n - cfg.size > st.cached || st.cached > st.next
      then st.(pc := if pc.blocking then Retry(pc.n) else Gating(pc.n, false, 0, 0))
      else Claimed(st, pc.n, st.cached)
    case LoadGate =>
      if pc.i < |cfg.gates| && cfg.gates[pc.i] < |st.seqs| then Gated(cfg, st, st.seqs[cfg.gates[pc.i]])
      else st.(pc := Free)
    case Wake => st.(pc := Retry(pc.n))
    case Cancel => st.(pc := Free)
    case StartPublish(_, high) => st.(pc := Publishing(high), handed := high)
    case StoreCursor =>
      if pc.Publishing? then st.(cursor := pc.high, pc := Free)
      else st.(cursor := pc.k, pc := AfterDiscard(pc.k, pc.high))
    case StartDiscard(low, high) =>
      st.(pc := Flagging(low, high), handed := if low <= high && st.handed < high then high else st.handed)
    case SetFlag => st.(flag := true, pc := if pc.low > pc.high then Free else Sifting(pc.low, pc.high))
    case Compare => st.(pc := if pc.k > st.cursor then Marking(pc.k, pc.high) else AfterDiscard(pc.k, pc.high))
    case StoreMark => st.(marks := st.marks[Slot(cfg.size, pc.k) := pc.k], pc := Showing(pc.k, pc.high))
    case WriteEvent(s, v) => st.(entries := st.entries[Slot(cfg.size, s) := v])
  }

  function ProducerAction(cfg: Config, st: State, pm: ProducerMove): Action
    requires cfg.size >= 1 && |st.marks| == cfg.size && |st.entries| == cfg.size && CanProduce(st, pm)
  {
    match pm
    case Decide => if Produced(cfg, st, pm).next == st.next then Silent else Claim(0, st.pc.n, Open)
    case LoadGate => if Produced(cfg, st, pm).next == st.next then Silent else Claim(0, st.pc.n, Open)
    case StoreCursor =>
      if st.pc.Publishing? then
        (if st.pc.high > st.cursor then Resolve(0, st.cursor + 1, st.pc.high, Published) else Silent)
      else Resolve(0, st.pc.k, st.pc.k, Discarded)
    case WriteEvent(s, v) => Write(0, s, v)
    case _ => Silent
  }

  /** `IsDiscarded` on the cursor it loaded first. */
  predicate IsDiscarded(size: int, marks: seq<int>, cursor: int, s: int)
    requires size >= 1 && |marks| == size
  {
    s <= cursor && s > cursor - size && marks[Slot(size, s)] == s
  }

  ghost predicate Reads(cfg: Config, st: State, c: nat, cm: ConsumerMove)
    requires cfg.Valid() && Shape(cfg, st) && c < |cfg.deps| && Ready(st.cons[c], cm)
  {
    var pc := st.cons[c];
    match cm
    case Load(v) =>
      var i := if pc.Resting? then 0 else pc.i;
      if cfg.deps[c] == [] then v == st.cursor else i < |cfg.deps[c]| && v == st.seqs[cfg.deps[c][i]]
    case ReadFlag(flagged) => flagged == st.flag
    case Test(discarded) =>
      st.probes[c].In? && discarded == IsDiscarded(cfg.size, st.marks, st.probes[c].cursor, pc.k)
    case See(v) => v == st.entries[Slot(cfg.size, pc.k)]
    case _ => true
  }

  ghost predicate Enabled(cfg: Config, st: State, mv: Move)
    requires cfg.Valid() && Shape(cfg, st)
  {
    match mv
    case Produce(pm) => CanProduce(st, pm)
    case Peek(c) => c < |cfg.deps| && st.probes[c].Out? && (st.cons[c].Backing? || st.cons[c].Testing?)
    case Consume(c, cm) => c < |cfg.deps| && Ready(st.cons[c], cm) && Reads(cfg, st, c, cm)
  }

  ghost function Apply(cfg: Config, st: State, mv: Move): (st': State)
    requires cfg.Valid() && Shape(cfg, st) && Enabled(cfg, st, mv)
    ensures Shape(cfg, st')
  {
    match mv
    case Produce(pm) => Produced(cfg, st, pm)
    case Peek(c) => st.(probes := st.probes[c := In(st.cursor)])
    case Consume(c, cm) =>
      var pc := st.cons[c];
      st.(cons := st.cons[c := Next(cfg, c, st.seqs[c], pc, cm)],
          probes := st.probes[c := Out],
          seqs := if cm.Store? then st.seqs[c := pc.end] else st.seqs,
          entries := if cm.Change? then st.entries[Slot(cfg.size, pc.k) := cm.v] else st.entries)
  }

  ghost function ActionFor(cfg: Config, st: State, mv: Move): Action
    requires cfg.Valid() && Shape(cfg, st) && Enabled(cfg, st, mv)
  {
    match mv
    case Produce(pm) => ProducerAction(cfg, st, pm)
    case Peek(_) => Silent
    case Consume(c, cm) => ActionOf(c, st.cons[c], cm)
  }

  // The invariant

  /** Exactly the records up to the cursor are resolved. */
  ghost predicate Frontier(recs: seq<Record>, cursor: int) {
    && -1 <= cursor < |recs|
    && forall s :: 0 <= s < |recs| ==>
         recs[s].owner == 0 && !recs[s].status.Claimed? && (recs[s].status.Resolved() <==> s <= cursor)
  }

  /** A marker names a sequence of its slot that is discarded, or the one about to be shown. */
  ghost predicate MarksTrue(cfg: Config, marks: seq<int>, recs: seq<Record>, pc: ProducerPc)
    requires cfg.size >= 1 && |marks| == cfg.size
  {
    forall i :: 0 <= i < cfg.size && marks[i] != -1 ==>
      && 0 <= marks[i] < |recs| && Slot(cfg.size, marks[i]) == i
      && (recs[marks[i]].status.Discarded? || (pc.Showing? && pc.k == marks[i]))
  }

  /** Every discarded record still in its slot is marked. */
  ghost predicate MarksComplete(cfg: Config, marks: seq<int>, recs: seq<Record>)
    requires cfg.size >= 1 && |marks| == cfg.size
  {
    forall s :: InWindow(cfg, recs, s) && recs[s].status.Discarded? ==> marks[Slot(cfg.size, s)] == s
  }

  ghost predicate PcOK(cfg: Config, st: State)
    requires cfg.Valid() && Shape(cfg, st)
  {
    match st.pc
    case Free => st.handed == st.cursor
    case Top(_, _) => st.handed == st.cursor
    case Checked(n, _) => st.handed == st.cursor && 1 <= n <= cfg.size
    case Retry(n) => st.handed == st.cursor && 1 <= n <= cfg.size
    case Gating(n, _, i, low) =>
      && st.handed == st.cursor && 1 <= n <= cfg.size
      && i < |cfg.gates| && forall j :: 0 <= j < i ==> low <= st.seqs[cfg.gates[j]]
    case Waiting(n) => st.handed == st.cursor && 1 <= n <= cfg.size
    case Publishing(high) => st.cursor <= high == st.handed
    case Flagging(low, high) =>
      0 <= low <= st.cursor + 1 && high <= st.next
      && st.handed == (if low <= high && st.cursor < high then high else st.cursor)
    case Sifting(k, high) =>
      st.flag && 0 <= k <= st.cursor + 1 && k <= high <= st.next
      && st.handed == (if st.cursor < high then high else st.cursor)
    case Marking(k, high) => st.flag && 0 <= k == st.cursor + 1 && k <= high <= st.next && st.handed == high
    case Showing(k, high) =>
      && st.flag && 0 <= k == st.cursor + 1 && k <= high <= st.next && st.handed == high
      && st.marks[Slot(cfg.size, k)] == k
  }

  ghost predicate Core(cfg: Config, st: State, L: LogState)
    requires cfg.Valid()
  {
    && !cfg.multi && cfg.producers == 1 && Shape(cfg, st) && LogInv(cfg, L)
    && st.next == |L.recs| - 1 && st.seqs == Positions(L.readers)
    && Frontier(L.recs, st.cursor) && st.cursor <= st.handed <= st.next
  }

  ghost predicate ConsumersOK(cfg: Config, st: State, L: LogState)
    requires Shape(cfg, st) && |L.readers| == |cfg.deps|
  {
    && (forall c :: 0 <= c < |st.cons| ==> ConsumerInv(cfg, L, c, st.cons[c]))
    && (forall c :: 0 <= c < |st.cons| && st.probes[c].In? ==>
          (st.cons[c].Backing? || st.cons[c].Testing?) && st.cons[c].end <= st.probes[c].cursor <= st.cursor)
  }

  ghost predicate Inv(cfg: Config, st: State, L: LogState)
    requires cfg.Valid()
  {
    && Core(cfg, st, L)
    && Above(st.seqs, st.cached)
    && PcOK(cfg, st)
    && MarksTrue(cfg, st.marks, L.recs, st.pc)
    && MarksComplete(cfg, st.marks, L.recs)
    && EntriesOK(cfg, st.entries, L.recs)
    && FlagOK(st.flag, L.recs)
    && ConsumersOK(cfg, st, L)
  }

  // Preservation

  lemma ClaimPermitted(cfg: Config, st: State, L: LogState, pm: ProducerMove)
    requires cfg.Valid() && Core(cfg, st, L) && PcOK(cfg, st) && Above(st.seqs, st.cached)
    requires CanProduce(st, pm) && (pm.Decide? || pm.LoadGate?)
    ensures Permitted(cfg, L, ProducerAction(cfg, st, pm))
  {
    if pm.LoadGate? && st.pc.i + 1 == |cfg.gates| {
      var v := st.seqs[cfg.gates[st.pc.i]];
      GatesProtectAll(cfg, st.seqs, if st.pc.i == 0 then v else Min(st.pc.low, v));
    }
  }

  lemma ProducePermitted(cfg: Config, st: State, L: LogState, pm: ProducerMove)
    requires cfg.Valid() && Core(cfg, st, L) && PcOK(cfg, st) && Above(st.seqs, st.cached) && CanProduce(st, pm)
    ensures Permitted(cfg, L, ProducerAction(cfg, st, pm))
  {
    if pm.Decide? || pm.LoadGate? {
      ClaimPermitted(cfg, st, L, pm);
    }
  }

  lemma ProduceFrontier(cfg: Config, st: State, L: LogState, pm: ProducerMove)
    requires cfg.Valid() && Core(cfg, st, L) && PcOK(cfg, st) && CanProduce(st, pm)
    requires Permitted(cfg, L, ProducerAction(cfg, st, pm))
    ensures var st', L' := Produced(cfg, st, pm), Perform(cfg, L, ProducerAction(cfg, st, pm));
            Frontier(L'.recs, st'.cursor) && st'.next == |L'.recs| - 1 && L'.readers == L.readers
  {
  }

  lemma ProduceCore(cfg: Config, st: State, L: LogState, pm: ProducerMove)
    requires cfg.Valid() && Core(cfg, st, L) && PcOK(cfg, st) && CanProduce(st, pm)
    requires Permitted(cfg, L, ProducerAction(cfg, st, pm))
    ensures Core(cfg, Produced(cfg, st, pm), Perform(cfg, L, ProducerAction(cfg, st, pm)))
  {
    ProduceFrontier(cfg, st, L, pm);
    LogInvKept(cfg, L, ProducerAction(cfg, st, pm));
  }

  lemma ProduceScan(cfg: Config, st: State)
    requires cfg.Valid() && Shape(cfg, st) && CanProduce(st, LoadGate) && PcOK(cfg, st)
    requires Ordered(cfg, st.seqs) && Above(st.seqs, st.cached)
    ensures PcOK(cfg, Produced(cfg, st, LoadGate)) && Above(st.seqs, Produced(cfg, st, LoadGate).cached)
  {
    if st.pc.i + 1 == |cfg.gates| {
      var v := st.seqs[cfg.gates[st.pc.i]];
      GatesProtectAll(cfg, st.seqs, if st.pc.i == 0 then v else Min(st.pc.low, v));
    }
  }

  predicate Resolves(pm: ProducerMove) {
    pm.StartPublish? || pm.StoreCursor? || pm.StartDiscard? || pm.SetFlag? || pm.Compare?
    || pm.StoreMark? || pm.WriteEvent?
  }

  /** Resolution calls: the producer's place in its range. */
  lemma ResolveLocal(cfg: Config, st: State, pm: ProducerMove)
    requires cfg.Valid() && Shape(cfg, st) && PcOK(cfg, st) && CanProduce(st, pm) && Resolves(pm)
    requires st.cursor <= st.handed <= st.next
    ensures PcOK(cfg, Produced(cfg, st, pm)) && Produced(cfg, st, pm).cached == st.cached
  {
  }

  /** Claim calls: the cached gate and the scan. */
  lemma ClaimLocal(cfg: Config, st: State, pm: ProducerMove)
    requires cfg.Valid() && Shape(cfg, st) && PcOK(cfg, st) && CanProduce(st, pm) && !Resolves(pm)
    requires Ordered(cfg, st.seqs) && Above(st.seqs, st.cached)
    ensures PcOK(cfg, Produced(cfg, st, pm)) && Above(st.seqs, Produced(cfg, st, pm).cached)
  {
    if pm.LoadGate? {
      ProduceScan(cfg, st);
    }
  }

  lemma ProduceLocal(cfg: Config, st: State, pm: ProducerMove)
    requires cfg.Valid() && Shape(cfg, st) && PcOK(cfg, st) && CanProduce(st, pm)
    requires st.cursor <= st.handed <= st.next && Ordered(cfg, st.seqs) && Above(st.seqs, st.cached)
    ensures PcOK(cfg, Produced(cfg, st, pm)) && Above(st.seqs, Produced(cfg, st, pm).cached)
  {
    if Resolves(pm) {
      ResolveLocal(cfg, st, pm);
    } else {
      ClaimLocal(cfg, st, pm);
    }
  }

  lemma ProduceMarksTrue(cfg: Config, st: State, L: LogState, pm: ProducerMove)
    requires cfg.Valid() && Core(cfg, st, L) && PcOK(cfg, st)
    requires MarksTrue(cfg, st.marks, L.recs, st.pc) && CanProduce(st, pm)
    requires Permitted(cfg, L, ProducerAction(cfg, st, pm))
    ensures var st', L' := Produced(cfg, st, pm), Perform(cfg, L, ProducerAction(cfg, st, pm));
            MarksTrue(cfg, st'.marks, L'.recs, st'.pc)
  {
    var act := ProducerAction(cfg, st, pm);
    PerformEvolves(cfg, L, act);
    if pm.StoreCursor? && st.pc.Showing? {
      assert Perform(cfg, L, act).recs[st.pc.k].status.Discarded?;
    } else {
      MarksTrueStable(cfg, st.marks, L.recs, Perform(cfg, L, act).recs, st.pc);
    }
  }

  /** Marks stay true of an evolving log. */
  lemma MarksTrueStable(cfg: Config, marks: seq<int>, recs: seq<Record>, recs': seq<Record>, pc: ProducerPc)
    requires cfg.Valid() && |marks| == cfg.size && MarksTrue(cfg, marks, recs, pc) && Evolves(recs, recs')
    ensures MarksTrue(cfg, marks, recs', pc)
  {
  }

  lemma ProduceMarks(cfg: Config, st: State, L: LogState, pm: ProducerMove)
    requires cfg.Valid() && Inv(cfg, st, L) && Enabled(cfg, st, Produce(pm))
    requires Permitted(cfg, L, ProducerAction(cfg, st, pm))
    ensures var st', L' := Produced(cfg, st, pm), Perform(cfg, L, ProducerAction(cfg, st, pm));
            MarksComplete(cfg, st'.marks, L'.recs)
  {
    var st', L' := Produced(cfg, st, pm), Perform(cfg, L, ProducerAction(cfg, st, pm));
    if pm.StoreMark? {
      UnresolvedInWindow(cfg, L, st.pc.k);
    }
    forall s | InWindow(cfg, L'.recs, s) && L'.recs[s].status.Discarded? ensures st'.marks[Slot(cfg.size, s)] == s {
      if s < |L.recs| {
        assert InWindow(cfg, L.recs, s);
        if pm.StoreMark? && Slot(cfg.size, st.pc.k) == Slot(cfg.size, s) {
          NearbySlotsDiffer(cfg.size, st.pc.k, s);
        }
      }
    }
  }

  lemma EntriesAfterRange(cfg: Config, entries: seq<Event>, recs: seq<Record>, lo: int, hi: int, status: Status)
    requires cfg.Valid() && |entries| == cfg.size && EntriesOK(cfg, entries, recs)
    ensures EntriesOK(cfg, entries, Log.Resolving(recs, lo, hi, status))
  {
    var recs' := Log.Resolving(recs, lo, hi, status);
    forall t | InWindow(cfg, recs', t) ensures entries[Slot(cfg.size, t)] == recs'[t].body {
      assert InWindow(cfg, recs, t);
    }
  }

  lemma ProduceEntries(cfg: Config, st: State, L: LogState, pm: ProducerMove)
    requires cfg.Valid() && Core(cfg, st, L) && PcOK(cfg, st) && CanProduce(st, pm)
    requires EntriesOK(cfg, st.entries, L.recs) && FlagOK(st.flag, L.recs)
    requires Permitted(cfg, L, ProducerAction(cfg, st, pm))
    ensures var st', L' := Produced(cfg, st, pm), Perform(cfg, L, ProducerAction(cfg, st, pm));
            EntriesOK(cfg, st'.entries, L'.recs) && FlagOK(st'.flag, L'.recs)
  {
    match ProducerAction(cfg, st, pm)
    case Claim(_, n, _) => EntriesAfterClaim(cfg, L, st.entries, 0, n, Open);
    case Resolve(_, lo, hi, status) => EntriesAfterRange(cfg, st.entries, L.recs, lo, hi, status);
    case Write(_, s, v) =>
      UnresolvedInWindow(cfg, L, s);
      EntriesAfterBody(cfg, st.entries, L.recs, s, v);
    case _ =>
  }

  lemma ProduceOthers(cfg: Config, st: State, L: LogState, pm: ProducerMove)
    requires cfg.Valid() && Inv(cfg, st, L) && Enabled(cfg, st, Produce(pm))
    requires Permitted(cfg, L, ProducerAction(cfg, st, pm))
    ensures ConsumersOK(cfg, Produced(cfg, st, pm), Perform(cfg, L, ProducerAction(cfg, st, pm)))
  {
    hide Permitted, Perform, ConsumerInv, MarksTrue, MarksComplete, EntriesOK;
    var act := ProducerAction(cfg, st, pm);
    var st', L' := Produced(cfg, st, pm), Perform(cfg, L, act);
    forall c | 0 <= c < |st'.cons| ensures ConsumerInv(cfg, L', c, st'.cons[c]) {
      assert ConsumerInv(cfg, L, c, st.cons[c]);
      ConsumerUndisturbed(cfg, L, act, c, st.cons[c]);
    }
  }

  lemma ProduceKept(cfg: Config, st: State, L: LogState, pm: ProducerMove)
    requires cfg.Valid() && Inv(cfg, st, L) && Enabled(cfg, st, Produce(pm))
    ensures Permitted(cfg, L, ProducerAction(cfg, st, pm))
    ensures Inv(cfg, Produced(cfg, st, pm), Perform(cfg, L, ProducerAction(cfg, st, pm)))
  {
    hide Permitted, Perform, MarksTrue, MarksComplete, EntriesOK, FlagOK, ConsumersOK, ConsumerInv;
    ProducePermitted(cfg, st, L, pm);
    ProduceCore(cfg, st, L, pm);
    ProduceLocal(cfg, st, pm);
    ProduceMarksTrue(cfg, st, L, pm);
    ProduceMarks(cfg, st, L, pm);
    ProduceEntries(cfg, st, L, pm);
    ProduceOthers(cfg, st, L, pm);
  }

  /**
   * Discards across laps: for a sequence some consumer has yet to pass, and any cursor loaded
   * since it became visible, `IsDiscarded` is true exactly when it was resolved by discarding.
   * The window test never hides it and no stale marker of an earlier lap stands for it.
   */
  lemma DiscardsAreExact(cfg: Config, st: State, L: LogState, c: nat, cursor: int, s: int)
    requires cfg.Valid() && Inv(cfg, st, L) && c < |cfg.deps|
    requires st.seqs[c] < s <= cursor <= st.cursor
    ensures IsDiscarded(cfg.size, st.marks, cursor, s) <==> L.recs[s].status.Discarded?
  {
    assert ReaderOK(cfg, L.recs, L.readers[c]);
    PendingInWindow(cfg, L, c, s);
  }

  lemma ConsumeTruthful(cfg: Config, st: State, L: LogState, c: nat, cm: ConsumerMove)
    requires cfg.Valid() && Inv(cfg, st, L) && Enabled(cfg, st, Consume(c, cm))
    ensures Truthful(cfg, L, c, st.cons[c], cm)
  {
    var pc := st.cons[c];
    assert ConsumerInv(cfg, L, c, pc);
    assert st.seqs[c] == L.readers[c].pos;
    if cm.Test? {
      DiscardsAreExact(cfg, st, L, c, st.probes[c].cursor, pc.k);
    } else if cm.See? {
      PendingInWindow(cfg, L, c, pc.k);
    }
  }

  lemma ConsumePositions(cfg: Config, st: State, L: LogState, c: nat, cm: ConsumerMove)
    requires cfg.Valid() && Core(cfg, st, L) && Enabled(cfg, st, Consume(c, cm))
    requires Permitted(cfg, L, ActionFor(cfg, st, Consume(c, cm)))
    ensures var st', L' := Apply(cfg, st, Consume(c, cm)), Perform(cfg, L, ActionFor(cfg, st, Consume(c, cm)));
            && st'.seqs == Positions(L'.readers) && LogInv(cfg, L')
            && forall d :: 0 <= d < |st.seqs| ==> st.seqs[d] <= st'.seqs[d]
  {
    LogInvKept(cfg, L, ActionFor(cfg, st, Consume(c, cm)));
    assert L.readers[c].pos == st.seqs[c];
  }

  lemma ConsumeCore(cfg: Config, st: State, L: LogState, c: nat, cm: ConsumerMove)
    requires cfg.Valid() && Core(cfg, st, L) && PcOK(cfg, st) && Above(st.seqs, st.cached)
    requires Enabled(cfg, st, Consume(c, cm)) && Permitted(cfg, L, ActionFor(cfg, st, Consume(c, cm)))
    ensures var st', L' := Apply(cfg, st, Consume(c, cm)), Perform(cfg, L, ActionFor(cfg, st, Consume(c, cm)));
            Core(cfg, st', L') && Above(st'.seqs, st'.cached) && PcOK(cfg, st')
  {
    ConsumePositions(cfg, st, L, c, cm);
  }

  /** A handler that changes its event changes that record's body and nothing else. */
  lemma ChangeKept(cfg: Config, st: State, recs: seq<Record>, s: int, v: Event)
    requires cfg.Valid() && Shape(cfg, st) && InWindow(cfg, recs, s)
    requires MarksTrue(cfg, st.marks, recs, st.pc) && MarksComplete(cfg, st.marks, recs)
    requires EntriesOK(cfg, st.entries, recs) && FlagOK(st.flag, recs)
    ensures var recs' := recs[s := recs[s].(body := v)];
            && MarksTrue(cfg, st.marks, recs', st.pc) && MarksComplete(cfg, st.marks, recs')
            && EntriesOK(cfg, st.entries[Slot(cfg.size, s) := v], recs') && FlagOK(st.flag, recs')
  {
    var recs' := recs[s := recs[s].(body := v)];
    EntriesAfterBody(cfg, st.entries, recs, s, v);
    forall t | InWindow(cfg, recs', t) && recs'[t].status.Discarded? ensures st.marks[Slot(cfg.size, t)] == t {
      assert InWindow(cfg, recs, t);
    }
  }

  lemma ConsumeShared(cfg: Config, st: State, L: LogState, c: nat, cm: ConsumerMove)
    requires cfg.Valid() && Core(cfg, st, L) && Enabled(cfg, st, Consume(c, cm)) && ConsumerInv(cfg, L, c, st.cons[c])
    requires MarksTrue(cfg, st.marks, L.recs, st.pc) && MarksComplete(cfg, st.marks, L.recs)
    requires EntriesOK(cfg, st.entries, L.recs) && FlagOK(st.flag, L.recs)
    requires Permitted(cfg, L, ActionFor(cfg, st, Consume(c, cm)))
    ensures var st', L' := Apply(cfg, st, Consume(c, cm)), Perform(cfg, L, ActionFor(cfg, st, Consume(c, cm)));
            && MarksTrue(cfg, st'.marks, L'.recs, st'.pc) && MarksComplete(cfg, st'.marks, L'.recs)
            && EntriesOK(cfg, st'.entries, L'.recs) && FlagOK(st'.flag, L'.recs)
  {
    if cm.Change? {
      PendingInWindow(cfg, L, c, st.cons[c].k);
      ChangeKept(cfg, st, L.recs, st.cons[c].k, cm.v);
    } else {
      assert Perform(cfg, L, ActionFor(cfg, st, Consume(c, cm))).recs == L.recs;
    }
  }

  lemma ProbesKept(cfg: Config, st: State, L: LogState, c: nat, cm: ConsumerMove, d: nat)
    requires cfg.Valid() && Shape(cfg, st) && |L.readers| == |cfg.deps| && ConsumersOK(cfg, st, L)
    requires Enabled(cfg, st, Consume(c, cm)) && d < |st.cons|
    ensures var st' := Apply(cfg, st, Consume(c, cm));
            st'.probes[d].In? ==>
              (st'.cons[d].Backing? || st'.cons[d].Testing?) && st'.cons[d].end <= st'.probes[d].cursor <= st'.cursor
  {
  }

  lemma ConsumeOthers(cfg: Config, st: State, L: LogState, c: nat, cm: ConsumerMove)
    requires cfg.Valid() && Inv(cfg, st, L) && Enabled(cfg, st, Consume(c, cm))
    requires Permitted(cfg, L, ActionFor(cfg, st, Consume(c, cm)))
    requires ConsumerInv(cfg, Perform(cfg, L, ActionFor(cfg, st, Consume(c, cm))), c,
                         Apply(cfg, st, Consume(c, cm)).cons[c])
    ensures ConsumersOK(cfg, Apply(cfg, st, Consume(c, cm)), Perform(cfg, L, ActionFor(cfg, st, Consume(c, cm))))
  {
    hide Permitted, Perform, ConsumerInv, MarksTrue, MarksComplete, EntriesOK, PcOK;
    var act := ActionFor(cfg, st, Consume(c, cm));
    var st', L' := Apply(cfg, st, Consume(c, cm)), Perform(cfg, L, act);
    forall d | 0 <= d < |st'.cons| ensures ConsumerInv(cfg, L', d, st'.cons[d]) {
      if d != c {
        assert ConsumerInv(cfg, L, d, st.cons[d]);
        ConsumerUndisturbed(cfg, L, act, d, st.cons[d]);
      }
    }
    forall d | 0 <= d < |st'.cons| && st'.probes[d].In?
      ensures (st'.cons[d].Backing? || st'.cons[d].Testing?) && st'.cons[d].end <= st'.probes[d].cursor <= st'.cursor
    {
      ProbesKept(cfg, st, L, c, cm, d);
    }
  }

  lemma ConsumeKept(cfg: Config, st: State, L: LogState, c: nat, cm: ConsumerMove)
    requires cfg.Valid() && Inv(cfg, st, L) && Enabled(cfg, st, Consume(c, cm))
    ensures Permitted(cfg, L, ActionFor(cfg, st, Consume(c, cm)))
    ensures Inv(cfg, Apply(cfg, st, Consume(c, cm)), Perform(cfg, L, ActionFor(cfg, st, Consume(c, cm))))
  {
    hide Permitted, Perform, MarksTrue, MarksComplete, EntriesOK, FlagOK;
    assert ConsumerInv(cfg, L, c, st.cons[c]);
    assert L.readers[c].pos == st.seqs[c];
    ConsumeTruthful(cfg, st, L, c, cm);
    ConsumerKept(cfg, L, c, st.cons[c], cm);
    ConsumeCore(cfg, st, L, c, cm);
    ConsumeShared(cfg, st, L, c, cm);
    ConsumeOthers(cfg, st, L, c, cm);
  }

  lemma PeekKept(cfg: Config, st: State, L: LogState, c: nat)
    requires cfg.Valid() && Inv(cfg, st, L) && Enabled(cfg, st, Peek(c))
    ensures Inv(cfg, Apply(cfg, st, Peek(c)), L)
  {
    assert ConsumerInv(cfg, L, c, st.cons[c]);
    var end := st.cons[c].end;
    assert end >= 0 ==> L.recs[end].status.Resolved();
  }

  /** One move of the ring is one step of the log. */
  lemma MoveRefines(cfg: Config, st: State, L: LogState, mv: Move)
    requires cfg.Valid() && Inv(cfg, st, L) && Enabled(cfg, st, mv)
    ensures Permitted(cfg, L, ActionFor(cfg, st, mv))
    ensures Inv(cfg, Apply(cfg, st, mv), Perform(cfg, L, ActionFor(cfg, st, mv)))
  {
    match mv
    case Produce(pm) => ProduceKept(cfg, st, L, pm);
    case Peek(c) => PeekKept(cfg, st, L, c);
    case Consume(c, cm) => ConsumeKept(cfg, st, L, c, cm);
  }

  lemma InitialOK(cfg: Config)
    requires cfg.Valid() && !cfg.multi && cfg.producers == 1
    ensures Inv(cfg, Initial(cfg), Start(cfg))
  {
    StartOK(cfg);
    assert Initial(cfg).seqs == Positions(Start(cfg).readers);
  }
}
