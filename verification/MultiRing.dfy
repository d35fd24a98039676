/**
 * The multi-producer ring as a concurrent machine: any number of producers and consumers, with one
 * atomic load, store or compare-and-swap a move.
 */
module MultiRing {
  import opened Topology
  import opened Log
  import opened Consumers
  import opened Window

  /** The contents of an availability slot: empty, or a lap and the state of its sequence. */
  datatype Marker = Empty | Mark(lap: int, status: Status)

  /** What a producer is about to do inside `Next`, `TryNext`, `Publish` or `Discard`. */
  datatype ProducerPc =
    | Free
    | Top(n: int, blocking: bool)
    | Checked(n: int, blocking: bool)
    | Bounded(n: int, blocking: bool, current: int)
    | Gating(n: int, blocking: bool, current: int, i: nat, low: int)
    | Caching(n: int, blocking: bool, current: int, low: int)
    | Waiting(n: int)
    | Swapping(n: int, blocking: bool, current: int)
    | Preparing(low: int, k: int, high: int)
    | Flagging(low: int, high: int)
    | Closing(k: int, high: int, status: Status)

  /**
   * A producer, every sequence its claims returned, and those among them it has not yet handed
   * to a resolution call and may still write.
   */
  datatype Producer = Producer(pc: ProducerPc, owned: set<int>, live: set<int>)

  datatype State = State(
    cursor: int,
    cache: int,
    marks: seq<Marker>,
    entries: seq<Event>,
    flag: bool,
    seqs: seq<int>,
    prods: seq<Producer>,
    cons: seq<ConsumerPc>)

  datatype ProducerMove =
    | Begin(n: int, blocking: bool)
    | Refuse
    | Pass
    | LoadCursor
    | LoadCache
    | LoadGate
    | StoreCache
    | Wake
    | Cancel
    | Swap
    | PrepareOne
    | StartPublish(low: int, high: int)
    | StartDiscard(low: int, high: int)
    | SetFlag
    | ResolveOne
    | WriteEvent(s: int, v: Event)

  datatype Move = Produce(p: nat, pm: ProducerMove) | Consume(c: nat, cm: ConsumerMove)

  function Range(low: int, high: int): (r: set<int>)
    ensures forall s :: s in r <==> low <= s <= high
    decreases high - low
  {
    if high < low then {} else Range(low, high - 1) + {high}
  }

  ghost predicate Shape(cfg: Config, st: State) {
    && |st.marks| == cfg.size && |st.entries| == cfg.size
    && |st.seqs| == |cfg.deps| && |st.cons| == |cfg.deps| && |st.prods| == cfg.producers
  }

  function Initial(cfg: Config): State {
    State(-1, -1, seq(if cfg.size >= 0 then cfg.size else 0, i => Empty), cfg.factory, false,
          seq(|cfg.deps|, i => -1), seq(cfg.producers, i => Producer(Free, {}, {})), seq(|cfg.deps|, i => Resting))
  }

  // Producer moves

  predicate CanProduce(pr: Producer, pm: ProducerMove) {
    match pm
    case Begin(_, _) => pr.pc.Free?
    case Refuse => pr.pc.Top?
    case Pass => pr.pc.Top?
    case LoadCursor => pr.pc.Checked?
    case LoadCache => pr.pc.Bounded?
    case LoadGate => pr.pc.Gating?
    case StoreCache => pr.pc.Caching?
    case Wake => pr.pc.Waiting?
    case Cancel => pr.pc.Waiting?
    case Swap => pr.pc.Swapping?
    case PrepareOne => pr.pc.Preparing?
    case StartPublish(low, high) => pr.pc.Free? && Range(low, high) <= pr.owned
    case StartDiscard(low, high) => pr.pc.Free? && Range(low, high) <= pr.owned
    case SetFlag => pr.pc.Flagging?
    case ResolveOne => pr.pc.Closing?
    case WriteEvent(s, _) => pr.pc.Free? && s in pr.live
  }

  /** After reading gate `i` of the scan. */
  function Gated(cfg: Config, pc: ProducerPc, v: int): ProducerPc
    requires pc.Gating?
  {
    var low := if pc.i == 0 then v else Min(pc.low, v);
    if pc.i + 1 < |cfg.gates| then Gating(pc.n, pc.blocking, pc.current, pc.i + 1, low)
    else if pc.blocking && pc.current + pc.n - cfg.size > low then Waiting(pc.n)
    else Caching(pc.n, pc.blocking, pc.current, low)
  }

  /** The effect of a producer move on the shared state and on the producer. */
  function Produced(cfg: Config, st: State, pr: Producer, pm: ProducerMove): (r: (State, Producer))
    requires cfg.size >= 1 && |st.marks| == cfg.size && |st.entries| == cfg.size && CanProduce(pr, pm)
    ensures r.0.prods == st.prods && r.0.cons == st.cons && r.0.seqs == st.seqs
    ensures |r.0.marks| == cfg.size && |r.0.entries| == cfg.size
  {
    var pc := pr.pc;
    match pm
    case Begin(n, blocking) => (st, pr.(pc := if 1 <= n <= cfg.size then Top(n, blocking) else Free))
    case Refuse => (st, pr.(pc := Free))
    case Pass => (st, pr.(pc := Checked(pc.n, pc.blocking)))
    case LoadCursor => (st, pr.(pc := Bounded(pc.n, pc.blocking, st.cursor)))
    case LoadCache =>
      (st, pr.(pc := if pc.current + pc.n - cfg.size > st.cache || st.cache > pc.current
                     then Gating(pc.n, pc.blocking, pc.current, 0, 0)
                     else Swapping(pc.n, pc.blocking, pc.current)))
    case LoadGate =>
      (st, pr.(pc := if pc.i < |cfg.gates| && cfg.gates[pc.i] < |st.seqs|
                     then Gated(cfg, pc, st.seqs[cfg.gates[pc.i]]) else Free))
    case StoreCache =>
      (st.(cache := pc.low),
       pr.(pc := if !pc.blocking && pc.current + pc.n - cfg.size > pc.low then Free
                 else Swapping(pc.n, pc.blocking, pc.current)))
    case Wake => (st, pr.(pc := Top(pc.n, true)))
    case Cancel => (st, pr.(pc := Free))
    case Swap =>
      if st.cursor == pc.current
      then (st.(cursor := pc.current + pc.n), pr.(pc := Preparing(pc.current + 1, pc.current + 1, pc.current + pc.n)))
      else (st, pr.(pc := Top(pc.n, pc.blocking)))
    case PrepareOne =>
      var claimed := Range(pc.low, pc.high);
      (st.(marks := st.marks[Slot(cfg.size, pc.k) := Mark(Lap(cfg.size, pc.k), Open)]),
       if pc.k == pc.high then Producer(Free, pr.owned + claimed, pr.live + claimed)
       else pr.(pc := Preparing(pc.low, pc.k + 1, pc.high)))
    case StartPublish(low, high) =>
      (st, pr.(pc := if low > high then Free else Closing(low, high, Published), live := pr.live - Range(low, high)))
    case StartDiscard(low, high) => (st, pr.(pc := Flagging(low, high), live := pr.live - Range(low, high)))
    case SetFlag =>
      (st.(flag := true), pr.(pc := if pc.low > pc.high then Free else Closing(pc.low, pc.high, Discarded)))
    case ResolveOne =>
      (st.(marks := Swapped(cfg.size, st.marks, pc.k, pc.status)),
       pr.(pc := if pc.k == pc.high then Free else Closing(pc.k + 1, pc.high, pc.status)))
    case WriteEvent(s, v) => (st.(entries := st.entries[Slot(cfg.size, s) := v]), pr)
  }

  /** Whether the compare-and-swap of a resolution finds its sequence prepared and unresolved. */
  predicate Swaps(size: int, marks: seq<Marker>, s: int)
    requires size >= 1 && |marks| == size
  {
    marks[Slot(size, s)] == Mark(Lap(size, s), Open)
  }

  function Swapped(size: int, marks: seq<Marker>, s: int, status: Status): seq<Marker>
    requires size >= 1 && |marks| == size
  {
    if Swaps(size, marks, s) then marks[Slot(size, s) := Mark(Lap(size, s), status)] else marks
  }

  function ProducerAction(cfg: Config, st: State, p: nat, pr: Producer, pm: ProducerMove): Action
    requires cfg.size >= 1 && |st.marks| == cfg.size && CanProduce(pr, pm)
  {
    match pm
    case Swap => if st.cursor == pr.pc.current then Claim(p, pr.pc.n, Claimed) else Silent
    case PrepareOne => Prepare(p, pr.pc.k)
    case ResolveOne =>
      if Swaps(cfg.size, st.marks, pr.pc.k) then Resolve(p, pr.pc.k, pr.pc.k, pr.pc.status) else Silent
    case WriteEvent(s, v) => Write(p, s, v)
    case _ => Silent
  }

  // Consumer moves

  function Resolution(size: int, marks: seq<Marker>, s: int): Status
    requires size >= 1 && |marks| == size
  {
    var m := marks[Slot(size, s)];
    if m == Mark(Lap(size, s), Published) then Published
    else if m == Mark(Lap(size, s), Discarded) then Discarded else Open
  }

  /** The values a consumer move reads are those in the shared state. */
  ghost predicate Reads(cfg: Config, st: State, c: nat, cm: ConsumerMove)
    requires cfg.Valid() && Shape(cfg, st) && c < |cfg.deps| && Ready(st.cons[c], cm)
  {
    var pc := st.cons[c];
    match cm
    case Load(v) =>
      var i := if pc.Resting? then 0 else pc.i;
      if cfg.deps[c] == [] then v == st.cursor else i < |cfg.deps[c]| && v == st.seqs[cfg.deps[c][i]]
    case Scan(resolved, _) => resolved == Resolution(cfg.size, st.marks, pc.k).Resolved()
    case ReadFlag(flagged) => flagged == st.flag
    case Test(discarded) => discarded == Resolution(cfg.size, st.marks, pc.k).Discarded?
    case See(v) => v == st.entries[Slot(cfg.size, pc.k)]
    case _ => true
  }

  ghost predicate Enabled(cfg: Config, st: State, mv: Move)
    requires cfg.Valid() && Shape(cfg, st)
  {
    match mv
    case Produce(p, pm) => p < cfg.producers && CanProduce(st.prods[p], pm)
    case Consume(c, cm) => c < |cfg.deps| && Ready(st.cons[c], cm) && Reads(cfg, st, c, cm)
  }

  ghost function Apply(cfg: Config, st: State, mv: Move): (st': State)
    requires cfg.Valid() && Shape(cfg, st) && Enabled(cfg, st, mv)
    ensures Shape(cfg, st')
  {
    match mv
    case Produce(p, pm) =>
      var (st', pr) := Produced(cfg, st, st.prods[p], pm);
      st'.(prods := st.prods[p := pr])
    case Consume(c, cm) =>
      var pc := st.cons[c];
      st.(cons := st.cons[c := Next(cfg, c, st.seqs[c], pc, cm)],
          seqs := if cm.Store? then st.seqs[c := pc.end] else st.seqs,
          entries := if cm.Change? then st.entries[Slot(cfg.size, pc.k) := cm.v] else st.entries)
  }

  ghost function ActionFor(cfg: Config, st: State, mv: Move): Action
    requires cfg.Valid() && Shape(cfg, st) && Enabled(cfg, st, mv)
  {
    match mv
    case Produce(p, pm) => ProducerAction(cfg, st, p, st.prods[p], pm)
    case Consume(c, cm) => ActionOf(c, st.cons[c], cm)
  }

  // The invariant

  ghost predicate Core(cfg: Config, st: State, L: LogState)
    requires cfg.Valid()
  {
    && cfg.multi && Shape(cfg, st) && LogInv(cfg, L)
    && st.cursor == |L.recs| - 1 && st.seqs == Positions(L.readers)
  }

  /** The marker in the slot of `s` while `s` is the newest sequence there. */
  ghost function MarkerOf(cfg: Config, recs: seq<Record>, s: int): Marker
    requires cfg.size >= 1 && 0 <= s < |recs|
  {
    if !recs[s].status.Claimed? then Mark(Lap(cfg.size, s), recs[s].status)
    else if s < cfg.size then Empty
    else Mark(Lap(cfg.size, s) - 1, recs[s - cfg.size].status)
  }

  ghost predicate MarksOK(cfg: Config, marks: seq<Marker>, recs: seq<Record>)
    requires cfg.size >= 1 && |marks| == cfg.size
  {
    && (forall s :: InWindow(cfg, recs, s) ==> marks[Slot(cfg.size, s)] == MarkerOf(cfg, recs, s))
    && (forall i :: |recs| <= i < cfg.size ==> marks[i] == Empty)
  }

  ghost predicate Holding(recs: seq<Record>, p: nat, pr: Producer) {
    && (forall t :: t in pr.owned ==> 0 <= t < |recs| && recs[t].owner == p && !recs[t].status.Claimed?)
    && (forall t :: t in pr.live ==> t in pr.owned && recs[t].status.Open?)
  }

  ghost predicate Pending(pr: Producer, low: int, high: int) {
    forall t :: low <= t <= high ==> t in pr.owned && t !in pr.live
  }

  ghost predicate PcOK(cfg: Config, recs: seq<Record>, seqs: seq<int>, flag: bool, p: nat, pr: Producer)
    requires |seqs| == |cfg.deps| && cfg.Valid()
  {
    match pr.pc
    case Free => true
    case Top(n, _) => 1 <= n <= cfg.size
    case Checked(n, _) => 1 <= n <= cfg.size
    case Bounded(n, _, current) => 1 <= n <= cfg.size
    case Gating(n, _, current, i, low) =>
      1 <= n <= cfg.size && i < |cfg.gates| && forall j :: 0 <= j < i ==> low <= seqs[cfg.gates[j]]
    case Caching(n, blocking, current, low) =>
      1 <= n <= cfg.size && Above(seqs, low) && (blocking ==> current + n - cfg.size <= low)
    case Waiting(n) => 1 <= n <= cfg.size
    case Swapping(n, _, current) => 1 <= n <= cfg.size && Above(seqs, current + n - cfg.size)
    case Preparing(low, k, high) =>
      && 0 <= low <= k <= high < |recs|
      && forall t :: low <= t <= high ==>
           recs[t].owner == p && t !in pr.owned && recs[t].status == (if t < k then Open else Claimed)
    case Flagging(low, high) => Pending(pr, low, high)
    case Closing(k, high, status) =>
      k <= high && Pending(pr, k, high) && status.Resolved() && (status.Discarded? ==> flag)
  }

  /** No claim is lost: every record of `p` was returned to it or is being prepared. */
  ghost predicate Accounted(recs: seq<Record>, p: nat, pr: Producer) {
    forall t :: 0 <= t < |recs| && recs[t].owner == p ==> t in pr.owned || Claiming(pr, t)
  }

  ghost predicate Claiming(pr: Producer, t: int) {
    pr.pc.Preparing? && pr.pc.low <= t <= pr.pc.high
  }

  ghost predicate ProducerOK(cfg: Config, recs: seq<Record>, seqs: seq<int>, flag: bool, p: nat, pr: Producer)
    requires |seqs| == |cfg.deps| && cfg.Valid()
  {
    Holding(recs, p, pr) && Accounted(recs, p, pr) && PcOK(cfg, recs, seqs, flag, p, pr)
  }

  ghost predicate ProducersOK(cfg: Config, st: State, recs: seq<Record>)
    requires Shape(cfg, st) && cfg.Valid()
  {
    forall p :: 0 <= p < |st.prods| ==> ProducerOK(cfg, recs, st.seqs, st.flag, p, st.prods[p])
  }

  ghost predicate ConsumersOK(cfg: Config, st: State, L: LogState)
    requires Shape(cfg, st) && |L.readers| == |cfg.deps|
  {
    forall c :: 0 <= c < |st.cons| ==> ConsumerInv(cfg, L, c, st.cons[c])
  }

  ghost predicate Inv(cfg: Config, st: State, L: LogState)
    requires cfg.Valid()
  {
    && Core(cfg, st, L)
    && Above(st.seqs, st.cache)
    && MarksOK(cfg, st.marks, L.recs)
    && EntriesOK(cfg, st.entries, L.recs)
    && FlagOK(st.flag, L.recs)
    && ProducersOK(cfg, st, L.recs)
    && ConsumersOK(cfg, st, L)
  }

  // Markers

  lemma MarksAfterClaim(cfg: Config, L: LogState, marks: seq<Marker>, p: nat, n: int)
    requires cfg.Valid() && LogInv(cfg, L) && |marks| == cfg.size && MarksOK(cfg, marks, L.recs)
    requires Permitted(cfg, L, Claim(p, n, Claimed))
    ensures MarksOK(cfg, marks, Appended(cfg, L.recs, p, n, Claimed))
  {
    var recs, recs' := L.recs, Appended(cfg, L.recs, p, n, Claimed);
    forall s | InWindow(cfg, recs', s) ensures marks[Slot(cfg.size, s)] == MarkerOf(cfg, recs', s) {
      if s < |recs| {
        assert InWindow(cfg, recs, s);
      } else if s < cfg.size {
        FirstLap(cfg.size, s);
      } else {
        var t := s - cfg.size;
        assert InWindow(cfg, recs, t);
        PreviousLap(cfg.size, s);
        var g := cfg.gates[0];
        assert |recs| - 1 + n - cfg.size <= Positions(L.readers)[g];
        assert ReaderOK(cfg, recs, L.readers[g]);
        assert recs[t].status.Resolved();
      }
    }
  }

  lemma MarksAfterStatus(cfg: Config, marks: seq<Marker>, recs: seq<Record>, s: int, status: Status)
    requires cfg.size >= 1 && |marks| == cfg.size && MarksOK(cfg, marks, recs)
    requires InWindow(cfg, recs, s) && !status.Claimed?
    ensures MarksOK(cfg, marks[Slot(cfg.size, s) := Mark(Lap(cfg.size, s), status)],
                        recs[s := recs[s].(status := status)])
  {
    var recs' := recs[s := recs[s].(status := status)];
    var marks' := marks[Slot(cfg.size, s) := Mark(Lap(cfg.size, s), status)];
    forall t | InWindow(cfg, recs', t) ensures marks'[Slot(cfg.size, t)] == MarkerOf(cfg, recs', t) {
      assert InWindow(cfg, recs, t);
      if t != s && Slot(cfg.size, s) == Slot(cfg.size, t) {
        NearbySlotsDiffer(cfg.size, s, t);
      }
    }
    if |recs| < cfg.size {
      FirstLap(cfg.size, s);
    }
  }

  /** Bodies do not matter to the markers. */
  lemma MarksAfterBody(cfg: Config, marks: seq<Marker>, recs: seq<Record>, s: int, v: Event)
    requires cfg.size >= 1 && |marks| == cfg.size && MarksOK(cfg, marks, recs) && 0 <= s < |recs|
    ensures MarksOK(cfg, marks, recs[s := recs[s].(body := v)])
  {
    var recs' := recs[s := recs[s].(body := v)];
    forall t | InWindow(cfg, recs', t) ensures marks[Slot(cfg.size, t)] == MarkerOf(cfg, recs', t) {
      assert InWindow(cfg, recs, t);
    }
  }

  /**
   * No ABA across laps: the compare-and-swap of a resolution succeeds exactly when its sequence
   * is claimed, prepared and unresolved now. A duplicate, a late call for an earlier lap, a call
   * before the slot is prepared and a call for an unclaimed sequence all fail.
   */
  lemma SwapExactlyWhenOpen(cfg: Config, st: State, L: LogState, s: int)
    requires cfg.Valid() && Core(cfg, st, L) && MarksOK(cfg, st.marks, L.recs) && s >= 0
    ensures Swaps(cfg.size, st.marks, s) <==> s < |L.recs| && L.recs[s].status.Open?
  {
    var recs := L.recs;
    if InWindow(cfg, recs, s) {
      if recs[s].status.Claimed? && s >= cfg.size {
        PreviousLap(cfg.size, s);
      }
    } else if s < |recs| {
      StaleMarker(cfg, st, L, s);
      BehindResolved(cfg, L, s);
    } else {
      UnclaimedMarker(cfg, st, L, s);
    }
  }

  lemma StaleMarker(cfg: Config, st: State, L: LogState, s: int)
    requires cfg.Valid() && Core(cfg, st, L) && MarksOK(cfg, st.marks, L.recs)
    requires 0 <= s <= |L.recs| - 1 - cfg.size
    ensures !Swaps(cfg.size, st.marks, s)
  {
    var n := Newest(cfg.size, |L.recs| - 1, s);
    NewestShares(cfg.size, |L.recs| - 1, s);
    assert InWindow(cfg, L.recs, n);
    hide Newest, Slot, Lap;
    PreviousLap(cfg.size, n);
    LapsGrow(cfg.size, s, n - cfg.size);
    if L.recs[n].status.Claimed? {
      BehindResolved(cfg, L, n - cfg.size);
    }
  }

  lemma UnclaimedMarker(cfg: Config, st: State, L: LogState, s: int)
    requires cfg.Valid() && Core(cfg, st, L) && MarksOK(cfg, st.marks, L.recs)
    requires s >= |L.recs|
    ensures !Swaps(cfg.size, st.marks, s)
  {
    var top := |L.recs| - 1;
    var n := Newest(cfg.size, top, s);
    NewestBelow(cfg.size, top, s);
    hide Newest, Slot, Lap;
    if n >= 0 {
      OlderMarker(cfg, st, L, n, s);
    } else {
      FirstLap(cfg.size, n + cfg.size);
      PreviousLap(cfg.size, n + cfg.size);
    }
  }

  lemma OlderMarker(cfg: Config, st: State, L: LogState, n: int, s: int)
    requires cfg.Valid() && Core(cfg, st, L) && MarksOK(cfg, st.marks, L.recs)
    requires InWindow(cfg, L.recs, n) && n <= s - cfg.size && Slot(cfg.size, n) == Slot(cfg.size, s)
    ensures !Swaps(cfg.size, st.marks, s)
  {
    LapsGrow(cfg.size, n, s - cfg.size);
    PreviousLap(cfg.size, s);
  }
}
