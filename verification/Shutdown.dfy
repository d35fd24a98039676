/**
 * Sealing, draining and closing a ring: `Shutdown`, `Close` and the sealed test of the claim calls,
 * as a concurrent machine above the log that both producer modes refine.
 */
module Shutdown {
  import opened Topology
  import opened Log

  /** A claim call, before and after it has tested whether the ring is sealed. */
  datatype CallPc = Outside | Entered | Passed

  /** A thread inside `Shutdown` or `Close`. `drained` is set when the drain completed. */
  datatype CloserPc =
    | Away
    | Begun
    | Sealing
    | Sealed
    | Polling(boundary: int, i: nat, low: int)
    | Behind(boundary: int)
    | Deferred(won: bool, drained: bool, boundary: int)
    | AtOnce(won: bool, drained: bool, boundary: int)
    | Closing(won: bool, drained: bool, boundary: int)
    | Finishing(won: bool, drained: bool, boundary: int)
    | Returned(won: bool, drained: bool, boundary: int)

  /** The `sync.Once` around closing. */
  datatype Once = NotRun | Busy | Done

  datatype State = State(
    L: LogState,
    sealed: bool,
    closed: bool,
    once: Once,
    calls: seq<CallPc>,
    closers: seq<CloserPc>)

  datatype Move =
    | Act(act: Action)
    | Enter(p: nat)
    | TestSealed(p: nat)
    | Retry(p: nat)
    | GiveUp(p: nat)
    | BeginShutdown(k: nat)
    | LoadClosed(k: nat)
    | SwapSealed(k: nat)
    | LoadBoundary(k: nat)
    | LoadGate(k: nat)
    | LookAgain(k: nat, cancelled: bool)
    | BeginClose(k: nat)
    | StoreSealed(k: nat)
    | EnterOnce(k: nat)
    | StoreClosed(k: nat)
    | LeaveOnce(k: nat)
    | Dismiss(k: nat)

  predicate At(st: State, k: nat) {
    k < |st.closers|
  }

  /**
   * A claim needs a call that has passed the sealed test. Winning the seal assumes what the
   * documentation asks: no publisher is inside a claim when Shutdown seals the ring.
   */
  ghost predicate Enabled(cfg: Config, st: State, mv: Move)
    requires cfg.Valid()
  {
    match mv
    case Act(act) =>
      Permitted(cfg, st.L, act) && (act.Claim? ==> act.p < |st.calls| && st.calls[act.p].Passed?)
    case Enter(p) => p < |st.calls| && st.calls[p].Outside?
    case TestSealed(p) => p < |st.calls| && st.calls[p].Entered?
    case Retry(p) => p < |st.calls| && st.calls[p].Passed?
    case GiveUp(p) => p < |st.calls| && st.calls[p].Passed?
    case BeginShutdown(k) => At(st, k) && st.closers[k].Away?
    case LoadClosed(k) => At(st, k) && st.closers[k].Begun?
    case SwapSealed(k) =>
      At(st, k) && st.closers[k].Sealing?
      && (!st.sealed ==> forall p :: 0 <= p < |st.calls| ==> !st.calls[p].Passed?)
    case LoadBoundary(k) => At(st, k) && st.closers[k].Sealed?
    case LoadGate(k) => At(st, k) && st.closers[k].Polling?
    case LookAgain(k, _) => At(st, k) && st.closers[k].Behind?
    case BeginClose(k) => At(st, k) && st.closers[k].Away?
    case StoreSealed(k) => At(st, k) && st.closers[k].Deferred?
    case EnterOnce(k) => At(st, k) && st.closers[k].AtOnce? && !st.once.Busy?
    case StoreClosed(k) => At(st, k) && st.closers[k].Closing?
    case LeaveOnce(k) => At(st, k) && st.closers[k].Finishing?
    case Dismiss(k) => At(st, k) && st.closers[k].Returned?
  }

  function Goto(st: State, k: nat, pc: CloserPc): State
    requires k < |st.closers|
  {
    st.(closers := st.closers[k := pc])
  }

  /** After polling gate `i`: the drain loop's minimum so far. */
  ghost function Polled(cfg: Config, st: State, pc: CloserPc): CloserPc
    requires pc.Polling?
  {
    var v := if pc.i < |cfg.gates| && cfg.gates[pc.i] < |st.L.readers| then st.L.readers[cfg.gates[pc.i]].pos else -1;
    var low := if pc.i == 0 || v < pc.low then v else pc.low;
    if pc.i + 1 < |cfg.gates| then Polling(pc.boundary, pc.i + 1, low)
    else if low < pc.boundary then Behind(pc.boundary)
    else Deferred(true, true, pc.boundary)
  }

  ghost function Apply(cfg: Config, st: State, mv: Move): State
    requires cfg.Valid() && Enabled(cfg, st, mv)
  {
    match mv
    case Act(act) =>
      var st' := st.(L := Perform(cfg, st.L, act));
      if act.Claim? then st'.(calls := st.calls[act.p := Outside]) else st'
    case Enter(p) => st.(calls := st.calls[p := Entered])
    case TestSealed(p) => st.(calls := st.calls[p := if st.sealed then Outside else Passed])
    case Retry(p) => st.(calls := st.calls[p := Entered])
    case GiveUp(p) => st.(calls := st.calls[p := Outside])
    case BeginShutdown(k) => Goto(st, k, Begun)
    case LoadClosed(k) => Goto(st, k, if st.closed then Returned(false, false, -1) else Sealing)
    case SwapSealed(k) =>
      if st.sealed then Goto(st, k, Returned(false, false, -1)) else Goto(st, k, Sealed).(sealed := true)
    case LoadBoundary(k) => Goto(st, k, Polling(|st.L.recs| - 1, 0, 0))
    case LoadGate(k) => Goto(st, k, Polled(cfg, st, st.closers[k]))
    case LookAgain(k, cancelled) =>
      var b := st.closers[k].boundary;
      Goto(st, k, if st.closed || cancelled then Deferred(true, false, b) else Polling(b, 0, 0))
    case BeginClose(k) => Goto(st, k, Deferred(false, false, -1))
    case StoreSealed(k) =>
      var pc := st.closers[k];
      Goto(st, k, AtOnce(pc.won, pc.drained, pc.boundary)).(sealed := true)
    case EnterOnce(k) =>
      var pc := st.closers[k];
      if st.once.Done? then Goto(st, k, Returned(pc.won, pc.drained, pc.boundary))
      else Goto(st, k, Closing(pc.won, pc.drained, pc.boundary)).(once := Busy)
    case StoreClosed(k) =>
      var pc := st.closers[k];
      Goto(st, k, Finishing(pc.won, pc.drained, pc.boundary)).(closed := true)
    case LeaveOnce(k) =>
      var pc := st.closers[k];
      Goto(st, k, Returned(pc.won, pc.drained, pc.boundary)).(once := Done)
    case Dismiss(k) => Goto(st, k, Away)
  }

  ghost function Initial(cfg: Config, calls: nat, closers: nat): State {
    State(Start(cfg), false, false, NotRun, seq(calls, i => Outside), seq(closers, i => Away))
  }

  /** Threads that won the seal, and the boundary they drain to. */
  predicate Winner(pc: CloserPc) {
    match pc
    case Sealed => true
    case Polling(_, _, _) => true
    case Behind(_) => true
    case Deferred(won, _, _) => won
    case AtOnce(won, _, _) => won
    case Closing(won, _, _) => won
    case Finishing(won, _, _) => won
    case Returned(won, _, _) => won
    case _ => false
  }

  /** Every gate has reached the boundary, which is the last claim there will ever be. */
  ghost predicate Drained(cfg: Config, L: LogState, boundary: int) {
    boundary == |L.recs| - 1
    && forall j :: 0 <= j < |cfg.gates| && cfg.gates[j] < |L.readers| ==> boundary <= L.readers[cfg.gates[j]].pos
  }

  ghost predicate CloserOK(cfg: Config, st: State, pc: CloserPc) {
    && (Winner(pc) ==> st.sealed && forall p :: 0 <= p < |st.calls| ==> !st.calls[p].Passed?)
    && (match pc
        case Polling(boundary, i, low) =>
          && boundary == |st.L.recs| - 1 && i < |cfg.gates|
          && forall j :: 0 <= j < i && cfg.gates[j] < |st.L.readers| ==> low <= st.L.readers[cfg.gates[j]].pos
        case Behind(boundary) => boundary == |st.L.recs| - 1
        case Deferred(won, drained, boundary) => drained ==> won && Drained(cfg, st.L, boundary)
        case AtOnce(won, drained, boundary) => st.sealed && (drained ==> won && Drained(cfg, st.L, boundary))
        case Closing(won, drained, boundary) =>
          st.sealed && st.once.Busy? && (drained ==> won && Drained(cfg, st.L, boundary))
        case Finishing(won, drained, boundary) =>
          st.sealed && st.closed && st.once.Busy? && (drained ==> won && Drained(cfg, st.L, boundary))
        case Returned(won, drained, boundary) =>
          (won ==> st.closed) && (drained ==> won && Drained(cfg, st.L, boundary))
        case _ => true)
  }

  ghost predicate Inv(cfg: Config, st: State) {
    && cfg.Valid() && LogInv(cfg, st.L)
    && (st.closed ==> st.sealed) && (st.once.Done? ==> st.closed)
    && forall k :: 0 <= k < |st.closers| ==> CloserOK(cfg, st, st.closers[k])
  }

  lemma ActKept(cfg: Config, st: State, act: Action)
    requires Inv(cfg, st) && Enabled(cfg, st, Act(act))
    ensures Inv(cfg, Apply(cfg, st, Act(act)))
  {
    LogInvKept(cfg, st.L, act);
    var st' := Apply(cfg, st, Act(act));
    forall k | 0 <= k < |st'.closers| ensures CloserOK(cfg, st', st'.closers[k]) {
      ActLeavesCloser(cfg, st, act, st.closers[k]);
    }
  }

  lemma ActLeavesCloser(cfg: Config, st: State, act: Action, pc: CloserPc)
    requires cfg.Valid() && Enabled(cfg, st, Act(act)) && CloserOK(cfg, st, pc)
    ensures CloserOK(cfg, Apply(cfg, st, Act(act)), pc)
  {
    var L, L' := st.L, Perform(cfg, st.L, act);
    assert forall c :: 0 <= c < |L.readers| ==> L.readers[c].pos <= L'.readers[c].pos;
    if Winner(pc) {
      assert |L'.recs| == |L.recs|;
    }
  }

  lemma CallKept(cfg: Config, st: State, mv: Move)
    requires Inv(cfg, st) && Enabled(cfg, st, mv)
    requires mv.Enter? || mv.TestSealed? || mv.Retry? || mv.GiveUp?
    ensures Inv(cfg, Apply(cfg, st, mv))
  {
    var st' := Apply(cfg, st, mv);
    forall k | 0 <= k < |st'.closers| ensures CloserOK(cfg, st', st'.closers[k]) {
      assert CloserOK(cfg, st, st.closers[k]);
    }
  }

  /** A gate polled after the seal: the last one decides whether the drain is complete. */
  lemma PollKept(cfg: Config, st: State, k: nat)
    requires cfg.Valid() && |st.L.readers| == |cfg.deps| && At(st, k) && st.closers[k].Polling?
    requires CloserOK(cfg, st, st.closers[k])
    ensures CloserOK(cfg, Apply(cfg, st, LoadGate(k)), Apply(cfg, st, LoadGate(k)).closers[k])
  {
  }

  lemma CloserKept(cfg: Config, st: State, mv: Move, k: nat)
    requires Inv(cfg, st) && Enabled(cfg, st, mv)
    requires !mv.Act? && !mv.Enter? && !mv.TestSealed? && !mv.Retry? && !mv.GiveUp? && mv.k == k
    ensures CloserOK(cfg, Apply(cfg, st, mv), Apply(cfg, st, mv).closers[k])
  {
    assert CloserOK(cfg, st, st.closers[k]);
    hide LogInv, Drained, Polled;
    if mv.LoadGate? {
      PollKept(cfg, st, k);
    }
  }

  ghost predicate OneInside(st: State) {
    forall j, k :: 0 <= j < |st.closers| && 0 <= k < |st.closers|
      && Inside(st.closers[j]) && Inside(st.closers[k])
      ==> j == k
  }

  predicate Inside(pc: CloserPc) {
    pc.Closing? || pc.Finishing?
  }

  lemma InsideMeansBusy(cfg: Config, st: State)
    requires Inv(cfg, st)
    ensures forall k :: 0 <= k < |st.closers| && Inside(st.closers[k]) ==> st.once.Busy?
  {
    forall k | 0 <= k < |st.closers| ensures Inside(st.closers[k]) ==> st.once.Busy? {
      assert CloserOK(cfg, st, st.closers[k]);
    }
  }

  lemma OneInsideKept(cfg: Config, st: State, mv: Move)
    requires cfg.Valid() && OneInside(st) && Enabled(cfg, st, mv)
    requires forall k :: 0 <= k < |st.closers| && Inside(st.closers[k]) ==> st.once.Busy?
    ensures OneInside(Apply(cfg, st, mv))
  {
  }

  lemma ClosersKept(cfg: Config, st: State, mv: Move)
    requires Inv(cfg, st) && OneInside(st) && Enabled(cfg, st, mv)
    requires !mv.Act? && !mv.Enter? && !mv.TestSealed? && !mv.Retry? && !mv.GiveUp?
    ensures Inv(cfg, Apply(cfg, st, mv))
  {
    var st' := Apply(cfg, st, mv);
    forall k | 0 <= k < |st'.closers| ensures CloserOK(cfg, st', st'.closers[k]) {
      if k == mv.k {
        CloserKept(cfg, st, mv, k);
      } else {
        OtherCloser(cfg, st, mv, k);
      }
    }
    assert CloserOK(cfg, st, st.closers[mv.k]);
  }

  lemma OtherCloser(cfg: Config, st: State, mv: Move, k: nat)
    requires Inv(cfg, st) && OneInside(st) && Enabled(cfg, st, mv)
    requires !mv.Act? && !mv.Enter? && !mv.TestSealed? && !mv.Retry? && !mv.GiveUp? && k < |st.closers| && k != mv.k
    ensures CloserOK(cfg, Apply(cfg, st, mv), st.closers[k])
  {
    assert CloserOK(cfg, st, st.closers[k]);
    assert CloserOK(cfg, st, st.closers[mv.k]);
  }

  ghost predicate Run(cfg: Config, mvs: seq<Move>, sts: seq<State>)
    requires cfg.Valid()
  {
    && |sts| == |mvs| + 1
    && forall i :: 0 <= i < |mvs| ==> Enabled(cfg, sts[i], mvs[i]) && sts[i + 1] == Apply(cfg, sts[i], mvs[i])
  }

  /** A run from an open ring. */
  ghost predicate Begins(cfg: Config, calls: nat, closers: nat, mvs: seq<Move>, sts: seq<State>)
    requires cfg.Valid()
  {
    Run(cfg, mvs, sts) && sts[0] == Initial(cfg, calls, closers)
  }

  lemma MoveKeeps(cfg: Config, st: State, mv: Move)
    requires Inv(cfg, st) && OneInside(st) && Enabled(cfg, st, mv)
    ensures Inv(cfg, Apply(cfg, st, mv)) && OneInside(Apply(cfg, st, mv))
  {
    InsideMeansBusy(cfg, st);
    OneInsideKept(cfg, st, mv);
    if mv.Act? {
      ActKept(cfg, st, mv.act);
    } else if mv.Enter? || mv.TestSealed? || mv.Retry? || mv.GiveUp? {
      CallKept(cfg, st, mv);
    } else {
      ClosersKept(cfg, st, mv);
    }
  }

  lemma {:induction false} Reached(cfg: Config, calls: nat, closers: nat, mvs: seq<Move>, sts: seq<State>, i: nat)
    requires cfg.Valid() && Begins(cfg, calls, closers, mvs, sts) && i < |sts|
    ensures Inv(cfg, sts[i]) && OneInside(sts[i]) && |sts[i].closers| == closers && |sts[i].calls| == calls
  {
    if i == 0 {
      StartOK(cfg);
    } else {
      Reached(cfg, calls, closers, mvs, sts, i - 1);
      assert Enabled(cfg, sts[i - 1], mvs[i - 1]) && sts[i] == Apply(cfg, sts[i - 1], mvs[i - 1]);
      MoveKeeps(cfg, sts[i - 1], mvs[i - 1]);
      SameThreads(cfg, sts[i - 1], mvs[i - 1]);
    }
  }

  lemma SameThreads(cfg: Config, st: State, mv: Move)
    requires cfg.Valid() && Enabled(cfg, st, mv)
    ensures var st' := Apply(cfg, st, mv); |st'.closers| == |st.closers| && |st'.calls| == |st.calls|
  {
  }

  /**
   * Consumer `c` has acknowledged the final claim, every claim is resolved, and it was delivered
   * exactly those not discarded.
   */
  ghost predicate Finished(L: LogState, c: nat, boundary: int)
    requires c < |L.readers|
  {
    && L.readers[c].pos == boundary && boundary == |L.recs| - 1
    && AllResolved(L.recs, 0, |L.recs|)
    && L.readers[c].acked == Live(L.recs, 0, |L.recs|)
  }

  lemma ConsumerFinished(cfg: Config, L: LogState, c: nat, boundary: int)
    requires cfg.Valid() && c < |L.readers| && ReaderOK(cfg, L.recs, L.readers[c])
    requires boundary == |L.recs| - 1 && boundary <= L.readers[c].pos
    ensures Finished(L, c, boundary)
  {
    assert L.readers[c].pos + 1 == |L.recs|;
  }

  /** A drained ring: the gates hold every consumer at the last claim. */
  lemma DrainedMeansFinished(cfg: Config, L: LogState, boundary: int)
    requires cfg.Valid() && LogInv(cfg, L) && Drained(cfg, L, boundary)
    ensures forall c :: 0 <= c < |L.readers| ==> Finished(L, c, boundary)
  {
    GatesProtectAll(cfg, Positions(L.readers), boundary);
    forall c | 0 <= c < |L.readers| ensures Finished(L, c, boundary) {
      assert boundary <= Positions(L.readers)[c];
      ConsumerFinished(cfg, L, c, boundary);
    }
  }

  /**
   * Shutdown drains: when it has returned nil, every consumer on every path to a gate has
   * finished. Every Shutdown that won the seal leaves the ring closed.
   */
  lemma ShutdownDrains(cfg: Config, calls: nat, closers: nat, mvs: seq<Move>, sts: seq<State>, i: nat, k: nat)
    requires cfg.Valid() && Begins(cfg, calls, closers, mvs, sts) && i < |sts|
    requires At(sts[i], k) && sts[i].closers[k].Returned? && sts[i].closers[k].won
    ensures sts[i].closed && sts[i].sealed
    ensures sts[i].closers[k].drained ==>
              forall c :: 0 <= c < |sts[i].L.readers| ==> Finished(sts[i].L, c, sts[i].closers[k].boundary)
  {
    var st := sts[i];
    Reached(cfg, calls, closers, mvs, sts, i);
    assert CloserOK(cfg, st, st.closers[k]);
    if st.closers[k].drained {
      DrainedMeansFinished(cfg, st.L, st.closers[k].boundary);
    }
  }

  // Why calls return as they do, told from the moves

  /** The thread made this move in its latest call. */
  predicate LastMade(mvs: seq<Move>, i: int, j: int, k: nat) {
    0 <= j < i <= |mvs| && forall l :: j < l < i ==> mvs[l] != BeginShutdown(k) && mvs[l] != BeginClose(k)
  }

  /** The drain was cancelled, or found the ring closed by somebody else. */
  ghost predicate GaveUp(mvs: seq<Move>, sts: seq<State>, i: int, k: nat)
    requires |sts| == |mvs| + 1
  {
    exists j :: LastMade(mvs, i, j, k) && mvs[j].LookAgain? && mvs[j].k == k && (mvs[j].cancelled || sts[j].closed)
  }

  /** The call found the ring closed, or sealed by somebody else. */
  ghost predicate FoundShut(mvs: seq<Move>, sts: seq<State>, i: int, k: nat)
    requires |sts| == |mvs| + 1
  {
    exists j :: LastMade(mvs, i, j, k)
                && ((mvs[j] == LoadClosed(k) && sts[j].closed) || (mvs[j] == SwapSealed(k) && sts[j].sealed))
  }

  /** The call sealed the ring. */
  ghost predicate SealedIt(mvs: seq<Move>, sts: seq<State>, i: int, k: nat)
    requires |sts| == |mvs| + 1
  {
    exists j :: LastMade(mvs, i, j, k) && mvs[j] == SwapSealed(k) && !sts[j].sealed
  }

  ghost predicate IsClose(mvs: seq<Move>, i: int, k: nat) {
    exists j :: LastMade(mvs, i, j, k) && mvs[j] == BeginClose(k)
  }

  /** Past the decision: sealed and drained, sealed and not, or not sealed by this call. */
  predicate Ends(pc: CloserPc, won: bool, drained: bool) {
    match pc
    case Deferred(w, d, _) => w == won && d == drained
    case AtOnce(w, d, _) => w == won && d == drained
    case Closing(w, d, _) => w == won && d == drained
    case Finishing(w, d, _) => w == won && d == drained
    case Returned(w, d, _) => w == won && d == drained
    case _ => false
  }

  ghost predicate Explained(mvs: seq<Move>, sts: seq<State>, i: int, k: nat, pc: CloserPc)
    requires |sts| == |mvs| + 1
  {
    && (Winner(pc) ==> SealedIt(mvs, sts, i, k))
    && (Ends(pc, true, false) ==> GaveUp(mvs, sts, i, k))
    && (Ends(pc, false, false) ==> FoundShut(mvs, sts, i, k) || IsClose(mvs, i, k))
  }

  lemma ExplainedLater(mvs: seq<Move>, sts: seq<State>, i: nat, k: nat, pc: CloserPc)
    requires |sts| == |mvs| + 1 && i < |mvs| && Explained(mvs, sts, i, k, pc)
    requires mvs[i] != BeginShutdown(k) && mvs[i] != BeginClose(k)
    ensures Explained(mvs, sts, i + 1, k, pc)
  {
    if SealedIt(mvs, sts, i, k) {
      var j :| LastMade(mvs, i, j, k) && mvs[j] == SwapSealed(k) && !sts[j].sealed;
      assert LastMade(mvs, i + 1, j, k);
    }
    if GaveUp(mvs, sts, i, k) {
      var j :| LastMade(mvs, i, j, k) && mvs[j].LookAgain? && mvs[j].k == k && (mvs[j].cancelled || sts[j].closed);
      assert LastMade(mvs, i + 1, j, k);
    }
    if FoundShut(mvs, sts, i, k) {
      var j :| LastMade(mvs, i, j, k)
               && ((mvs[j] == LoadClosed(k) && sts[j].closed) || (mvs[j] == SwapSealed(k) && sts[j].sealed));
      assert LastMade(mvs, i + 1, j, k);
    }
    if IsClose(mvs, i, k) {
      var j :| LastMade(mvs, i, j, k) && mvs[j] == BeginClose(k);
      assert LastMade(mvs, i + 1, j, k);
    }
  }

  /** How a closer comes to have decided: only at these moves does the decision change. */
  lemma DecisionMade(cfg: Config, st: State, mv: Move, k: nat)
    requires cfg.Valid() && Enabled(cfg, st, mv) && k < |st.closers|
    ensures var pc, pc' := st.closers[k], Apply(cfg, st, mv).closers[k];
            && (mv == BeginShutdown(k) || mv == BeginClose(k) ==> !Winner(pc') && !Ends(pc', true, false))
            && (mv == BeginShutdown(k) ==> !Ends(pc', false, false))
            && (Winner(pc') && !Winner(pc) ==> mv == SwapSealed(k) && !st.sealed)
            && (Ends(pc', true, false) && !Ends(pc, true, false) ==>
                  mv.LookAgain? && mv.k == k && (mv.cancelled || st.closed))
            && (Ends(pc', false, false) && !Ends(pc, false, false) ==>
                  mv == BeginClose(k) || (mv == LoadClosed(k) && st.closed) || (mv == SwapSealed(k) && st.sealed))
  {
    if !mv.Act? && !mv.Enter? && !mv.TestSealed? && !mv.Retry? && !mv.GiveUp? {
      hide Perform, Permitted;
    }
  }

  lemma {:induction false} AlwaysExplained(cfg: Config, calls: nat, closers: nat, mvs: seq<Move>, sts: seq<State>,
                                           i: nat, k: nat)
    requires cfg.Valid() && Begins(cfg, calls, closers, mvs, sts) && i < |sts| && k < closers
    ensures |sts[i].closers| == closers && Explained(mvs, sts, i, k, sts[i].closers[k])
  {
    hide Enabled, Apply, Inv;
    Reached(cfg, calls, closers, mvs, sts, i);
    if i > 0 {
      AlwaysExplained(cfg, calls, closers, mvs, sts, i - 1, k);
      var mv := mvs[i - 1];
      assert Enabled(cfg, sts[i - 1], mv) && sts[i] == Apply(cfg, sts[i - 1], mv);
      DecisionMade(cfg, sts[i - 1], mv, k);
      assert LastMade(mvs, i, i - 1, k);
      if mv != BeginShutdown(k) && mv != BeginClose(k) {
        ExplainedLater(mvs, sts, i - 1, k, sts[i - 1].closers[k]);
      }
      hide Winner, Ends;
    }
  }

  /**
   * A Shutdown fails for a reason: one that sealed the ring and did not return nil was cancelled
   * or found the ring closed while it waited for the drain, and one that did not seal the ring
   * found it closed or sealed by somebody else.
   */
  lemma FailuresExplained(cfg: Config, calls: nat, closers: nat, mvs: seq<Move>, sts: seq<State>, i: nat, k: nat)
    requires cfg.Valid() && Begins(cfg, calls, closers, mvs, sts) && i < |sts|
    requires At(sts[i], k) && sts[i].closers[k].Returned? && !sts[i].closers[k].drained
    ensures sts[i].closers[k].won ==> SealedIt(mvs, sts, i, k) && GaveUp(mvs, sts, i, k)
    ensures !sts[i].closers[k].won ==> FoundShut(mvs, sts, i, k) || IsClose(mvs, i, k)
  {
    Reached(cfg, calls, closers, mvs, sts, i);
    AlwaysExplained(cfg, calls, closers, mvs, sts, i, k);
  }

  /** Where a `Close` can be. */
  predicate ClosesNow(pc: CloserPc) {
    pc.Deferred? || pc.AtOnce? || pc.Closing? || pc.Finishing? || pc.Returned? || pc.Away?
  }

  lemma CloseMoves(cfg: Config, st: State, mv: Move, k: nat)
    requires Inv(cfg, st) && Enabled(cfg, st, mv) && k < |st.closers| && mv != BeginShutdown(k)
    requires ClosesNow(st.closers[k]) && (st.closers[k].Returned? ==> st.closed)
    ensures var st' := Apply(cfg, st, mv);
            ClosesNow(st'.closers[k]) && (st'.closers[k].Returned? ==> st'.closed)
  {
    assert CloserOK(cfg, st, st.closers[k]);
  }

  lemma CloseStarts(cfg: Config, mvs: seq<Move>, sts: seq<State>, j: nat, k: nat)
    requires cfg.Valid() && Run(cfg, mvs, sts) && j < |mvs| && mvs[j] == BeginClose(k)
    ensures At(sts[j + 1], k) && sts[j + 1].closers[k].Deferred? && ClosesNow(sts[j + 1].closers[k])
  {
    assert Enabled(cfg, sts[j], mvs[j]);
  }

  /** Close closes: when it has returned the ring is sealed and closed, whoever did it. */
  lemma {:induction false} CloseCloses(cfg: Config, calls: nat, closers: nat, mvs: seq<Move>, sts: seq<State>, i: nat,
                                       k: nat)
    requires cfg.Valid() && Begins(cfg, calls, closers, mvs, sts) && i < |sts| && k < closers && IsClose(mvs, i, k)
    ensures At(sts[i], k) && ClosesNow(sts[i].closers[k])
    ensures sts[i].closers[k].Returned? ==> sts[i].closed && sts[i].sealed
  {
    hide Enabled, Apply, Inv, OneInside, Initial, ClosesNow;
    Reached(cfg, calls, closers, mvs, sts, i);
    var j :| LastMade(mvs, i, j, k) && mvs[j] == BeginClose(k);
    if j == i - 1 {
      CloseStarts(cfg, mvs, sts, j, k);
    } else {
      assert LastMade(mvs, i - 1, j, k);
      Reached(cfg, calls, closers, mvs, sts, i - 1);
      CloseCloses(cfg, calls, closers, mvs, sts, i - 1, k);
      CloseMoves(cfg, sts[i - 1], mvs[i - 1], k);
      SealedIfClosed(cfg, sts[i]);
    }
  }

  lemma SealedIfClosed(cfg: Config, st: State)
    requires Inv(cfg, st)
    ensures st.closed ==> st.sealed
  {
  }

  /** The claim call in progress entered when the ring was not sealed. */
  ghost predicate EnteredOpen(mvs: seq<Move>, sts: seq<State>, i: int, p: nat)
    requires |sts| == |mvs| + 1
  {
    exists j :: LatestEntry(mvs, i, j, p) && !sts[j].sealed
  }

  predicate LatestEntry(mvs: seq<Move>, i: int, j: int, p: nat) {
    0 <= j < i <= |mvs| && mvs[j] == Enter(p) && forall l :: j < l < i ==> mvs[l] != Enter(p)
  }

  lemma {:induction false} SealStays(cfg: Config, mvs: seq<Move>, sts: seq<State>, j: nat, i: nat)
    requires cfg.Valid() && Run(cfg, mvs, sts) && j <= i < |sts| && sts[j].sealed
    ensures sts[i].sealed
  {
    if j < i {
      SealStays(cfg, mvs, sts, j, i - 1);
      assert Enabled(cfg, sts[i - 1], mvs[i - 1]) && sts[i] == Apply(cfg, sts[i - 1], mvs[i - 1]);
    }
  }

  lemma CallMoves(cfg: Config, st: State, mv: Move, p: nat)
    requires cfg.Valid() && Enabled(cfg, st, mv) && p < |st.calls|
    ensures var pc, pc' := st.calls[p], Apply(cfg, st, mv).calls[p];
            && (pc.Outside? && !pc'.Outside? ==> mv == Enter(p))
            && (mv == Enter(p) ==> pc'.Entered?)
            && (pc'.Passed? && !pc.Passed? ==> mv == TestSealed(p) && !st.sealed)
  {
  }

  lemma {:induction false} EntryKnown(cfg: Config, calls: nat, closers: nat, mvs: seq<Move>, sts: seq<State>, i: nat,
                                      p: nat)
    requires cfg.Valid() && Begins(cfg, calls, closers, mvs, sts) && i < |sts| && p < calls
    ensures |sts[i].calls| == calls
    ensures !sts[i].calls[p].Outside? ==> exists j :: LatestEntry(mvs, i, j, p)
    ensures sts[i].calls[p].Passed? ==> EnteredOpen(mvs, sts, i, p)
  {
    hide Enabled, Apply, Inv;
    Reached(cfg, calls, closers, mvs, sts, i);
    if i > 0 {
      EntryKnown(cfg, calls, closers, mvs, sts, i - 1, p);
      var st, mv := sts[i - 1], mvs[i - 1];
      assert Enabled(cfg, st, mv) && sts[i] == Apply(cfg, st, mv);
      CallMoves(cfg, st, mv, p);
      if mv == Enter(p) {
        assert LatestEntry(mvs, i, i - 1, p);
      } else if !sts[i].calls[p].Outside? {
        var j :| LatestEntry(mvs, i - 1, j, p) && (st.calls[p].Passed? ==> !sts[j].sealed);
        assert LatestEntry(mvs, i, j, p);
        if mv == TestSealed(p) && sts[j].sealed {
          SealStays(cfg, mvs, sts, j, i - 1);
        }
      }
    }
  }

  /** No claim call that starts after the ring is sealed succeeds. */
  lemma NoClaimAfterSeal(cfg: Config, calls: nat, closers: nat, mvs: seq<Move>, sts: seq<State>, i: nat)
    requires cfg.Valid() && Begins(cfg, calls, closers, mvs, sts) && i < |mvs|
    requires mvs[i].Act? && mvs[i].act.Claim?
    ensures EnteredOpen(mvs, sts, i, mvs[i].act.p)
  {
    Reached(cfg, calls, closers, mvs, sts, i);
    assert Enabled(cfg, sts[i], mvs[i]);
    EntryKnown(cfg, calls, closers, mvs, sts, i, mvs[i].act.p);
  }

  // Shutdown alone

  /** A move of closer `k` that nobody cancelled. */
  predicate Alone(k: nat, mv: Move) {
    match mv
    case BeginShutdown(j) => j == k
    case LoadClosed(j) => j == k
    case SwapSealed(j) => j == k
    case LoadBoundary(j) => j == k
    case LoadGate(j) => j == k
    case LookAgain(j, cancelled) => j == k && !cancelled
    case StoreSealed(j) => j == k
    case EnterOnce(j) => j == k
    case StoreClosed(j) => j == k
    case LeaveOnce(j) => j == k
    case _ => false
  }

  /** Moves of closer `k` alone lead from `st` to `st'`. */
  ghost predicate Leads(cfg: Config, st: State, k: nat, st': State)
    requires cfg.Valid()
  {
    exists mvs, sts :: Run(cfg, mvs, sts) && sts[0] == st && sts[|mvs|] == st'
                       && forall i :: 0 <= i < |mvs| ==> Alone(k, mvs[i])
  }

  lemma Arrived(cfg: Config, st: State, k: nat)
    requires cfg.Valid()
    ensures Leads(cfg, st, k, st)
  {
    assert Run(cfg, [], [st]);
  }

  lemma OneMore(cfg: Config, st: State, mv: Move, k: nat, st': State)
    requires cfg.Valid() && Enabled(cfg, st, mv) && Alone(k, mv) && Leads(cfg, Apply(cfg, st, mv), k, st')
    ensures Leads(cfg, st, k, st')
  {
    hide Enabled, Apply, Alone;
    var mvs, sts :| Run(cfg, mvs, sts) && sts[0] == Apply(cfg, st, mv) && sts[|mvs|] == st'
                    && forall i :: 0 <= i < |mvs| ==> Alone(k, mvs[i]);
    var mvs', sts' := [mv] + mvs, [st] + sts;
    forall i | 0 <= i < |mvs'|
      ensures Enabled(cfg, sts'[i], mvs'[i]) && sts'[i + 1] == Apply(cfg, sts'[i], mvs'[i]) && Alone(k, mvs'[i])
    {
      if i > 0 {
        assert sts'[i] == sts[i - 1] && mvs'[i] == mvs[i - 1] && sts'[i + 1] == sts[i];
      }
    }
    assert Run(cfg, mvs', sts');
  }

  /** Every gate has acknowledged the final claim. */
  ghost predicate AtTheEnd(cfg: Config, L: LogState) {
    && |L.readers| == |cfg.deps|
    && forall j :: 0 <= j < |cfg.gates| && cfg.gates[j] < |L.readers| ==>
         |L.recs| - 1 <= L.readers[cfg.gates[j]].pos
  }

  /** A pass over the gates that has found nothing behind completes the drain. */
  lemma {:induction false} PassDrains(cfg: Config, st: State, k: nat, st': State)
    requires cfg.Valid() && AtTheEnd(cfg, st.L) && At(st, k)
    requires st.closers[k].Polling? && st.closers[k].boundary == |st.L.recs| - 1 && st.closers[k].i < |cfg.gates|
    requires st.closers[k].i == 0 || st.closers[k].boundary <= st.closers[k].low
    requires Leads(cfg, Goto(st, k, Deferred(true, true, |st.L.recs| - 1)), k, st')
    ensures Leads(cfg, st, k, st')
    decreases |cfg.gates| - st.closers[k].i
  {
    var next := Apply(cfg, st, LoadGate(k));
    if next.closers[k].Polling? {
      assert Goto(next, k, Deferred(true, true, |st.L.recs| - 1)) == Goto(st, k, Deferred(true, true, |st.L.recs| - 1));
      PassDrains(cfg, next, k, st');
    } else {
      assert next == Goto(st, k, Deferred(true, true, |st.L.recs| - 1));
    }
    OneMore(cfg, st, LoadGate(k), k, st');
  }

  /** Any pass does, at the latest after one more look. */
  lemma {:induction false} PollingDrains(cfg: Config, st: State, k: nat, st': State)
    requires cfg.Valid() && AtTheEnd(cfg, st.L) && At(st, k) && !st.closed
    requires st.closers[k].Polling? && st.closers[k].boundary == |st.L.recs| - 1 && st.closers[k].i < |cfg.gates|
    requires Leads(cfg, Goto(st, k, Deferred(true, true, |st.L.recs| - 1)), k, st')
    ensures Leads(cfg, st, k, st')
    decreases |cfg.gates| - st.closers[k].i
  {
    var done := Goto(st, k, Deferred(true, true, |st.L.recs| - 1));
    if st.closers[k].i == 0 || st.closers[k].boundary <= st.closers[k].low {
      PassDrains(cfg, st, k, st');
    } else {
      var next := Apply(cfg, st, LoadGate(k));
      if next.closers[k].Polling? {
        assert Goto(next, k, Deferred(true, true, |st.L.recs| - 1)) == done;
        PollingDrains(cfg, next, k, st');
      } else if next.closers[k].Behind? {
        var again := Apply(cfg, next, LookAgain(k, false));
        assert Goto(again, k, Deferred(true, true, |st.L.recs| - 1)) == done;
        PassDrains(cfg, again, k, st');
        OneMore(cfg, next, LookAgain(k, false), k, st');
      } else {
        assert next == done;
      }
      OneMore(cfg, st, LoadGate(k), k, st');
    }
  }

  /** Closing after a decision. */
  lemma DeferredCloses(cfg: Config, st: State, k: nat)
    requires cfg.Valid() && At(st, k) && st.closers[k].Deferred? && st.once.NotRun?
    ensures var pc := st.closers[k];
            Leads(cfg, st, k, Goto(st, k, Returned(pc.won, pc.drained, pc.boundary))
                              .(sealed := true, closed := true, once := Done))
  {
    var pc := st.closers[k];
    var a := Apply(cfg, st, StoreSealed(k));
    var b := Apply(cfg, a, EnterOnce(k));
    var c := Apply(cfg, b, StoreClosed(k));
    var d := Apply(cfg, c, LeaveOnce(k));
    assert d == Goto(st, k, Returned(pc.won, pc.drained, pc.boundary)).(sealed := true, closed := true, once := Done);
    Arrived(cfg, d, k);
    OneMore(cfg, c, LeaveOnce(k), k, d);
    OneMore(cfg, b, StoreClosed(k), k, d);
    OneMore(cfg, a, EnterOnce(k), k, d);
    OneMore(cfg, st, StoreSealed(k), k, d);
  }

  /** The state in which Shutdown has returned nil to closer `k`. */
  function ReturnedNil(st: State, k: nat): State
    requires At(st, k)
  {
    Goto(st, k, Returned(true, true, |st.L.recs| - 1)).(sealed := true, closed := true, once := Done)
  }

  lemma DrainReturns(cfg: Config, st: State, k: nat)
    requires Inv(cfg, st) && AtTheEnd(cfg, st.L) && At(st, k) && !st.closed && !st.once.Busy?
    requires st.closers[k].Polling?
    ensures Leads(cfg, st, k, ReturnedNil(st, k))
  {
    assert CloserOK(cfg, st, st.closers[k]);
    var done := Goto(st, k, Deferred(true, true, |st.L.recs| - 1));
    DeferredCloses(cfg, done, k);
    assert ReturnedNil(st, k) ==
           Goto(done, k, Returned(true, true, |st.L.recs| - 1)).(sealed := true, closed := true, once := Done);
    PollingDrains(cfg, st, k, ReturnedNil(st, k));
  }

  /** A Shutdown that starts when no claim is under way seals the ring and drains it. */
  lemma FreshDrains(cfg: Config, st: State, k: nat)
    requires Inv(cfg, st) && OneInside(st) && AtTheEnd(cfg, st.L) && At(st, k) && !st.closed && !st.once.Busy?
    requires st.closers[k].Away? && !st.sealed && forall p :: 0 <= p < |st.calls| ==> !st.calls[p].Passed?
    ensures Leads(cfg, st, k, ReturnedNil(st, k))
  {
    var a := Apply(cfg, st, BeginShutdown(k));
    var b := Apply(cfg, a, LoadClosed(k));
    var c := Apply(cfg, b, SwapSealed(k));
    var d := Apply(cfg, c, LoadBoundary(k));
    assert d == Goto(st, k, Polling(|st.L.recs| - 1, 0, 0)).(sealed := true);
    assert ReturnedNil(d, k) == ReturnedNil(st, k);
    MoveKeeps(cfg, st, BeginShutdown(k));
    MoveKeeps(cfg, a, LoadClosed(k));
    MoveKeeps(cfg, b, SwapSealed(k));
    MoveKeeps(cfg, c, LoadBoundary(k));
    hide Inv, Leads, ReturnedNil;
    DrainReturns(cfg, d, k);
    OneMore(cfg, c, LoadBoundary(k), k, ReturnedNil(st, k));
    OneMore(cfg, b, SwapSealed(k), k, ReturnedNil(st, k));
    OneMore(cfg, a, LoadClosed(k), k, ReturnedNil(st, k));
    OneMore(cfg, st, BeginShutdown(k), k, ReturnedNil(st, k));
  }

  /**
   * Shutdown does return nil: in any reachable state of an open ring whose gates have all
   * acknowledged the final claim, a Shutdown that is waiting for the drain, or one that starts on
   * an unsealed ring with no claim under way, returns nil by moves of its own that nobody cancels.
   */
  lemma ShutdownReturnsNil(cfg: Config, calls: nat, closers: nat, mvs: seq<Move>, sts: seq<State>, i: nat, k: nat)
    requires cfg.Valid() && Begins(cfg, calls, closers, mvs, sts) && i < |sts|
    requires At(sts[i], k) && AtTheEnd(cfg, sts[i].L) && !sts[i].closed && !sts[i].once.Busy?
    requires sts[i].closers[k].Polling? || (sts[i].closers[k].Away? && !sts[i].sealed
             && forall p :: 0 <= p < |sts[i].calls| ==> !sts[i].calls[p].Passed?)
    ensures Leads(cfg, sts[i], k, ReturnedNil(sts[i], k))
  {
    Reached(cfg, calls, closers, mvs, sts, i);
    if sts[i].closers[k].Polling? {
      DrainReturns(cfg, sts[i], k);
    } else {
      FreshDrains(cfg, sts[i], k);
    }
  }
}
