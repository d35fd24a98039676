/** `BatchProcessor.Run` and `Halt` as a concurrent machine over the processor state and its alert. */
module RunHalt {

  datatype ProcessorState = Idle | Starting | Running | Halted

  datatype RunnerPc = Out | Claimed | Cleared | Top | Entering | Waiting | Working | Leaving

  /** A thread inside `Halt`; `Won` is between its swap of the state and its alert. */
  datatype HalterPc = Resting | Looking | Loaded(seen: ProcessorState) | Won

  datatype State = State(
    proc: ProcessorState,
    alerted: bool,
    runners: seq<RunnerPc>,
    halters: seq<HalterPc>)

  datatype Move =
    | Start(r: nat)
    | ClearAlert(r: nat)
    | Confirm(r: nat)
    | CheckContext(r: nat, cancelled: bool)
    | CheckAlert(r: nat)
    | WaitReturns(r: nat, available: bool)
    | BatchEnds(r: nat, ok: bool)
    | Leave(r: nat)
    | Halt(h: nat)
    | LoadState(h: nat)
    | SwapState(h: nat)
    | StoreAlert(h: nat)
    | Alert

  predicate At(st: State, r: nat, pc: RunnerPc) {
    r < |st.runners| && st.runners[r] == pc
  }

  predicate Enabled(st: State, mv: Move) {
    match mv
    case Start(r) => At(st, r, Out)
    case ClearAlert(r) => At(st, r, Claimed)
    case Confirm(r) => At(st, r, Cleared)
    case CheckContext(r, _) => At(st, r, Top)
    case CheckAlert(r) => At(st, r, Entering)
    case WaitReturns(r, _) => At(st, r, Waiting)
    case BatchEnds(r, _) => At(st, r, Working)
    case Leave(r) => At(st, r, Leaving)
    case Halt(h) => h < |st.halters| && st.halters[h].Resting?
    case LoadState(h) => h < |st.halters| && st.halters[h].Looking?
    case SwapState(h) => h < |st.halters| && st.halters[h].Loaded?
    case StoreAlert(h) => h < |st.halters| && st.halters[h].Won?
    case Alert => true
  }

  function Goto(st: State, r: nat, pc: RunnerPc): State
    requires r < |st.runners|
  {
    st.(runners := st.runners[r := pc])
  }

  function Apply(st: State, mv: Move): State
    requires Enabled(st, mv)
  {
    match mv
    case Start(r) => if st.proc.Idle? then Goto(st, r, Claimed).(proc := Starting) else st
    case ClearAlert(r) => Goto(st, r, Cleared).(alerted := false)
    case Confirm(r) => if st.proc.Starting? then Goto(st, r, Top).(proc := Running) else Goto(st, r, Leaving)
    case CheckContext(r, cancelled) => Goto(st, r, if cancelled then Leaving else Entering)
    case CheckAlert(r) => Goto(st, r, if st.alerted then Leaving else Waiting)
    case WaitReturns(r, available) => Goto(st, r, if available then Working else Leaving)
    case BatchEnds(r, ok) => Goto(st, r, if ok then Top else Leaving)
    case Leave(r) => Goto(st, r, Out).(proc := Idle)
    case Halt(h) => st.(halters := st.halters[h := Looking])
    case LoadState(h) =>
      st.(halters := st.halters[h := if st.proc.Idle? || st.proc.Halted? then Resting else Loaded(st.proc)])
    case SwapState(h) =>
      if st.proc == st.halters[h].seen then st.(proc := Halted, halters := st.halters[h := Won])
      else st.(halters := st.halters[h := Looking])
    case StoreAlert(h) => st.(alerted := true, halters := st.halters[h := Resting])
    case Alert => st.(alerted := true)
  }

  function Initial(runners: nat, halters: nat): State {
    State(Idle, false, seq(runners, i => Out), seq(halters, i => Resting))
  }

  // One Run at a time

  /** At most one Run owns the processor, and one does exactly when it is not idle. */
  ghost predicate SoleOwner(st: State) {
    && (forall r, q :: 0 <= r < |st.runners| && 0 <= q < |st.runners|
          && !st.runners[r].Out? && !st.runners[q].Out?
          ==> r == q)
    && (st.proc.Idle? <==> forall r :: 0 <= r < |st.runners| ==> st.runners[r].Out?)
  }

  predicate Processing(pc: RunnerPc) {
    pc.Top? || pc.Entering? || pc.Waiting? || pc.Working?
  }

  ghost predicate Inv(st: State) {
    && SoleOwner(st)
    && forall h :: 0 <= h < |st.halters| && st.halters[h].Loaded? ==>
         st.halters[h].seen.Starting? || st.halters[h].seen.Running?
  }

  lemma InvKept(st: State, mv: Move)
    requires Inv(st) && Enabled(st, mv)
    ensures Inv(Apply(st, mv))
  {
    var st' := Apply(st, mv);
    if mv.Start? && st.proc.Idle? {
      assert !st'.runners[mv.r].Out?;
    }
    if !st'.proc.Idle? && !mv.Start? {
      if !st.proc.Idle? {
        var r :| 0 <= r < |st.runners| && !st.runners[r].Out?;
        assert !st'.runners[r].Out?;
      }
    }
  }

  ghost predicate Run(mvs: seq<Move>, sts: seq<State>) {
    && |sts| == |mvs| + 1
    && forall i :: 0 <= i < |mvs| ==> Enabled(sts[i], mvs[i]) && sts[i + 1] == Apply(sts[i], mvs[i])
  }

  ghost predicate Begins(runners: nat, halters: nat, mvs: seq<Move>, sts: seq<State>) {
    Run(mvs, sts) && sts[0] == Initial(runners, halters)
  }

  lemma {:induction false} Reached(runners: nat, halters: nat, mvs: seq<Move>, sts: seq<State>, i: nat)
    requires Begins(runners, halters, mvs, sts) && i < |sts|
    ensures Inv(sts[i]) && |sts[i].runners| == runners && |sts[i].halters| == halters
  {
    if i > 0 {
      Reached(runners, halters, mvs, sts, i - 1);
      InvKept(sts[i - 1], mvs[i - 1]);
    }
  }

  // Halt, told from the moves

  /** A Run takes ownership of the processor. */
  predicate Takes(st: State, mv: Move) {
    mv.Start? && st.proc.Idle?
  }

  /** Between the states `i` and `k` no Run takes ownership: whichever Run is halted is the same. */
  predicate SameRun(mvs: seq<Move>, sts: seq<State>, i: int, k: int) {
    0 <= i <= k < |sts| == |mvs| + 1 && forall l :: i <= l < k ==> !Takes(sts[l], mvs[l])
  }

  /** Halt `h` replaces the state of a Run that has started or is starting. */
  predicate Wins(st: State, mv: Move, h: nat) {
    && mv == SwapState(h) && (st.proc.Starting? || st.proc.Running?)
    && h < |st.halters| && st.halters[h] == Loaded(st.proc)
  }

  /** Halted, or its Run has left and no other has come. */
  predicate Stopping(st: State) {
    st.proc.Halted? || st.proc.Idle?
  }

  lemma {:induction false} StaysStopping(runners: nat, halters: nat, mvs: seq<Move>, sts: seq<State>, i: nat, k: nat)
    requires Begins(runners, halters, mvs, sts) && SameRun(mvs, sts, i, k) && Stopping(sts[i])
    ensures Stopping(sts[k])
    decreases k
  {
    if i < k {
      StaysStopping(runners, halters, mvs, sts, i, k - 1);
      Reached(runners, halters, mvs, sts, k - 1);
      assert Enabled(sts[k - 1], mvs[k - 1]) && sts[k] == Apply(sts[k - 1], mvs[k - 1]);
    }
  }

  ghost predicate NotProcessing(st: State) {
    forall r :: 0 <= r < |st.runners| ==> !Processing(st.runners[r])
  }

  /**
   * A Halt that wins while its Run has not confirmed its start, or is on its way out: in no later
   * state does that Run process, so it starts no batch at all.
   */
  lemma {:induction false} HaltDuringStart(runners: nat, halters: nat, mvs: seq<Move>, sts: seq<State>, i: nat, k: nat,
                                           h: nat)
    requires Begins(runners, halters, mvs, sts) && i < |mvs| && Wins(sts[i], mvs[i], h) && NotProcessing(sts[i])
    requires i < k && SameRun(mvs, sts, i, k)
    ensures NotProcessing(sts[k])
    decreases k
  {
    if k > i + 1 {
      HaltDuringStart(runners, halters, mvs, sts, i, k - 1, h);
      assert Stopping(sts[i + 1]);
      StaysStopping(runners, halters, mvs, sts, i + 1, k - 1);
      assert Enabled(sts[k - 1], mvs[k - 1]) && sts[k] == Apply(sts[k - 1], mvs[k - 1]);
    }
  }

  /** The moves of Runs among those from `i` up to `k`. */
  predicate IsRunMove(mv: Move) {
    match mv
    case ClearAlert(_) => true
    case Confirm(_) => true
    case CheckContext(_, _) => true
    case CheckAlert(_) => true
    case WaitReturns(_, _) => true
    case BatchEnds(_, _) => true
    case Leave(_) => true
    case _ => false
  }

  function RunMoves(mvs: seq<Move>, i: nat, k: nat): nat
    requires i <= k <= |mvs|
    decreases k
  {
    if i == k then 0 else RunMoves(mvs, i, k - 1) + if IsRunMove(mvs[k - 1]) then 1 else 0
  }

  /** The batches started among those moves. */
  function Batches(mvs: seq<Move>, i: nat, k: nat): nat
    requires i <= k <= |mvs|
    decreases k
  {
    if i == k then 0
    else Batches(mvs, i, k - 1) + if mvs[k - 1].WaitReturns? && mvs[k - 1].available then 1 else 0
  }

  /** How many moves a Run has left once its alert stands. */
  function Rank(pc: RunnerPc): nat {
    match pc
    case Out => 0
    case Leaving => 1
    case Entering => 2
    case Cleared => 2
    case Top => 3
    case Claimed => 3
    case Working => 4
    case Waiting => 5
  }

  /** The alert of a Halt that won has been stored: it stands for as long as the Run processes. */
  ghost predicate Told(st: State) {
    Stopping(st) && forall r :: 0 <= r < |st.runners| && Processing(st.runners[r]) ==> st.alerted
  }

  /** With `n` moves made and `b` batches started since the alert. */
  ghost predicate Winding(st: State, n: nat, b: nat) {
    && Told(st) && b <= 1
    && forall r :: 0 <= r < |st.runners| && !st.runners[r].Out? ==>
         n + Rank(st.runners[r]) <= 5 && (st.runners[r].Waiting? ==> b == 0)
  }

  lemma WindsDown(st: State, mv: Move, n: nat, b: nat)
    requires Inv(st) && Enabled(st, mv) && !Takes(st, mv) && Winding(st, n, b) && n <= 5
    ensures var n' := n + if IsRunMove(mv) then 1 else 0;
            var b' := b + if mv.WaitReturns? && mv.available then 1 else 0;
            n' <= 5 && Winding(Apply(st, mv), n', b')
  {
    var st' := Apply(st, mv);
    if IsRunMove(mv) {
      forall r | 0 <= r < |st'.runners| && !st'.runners[r].Out? ensures r == mv.r {
        assert !st.runners[mv.r].Out?;
      }
    }
  }

  lemma {:induction false} KeepsWinding(runners: nat, halters: nat, mvs: seq<Move>, sts: seq<State>, j: nat, k: nat)
    requires Begins(runners, halters, mvs, sts) && SameRun(mvs, sts, j, k) && Stopping(sts[j]) && sts[j].alerted
    ensures RunMoves(mvs, j, k) <= 5 && Winding(sts[k], RunMoves(mvs, j, k), Batches(mvs, j, k))
    decreases k
  {
    if j < k {
      KeepsWinding(runners, halters, mvs, sts, j, k - 1);
      Reached(runners, halters, mvs, sts, k - 1);
      assert Enabled(sts[k - 1], mvs[k - 1]) && sts[k] == Apply(sts[k - 1], mvs[k - 1]);
      WindsDown(sts[k - 1], mvs[k - 1], RunMoves(mvs, j, k - 1), Batches(mvs, j, k - 1));
    }
  }

  /**
   * Halt is not lost, in any interleaving. One Run at a time owns the processor; and once a Halt
   * has won its swap and stored its alert, then for as long as no other Run takes over, the alert
   * stands while the Run processes, the Run starts at most one more batch, and it makes at most
   * five more moves, after which it has returned.
   */
  lemma HaltIsNotLost(runners: nat, halters: nat, mvs: seq<Move>, sts: seq<State>, i: nat, j: nat, k: nat, h: nat)
    requires Begins(runners, halters, mvs, sts) && i < j < k && SameRun(mvs, sts, i, k)
    requires Wins(sts[i], mvs[i], h) && mvs[j] == StoreAlert(h)
    ensures SoleOwner(sts[k])
    ensures var st := sts[k];
            forall r :: 0 <= r < |st.runners| && Processing(st.runners[r]) ==> st.alerted && st.proc.Halted?
    ensures Batches(mvs, j + 1, k) <= 1 && RunMoves(mvs, j + 1, k) <= 5
    ensures RunMoves(mvs, j + 1, k) == 5 ==> forall r :: 0 <= r < |sts[k].runners| ==> sts[k].runners[r].Out?
  {
    hide Apply, Enabled, Batches, RunMoves, Inv, Wins, Winding, SoleOwner, Takes, Stopping;
    Reached(runners, halters, mvs, sts, k);
    Owned(sts[k]);
    StopsAt(mvs, sts, i, h);
    AlertStored(mvs, sts, j, h);
    StaysStopping(runners, halters, mvs, sts, i + 1, j + 1);
    KeepsWinding(runners, halters, mvs, sts, j + 1, k);
    WoundDown(sts[k], RunMoves(mvs, j + 1, k), Batches(mvs, j + 1, k));
  }

  lemma StopsAt(mvs: seq<Move>, sts: seq<State>, i: nat, h: nat)
    requires Run(mvs, sts) && i < |mvs| && Wins(sts[i], mvs[i], h)
    ensures Stopping(sts[i + 1])
  {
    assert sts[i + 1] == Apply(sts[i], mvs[i]);
  }

  lemma Owned(st: State)
    requires Inv(st)
    ensures SoleOwner(st)
  {
  }

  lemma AlertStored(mvs: seq<Move>, sts: seq<State>, j: nat, h: nat)
    requires Run(mvs, sts) && j < |mvs| && mvs[j] == StoreAlert(h)
    ensures sts[j + 1].alerted
  {
    assert sts[j + 1] == Apply(sts[j], mvs[j]);
  }

  lemma WoundDown(st: State, n: nat, b: nat)
    requires SoleOwner(st) && Winding(st, n, b)
    ensures forall r :: 0 <= r < |st.runners| && Processing(st.runners[r]) ==> st.alerted && st.proc.Halted?
    ensures n == 5 ==> forall r :: 0 <= r < |st.runners| ==> st.runners[r].Out?
  {
  }

  /** A Run that has not returned can always go on. */
  lemma RunsGoOn(st: State, r: nat)
    requires r < |st.runners| && !st.runners[r].Out?
    ensures exists mv :: IsRunMove(mv) && mv.r == r && Enabled(st, mv)
  {
    var mv := match st.runners[r]
      case Claimed => ClearAlert(r)
      case Cleared => Confirm(r)
      case Top => CheckContext(r, false)
      case Entering => CheckAlert(r)
      case Waiting => WaitReturns(r, false)
      case Working => BatchEnds(r, true)
      case _ => Leave(r);
    assert IsRunMove(mv) && Enabled(st, mv);
  }

  /**
   * A Run stops exactly when it has a reason to: it was cancelled, or alerted, a wait or a batch
   * failed, or it was halted before it confirmed its start.
   */
  lemma RunsStop(st: State, mv: Move, r: nat)
    requires Enabled(st, mv) && r < |st.runners| && !st.runners[r].Leaving?
    ensures At(Apply(st, mv), r, Leaving) <==>
            || mv == CheckContext(r, true) || (mv == CheckAlert(r) && st.alerted) || mv == WaitReturns(r, false)
            || mv == BatchEnds(r, false) || (mv == Confirm(r) && !st.proc.Starting?)
  {
  }

  predicate IsHaltMove(mv: Move, h: nat) {
    match mv
    case Halt(g) => g == h
    case LoadState(g) => g == h
    case SwapState(g) => g == h
    case StoreAlert(g) => g == h
    case _ => false
  }

  /** Halt `h` won with move `m`, and has made no move since. */
  ghost predicate WonAt(mvs: seq<Move>, sts: seq<State>, i: int, m: int, h: nat) {
    && 0 <= m < i <= |mvs| < |sts| && Wins(sts[m], mvs[m], h)
    && forall l :: m < l < i ==> !IsHaltMove(mvs[l], h)
  }

  lemma HalterMoves(st: State, mv: Move, h: nat)
    requires Enabled(st, mv) && h < |st.halters|
    requires forall g :: 0 <= g < |st.halters| && st.halters[g].Loaded? ==>
               st.halters[g].seen.Starting? || st.halters[g].seen.Running?
    ensures var pc, pc' := st.halters[h], Apply(st, mv).halters[h];
            && (pc'.Won? && !pc.Won? ==> Wins(st, mv, h))
            && (pc'.Won? && pc.Won? ==>
                  !IsHaltMove(mv, h))
  {
  }

  lemma {:induction false} WonBySwap(runners: nat, halters: nat, mvs: seq<Move>, sts: seq<State>, i: nat, h: nat)
    requires Begins(runners, halters, mvs, sts) && i < |sts| && h < halters
    ensures |sts[i].halters| == halters
    ensures sts[i].halters[h].Won? ==> exists m :: WonAt(mvs, sts, i, m, h)
  {
    Reached(runners, halters, mvs, sts, i);
    if i > 0 {
      WonBySwap(runners, halters, mvs, sts, i - 1, h);
      Reached(runners, halters, mvs, sts, i - 1);
      assert Enabled(sts[i - 1], mvs[i - 1]) && sts[i] == Apply(sts[i - 1], mvs[i - 1]);
      HalterMoves(sts[i - 1], mvs[i - 1], h);
      hide Enabled, Apply, Inv, Wins, IsHaltMove;
      if sts[i].halters[h].Won? {
        if sts[i - 1].halters[h].Won? {
          var m :| WonAt(mvs, sts, i - 1, m, h);
          assert WonAt(mvs, sts, i, m, h);
        } else {
          assert WonAt(mvs, sts, i, i - 1, h);
        }
      }
    }
  }

  /**
   * Halt returns exactly when it has found the processor idle or halted, or has stored the alert
   * after a swap of its own that won.
   */
  lemma HaltsReturn(runners: nat, halters: nat, mvs: seq<Move>, sts: seq<State>, i: nat, h: nat)
    requires Begins(runners, halters, mvs, sts) && i < |mvs| && h < halters
    requires h < |sts[i].halters| && h < |sts[i + 1].halters|
    requires !sts[i].halters[h].Resting?
    ensures sts[i + 1].halters[h].Resting? <==>
            || (mvs[i] == LoadState(h) && (sts[i].proc.Idle? || sts[i].proc.Halted?))
            || (mvs[i] == StoreAlert(h) && sts[i + 1].alerted && exists m :: WonAt(mvs, sts, i, m, h))
  {
    WonBySwap(runners, halters, mvs, sts, i, h);
    assert Enabled(sts[i], mvs[i]) && sts[i + 1] == Apply(sts[i], mvs[i]);
  }

  /** A Halt that runs alone on a processor that is starting or running halts and alerts it. */
  lemma HaltAlone(st: State, h: nat)
    requires h < |st.halters| && st.halters[h].Resting? && (st.proc.Starting? || st.proc.Running?)
    ensures var sts := [st, Apply(st, Halt(h)), st.(halters := st.halters[h := Loaded(st.proc)]),
                        st.(proc := Halted, halters := st.halters[h := Won]), st.(proc := Halted, alerted := true)];
            Run([Halt(h), LoadState(h), SwapState(h), StoreAlert(h)], sts)
  {
  }

  /** A Run that runs alone on an idle processor starts and comes to its first batch, and to the next. */
  lemma RunAlone(st: State, r: nat)
    requires At(st, r, Out) && st.proc.Idle?
    ensures var on := st.(proc := Running, alerted := false);
            var top := Goto(on, r, Top);
            && Run([Start(r), ClearAlert(r), Confirm(r)],
                   [st, Goto(st, r, Claimed).(proc := Starting), Goto(on, r, Cleared).(proc := Starting), top])
            && Run([CheckContext(r, false), CheckAlert(r), WaitReturns(r, true), BatchEnds(r, true)],
                   [top, Goto(on, r, Entering), Goto(on, r, Waiting), Goto(on, r, Working), top])
  {
    var on := st.(proc := Running, alerted := false);
    assert Apply(Goto(on, r, Cleared).(proc := Starting), Confirm(r)) == Goto(on, r, Top);
    assert Apply(Goto(on, r, Working), BatchEnds(r, true)) == Goto(on, r, Top);
  }
}
