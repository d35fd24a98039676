/** Blocking claims of the single-producer ring beside the wait machine. */
module SingleWaits {
  import opened RingWaits
  import opened Topology
  import opened SingleRing

  function ClaimerOf(cfg: Config, st: State): Claimer {
    match st.pc
    case Gating(n, blocking, i, low) =>
      if blocking then Claimer.Scanning(st.next + n - cfg.size, i, low) else Elsewhere
    case Waiting(n) => Asleep(st.next + n - cfg.size)
    case _ => Elsewhere
  }

  function ViewOf(cfg: Config, st: State): View {
    View(st.seqs, cfg.gates, [ClaimerOf(cfg, st)])
  }

  predicate LocalOK(cfg: Config, st: State) {
    st.pc.Gating? ==> st.pc.i < |cfg.gates|
  }

  /** What a move of the ring is to the waits; `m` is the thread that would store a sequence. */
  function StepOf(st: State, mv: Move, m: nat): Step {
    match mv
    case Consume(c, cm) =>
      if cm.Store? && c < |st.cons| && st.cons[c].Storing? then Step.Store(c, m, st.cons[c].end) else Ring
    case Peek(_) => Ring
    case Produce(pm) =>
      match pm
      case LoadGate => if st.pc.Gating? && st.pc.blocking then Read(0) else Ring
      case Wake => Leave(0, true)
      case Cancel => Leave(0, false)
      case _ => Ring
  }

  lemma MoveIsStep(cfg: Config, st: State, mv: Move, m: nat)
    requires cfg.Valid() && Shape(cfg, st) && LocalOK(cfg, st) && Enabled(cfg, st, mv)
    ensures LocalOK(cfg, Apply(cfg, st, mv))
    ensures Moves(ViewOf(cfg, st), StepOf(st, mv, m), ViewOf(cfg, Apply(cfg, st, mv)))
  {
    var v, v' := ViewOf(cfg, st), ViewOf(cfg, Apply(cfg, st, mv));
    assert v'.claimers == v.claimers[0 := v'.claimers[0]];
  }

  /** A move of the ring with its companion in the wait machine, or a move of the wait machine alone. */
  datatype JointMove = Aside(wmv: W.Move) | Together(mv: Move, m: nat)

  ghost predicate JointRun(cfg: Config, st: State, w: W.State, jms: seq<JointMove>, st': State, w': W.State)
    requires cfg.Valid()
    decreases |jms|
  {
    if jms == [] then st' == st && w' == w
    else
      match jms[0]
      case Aside(wmv) =>
        && W.Shape(w) && W.Enabled(w, wmv) && Alone(ViewOf(cfg, st), w, wmv)
        && JointRun(cfg, st, W.Apply(w, wmv), jms[1..], st', w')
      case Together(mv, m) =>
        && Shape(cfg, st) && Enabled(cfg, st, mv)
        && if StepOf(st, mv, m).Ring? then JointRun(cfg, Apply(cfg, st, mv), w, jms[1..], st', w')
           else
             && W.Shape(w) && W.Enabled(w, Companion(StepOf(st, mv, m)))
             && JointRun(cfg, Apply(cfg, st, mv), W.Apply(w, Companion(StepOf(st, mv, m))), jms[1..], st', w')
  }

  ghost predicate Joined(cfg: Config, st: State, w: W.State) {
    cfg.Valid() && Shape(cfg, st) && LocalOK(cfg, st) && Coupled(ViewOf(cfg, st), w)
  }

  lemma TogetherKept(cfg: Config, st: State, w: W.State, mv: Move, m: nat)
    requires Joined(cfg, st, w) && Enabled(cfg, st, mv)
    requires !StepOf(st, mv, m).Ring? ==> W.Enabled(w, Companion(StepOf(st, mv, m)))
    ensures var step := StepOf(st, mv, m);
            Joined(cfg, Apply(cfg, st, mv), if step.Ring? then w else W.Apply(w, Companion(step)))
  {
    MoveIsStep(cfg, st, mv, m);
    hide Moves, Apply, Enabled;
    var step := StepOf(st, mv, m);
    if step.Ring? {
      RingKeeps(ViewOf(cfg, st), w, ViewOf(cfg, Apply(cfg, st, mv)));
    } else {
      TogetherKeeps(ViewOf(cfg, st), w, step, ViewOf(cfg, Apply(cfg, st, mv)));
    }
  }

  lemma {:induction false} JointRunKeeps(cfg: Config, st: State, w: W.State, jms: seq<JointMove>,
                                         st': State, w': W.State)
    requires Joined(cfg, st, w) && JointRun(cfg, st, w, jms, st', w')
    ensures Joined(cfg, st', w')
    decreases |jms|
  {
    hide Coupled, Apply, Enabled, W.Apply, W.Enabled, Alone, Shape;
    if jms != [] {
      match jms[0]
      case Aside(wmv) =>
        AloneKeeps(ViewOf(cfg, st), w, wmv);
        JointRunKeeps(cfg, st, W.Apply(w, wmv), jms[1..], st', w');
      case Together(mv, m) =>
        TogetherKept(cfg, st, w, mv, m);
        var step := StepOf(st, mv, m);
        JointRunKeeps(cfg, Apply(cfg, st, mv), if step.Ring? then w else W.Apply(w, Companion(step)),
                      jms[1..], st', w');
    }
  }

  lemma StartJoined(cfg: Config, movers: nat)
    requires cfg.Valid()
    ensures Joined(cfg, Initial(cfg), Attached(cfg.gates, |cfg.deps|, movers, 1))
  {
    AttachedOK(cfg.gates, |cfg.deps|, movers, 1);
  }

  /**
   * No wakeup is lost in the ring itself: in every joint run, while the producer sleeps on the
   * current channel although its claim would fit, every gate being close enough to its own claim
   * position, some thread is between its gate store and the signal that follows.
   */
  lemma RoomyClaimIsOwed(cfg: Config, movers: nat, jms: seq<JointMove>, st: State, w: W.State)
    requires cfg.Valid()
    requires JointRun(cfg, Initial(cfg), Attached(cfg.gates, |cfg.deps|, movers, 1), jms, st, w)
    requires st.pc.Waiting? && |w.prods| == 1
    requires w.prods[0].Sleeping? && w.prods[0].gen == w.gen && W.ChannelOpen(w)
    requires forall g :: g in cfg.gates && g < |st.seqs| ==> st.next + st.pc.n - cfg.size <= st.seqs[g]
    ensures W.Shape(w) && W.SignalOwed(w)
  {
    StartJoined(cfg, movers);
    JointRunKeeps(cfg, Initial(cfg), Attached(cfg.gates, |cfg.deps|, movers, 1), jms, st, w);
    RoomMeansOwed(ViewOf(cfg, st), w, 0);
  }
}
