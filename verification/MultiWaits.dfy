/** Blocking claims of the multi-producer ring beside the wait machine. */
module MultiWaits {
  import opened RingWaits
  import opened Topology
  import opened Consumers
  import opened MultiRing

  function ClaimerOf(cfg: Config, st: State, pc: ProducerPc): Claimer {
    match pc
    case Gating(n, blocking, current, i, low) =>
      if blocking then Claimer.Scanning(current + n - cfg.size, i, low) else Elsewhere
    case Waiting(n) => Asleep(st.cursor + n - cfg.size)
    case _ => Elsewhere
  }

  function ViewOf(cfg: Config, st: State): View {
    View(st.seqs, cfg.gates, seq(|st.prods|, p requires 0 <= p < |st.prods| => ClaimerOf(cfg, st, st.prods[p].pc)))
  }

  /** A claim under way asks for at least one sequence, after a cursor it loaded before. */
  predicate LocalOK(cfg: Config, cursor: int, pc: ProducerPc) {
    match pc
    case Top(n, _) => n >= 1
    case Checked(n, _) => n >= 1
    case Bounded(n, _, current) => n >= 1 && current <= cursor
    case Gating(n, _, current, i, _) => n >= 1 && current <= cursor && i < |cfg.gates|
    case Caching(n, _, _, _) => n >= 1
    case Waiting(n) => n >= 1
    case Swapping(n, _, _) => n >= 1
    case _ => true
  }

  ghost predicate LocalsOK(cfg: Config, st: State) {
    forall p :: 0 <= p < |st.prods| ==> LocalOK(cfg, st.cursor, st.prods[p].pc)
  }

  /** What a move of the ring is to the waits; `m` is the thread that would store a sequence. */
  function StepOf(st: State, mv: Move, m: nat): Step {
    match mv
    case Consume(c, cm) =>
      if cm.Store? && c < |st.cons| && st.cons[c].Storing? then Step.Store(c, m, st.cons[c].end) else Ring
    case Produce(p, pm) =>
      match pm
      case LoadGate =>
        if p < |st.prods| && st.prods[p].pc.Gating? && st.prods[p].pc.blocking then Read(p) else Ring
      case Wake => Leave(p, true)
      case Cancel => Leave(p, false)
      case _ => Ring
  }

  lemma MoverLocal(cfg: Config, st: State, pr: Producer, pm: ProducerMove)
    requires cfg.Valid() && Shape(cfg, st) && CanProduce(pr, pm) && LocalOK(cfg, st.cursor, pr.pc)
    ensures var (st', pr') := Produced(cfg, st, pr, pm);
            st.cursor <= st'.cursor && LocalOK(cfg, st'.cursor, pr'.pc)
  {
  }

  lemma ProduceLocals(cfg: Config, st: State, p: nat, pm: ProducerMove)
    requires cfg.Valid() && Shape(cfg, st) && LocalsOK(cfg, st) && Enabled(cfg, st, Produce(p, pm))
    ensures LocalsOK(cfg, Apply(cfg, st, Produce(p, pm))) && st.cursor <= Apply(cfg, st, Produce(p, pm)).cursor
  {
    var st' := Apply(cfg, st, Produce(p, pm));
    MoverLocal(cfg, st, st.prods[p], pm);
    hide Produced;
    forall q | 0 <= q < |st'.prods| ensures LocalOK(cfg, st'.cursor, st'.prods[q].pc) {
      assert LocalOK(cfg, st.cursor, st.prods[q].pc);
    }
  }

  /** What the mover itself does to the waits. */
  lemma MoverSteps(cfg: Config, st: State, p: nat, pm: ProducerMove, m: nat)
    requires cfg.Valid() && Shape(cfg, st) && Enabled(cfg, st, Produce(p, pm))
    requires LocalOK(cfg, st.cursor, st.prods[p].pc)
    ensures var v, cl := ViewOf(cfg, st), ClaimerOf(cfg, st, st.prods[p].pc);
            var st' := Apply(cfg, st, Produce(p, pm));
            var cl' := ClaimerOf(cfg, st', st'.prods[p].pc);
            match StepOf(st, Produce(p, pm), m)
            case Ring => Rests(cl, cl') || Begins(cl, cl')
            case Read(_) => WellFormed(v) && ScansTo(v, cl, cl') && st'.cursor == st.cursor
            case Leave(_, _) => cl.Asleep? && cl' == Elsewhere && st'.cursor == st.cursor
            case Store(_, _, _) => false
  {
  }

  /** What the mover does to the other claims: the cursor may pass them by. */
  lemma OthersRest(cfg: Config, st: State, p: nat, pm: ProducerMove, q: nat)
    requires cfg.Valid() && Shape(cfg, st) && Enabled(cfg, st, Produce(p, pm)) && q < |st.prods| && q != p
    requires st.cursor <= Apply(cfg, st, Produce(p, pm)).cursor
    ensures var st' := Apply(cfg, st, Produce(p, pm));
            Rests(ClaimerOf(cfg, st, st.prods[q].pc), ClaimerOf(cfg, st', st'.prods[q].pc))
    ensures var st' := Apply(cfg, st, Produce(p, pm));
            st'.cursor == st.cursor ==>
              ClaimerOf(cfg, st, st.prods[q].pc) == ClaimerOf(cfg, st', st'.prods[q].pc)
  {
    assert Apply(cfg, st, Produce(p, pm)).prods[q] == st.prods[q];
    hide Apply, Produced;
  }

  lemma ProduceIsStep(cfg: Config, st: State, p: nat, pm: ProducerMove, m: nat)
    requires cfg.Valid() && Shape(cfg, st) && LocalsOK(cfg, st) && Enabled(cfg, st, Produce(p, pm))
    ensures LocalsOK(cfg, Apply(cfg, st, Produce(p, pm)))
    ensures Moves(ViewOf(cfg, st), StepOf(st, Produce(p, pm), m), ViewOf(cfg, Apply(cfg, st, Produce(p, pm))))
  {
    var st' := Apply(cfg, st, Produce(p, pm));
    ProduceLocals(cfg, st, p, pm);
    MoverSteps(cfg, st, p, pm, m);
    forall q | 0 <= q < |st.prods| && q != p
      ensures Rests(ViewOf(cfg, st).claimers[q], ViewOf(cfg, st').claimers[q])
      ensures st'.cursor == st.cursor ==> ViewOf(cfg, st).claimers[q] == ViewOf(cfg, st').claimers[q]
    {
      OthersRest(cfg, st, p, pm, q);
    }
    var v, v' := ViewOf(cfg, st), ViewOf(cfg, st');
    assert v'.seqs == v.seqs && |v'.claimers| == |v.claimers|;
    hide Produced, ClaimerOf, Rests, ScansTo, LocalsOK;
    if !StepOf(st, Produce(p, pm), m).Ring? {
      assert v'.claimers == v.claimers[p := v'.claimers[p]];
    }
  }

  lemma ConsumeIsStep(cfg: Config, st: State, c: nat, cm: ConsumerMove, m: nat)
    requires cfg.Valid() && Shape(cfg, st) && LocalsOK(cfg, st) && Enabled(cfg, st, Consume(c, cm))
    ensures LocalsOK(cfg, Apply(cfg, st, Consume(c, cm)))
    ensures Moves(ViewOf(cfg, st), StepOf(st, Consume(c, cm), m), ViewOf(cfg, Apply(cfg, st, Consume(c, cm))))
  {
    var v, v' := ViewOf(cfg, st), ViewOf(cfg, Apply(cfg, st, Consume(c, cm)));
    assert v'.claimers == v.claimers;
  }

  /** A move of the ring with its companion in the wait machine, or a move of the wait machine alone. */
  datatype JointMove = Aside(wmv: W.Move) | Together(mv: Move, m: nat)

  ghost predicate JointRun(cfg: Config, st: State, w: W.State, jms: seq<JointMove>, st': State, w': W.State)
    requires cfg.Valid()
    decreases |jms|
  {
    if jms == [] then st' == st && w' == w
    else
      match jms[0]
      case Aside(wmv) =>
        && W.Shape(w) && W.Enabled(w, wmv) && Alone(ViewOf(cfg, st), w, wmv)
        && JointRun(cfg, st, W.Apply(w, wmv), jms[1..], st', w')
      case Together(mv, m) =>
        && Shape(cfg, st) && Enabled(cfg, st, mv)
        && if StepOf(st, mv, m).Ring? then JointRun(cfg, Apply(cfg, st, mv), w, jms[1..], st', w')
           else
             && W.Shape(w) && W.Enabled(w, Companion(StepOf(st, mv, m)))
             && JointRun(cfg, Apply(cfg, st, mv), W.Apply(w, Companion(StepOf(st, mv, m))), jms[1..], st', w')
  }

  ghost predicate Joined(cfg: Config, st: State, w: W.State) {
    cfg.Valid() && Shape(cfg, st) && LocalsOK(cfg, st) && Coupled(ViewOf(cfg, st), w)
  }

  lemma TogetherKept(cfg: Config, st: State, w: W.State, mv: Move, m: nat)
    requires Joined(cfg, st, w) && Enabled(cfg, st, mv)
    requires !StepOf(st, mv, m).Ring? ==> W.Enabled(w, Companion(StepOf(st, mv, m)))
    ensures var step := StepOf(st, mv, m);
            Joined(cfg, Apply(cfg, st, mv), if step.Ring? then w else W.Apply(w, Companion(step)))
  {
    match mv {
      case Produce(p, pm) => ProduceIsStep(cfg, st, p, pm, m);
      case Consume(c, cm) => ConsumeIsStep(cfg, st, c, cm, m);
    }
    hide Moves, Apply, Enabled;
    var step := StepOf(st, mv, m);
    if step.Ring? {
      RingKeeps(ViewOf(cfg, st), w, ViewOf(cfg, Apply(cfg, st, mv)));
    } else {
      TogetherKeeps(ViewOf(cfg, st), w, step, ViewOf(cfg, Apply(cfg, st, mv)));
    }
  }

  lemma {:induction false} JointRunKeeps(cfg: Config, st: State, w: W.State, jms: seq<JointMove>,
                                         st': State, w': W.State)
    requires Joined(cfg, st, w) && JointRun(cfg, st, w, jms, st', w')
    ensures Joined(cfg, st', w')
    decreases |jms|
  {
    hide Coupled, Apply, Enabled, W.Apply, W.Enabled, Alone, Shape;
    if jms != [] {
      match jms[0]
      case Aside(wmv) =>
        AloneKeeps(ViewOf(cfg, st), w, wmv);
        JointRunKeeps(cfg, st, W.Apply(w, wmv), jms[1..], st', w');
      case Together(mv, m) =>
        TogetherKept(cfg, st, w, mv, m);
        var step := StepOf(st, mv, m);
        JointRunKeeps(cfg, Apply(cfg, st, mv), if step.Ring? then w else W.Apply(w, Companion(step)),
                      jms[1..], st', w');
    }
  }

  lemma StartJoined(cfg: Config, movers: nat)
    requires cfg.Valid()
    ensures Joined(cfg, Initial(cfg), Attached(cfg.gates, |cfg.deps|, movers, cfg.producers))
  {
    AttachedOK(cfg.gates, |cfg.deps|, movers, cfg.producers);
  }

  /**
   * No wakeup is lost in the ring itself: in every joint run, while producer `p` sleeps on the
   * current channel although a claim of its size would fit now, every gate being close enough to
   * the ring's cursor, some thread is between its gate store and the signal that follows.
   */
  lemma RoomyClaimIsOwed(cfg: Config, movers: nat, jms: seq<JointMove>, st: State, w: W.State, p: nat)
    requires cfg.Valid()
    requires JointRun(cfg, Initial(cfg), Attached(cfg.gates, |cfg.deps|, movers, cfg.producers), jms, st, w)
    requires p < |st.prods| && p < |w.prods| && st.prods[p].pc.Waiting?
    requires w.prods[p].Sleeping? && w.prods[p].gen == w.gen && W.ChannelOpen(w)
    requires forall g :: g in cfg.gates && g < |st.seqs| ==> st.cursor + st.prods[p].pc.n - cfg.size <= st.seqs[g]
    ensures W.Shape(w) && W.SignalOwed(w)
  {
    StartJoined(cfg, movers);
    JointRunKeeps(cfg, Initial(cfg), Attached(cfg.gates, |cfg.deps|, movers, cfg.producers), jms, st, w);
    RoomMeansOwed(ViewOf(cfg, st), w, p);
  }
}
