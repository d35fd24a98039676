/** Every move of the multi-producer ring keeps its invariant and is a step of the log. */
module MultiRingProof {
  import opened Topology
  import opened Log
  import opened Consumers
  import opened Window
  import opened MultiRing

  lemma ResolveOneRecord(recs: seq<Record>, s: int, status: Status)
    requires 0 <= s < |recs|
    ensures Log.Resolving(recs, s, s, status) == recs[s := recs[s].(status := status)]
  {
  }

  // Producer moves

  lemma ResolvePermitted(cfg: Config, st: State, L: LogState, p: nat)
    requires cfg.Valid() && Core(cfg, st, L) && MarksOK(cfg, st.marks, L.recs)
    requires p < cfg.producers && ProducerOK(cfg, L.recs, st.seqs, st.flag, p, st.prods[p])
    requires CanProduce(st.prods[p], ResolveOne)
    ensures Permitted(cfg, L, ProducerAction(cfg, st, p, st.prods[p], ResolveOne))
  {
    var pc := st.prods[p].pc;
    assert pc.k in st.prods[p].owned;
    SwapExactlyWhenOpen(cfg, st, L, pc.k);
    if Swaps(cfg.size, st.marks, pc.k) {
      assert Owns(L.recs, p, pc.k);
    }
  }

  lemma ProducePermitted(cfg: Config, st: State, L: LogState, p: nat, pm: ProducerMove)
    requires cfg.Valid() && Core(cfg, st, L) && MarksOK(cfg, st.marks, L.recs)
    requires p < cfg.producers && ProducerOK(cfg, L.recs, st.seqs, st.flag, p, st.prods[p])
    requires CanProduce(st.prods[p], pm)
    ensures Permitted(cfg, L, ProducerAction(cfg, st, p, st.prods[p], pm))
  {
    match pm
    case ResolveOne => ResolvePermitted(cfg, st, L, p);
    case WriteEvent(s, v) => assert Owns(L.recs, p, s);
    case _ =>
  }

  /** The shared state after a producer move, against the log after its action. */
  lemma ProduceMarks(cfg: Config, st: State, L: LogState, p: nat, pm: ProducerMove)
    requires cfg.Valid() && Inv(cfg, st, L) && Enabled(cfg, st, Produce(p, pm))
    requires Permitted(cfg, L, ProducerAction(cfg, st, p, st.prods[p], pm))
    ensures MarksOK(cfg, Apply(cfg, st, Produce(p, pm)).marks,
                    Perform(cfg, L, ProducerAction(cfg, st, p, st.prods[p], pm)).recs)
  {
    var pr := st.prods[p];
    match ProducerAction(cfg, st, p, pr, pm)
    case Claim(_, n, _) => MarksAfterClaim(cfg, L, st.marks, p, n);
    case Prepare(_, s) =>
      UnresolvedInWindow(cfg, L, s);
      MarksAfterStatus(cfg, st.marks, L.recs, s, Open);
    case Resolve(_, s, _, status) =>
      assert Owns(L.recs, p, s);
      UnresolvedInWindow(cfg, L, s);
      MarksAfterStatus(cfg, st.marks, L.recs, s, status);
      ResolveOneRecord(L.recs, s, status);
    case Write(_, s, v) => MarksAfterBody(cfg, st.marks, L.recs, s, v);
    case _ =>
  }

  lemma ProduceEntries(cfg: Config, st: State, L: LogState, p: nat, pm: ProducerMove)
    requires cfg.Valid() && Inv(cfg, st, L) && Enabled(cfg, st, Produce(p, pm))
    requires Permitted(cfg, L, ProducerAction(cfg, st, p, st.prods[p], pm))
    ensures EntriesOK(cfg, Apply(cfg, st, Produce(p, pm)).entries,
                      Perform(cfg, L, ProducerAction(cfg, st, p, st.prods[p], pm)).recs)
  {
    var pr := st.prods[p];
    match ProducerAction(cfg, st, p, pr, pm)
    case Claim(_, n, _) => EntriesAfterClaim(cfg, L, st.entries, p, n, Claimed);
    case Prepare(_, s) => EntriesAfterStatus(cfg, st.entries, L.recs, s, Open);
    case Resolve(_, s, _, status) =>
      EntriesAfterStatus(cfg, st.entries, L.recs, s, status);
      ResolveOneRecord(L.recs, s, status);
    case Write(_, s, v) =>
      UnresolvedInWindow(cfg, L, s);
      EntriesAfterBody(cfg, st.entries, L.recs, s, v);
    case _ =>
  }

  lemma ProduceFlag(cfg: Config, st: State, L: LogState, p: nat, pm: ProducerMove)
    requires cfg.Valid() && Inv(cfg, st, L) && Enabled(cfg, st, Produce(p, pm))
    requires Permitted(cfg, L, ProducerAction(cfg, st, p, st.prods[p], pm))
    ensures FlagOK(Apply(cfg, st, Produce(p, pm)).flag,
                   Perform(cfg, L, ProducerAction(cfg, st, p, st.prods[p], pm)).recs)
  {
    var pr := st.prods[p];
    assert ProducerOK(cfg, L.recs, st.seqs, st.flag, p, pr);
  }

  /** The records of `p` are as they were. */
  ghost predicate Untouched(recs: seq<Record>, recs': seq<Record>, p: nat) {
    && |recs| <= |recs'|
    && (forall t :: |recs| <= t < |recs'| ==> recs'[t].owner != p)
    && forall t :: 0 <= t < |recs| ==>
         recs'[t].owner == recs[t].owner && (recs[t].owner == p ==> recs'[t].status == recs[t].status)
  }

  lemma ProducerStable(cfg: Config, recs: seq<Record>, recs': seq<Record>, seqs: seq<int>, seqs': seq<int>,
                       flag: bool, flag': bool, p: nat, pr: Producer)
    requires cfg.Valid() && |seqs| == |seqs'| == |cfg.deps|
    requires ProducerOK(cfg, recs, seqs, flag, p, pr)
    requires Untouched(recs, recs', p) && (flag ==> flag')
    requires forall c :: 0 <= c < |seqs| ==> seqs[c] <= seqs'[c]
    ensures ProducerOK(cfg, recs', seqs', flag', p, pr)
  {
  }

  lemma ActionUntouched(cfg: Config, L: LogState, act: Action, p: nat)
    requires cfg.Valid() && Permitted(cfg, L, act)
    requires (act.Claim? || act.Prepare? || act.Write? || act.Resolve?) ==> act.p != p
    ensures Untouched(L.recs, Perform(cfg, L, act).recs, p)
  {
    if act.Resolve? {
      forall t | act.lo <= t <= act.hi ensures L.recs[t].owner == act.p {
        assert Owns(L.recs, act.p, t);
      }
    }
  }

  /** The last gate of a scan: the minimum in hand is below every consumer. */
  lemma ScanStepOK(cfg: Config, st: State, recs: seq<Record>, p: nat, pr: Producer)
    requires cfg.Valid() && Shape(cfg, st) && Ordered(cfg, st.seqs) && CanProduce(pr, LoadGate)
    requires PcOK(cfg, recs, st.seqs, st.flag, p, pr)
    ensures PcOK(cfg, recs, st.seqs, st.flag, p, Produced(cfg, st, pr, LoadGate).1)
  {
    if pr.pc.i + 1 == |cfg.gates| {
      var v := st.seqs[cfg.gates[pr.pc.i]];
      GatesProtectAll(cfg, st.seqs, if pr.pc.i == 0 then v else Min(pr.pc.low, v));
    }
  }

  lemma ProduceScan(cfg: Config, st: State, L: LogState, p: nat)
    requires cfg.Valid() && Core(cfg, st, L) && Enabled(cfg, st, Produce(p, LoadGate))
    requires ProducerOK(cfg, L.recs, st.seqs, st.flag, p, st.prods[p])
    ensures var st' := Apply(cfg, st, Produce(p, LoadGate));
            ProducerOK(cfg, L.recs, st'.seqs, st'.flag, p, st'.prods[p])
  {
    ScanStepOK(cfg, st, L.recs, p, st.prods[p]);
    hide PcOK, Gated;
  }

  /** The producer that moved, when it only tested the cache, stored it, or changed phase. */
  lemma ProduceLocal(cfg: Config, st: State, L: LogState, p: nat, pm: ProducerMove)
    requires cfg.Valid() && Inv(cfg, st, L) && Enabled(cfg, st, Produce(p, pm))
    requires pm.LoadCache? || pm.StoreCache? || pm.Begin? || pm.Refuse? || pm.Pass?
             || pm.LoadCursor? || pm.Wake? || pm.Cancel?
    ensures var st' := Apply(cfg, st, Produce(p, pm));
            ProducerOK(cfg, L.recs, st'.seqs, st'.flag, p, st'.prods[p])
  {
    assert ProducerOK(cfg, L.recs, st.seqs, st.flag, p, st.prods[p]);
  }

  lemma ProduceSwap(cfg: Config, st: State, L: LogState, p: nat)
    requires cfg.Valid() && Inv(cfg, st, L) && Enabled(cfg, st, Produce(p, Swap))
    requires Permitted(cfg, L, ProducerAction(cfg, st, p, st.prods[p], Swap))
    ensures var st' := Apply(cfg, st, Produce(p, Swap));
            ProducerOK(cfg, Perform(cfg, L, ProducerAction(cfg, st, p, st.prods[p], Swap)).recs,
                                   st'.seqs, st'.flag, p, st'.prods[p])
  {
    assert ProducerOK(cfg, L.recs, st.seqs, st.flag, p, st.prods[p]);
  }

  lemma ProducePrepare(cfg: Config, st: State, L: LogState, p: nat)
    requires cfg.Valid() && Inv(cfg, st, L) && Enabled(cfg, st, Produce(p, PrepareOne))
    requires Permitted(cfg, L, Log.Prepare(p, st.prods[p].pc.k))
    ensures var st' := Apply(cfg, st, Produce(p, PrepareOne));
            ProducerOK(cfg, Perform(cfg, L, Log.Prepare(p, st.prods[p].pc.k)).recs, st'.seqs, st'.flag, p, st'.prods[p])
  {
    assert ProducerOK(cfg, L.recs, st.seqs, st.flag, p, st.prods[p]);
  }

  /** The call of a resolution: its range is no longer the producer's to write. */
  lemma ProduceHandOver(cfg: Config, st: State, L: LogState, p: nat, pm: ProducerMove)
    requires cfg.Valid() && Inv(cfg, st, L) && Enabled(cfg, st, Produce(p, pm))
    requires pm.StartPublish? || pm.StartDiscard? || pm.SetFlag?
    ensures var st' := Apply(cfg, st, Produce(p, pm));
            ProducerOK(cfg, L.recs, st'.seqs, st'.flag, p, st'.prods[p])
  {
    assert ProducerOK(cfg, L.recs, st.seqs, st.flag, p, st.prods[p]);
  }

  lemma ProduceResolve(cfg: Config, st: State, L: LogState, p: nat, pm: ProducerMove)
    requires cfg.Valid() && Inv(cfg, st, L) && Enabled(cfg, st, Produce(p, pm))
    requires pm.ResolveOne? || pm.WriteEvent?
    requires Permitted(cfg, L, ProducerAction(cfg, st, p, st.prods[p], pm))
    ensures var st' := Apply(cfg, st, Produce(p, pm));
            ProducerOK(cfg, Perform(cfg, L, ProducerAction(cfg, st, p, st.prods[p], pm)).recs,
                                   st'.seqs, st'.flag, p, st'.prods[p])
  {
    assert ProducerOK(cfg, L.recs, st.seqs, st.flag, p, st.prods[p]);
  }

  /** The producer that moved keeps its own part of the invariant. */
  lemma ProduceMover(cfg: Config, st: State, L: LogState, p: nat, pm: ProducerMove)
    requires cfg.Valid() && Inv(cfg, st, L) && Enabled(cfg, st, Produce(p, pm))
    requires Permitted(cfg, L, ProducerAction(cfg, st, p, st.prods[p], pm))
    ensures var st' := Apply(cfg, st, Produce(p, pm));
            ProducerOK(cfg, Perform(cfg, L, ProducerAction(cfg, st, p, st.prods[p], pm)).recs,
                                   st'.seqs, st'.flag, p, st'.prods[p])
  {
    assert ProducerOK(cfg, L.recs, st.seqs, st.flag, p, st.prods[p]);
    hide Permitted, ProducerOK;
    match pm
    case LoadGate => ProduceScan(cfg, st, L, p);
    case Swap => ProduceSwap(cfg, st, L, p);
    case PrepareOne => ProducePrepare(cfg, st, L, p);
    case StartPublish(_, _) => ProduceHandOver(cfg, st, L, p, pm);
    case StartDiscard(_, _) => ProduceHandOver(cfg, st, L, p, pm);
    case SetFlag => ProduceHandOver(cfg, st, L, p, pm);
    case ResolveOne => ProduceResolve(cfg, st, L, p, pm);
    case WriteEvent(_, _) => ProduceResolve(cfg, st, L, p, pm);
    case _ => ProduceLocal(cfg, st, L, p, pm);
  }

  lemma ProduceKept(cfg: Config, st: State, L: LogState, p: nat, pm: ProducerMove)
    requires cfg.Valid() && Inv(cfg, st, L) && Enabled(cfg, st, Produce(p, pm))
    ensures var act := ActionFor(cfg, st, Produce(p, pm));
            Permitted(cfg, L, act) && Inv(cfg, Apply(cfg, st, Produce(p, pm)), Perform(cfg, L, act))
  {
    hide Permitted, MarksOK, EntriesOK, FlagOK, ConsumersOK, ConsumerInv;
    var mv := Produce(p, pm);
    var act := ActionFor(cfg, st, mv);
    assert ProducerOK(cfg, L.recs, st.seqs, st.flag, p, st.prods[p]);
    ProducePermitted(cfg, st, L, p, pm);
    var st', L' := Apply(cfg, st, mv), Perform(cfg, L, act);
    LogInvKept(cfg, L, act);
    ProduceMarks(cfg, st, L, p, pm);
    ProduceEntries(cfg, st, L, p, pm);
    ProduceFlag(cfg, st, L, p, pm);
    ProduceOthers(cfg, st, L, p, pm);
    assert Core(cfg, st', L');
    assert Above(st'.seqs, st'.cache) by {
      assert ProducerOK(cfg, L.recs, st.seqs, st.flag, p, st.prods[p]);
    }
  }

  lemma ProduceOthers(cfg: Config, st: State, L: LogState, p: nat, pm: ProducerMove)
    requires cfg.Valid() && Inv(cfg, st, L) && Enabled(cfg, st, Produce(p, pm))
    requires Permitted(cfg, L, ActionFor(cfg, st, Produce(p, pm)))
    ensures ProducersOK(cfg, Apply(cfg, st, Produce(p, pm)), Perform(cfg, L, ActionFor(cfg, st, Produce(p, pm))).recs)
    ensures ConsumersOK(cfg, Apply(cfg, st, Produce(p, pm)), Perform(cfg, L, ActionFor(cfg, st, Produce(p, pm))))
  {
    hide Permitted, Perform, ConsumerInv, MarksOK, EntriesOK, ProducerOK;
    var mv := Produce(p, pm);
    var act := ActionFor(cfg, st, mv);
    var st', L' := Apply(cfg, st, mv), Perform(cfg, L, act);
    forall q | 0 <= q < |st'.prods| ensures ProducerOK(cfg, L'.recs, st'.seqs, st'.flag, q, st'.prods[q]) {
      assert ProducerOK(cfg, L.recs, st.seqs, st.flag, q, st.prods[q]);
      if q != p {
        ActionUntouched(cfg, L, act, q);
        ProducerStable(cfg, L.recs, L'.recs, st.seqs, st'.seqs, st.flag, st'.flag, q, st.prods[q]);
      } else {
        ProduceMover(cfg, st, L, p, pm);
      }
    }
    forall c | 0 <= c < |st'.cons| ensures ConsumerInv(cfg, L', c, st'.cons[c]) {
      assert ConsumerInv(cfg, L, c, st.cons[c]);
      ConsumerUndisturbed(cfg, L, act, c, st.cons[c]);
    }
  }

  // Consumer moves

  lemma ConsumeTruthful(cfg: Config, st: State, L: LogState, c: nat, cm: ConsumerMove)
    requires cfg.Valid() && Inv(cfg, st, L) && Enabled(cfg, st, Consume(c, cm))
    ensures Truthful(cfg, L, c, st.cons[c], cm)
  {
    var pc := st.cons[c];
    assert ConsumerInv(cfg, L, c, pc);
    assert ReaderOK(cfg, L.recs, L.readers[c]);
    if cm.Scan? || cm.Test? || cm.See? {
      PendingInWindow(cfg, L, c, pc.k);
      if L.recs[pc.k].status.Claimed? && pc.k >= cfg.size {
        PreviousLap(cfg.size, pc.k);
      }
    }
  }

  lemma ConsumeProducers(cfg: Config, st: State, L: LogState, c: nat, cm: ConsumerMove)
    requires cfg.Valid() && Inv(cfg, st, L) && Enabled(cfg, st, Consume(c, cm))
    requires Permitted(cfg, L, ActionFor(cfg, st, Consume(c, cm)))
    ensures ProducersOK(cfg, Apply(cfg, st, Consume(c, cm)), Perform(cfg, L, ActionFor(cfg, st, Consume(c, cm))).recs)
  {
    hide Permitted, Perform, LogInv, MarksOK, EntriesOK, ProducerOK;
    var act := ActionFor(cfg, st, Consume(c, cm));
    var st', L' := Apply(cfg, st, Consume(c, cm)), Perform(cfg, L, act);
    assert ConsumerInv(cfg, L, c, st.cons[c]);
    forall q | 0 <= q < |st'.prods| ensures ProducerOK(cfg, L'.recs, st'.seqs, st'.flag, q, st'.prods[q]) {
      ActionUntouched(cfg, L, act, q);
      ProducerStable(cfg, L.recs, L'.recs, st.seqs, st'.seqs, st.flag, st'.flag, q, st.prods[q]);
    }
  }

  lemma ConsumeOthers(cfg: Config, st: State, L: LogState, c: nat, cm: ConsumerMove)
    requires cfg.Valid() && Inv(cfg, st, L) && Enabled(cfg, st, Consume(c, cm))
    requires Permitted(cfg, L, ActionFor(cfg, st, Consume(c, cm)))
    requires ConsumerInv(cfg, Perform(cfg, L, ActionFor(cfg, st, Consume(c, cm))), c,
                         Apply(cfg, st, Consume(c, cm)).cons[c])
    ensures ConsumersOK(cfg, Apply(cfg, st, Consume(c, cm)), Perform(cfg, L, ActionFor(cfg, st, Consume(c, cm))))
  {
    hide Permitted, Perform, ConsumerInv, MarksOK, EntriesOK, ProducersOK;
    var act := ActionFor(cfg, st, Consume(c, cm));
    var st', L' := Apply(cfg, st, Consume(c, cm)), Perform(cfg, L, act);
    forall d | 0 <= d < |st'.cons| && d != c ensures ConsumerInv(cfg, L', d, st'.cons[d]) {
      assert ConsumerInv(cfg, L, d, st.cons[d]);
      ConsumerUndisturbed(cfg, L, act, d, st.cons[d]);
    }
  }

  /** A handler that changes its event changes that record's body and nothing else. */
  lemma ChangeKept(cfg: Config, st: State, recs: seq<Record>, s: int, v: Event)
    requires cfg.Valid() && Shape(cfg, st) && InWindow(cfg, recs, s)
    requires MarksOK(cfg, st.marks, recs) && EntriesOK(cfg, st.entries, recs) && FlagOK(st.flag, recs)
    ensures var recs' := recs[s := recs[s].(body := v)];
            && MarksOK(cfg, st.marks, recs') && EntriesOK(cfg, st.entries[Slot(cfg.size, s) := v], recs')
            && FlagOK(st.flag, recs')
  {
    MarksAfterBody(cfg, st.marks, recs, s, v);
    EntriesAfterBody(cfg, st.entries, recs, s, v);
  }

  lemma ConsumeShared(cfg: Config, st: State, L: LogState, c: nat, cm: ConsumerMove)
    requires cfg.Valid() && Core(cfg, st, L) && Enabled(cfg, st, Consume(c, cm)) && ConsumerInv(cfg, L, c, st.cons[c])
    requires MarksOK(cfg, st.marks, L.recs) && EntriesOK(cfg, st.entries, L.recs) && FlagOK(st.flag, L.recs)
    requires Permitted(cfg, L, ActionFor(cfg, st, Consume(c, cm)))
    ensures var st', L' := Apply(cfg, st, Consume(c, cm)), Perform(cfg, L, ActionFor(cfg, st, Consume(c, cm)));
            MarksOK(cfg, st'.marks, L'.recs) && EntriesOK(cfg, st'.entries, L'.recs) && FlagOK(st'.flag, L'.recs)
  {
    if cm.Change? {
      PendingInWindow(cfg, L, c, st.cons[c].k);
      ChangeKept(cfg, st, L.recs, st.cons[c].k, cm.v);
    } else {
      assert Perform(cfg, L, ActionFor(cfg, st, Consume(c, cm))).recs == L.recs;
    }
  }

  lemma ConsumeCore(cfg: Config, st: State, L: LogState, c: nat, cm: ConsumerMove)
    requires cfg.Valid() && Core(cfg, st, L) && Above(st.seqs, st.cache) && Enabled(cfg, st, Consume(c, cm))
    requires Permitted(cfg, L, ActionFor(cfg, st, Consume(c, cm)))
    ensures Core(cfg, Apply(cfg, st, Consume(c, cm)), Perform(cfg, L, ActionFor(cfg, st, Consume(c, cm))))
    ensures Above(Apply(cfg, st, Consume(c, cm)).seqs, st.cache)
  {
    var act := ActionFor(cfg, st, Consume(c, cm));
    LogInvKept(cfg, L, act);
    assert Apply(cfg, st, Consume(c, cm)).seqs == Positions(Perform(cfg, L, act).readers);
    assert L.readers[c].pos == st.seqs[c];
  }

  lemma ConsumeKept(cfg: Config, st: State, L: LogState, c: nat, cm: ConsumerMove)
    requires cfg.Valid() && Inv(cfg, st, L) && Enabled(cfg, st, Consume(c, cm))
    ensures Permitted(cfg, L, ActionFor(cfg, st, Consume(c, cm)))
    ensures Inv(cfg, Apply(cfg, st, Consume(c, cm)), Perform(cfg, L, ActionFor(cfg, st, Consume(c, cm))))
  {
    hide Permitted, Perform, MarksOK, EntriesOK, FlagOK;
    assert ConsumerInv(cfg, L, c, st.cons[c]);
    assert L.readers[c].pos == st.seqs[c];
    ConsumeTruthful(cfg, st, L, c, cm);
    ConsumerKept(cfg, L, c, st.cons[c], cm);
    ConsumeCore(cfg, st, L, c, cm);
    ConsumeProducers(cfg, st, L, c, cm);
    ConsumeOthers(cfg, st, L, c, cm);
    ConsumeShared(cfg, st, L, c, cm);
  }

  // Runs of the ring

  /** One move of the ring is one step of the log. */
  lemma MoveRefines(cfg: Config, st: State, L: LogState, mv: Move)
    requires cfg.Valid() && Inv(cfg, st, L) && Enabled(cfg, st, mv)
    ensures Permitted(cfg, L, ActionFor(cfg, st, mv))
    ensures Inv(cfg, Apply(cfg, st, mv), Perform(cfg, L, ActionFor(cfg, st, mv)))
  {
    match mv
    case Produce(p, pm) => ProduceKept(cfg, st, L, p, pm);
    case Consume(c, cm) => ConsumeKept(cfg, st, L, c, cm);
  }

  lemma InitialOK(cfg: Config)
    requires cfg.Valid() && cfg.multi
    ensures Inv(cfg, Initial(cfg), Start(cfg))
  {
    StartOK(cfg);
    assert Initial(cfg).seqs == Positions(Start(cfg).readers);
  }

  ghost predicate Run(cfg: Config, moves: seq<Move>, sts: seq<State>)
    requires cfg.Valid()
  {
    && |sts| == |moves| + 1 && sts[0] == Initial(cfg)
    && forall i :: 0 <= i < |moves| ==>
         && Shape(cfg, sts[i]) && Enabled(cfg, sts[i], moves[i])
         && sts[i + 1] == Apply(cfg, sts[i], moves[i])
  }

  ghost function Trace(cfg: Config, moves: seq<Move>, sts: seq<State>): seq<Action>
    requires cfg.Valid() && Run(cfg, moves, sts)
  {
    seq(|moves|, i requires 0 <= i < |moves| => ActionFor(cfg, sts[i], moves[i]))
  }

  /** A run of the log beside the states of the ring, linked by the invariant throughout. */
  ghost predicate Linked(cfg: Config, acts: seq<Action>, sts: seq<State>, Ls: seq<LogState>)
    requires cfg.Valid()
  {
    && Log.Run(cfg, acts, Ls) && |Ls| == |sts|
    && forall i :: 0 <= i < |sts| ==> Inv(cfg, sts[i], Ls[i])
  }

  lemma LinkedExtends(cfg: Config, acts: seq<Action>, sts: seq<State>, Ls: seq<LogState>, mv: Move)
    requires cfg.Valid() && Linked(cfg, acts, sts, Ls)
    requires Shape(cfg, sts[|acts|]) && Enabled(cfg, sts[|acts|], mv)
    ensures exists Ls' :: Linked(cfg, acts + [ActionFor(cfg, sts[|acts|], mv)],
                                 sts + [Apply(cfg, sts[|acts|], mv)], Ls')
  {
    hide Permitted, Perform, Inv, Enabled, Apply, ActionFor;
    var n := |acts|;
    var act := ActionFor(cfg, sts[n], mv);
    assert Inv(cfg, sts[n], Ls[n]);
    MoveRefines(cfg, sts[n], Ls[n], mv);
    Extend(cfg, acts, Ls, act);
    assert Linked(cfg, acts + [act], sts + [Apply(cfg, sts[n], mv)], Ls + [Perform(cfg, Ls[n], act)]);
  }

  /**
   * Refinement, for every interleaving: the actions of a run of the ring are those of a run of
   * the append-only log, and the invariant links every pair of states.
   */
  lemma {:induction false} RunRefinesLog(cfg: Config, moves: seq<Move>, sts: seq<State>)
    requires cfg.Valid() && cfg.multi && Run(cfg, moves, sts)
    ensures exists Ls :: Linked(cfg, Trace(cfg, moves, sts), sts, Ls)
    decreases |moves|
  {
    hide Permitted, Perform, Inv, Enabled, Apply, ActionFor;
    if moves == [] {
      InitialOK(cfg);
      assert Linked(cfg, Trace(cfg, moves, sts), sts, [Start(cfg)]);
    } else {
      var n := |moves| - 1;
      RunPrefix(cfg, moves, sts);
      RunRefinesLog(cfg, moves[..n], sts[..n + 1]);
      var acts := Trace(cfg, moves[..n], sts[..n + 1]);
      var Ls :| Linked(cfg, acts, sts[..n + 1], Ls);
      assert sts[..n + 1][n] == sts[n];
      LinkedExtends(cfg, acts, sts[..n + 1], Ls, moves[n]);
      assert sts == sts[..n + 1] + [Apply(cfg, sts[n], moves[n])];
    }
  }

  lemma RunPrefix(cfg: Config, moves: seq<Move>, sts: seq<State>)
    requires cfg.Valid() && Run(cfg, moves, sts) && moves != []
    ensures var n := |moves| - 1;
            Run(cfg, moves[..n], sts[..n + 1])
            && Trace(cfg, moves, sts) == Trace(cfg, moves[..n], sts[..n + 1]) + [ActionFor(cfg, sts[n], moves[n])]
  {
    var n := |moves| - 1;
    var ms, ss := moves[..n], sts[..n + 1];
    forall i | 0 <= i < n
      ensures Shape(cfg, ss[i]) && Enabled(cfg, ss[i], ms[i]) && ss[i + 1] == Apply(cfg, ss[i], ms[i]) {
      assert ss[i] == sts[i] && ms[i] == moves[i];
    }
  }
}
