/** Runs of the single-producer ring, and what they guarantee. */
module SingleRefinement {
  import opened Topology
  import opened Log
  import opened Consumers
  import opened SingleRing

  ghost predicate Run(cfg: Config, moves: seq<Move>, sts: seq<State>)
    requires cfg.Valid()
  {
    && |sts| == |moves| + 1 && sts[0] == Initial(cfg)
    && forall i :: 0 <= i < |moves| ==>
         && Shape(cfg, sts[i]) && Enabled(cfg, sts[i], moves[i])
         && sts[i + 1] == Apply(cfg, sts[i], moves[i])
  }

  ghost function Trace(cfg: Config, moves: seq<Move>, sts: seq<State>): seq<Action>
    requires cfg.Valid() && Run(cfg, moves, sts)
  {
    seq(|moves|, i requires 0 <= i < |moves| => ActionFor(cfg, sts[i], moves[i]))
  }

  /** A run of the log beside the states of the ring, linked by the invariant throughout. */
  ghost predicate Linked(cfg: Config, acts: seq<Action>, sts: seq<State>, Ls: seq<LogState>)
    requires cfg.Valid()
  {
    && Log.Run(cfg, acts, Ls) && |Ls| == |sts|
    && forall i :: 0 <= i < |sts| ==> Inv(cfg, sts[i], Ls[i])
  }

  lemma LinkedExtends(cfg: Config, acts: seq<Action>, sts: seq<State>, Ls: seq<LogState>, mv: Move)
    requires cfg.Valid() && Linked(cfg, acts, sts, Ls)
    requires Shape(cfg, sts[|acts|]) && Enabled(cfg, sts[|acts|], mv)
    ensures exists Ls' :: Linked(cfg, acts + [ActionFor(cfg, sts[|acts|], mv)],
                                 sts + [Apply(cfg, sts[|acts|], mv)], Ls')
  {
    hide Permitted, Perform, Inv, Enabled, Apply, ActionFor;
    var n := |acts|;
    var act := ActionFor(cfg, sts[n], mv);
    assert Inv(cfg, sts[n], Ls[n]);
    MoveRefines(cfg, sts[n], Ls[n], mv);
    Extend(cfg, acts, Ls, act);
    assert Linked(cfg, acts + [act], sts + [Apply(cfg, sts[n], mv)], Ls + [Perform(cfg, Ls[n], act)]);
  }

  /** Every interleaving of the single-producer ring is a run of the same log. */
  lemma {:induction false} RunRefinesLog(cfg: Config, moves: seq<Move>, sts: seq<State>)
    requires cfg.Valid() && !cfg.multi && cfg.producers == 1 && Run(cfg, moves, sts)
    ensures exists Ls :: Linked(cfg, Trace(cfg, moves, sts), sts, Ls)
    decreases |moves|
  {
    hide Permitted, Perform, Inv, Enabled, Apply, ActionFor;
    if moves == [] {
      InitialOK(cfg);
      assert Linked(cfg, Trace(cfg, moves, sts), sts, [Start(cfg)]);
    } else {
      var n := |moves| - 1;
      RunPrefix(cfg, moves, sts);
      RunRefinesLog(cfg, moves[..n], sts[..n + 1]);
      var acts := Trace(cfg, moves[..n], sts[..n + 1]);
      var Ls :| Linked(cfg, acts, sts[..n + 1], Ls);
      assert sts[..n + 1][n] == sts[n];
      LinkedExtends(cfg, acts, sts[..n + 1], Ls, moves[n]);
      assert sts == sts[..n + 1] + [Apply(cfg, sts[n], moves[n])];
    }
  }

  lemma RunPrefix(cfg: Config, moves: seq<Move>, sts: seq<State>)
    requires cfg.Valid() && Run(cfg, moves, sts) && moves != []
    ensures var n := |moves| - 1;
            Run(cfg, moves[..n], sts[..n + 1])
            && Trace(cfg, moves, sts) == Trace(cfg, moves[..n], sts[..n + 1]) + [ActionFor(cfg, sts[n], moves[n])]
  {
    var n := |moves| - 1;
    var ms, ss := moves[..n], sts[..n + 1];
    forall i | 0 <= i < n
      ensures Shape(cfg, ss[i]) && Enabled(cfg, ss[i], ms[i]) && ss[i + 1] == Apply(cfg, ss[i], ms[i]) {
      assert ss[i] == sts[i] && ms[i] == moves[i];
    }
  }

  /** The producer may still write `s`. */
  ghost predicate MayWrite(st: State, s: int) {
    st.handed < s <= st.next
  }

  /** No slot is used for two sequences at once, and none is written while a consumer needs it. */
  ghost predicate Exclusive(cfg: Config, st: State)
    requires cfg.Valid() && Shape(cfg, st)
  {
    && (forall s, t :: MayWrite(st, s) && MayWrite(st, t) && Slot(cfg.size, s) == Slot(cfg.size, t) ==> s == t)
    && (forall c, s, t :: 0 <= c < |st.seqs| && MayWrite(st, s) && st.seqs[c] < t <= st.cursor
          ==> Slot(cfg.size, s) != Slot(cfg.size, t))
    && (forall c, d, s, t :: 0 <= c < |st.cons| && 0 <= d < |st.cons|
          && Selects(st.seqs[c], st.cons[c], s) && Selects(st.seqs[d], st.cons[d], t)
          && Slot(cfg.size, s) == Slot(cfg.size, t)
          ==> s == t)
  }

  /** Neither the claims, nor the cache, nor a minimum in hand ever pass a consumer they cover. */
  ghost predicate WrapSafe(cfg: Config, st: State)
    requires cfg.Valid() && Shape(cfg, st)
  {
    && Above(st.seqs, st.next - cfg.size) && Above(st.seqs, st.cached)
    && match st.pc
       case Gating(_, _, i, low) => forall j :: 0 <= j < i && j < |cfg.gates| ==> low <= st.seqs[cfg.gates[j]]
       case _ => true
  }

  /** Positions follow the graph and the cursor, and a selected batch is resolved throughout. */
  ghost predicate InOrder(cfg: Config, st: State)
    requires cfg.Valid() && Shape(cfg, st)
  {
    && Ordered(cfg, st.seqs)
    && (forall c :: 0 <= c < |st.seqs| ==> st.seqs[c] <= st.cursor <= st.next)
    && (forall c, s :: 0 <= c < |st.cons| && Selects(st.seqs[c], st.cons[c], s) ==> s <= st.cursor)
  }

  lemma SelectedVisible(cfg: Config, st: State, L: LogState, c: nat, s: int)
    requires cfg.Valid() && Inv(cfg, st, L) && c < |st.cons| && Selects(st.seqs[c], st.cons[c], s)
    ensures st.next - cfg.size <= st.seqs[c] < s <= st.cursor
  {
    assert ConsumerInv(cfg, L, c, st.cons[c]);
    assert ReaderOK(cfg, L.recs, L.readers[c]);
    assert L.readers[c].pos == st.seqs[c];
    assert Batch(cfg, L, c, st.cons[c].end);
    assert L.recs[s].status.Resolved();
  }

  lemma PositionsSafe(cfg: Config, st: State, L: LogState)
    requires cfg.Valid() && Inv(cfg, st, L)
    ensures WrapSafe(cfg, st) && InOrder(cfg, st)
  {
    forall c | 0 <= c < |st.seqs| ensures st.next - cfg.size <= st.seqs[c] <= st.cursor {
      assert ReaderOK(cfg, L.recs, L.readers[c]);
      assert st.seqs[c] >= 0 ==> L.recs[st.seqs[c]].status.Resolved();
    }
    forall c, s | 0 <= c < |st.cons| && Selects(st.seqs[c], st.cons[c], s) ensures s <= st.cursor {
      SelectedVisible(cfg, st, L, c, s);
    }
  }

  lemma SlotsExclusive(cfg: Config, st: State, L: LogState)
    requires cfg.Valid() && Inv(cfg, st, L)
    ensures Exclusive(cfg, st)
  {
    PositionsSafe(cfg, st, L);
    assert cfg.gates[0] < |cfg.deps|;
    assert st.next - cfg.size <= st.seqs[cfg.gates[0]] <= st.cursor <= st.handed;
    forall s, t | MayWrite(st, s) && MayWrite(st, t) && Slot(cfg.size, s) == Slot(cfg.size, t) ensures s == t {
      NearbySlotsDiffer(cfg.size, s, t);
    }
    forall c, s, t | 0 <= c < |st.seqs| && MayWrite(st, s) && st.seqs[c] < t <= st.cursor
      ensures Slot(cfg.size, s) != Slot(cfg.size, t)
    {
      if Slot(cfg.size, s) == Slot(cfg.size, t) {
        NearbySlotsDiffer(cfg.size, s, t);
      }
    }
    forall c, d, s, t | 0 <= c < |st.cons| && 0 <= d < |st.cons|
      && Selects(st.seqs[c], st.cons[c], s) && Selects(st.seqs[d], st.cons[d], t)
      && Slot(cfg.size, s) == Slot(cfg.size, t)
      ensures s == t
    {
      SelectedVisible(cfg, st, L, c, s);
      SelectedVisible(cfg, st, L, d, t);
      NearbySlotsDiffer(cfg.size, s, t);
    }
  }

  /** Safety of the single-producer ring, in every state of every interleaving. */
  lemma RunIsSafe(cfg: Config, moves: seq<Move>, sts: seq<State>, i: nat)
    requires cfg.Valid() && !cfg.multi && cfg.producers == 1 && Run(cfg, moves, sts) && i < |sts|
    ensures Shape(cfg, sts[i])
    ensures Exclusive(cfg, sts[i]) && WrapSafe(cfg, sts[i]) && InOrder(cfg, sts[i])
  {
    RunRefinesLog(cfg, moves, sts);
    var Ls :| Linked(cfg, Trace(cfg, moves, sts), sts, Ls);
    assert Inv(cfg, sts[i], Ls[i]);
    PositionsSafe(cfg, sts[i], Ls[i]);
    SlotsExclusive(cfg, sts[i], Ls[i]);
  }
}
