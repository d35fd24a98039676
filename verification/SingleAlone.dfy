/**
 * Calls on the single-producer ring that run alone: from any reachable state, whatever the others
 * are in the middle of, the moves of one thread lead where its call is meant to lead.
 */
module SingleAlone {
  import opened Topology
  import opened Consumers
  import opened Batches
  import opened SingleRing
  import opened SingleTold
  import opened SingleClaims

  datatype Thread = TheProducer | ByConsumer(c: nat)

  /** A move by which the thread goes on with its call: not sealed, not cancelled, no failing handler. */
  predicate GoesOn(t: Thread, mv: Move) {
    match t
    case TheProducer =>
      && mv.Produce? && !mv.pm.Begin? && !mv.pm.Refuse? && !mv.pm.Cancel? && !mv.pm.WriteEvent?
      && !mv.pm.StartPublish? && !mv.pm.StartDiscard?
    case ByConsumer(c) =>
      (mv.Peek? && mv.c == c)
      || (mv.Consume? && mv.c == c && !mv.cm.See? && !mv.cm.Change? && (mv.cm.Return? ==> mv.cm.ok))
  }

  ghost predicate Steps(cfg: Config, mvs: seq<Move>, sts: seq<State>)
    requires cfg.Valid()
  {
    && |sts| == |mvs| + 1
    && forall i :: 0 <= i < |mvs| ==>
         Shape(cfg, sts[i]) && Enabled(cfg, sts[i], mvs[i]) && sts[i + 1] == Apply(cfg, sts[i], mvs[i])
  }

  /** Moves of one thread, going on with its call, lead from `st` to `st'`. */
  ghost predicate Leads(cfg: Config, st: State, t: Thread, st': State)
    requires cfg.Valid()
  {
    exists mvs, sts :: Steps(cfg, mvs, sts) && sts[0] == st && sts[|mvs|] == st'
                       && forall i :: 0 <= i < |mvs| ==> GoesOn(t, mvs[i])
  }

  lemma Arrived(cfg: Config, st: State, t: Thread)
    requires cfg.Valid()
    ensures Leads(cfg, st, t, st)
  {
    assert Steps(cfg, [], [st]);
  }

  lemma OneMore(cfg: Config, st: State, mv: Move, t: Thread, st': State)
    requires cfg.Valid() && Shape(cfg, st) && Enabled(cfg, st, mv) && GoesOn(t, mv)
    requires Leads(cfg, Apply(cfg, st, mv), t, st')
    ensures Leads(cfg, st, t, st')
  {
    hide Enabled, Apply, GoesOn, Shape;
    var mvs, sts :| Steps(cfg, mvs, sts) && sts[0] == Apply(cfg, st, mv) && sts[|mvs|] == st'
                    && forall i :: 0 <= i < |mvs| ==> GoesOn(t, mvs[i]);
    var mvs', sts' := [mv] + mvs, [st] + sts;
    forall i | 0 <= i < |mvs'|
      ensures Shape(cfg, sts'[i]) && Enabled(cfg, sts'[i], mvs'[i])
      ensures sts'[i + 1] == Apply(cfg, sts'[i], mvs'[i]) && GoesOn(t, mvs'[i])
    {
      if i > 0 {
        assert sts'[i] == sts[i - 1] && mvs'[i] == mvs[i - 1] && sts'[i + 1] == sts[i];
      }
    }
    assert Steps(cfg, mvs', sts');
  }

  // Claims

  /** How a claim ends when nobody else moves. */
  ghost predicate Settles(cfg: Config, st: State, n: int, blocking: bool, st': State) {
    if Fits(cfg, st, n) then st' == st.(next := st.next + n, cached := st'.cached, pc := Free)
    else if blocking then st' == st.(pc := Waiting(n))
    else st' == st.(cached := st'.cached, pc := Free)
  }

  /** A scan on the way: the least gate value so far. */
  ghost predicate Scanned(cfg: Config, st: State, i: nat, low: int)
    requires cfg.Valid() && Shape(cfg, st)
  {
    i > 0 ==>
      && (forall j :: 0 <= j < i && j < |cfg.gates| ==> low <= st.seqs[cfg.gates[j]])
      && exists j :: 0 <= j < i && j < |cfg.gates| && low == st.seqs[cfg.gates[j]]
  }

  lemma ScanStep(cfg: Config, st: State, i: nat, low: int)
    requires cfg.Valid() && Shape(cfg, st) && i < |cfg.gates| && Scanned(cfg, st, i, low)
    ensures var v := st.seqs[cfg.gates[i]]; Scanned(cfg, st, i + 1, if i == 0 then v else Min(low, v))
  {
    var v := st.seqs[cfg.gates[i]];
    var low' := if i == 0 then v else Min(low, v);
    if low' == v {
      assert low' == st.seqs[cfg.gates[i]];
    } else {
      var j :| 0 <= j < i && j < |cfg.gates| && low == st.seqs[cfg.gates[j]];
      assert low' == st.seqs[cfg.gates[j]];
    }
  }

  /** The whole scan decides whether the claim fits. */
  lemma ScanDecides(cfg: Config, st: State, n: int, low: int)
    requires cfg.Valid() && Shape(cfg, st) && Scanned(cfg, st, |cfg.gates|, low)
    ensures st.next + n - cfg.size <= low <==> Fits(cfg, st, n)
  {
    var j :| 0 <= j < |cfg.gates| && low == st.seqs[cfg.gates[j]];
    assert cfg.gates[j] in cfg.gates;
    forall g | g in cfg.gates && g < |st.seqs| ensures low <= st.seqs[g] {
      var i :| 0 <= i < |cfg.gates| && cfg.gates[i] == g;
    }
  }

  lemma SettlesAlike(cfg: Config, st: State, next: State, n: int, blocking: bool, st': State)
    requires next == st.(pc := next.pc)
    ensures Fits(cfg, next, n) <==> Fits(cfg, st, n)
    ensures Settles(cfg, next, n, blocking, st') <==> Settles(cfg, st, n, blocking, st')
  {
  }

  lemma {:induction false} Scans(cfg: Config, st: State) returns (st': State)
    requires cfg.Valid() && Shape(cfg, st) && st.pc.Gating? && st.pc.i < |cfg.gates|
    requires Scanned(cfg, st, st.pc.i, st.pc.low)
    ensures Leads(cfg, st, TheProducer, st') && Settles(cfg, st, st.pc.n, st.pc.blocking, st')
    decreases |cfg.gates| - st.pc.i
  {
    var pc, mv := st.pc, Produce(LoadGate);
    ScanStep(cfg, st, pc.i, pc.low);
    var next := Apply(cfg, st, mv);
    if pc.i + 1 < |cfg.gates| {
      st' := Scans(cfg, next);
      SettlesAlike(cfg, st, next, pc.n, pc.blocking, st');
    } else {
      var v := st.seqs[cfg.gates[pc.i]];
      ScanDecides(cfg, st, pc.n, if pc.i == 0 then v else Min(pc.low, v));
      st' := next;
      Arrived(cfg, next, TheProducer);
    }
    OneMore(cfg, st, mv, TheProducer, st');
  }

  /** The cache answers only for claims that fit; otherwise the gates are scanned. */
  lemma Decides(cfg: Config, st: State) returns (st': State)
    requires cfg.Valid() && Shape(cfg, st) && st.pc.Checked? && Above(st.seqs, st.cached)
    ensures Leads(cfg, st, TheProducer, st') && Settles(cfg, st, st.pc.n, st.pc.blocking, st')
  {
    var pc := st.pc;
    var next := Apply(cfg, st, Produce(Decide));
    if next.pc.Free? {
      st' := next;
      Arrived(cfg, next, TheProducer);
    } else {
      assert next == st.(pc := next.pc);
      var scan := if pc.blocking then Apply(cfg, next, Produce(Pass)) else next;
      assert scan == st.(pc := Gating(pc.n, pc.blocking, 0, 0)) && Scanned(cfg, scan, 0, 0);
      hide Leads, Fits;
      st' := Scans(cfg, scan);
      SettlesAlike(cfg, st, scan, pc.n, pc.blocking, st');
      if pc.blocking {
        OneMore(cfg, next, Produce(Pass), TheProducer, st');
      }
    }
    OneMore(cfg, st, Produce(Decide), TheProducer, st');
  }

  lemma ClaimFrom(cfg: Config, st: State, n: int, blocking: bool) returns (st': State)
    requires cfg.Valid() && Shape(cfg, st) && Above(st.seqs, st.cached) && st.pc.Free? && 1 <= n <= cfg.size
    ensures Leads(cfg, Apply(cfg, st, Produce(Begin(n, blocking))), TheProducer, st')
    ensures Settles(cfg, st, n, blocking, st')
  {
    var a := Apply(cfg, st, Produce(Begin(n, blocking)));
    var b := Apply(cfg, a, Produce(Pass));
    assert b == st.(pc := Checked(n, blocking));
    hide Leads, Settles;
    st' := Decides(cfg, b);
    SettlesAlike(cfg, st, b, n, blocking, st');
    OneMore(cfg, a, Produce(Pass), TheProducer, st');
  }

  lemma Reachable(cfg: Config, moves: seq<Move>, sts: seq<State>, i: nat)
    requires cfg.Valid() && !cfg.multi && cfg.producers == 1 && SingleRefinement.Run(cfg, moves, sts) && i < |sts|
    ensures Shape(cfg, sts[i]) && Above(sts[i].seqs, sts[i].cached)
    ensures forall c :: 0 <= c < |sts[i].cons| && sts[i].cons[c].Resting? ==> sts[i].probes[c].Out?
  {
    var Ls := Beside(cfg, moves, sts, i);
    assert ConsumersOK(cfg, sts[i], Ls[i]);
  }

  /** A claim that runs alone is granted exactly when it fits, from any reachable state and cache. */
  lemma ClaimAlone(cfg: Config, moves: seq<Move>, sts: seq<State>, i: nat, n: int, blocking: bool)
      returns (st': State)
    requires cfg.Valid() && !cfg.multi && cfg.producers == 1 && SingleRefinement.Run(cfg, moves, sts) && i < |sts|
    requires sts[i].pc.Free? && 1 <= n <= cfg.size
    ensures Shape(cfg, sts[i]) && Enabled(cfg, sts[i], Produce(Begin(n, blocking)))
    ensures Leads(cfg, Apply(cfg, sts[i], Produce(Begin(n, blocking))), TheProducer, st')
    ensures Settles(cfg, sts[i], n, blocking, st')
  {
    Reachable(cfg, moves, sts, i);
    st' := ClaimFrom(cfg, sts[i], n, blocking);
  }

  // Resolutions

  /** The loop of a discard: markers and cursor move on to the end of the range. */
  lemma {:induction false} Sifts(cfg: Config, st: State) returns (st': State)
    requires cfg.Valid() && Shape(cfg, st) && st.pc.Sifting? && st.pc.k <= st.pc.high && st.pc.k <= st.cursor + 1
    ensures Leads(cfg, st, TheProducer, st')
    ensures st' == st.(cursor := if st.pc.high > st.cursor then st.pc.high else st.cursor, marks := st'.marks,
                       pc := Free)
    decreases st.pc.high - st.pc.k + 1, 0
  {
    var next := Apply(cfg, st, Produce(Compare));
    if st.pc.k > st.cursor {
      var marked := Apply(cfg, next, Produce(StoreMark));
      var shown := Apply(cfg, marked, Produce(StoreCursor));
      st' := Sifted(cfg, shown);
      hide Leads;
      OneMore(cfg, marked, Produce(StoreCursor), TheProducer, st');
      OneMore(cfg, next, Produce(StoreMark), TheProducer, st');
    } else {
      st' := Sifted(cfg, next);
    }
    OneMore(cfg, st, Produce(Compare), TheProducer, st');
  }

  /** After one sequence of a discard. */
  lemma {:induction false} Sifted(cfg: Config, st: State) returns (st': State)
    requires cfg.Valid() && Shape(cfg, st) && (st.pc.Free? || st.pc.Sifting?)
    requires st.pc.Sifting? ==> st.pc.k <= st.pc.high && st.pc.k <= st.cursor + 1
    ensures Leads(cfg, st, TheProducer, st')
    ensures st.pc.Free? ==> st' == st
    ensures st.pc.Sifting? ==>
              st' == st.(cursor := if st.pc.high > st.cursor then st.pc.high else st.cursor, marks := st'.marks,
                         pc := Free)
    decreases if st.pc.Sifting? then st.pc.high - st.pc.k + 1 else 0, 1
  {
    if st.pc.Free? {
      st' := st;
      Arrived(cfg, st, TheProducer);
    } else {
      st' := Sifts(cfg, st);
    }
  }

  lemma ResolutionFrom(cfg: Config, st: State, low: int, high: int, discard: bool) returns (st': State)
    requires cfg.Valid() && Shape(cfg, st) && st.pc.Free?
    requires CanProduce(st, if discard then StartDiscard(low, high) else StartPublish(low, high))
    ensures var start := Produce(if discard then StartDiscard(low, high) else StartPublish(low, high));
            Leads(cfg, Apply(cfg, st, start), TheProducer, st')
    ensures var cursor := if st.cursor < high && (discard ==> low <= high) then high else st.cursor;
            st' == st.(cursor := cursor, marks := st'.marks, flag := st.flag || discard, handed := st'.handed)
  {
    if discard {
      var a := Apply(cfg, st, Produce(StartDiscard(low, high)));
      var b := Apply(cfg, a, Produce(SetFlag));
      st' := Sifted(cfg, b);
      OneMore(cfg, a, Produce(SetFlag), TheProducer, st');
    } else {
      var a := Apply(cfg, st, Produce(StartPublish(low, high)));
      st' := Apply(cfg, a, Produce(StoreCursor));
      Arrived(cfg, st', TheProducer);
      OneMore(cfg, a, Produce(StoreCursor), TheProducer, st');
    }
  }

  /**
   * A resolution that runs alone returns, with the cursor at the end of its range or beyond. That
   * the range then reads as was asked is for `SingleTold.FirstCallDecides`.
   */
  lemma ResolutionAlone(cfg: Config, moves: seq<Move>, sts: seq<State>, i: nat, low: int, high: int, discard: bool)
      returns (st': State)
    requires cfg.Valid() && !cfg.multi && cfg.producers == 1 && SingleRefinement.Run(cfg, moves, sts) && i < |sts|
    requires sts[i].pc.Free? && InClaimOrder(sts[i], low, high)
    requires if discard then 0 <= low else sts[i].cursor <= high
    ensures Shape(cfg, sts[i])
    ensures var start := Produce(if discard then StartDiscard(low, high) else StartPublish(low, high));
            Enabled(cfg, sts[i], start) && Leads(cfg, Apply(cfg, sts[i], start), TheProducer, st')
    ensures var st := sts[i];
            var cursor := if st.cursor < high && (discard ==> low <= high) then high else st.cursor;
            st' == st.(cursor := cursor, marks := st'.marks, flag := st.flag || discard, handed := st'.handed)
  {
    Reachable(cfg, moves, sts, i);
    st' := ResolutionFrom(cfg, sts[i], low, high, discard);
  }

  // Batches

  /** The positions consumer `c` waits on. */
  function Sources(cfg: Config, st: State, c: nat): seq<int>
    requires c < |cfg.deps|
  {
    var deps := cfg.deps[c];
    if deps == [] then [st.cursor]
    else seq(|deps|, i requires 0 <= i < |deps| => if deps[i] < |st.seqs| then st.seqs[deps[i]] else -1)
  }

  /** What consumer `c` reads while only it moves. */
  function StillOf(cfg: Config, st: State, c: nat): Still
    requires c < |cfg.deps|
  {
    var size, marks, cursor := cfg.size, st.marks, st.cursor;
    Still(Sources(cfg, st, c),
          s => s <= cursor,
          st.flag,
          s => size >= 1 && |marks| == size && IsDiscarded(size, marks, cursor, s))
  }

  /** The state with consumer `c` elsewhere in its batch. */
  function With(st: State, c: nat, pc: ConsumerPc): State
    requires c < |st.cons|
  {
    st.(cons := st.cons[c := pc])
  }

  /** One move of the consumer, after a look at the cursor where the discard test needs one. */
  lemma Follow(cfg: Config, st: State, c: nat, m: ConsumerMove, st': State)
    requires cfg.Valid() && Shape(cfg, st) && c < |cfg.deps| && st.probes[c].Out?
    requires Smooth(st.cons[c], m, StillOf(cfg, st, c))
    requires Leads(cfg, With(st, c, Next(cfg, c, st.seqs[c], st.cons[c], m)), ByConsumer(c), st')
    ensures Leads(cfg, st, ByConsumer(c), st')
  {
    var mv := Consume(c, m);
    if m.Test? {
      var peeked := Apply(cfg, st, Peek(c));
      assert Apply(cfg, peeked, mv) == With(st, c, Next(cfg, c, st.seqs[c], st.cons[c], m));
      hide Leads;
      OneMore(cfg, peeked, mv, ByConsumer(c), st');
      OneMore(cfg, st, Peek(c), ByConsumer(c), st');
    } else {
      assert Apply(cfg, st, mv) == With(st, c, Next(cfg, c, st.seqs[c], st.cons[c], m));
      hide Leads;
      OneMore(cfg, st, mv, ByConsumer(c), st');
    }
  }

  lemma {:induction false} Follows(cfg: Config, st: State, c: nat, ms: seq<ConsumerMove>, pc': ConsumerPc, st': State)
    requires cfg.Valid() && Shape(cfg, st) && c < |cfg.deps| && st.probes[c].Out?
    requires Path(cfg, c, st.seqs[c], StillOf(cfg, st, c), st.cons[c], ms, pc')
    requires Leads(cfg, With(st, c, pc'), ByConsumer(c), st')
    ensures Leads(cfg, st, ByConsumer(c), st')
    decreases |ms|
  {
    if ms == [] {
      assert With(st, c, pc') == st;
    } else {
      var next := With(st, c, Next(cfg, c, st.seqs[c], st.cons[c], ms[0]));
      assert StillOf(cfg, next, c) == StillOf(cfg, st, c);
      assert With(next, c, pc') == With(st, c, pc');
      hide Leads, Next;
      Follows(cfg, next, c, ms[1..], pc', st');
      Follow(cfg, st, c, ms[0], st');
    }
  }

  lemma BatchFrom(cfg: Config, st: State, c: nat) returns (end: int)
    requires cfg.Valid() && !cfg.multi && Shape(cfg, st) && c < |cfg.deps| && st.cons[c].Resting?
    requires st.seqs[c] < Least(Sources(cfg, st, c)) && st.probes[c].Out?
    ensures Longest(cfg, c, st.seqs[c], StillOf(cfg, st, c), end)
    ensures Leads(cfg, st, ByConsumer(c), st.(seqs := st.seqs[c := end]))
  {
    var env := StillOf(cfg, st, c);
    end := ComesToStore(cfg, c, st.seqs[c], env);
    var ms :| Path(cfg, c, st.seqs[c], env, Resting, ms, Storing(end));
    var last := With(st, c, Storing(end));
    var st' := st.(seqs := st.seqs[c := end]);
    assert Apply(cfg, last, Consume(c, Store)) == st';
    hide Leads, Path, Longest, StillOf;
    Arrived(cfg, st', ByConsumer(c));
    OneMore(cfg, last, Consume(c, Store), ByConsumer(c), st');
    Follows(cfg, st, c, ms, Storing(end), st');
  }

  /**
   * A consumer that runs alone acknowledges the longest batch there is: from any reachable state
   * in which it rests and the sequence after its own is there, its moves, with a handler that
   * fails nothing, store the end of the longest run of sequences that its dependencies and its limit
   * allow.
   */
  lemma BatchAlone(cfg: Config, moves: seq<Move>, sts: seq<State>, i: nat, c: nat) returns (end: int)
    requires cfg.Valid() && !cfg.multi && cfg.producers == 1 && SingleRefinement.Run(cfg, moves, sts)
    requires i < |sts| && c < |cfg.deps|
    requires c < |sts[i].cons| && sts[i].cons[c].Resting? && c < |sts[i].seqs|
    requires sts[i].seqs[c] < Least(Sources(cfg, sts[i], c))
    ensures Longest(cfg, c, sts[i].seqs[c], StillOf(cfg, sts[i], c), end)
    ensures Leads(cfg, sts[i], ByConsumer(c), sts[i].(seqs := sts[i].seqs[c := end]))
  {
    Reachable(cfg, moves, sts, i);
    end := BatchFrom(cfg, sts[i], c);
  }
}
