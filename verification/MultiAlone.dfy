/**
 * Calls on the multi-producer ring that run alone: from any reachable state, whatever the others
 * are in the middle of, the moves of one thread lead where its call is meant to lead.
 */
module MultiAlone {
  import opened Topology
  import opened Consumers
  import opened Batches
  import opened MultiRing
  import opened MultiTold
  import opened MultiClaims

  datatype Thread = ByProducer(p: nat) | ByConsumer(c: nat)

  /** A move by which the thread goes on with its call: not sealed, not cancelled, no failing handler. */
  predicate GoesOn(t: Thread, mv: Move) {
    match t
    case ByProducer(p) =>
      && mv.Produce? && mv.p == p
      && !mv.pm.Begin? && !mv.pm.Refuse? && !mv.pm.Cancel? && !mv.pm.WriteEvent?
      && !mv.pm.StartPublish? && !mv.pm.StartDiscard?
    case ByConsumer(c) =>
      mv.Consume? && mv.c == c && !mv.cm.See? && !mv.cm.Change? && (mv.cm.Return? ==> mv.cm.ok)
  }

  ghost predicate Steps(cfg: Config, mvs: seq<Move>, sts: seq<State>)
    requires cfg.Valid()
  {
    && |sts| == |mvs| + 1
    && forall i :: 0 <= i < |mvs| ==>
         Shape(cfg, sts[i]) && Enabled(cfg, sts[i], mvs[i]) && sts[i + 1] == Apply(cfg, sts[i], mvs[i])
  }

  /** Moves of one thread, going on with its call, lead from `st` to `st'`. */
  ghost predicate Leads(cfg: Config, st: State, t: Thread, st': State)
    requires cfg.Valid()
  {
    exists mvs, sts :: Steps(cfg, mvs, sts) && sts[0] == st && sts[|mvs|] == st'
                       && forall i :: 0 <= i < |mvs| ==> GoesOn(t, mvs[i])
  }

  lemma Arrived(cfg: Config, st: State, t: Thread)
    requires cfg.Valid()
    ensures Leads(cfg, st, t, st)
  {
    assert Steps(cfg, [], [st]);
  }

  lemma OneMore(cfg: Config, st: State, mv: Move, t: Thread, st': State)
    requires cfg.Valid() && Shape(cfg, st) && Enabled(cfg, st, mv) && GoesOn(t, mv)
    requires Leads(cfg, Apply(cfg, st, mv), t, st')
    ensures Leads(cfg, st, t, st')
  {
    hide Enabled, Apply, GoesOn, Shape;
    var mvs, sts :| Steps(cfg, mvs, sts) && sts[0] == Apply(cfg, st, mv) && sts[|mvs|] == st'
                    && forall i :: 0 <= i < |mvs| ==> GoesOn(t, mvs[i]);
    var mvs', sts' := [mv] + mvs, [st] + sts;
    forall i | 0 <= i < |mvs'|
      ensures Shape(cfg, sts'[i]) && Enabled(cfg, sts'[i], mvs'[i])
      ensures sts'[i + 1] == Apply(cfg, sts'[i], mvs'[i]) && GoesOn(t, mvs'[i])
    {
      if i > 0 {
        assert sts'[i] == sts[i - 1] && mvs'[i] == mvs[i - 1] && sts'[i + 1] == sts[i];
      }
    }
    assert Steps(cfg, mvs', sts');
  }

  /** The state with producer `p` elsewhere in its call. */
  function At(st: State, p: nat, pc: ProducerPc): State
    requires p < |st.prods|
  {
    st.(prods := st.prods[p := st.prods[p].(pc := pc)])
  }

  // Claims

  /** Preparing the slots of a claim returns it. */
  lemma {:induction false} Prepares(cfg: Config, st: State, p: nat) returns (st': State)
    requires cfg.Valid() && Shape(cfg, st) && p < |st.prods| && st.prods[p].pc.Preparing?
    requires st.prods[p].pc.k <= st.prods[p].pc.high
    ensures Leads(cfg, st, ByProducer(p), st') && |st'.marks| == |st.marks|
    ensures var pr := st.prods[p];
            var taken := Range(pr.pc.low, pr.pc.high);
            st' == st.(marks := st'.marks,
                       prods := st.prods[p := Producer(Free, pr.owned + taken, pr.live + taken)])
    decreases st.prods[p].pc.high - st.prods[p].pc.k
  {
    var mv := Produce(p, PrepareOne);
    var next := Apply(cfg, st, mv);
    if next.prods[p].pc.Free? {
      st' := next;
      Arrived(cfg, next, ByProducer(p));
    } else {
      st' := Prepares(cfg, next, p);
    }
    OneMore(cfg, st, mv, ByProducer(p), st');
  }

  /** The claim of `n` was granted: the producer holds it, and nothing else has changed but cache and markers. */
  ghost predicate Granted(st: State, p: nat, n: int, st': State)
    requires p < |st.prods|
  {
    var pr, taken := st.prods[p], Range(st.cursor + 1, st.cursor + n);
    st' == st.(cursor := st.cursor + n, cache := st'.cache, marks := st'.marks,
               prods := st.prods[p := Producer(Free, pr.owned + taken, pr.live + taken)])
  }

  lemma Swaps(cfg: Config, st: State, p: nat) returns (st': State)
    requires cfg.Valid() && Shape(cfg, st) && p < |st.prods| && st.prods[p].pc.Swapping?
    requires st.prods[p].pc.current == st.cursor && st.prods[p].pc.n >= 1
    ensures Leads(cfg, st, ByProducer(p), st') && Granted(st, p, st.prods[p].pc.n, st')
  {
    var mv := Produce(p, Swap);
    var next := Apply(cfg, st, mv);
    st' := Prepares(cfg, next, p);
    OneMore(cfg, st, mv, ByProducer(p), st');
  }

  /** A scan on the way: the least gate value so far. */
  ghost predicate Scanned(cfg: Config, st: State, i: nat, low: int)
    requires cfg.Valid() && Shape(cfg, st)
  {
    i > 0 ==>
      && (forall j :: 0 <= j < i && j < |cfg.gates| ==> low <= st.seqs[cfg.gates[j]])
      && exists j :: 0 <= j < i && j < |cfg.gates| && low == st.seqs[cfg.gates[j]]
  }

  lemma ScanStep(cfg: Config, st: State, i: nat, low: int)
    requires cfg.Valid() && Shape(cfg, st) && i < |cfg.gates| && Scanned(cfg, st, i, low)
    ensures var v := st.seqs[cfg.gates[i]]; Scanned(cfg, st, i + 1, if i == 0 then v else Min(low, v))
  {
    var v := st.seqs[cfg.gates[i]];
    var low' := if i == 0 then v else Min(low, v);
    if low' == v {
      assert low' == st.seqs[cfg.gates[i]];
    } else {
      var j :| 0 <= j < i && j < |cfg.gates| && low == st.seqs[cfg.gates[j]];
      assert low' == st.seqs[cfg.gates[j]];
    }
  }

  /** The whole scan decides whether the claim fits. */
  lemma ScanDecides(cfg: Config, st: State, n: int, low: int)
    requires cfg.Valid() && Shape(cfg, st) && Scanned(cfg, st, |cfg.gates|, low)
    ensures st.cursor + n - cfg.size <= low <==> Fits(cfg, st, n)
  {
    var j :| 0 <= j < |cfg.gates| && low == st.seqs[cfg.gates[j]];
    assert cfg.gates[j] in cfg.gates;
    forall g | g in cfg.gates && g < |st.seqs| ensures low <= st.seqs[g] {
      var i :| 0 <= i < |cfg.gates| && cfg.gates[i] == g;
    }
  }

  /** How a claim that reads the gates ends when nobody else moves. */
  ghost predicate Settles(cfg: Config, st: State, p: nat, n: int, blocking: bool, st': State)
    requires p < |st.prods|
  {
    if Fits(cfg, st, n) then Granted(st, p, n, st')
    else if blocking then st' == At(st, p, Waiting(n))
    else st' == At(st, p, Free).(cache := st'.cache)
  }

  /** Reading one gate, on a state in which only the program counter of `p` matters. */
  lemma GateRead(cfg: Config, st: State, p: nat)
    requires cfg.Valid() && Shape(cfg, st) && p < |st.prods| && st.prods[p].pc.Gating?
    requires st.prods[p].pc.current == st.cursor && st.prods[p].pc.i < |cfg.gates|
    requires Scanned(cfg, st, st.prods[p].pc.i, st.prods[p].pc.low)
    ensures var pc, next := st.prods[p].pc, Apply(cfg, st, Produce(p, LoadGate));
            && Shape(cfg, next) && next == At(st, p, next.prods[p].pc)
            && match next.prods[p].pc
               case Gating(n, b, current, i, low) =>
                 && n == pc.n && b == pc.blocking && current == pc.current && i == pc.i + 1 < |cfg.gates|
                 && Scanned(cfg, st, i, low)
               case Waiting(n) => n == pc.n && pc.blocking && !Fits(cfg, st, n)
               case Caching(n, b, current, low) =>
                 && n == pc.n && b == pc.blocking && current == pc.current && (b ==> Fits(cfg, st, n))
                 && (Fits(cfg, st, n) <==> st.cursor + n - cfg.size <= low)
               case _ => false
  {
    var pc := st.prods[p].pc;
    ScanStep(cfg, st, pc.i, pc.low);
    if pc.i + 1 == |cfg.gates| {
      var v := st.seqs[cfg.gates[pc.i]];
      ScanDecides(cfg, st, pc.n, if pc.i == 0 then v else Min(pc.low, v));
    }
    hide Fits, Scanned;
  }

  lemma SettlesAlike(cfg: Config, st: State, next: State, p: nat, n: int, blocking: bool, st': State)
    requires p < |st.prods| == |next.prods| && next == At(st, p, next.prods[p].pc).(cache := next.cache)
    ensures Fits(cfg, next, n) <==> Fits(cfg, st, n)
    ensures Granted(next, p, n, st') <==> Granted(st, p, n, st')
    ensures Settles(cfg, next, p, n, blocking, st') && (next.cache == st.cache || !blocking || Fits(cfg, st, n))
            ==> Settles(cfg, st, p, n, blocking, st')
  {
  }

  lemma {:induction false} Scans(cfg: Config, st: State, p: nat) returns (st': State)
    requires cfg.Valid() && Shape(cfg, st) && p < |st.prods| && st.prods[p].pc.Gating?
    requires st.prods[p].pc.current == st.cursor && st.prods[p].pc.n >= 1 && st.prods[p].pc.i < |cfg.gates|
    requires Scanned(cfg, st, st.prods[p].pc.i, st.prods[p].pc.low)
    ensures Leads(cfg, st, ByProducer(p), st') && Settles(cfg, st, p, st.prods[p].pc.n, st.prods[p].pc.blocking, st')
    decreases |cfg.gates| - st.prods[p].pc.i
  {
    var pc, mv := st.prods[p].pc, Produce(p, LoadGate);
    GateRead(cfg, st, p);
    var next := Apply(cfg, st, mv);
    SettlesAlike(cfg, st, next, p, pc.n, pc.blocking, next);
    if next.prods[p].pc.Waiting? {
      st' := next;
      Arrived(cfg, next, ByProducer(p));
      OneMore(cfg, st, mv, ByProducer(p), st');
    } else {
      hide Fits, Leads, Settles, Granted, Apply, Gated;
      if next.prods[p].pc.Gating? {
        assert Scanned(cfg, next, next.prods[p].pc.i, next.prods[p].pc.low);
        st' := Scans(cfg, next, p);
      } else {
        st' := Caches(cfg, next, p);
      }
      SettlesAlike(cfg, st, next, p, pc.n, pc.blocking, st');
      OneMore(cfg, st, mv, ByProducer(p), st');
    }
  }

  /** Storing the scanned minimum, and what follows. */
  lemma Caches(cfg: Config, st: State, p: nat) returns (st': State)
    requires cfg.Valid() && Shape(cfg, st) && p < |st.prods| && st.prods[p].pc.Caching?
    requires st.prods[p].pc.current == st.cursor && st.prods[p].pc.n >= 1
    requires Fits(cfg, st, st.prods[p].pc.n) <==> st.cursor + st.prods[p].pc.n - cfg.size <= st.prods[p].pc.low
    requires st.prods[p].pc.blocking ==> Fits(cfg, st, st.prods[p].pc.n)
    ensures Leads(cfg, st, ByProducer(p), st') && Settles(cfg, st, p, st.prods[p].pc.n, st.prods[p].pc.blocking, st')
  {
    var pc, mv := st.prods[p].pc, Produce(p, StoreCache);
    var next := Apply(cfg, st, mv);
    if next.prods[p].pc.Swapping? {
      st' := Swaps(cfg, next, p);
    } else {
      st' := next;
      Arrived(cfg, next, ByProducer(p));
    }
    OneMore(cfg, st, mv, ByProducer(p), st');
  }

  /** The cache answers only for claims that fit. */
  lemma CacheAnswers(cfg: Config, st: State, p: nat) returns (st': State)
    requires cfg.Valid() && Shape(cfg, st) && p < |st.prods| && st.prods[p].pc.Bounded? && Above(st.seqs, st.cache)
    requires st.prods[p].pc.current == st.cursor && st.prods[p].pc.n >= 1
    ensures Leads(cfg, st, ByProducer(p), st') && Settles(cfg, st, p, st.prods[p].pc.n, st.prods[p].pc.blocking, st')
  {
    var pc, mv := st.prods[p].pc, Produce(p, LoadCache);
    var next := Apply(cfg, st, mv);
    assert next == At(st, p, next.prods[p].pc) && Scanned(cfg, next, 0, 0);
    assert next.prods[p].pc.Swapping? ==> Fits(cfg, st, pc.n);
    hide Fits, Leads, Granted, Scanned;
    if next.prods[p].pc.Gating? {
      st' := Scans(cfg, next, p);
    } else {
      st' := Swaps(cfg, next, p);
    }
    SettlesAlike(cfg, st, next, p, pc.n, pc.blocking, st');
    OneMore(cfg, st, mv, ByProducer(p), st');
  }

  lemma ClaimFrom(cfg: Config, st: State, p: nat, n: int, blocking: bool) returns (st': State)
    requires cfg.Valid() && Shape(cfg, st) && p < |st.prods| && Above(st.seqs, st.cache)
    requires st.prods[p].pc.Free? && 1 <= n <= cfg.size
    ensures Leads(cfg, Apply(cfg, st, Produce(p, Begin(n, blocking))), ByProducer(p), st')
    ensures Settles(cfg, st, p, n, blocking, st')
  {
    var a := Apply(cfg, st, Produce(p, Begin(n, blocking)));
    var b := Apply(cfg, a, Produce(p, Pass));
    var c := Apply(cfg, b, Produce(p, LoadCursor));
    assert c == At(st, p, Bounded(n, blocking, st.cursor));
    hide Leads, Settles;
    st' := CacheAnswers(cfg, c, p);
    SettlesAlike(cfg, st, c, p, n, blocking, st');
    OneMore(cfg, b, Produce(p, LoadCursor), ByProducer(p), st');
    OneMore(cfg, a, Produce(p, Pass), ByProducer(p), st');
  }

  lemma Reachable(cfg: Config, moves: seq<Move>, sts: seq<State>, i: nat)
    requires cfg.Valid() && cfg.multi && MultiRingProof.Run(cfg, moves, sts) && i < |sts|
    ensures Shape(cfg, sts[i]) && Above(sts[i].seqs, sts[i].cache)
  {
    var Ls := Beside(cfg, moves, sts, i);
  }

  /**
   * A claim that runs alone is granted exactly when it fits: from any reachable state, and however
   * the cache stands, `TryNext` and `Next` on an open ring take the next `n` sequences when no gate
   * would be lapped; otherwise `TryNext` returns with nothing taken and `Next` goes to wait.
   */
  lemma ClaimAlone(cfg: Config, moves: seq<Move>, sts: seq<State>, i: nat, p: nat, n: int, blocking: bool)
      returns (st': State)
    requires cfg.Valid() && cfg.multi && MultiRingProof.Run(cfg, moves, sts) && i < |sts|
    requires p < |sts[i].prods| && sts[i].prods[p].pc.Free? && 1 <= n <= cfg.size
    ensures Shape(cfg, sts[i]) && Enabled(cfg, sts[i], Produce(p, Begin(n, blocking)))
    ensures Leads(cfg, Apply(cfg, sts[i], Produce(p, Begin(n, blocking))), ByProducer(p), st')
    ensures Settles(cfg, sts[i], p, n, blocking, st')
  {
    Reachable(cfg, moves, sts, i);
    st' := ClaimFrom(cfg, sts[i], p, n, blocking);
  }

  // Resolutions

  /** The swaps of a resolution. */
  lemma {:induction false} Closes(cfg: Config, st: State, p: nat) returns (st': State)
    requires cfg.Valid() && Shape(cfg, st) && p < |st.prods| && st.prods[p].pc.Closing?
    requires st.prods[p].pc.k <= st.prods[p].pc.high
    ensures Leads(cfg, st, ByProducer(p), st') && st' == At(st, p, Free).(marks := st'.marks)
    decreases st.prods[p].pc.high - st.prods[p].pc.k
  {
    var mv := Produce(p, ResolveOne);
    var next := Apply(cfg, st, mv);
    if next.prods[p].pc.Free? {
      st' := next;
      Arrived(cfg, next, ByProducer(p));
    } else {
      st' := Closes(cfg, next, p);
    }
    OneMore(cfg, st, mv, ByProducer(p), st');
  }

  function Start(discard: bool, low: int, high: int): ProducerMove {
    if discard then StartDiscard(low, high) else StartPublish(low, high)
  }

  lemma ResolutionFrom(cfg: Config, st: State, p: nat, low: int, high: int, discard: bool) returns (st': State)
    requires cfg.Valid() && Shape(cfg, st) && p < |st.prods|
    requires st.prods[p].pc.Free? && Range(low, high) <= st.prods[p].owned
    ensures Leads(cfg, Apply(cfg, st, Produce(p, Start(discard, low, high))), ByProducer(p), st')
    ensures var pr := st.prods[p];
            st' == st.(marks := st'.marks, flag := st.flag || discard,
                       prods := st.prods[p := pr.(live := pr.live - Range(low, high))])
  {
    var a := Apply(cfg, st, Produce(p, Start(discard, low, high)));
    var b := if discard then Apply(cfg, a, Produce(p, SetFlag)) else a;
    hide Leads;
    if b.prods[p].pc.Free? {
      st' := b;
      Arrived(cfg, b, ByProducer(p));
    } else {
      st' := Closes(cfg, b, p);
    }
    if discard {
      OneMore(cfg, a, Produce(p, SetFlag), ByProducer(p), st');
    }
  }

  /**
   * A resolution that runs alone returns, with nothing changed but the markers and, for a discard,
   * the flag, which is then set. That the range then reads as was asked is for
   * `MultiTold.FirstCallDecides`.
   */
  lemma ResolutionAlone(cfg: Config, moves: seq<Move>, sts: seq<State>, i: nat, p: nat, low: int, high: int,
                        discard: bool) returns (st': State)
    requires cfg.Valid() && cfg.multi && MultiRingProof.Run(cfg, moves, sts) && i < |sts|
    requires p < |sts[i].prods| && sts[i].prods[p].pc.Free? && Range(low, high) <= sts[i].prods[p].owned
    ensures Shape(cfg, sts[i]) && Enabled(cfg, sts[i], Produce(p, Start(discard, low, high)))
    ensures Leads(cfg, Apply(cfg, sts[i], Produce(p, Start(discard, low, high))), ByProducer(p), st')
    ensures var pr := sts[i].prods[p];
            st' == sts[i].(marks := st'.marks, flag := sts[i].flag || discard,
                           prods := sts[i].prods[p := pr.(live := pr.live - Range(low, high))])
  {
    Reachable(cfg, moves, sts, i);
    st' := ResolutionFrom(cfg, sts[i], p, low, high, discard);
  }

  // Batches

  /** The positions consumer `c` waits on. */
  function Sources(cfg: Config, st: State, c: nat): seq<int>
    requires c < |cfg.deps|
  {
    var deps := cfg.deps[c];
    if deps == [] then [st.cursor]
    else seq(|deps|, i requires 0 <= i < |deps| => if deps[i] < |st.seqs| then st.seqs[deps[i]] else -1)
  }

  /** What consumer `c` reads while only it moves. */
  function StillOf(cfg: Config, st: State, c: nat): Still
    requires c < |cfg.deps|
  {
    var size, marks := cfg.size, st.marks;
    Still(Sources(cfg, st, c),
          s => size >= 1 && |marks| == size && Resolution(size, marks, s).Resolved(),
          st.flag,
          s => size >= 1 && |marks| == size && Resolution(size, marks, s).Discarded?)
  }

  /** The state with consumer `c` elsewhere in its batch. */
  function With(st: State, c: nat, pc: ConsumerPc): State
    requires c < |st.cons|
  {
    st.(cons := st.cons[c := pc])
  }

  lemma {:induction false} Follows(cfg: Config, st: State, c: nat, ms: seq<ConsumerMove>, pc': ConsumerPc, st': State)
    requires cfg.Valid() && Shape(cfg, st) && c < |cfg.deps|
    requires Path(cfg, c, st.seqs[c], StillOf(cfg, st, c), st.cons[c], ms, pc')
    requires Leads(cfg, With(st, c, pc'), ByConsumer(c), st')
    ensures Leads(cfg, st, ByConsumer(c), st')
    decreases |ms|
  {
    if ms == [] {
      assert With(st, c, pc') == st;
    } else {
      var mv := Consume(c, ms[0]);
      var next := Apply(cfg, st, mv);
      assert next == With(st, c, Next(cfg, c, st.seqs[c], st.cons[c], ms[0]));
      assert StillOf(cfg, next, c) == StillOf(cfg, st, c);
      assert With(next, c, pc') == With(st, c, pc');
      Follows(cfg, next, c, ms[1..], pc', st');
      OneMore(cfg, st, mv, ByConsumer(c), st');
    }
  }

  lemma BatchFrom(cfg: Config, st: State, c: nat) returns (end: int)
    requires cfg.Valid() && cfg.multi && Shape(cfg, st) && c < |cfg.deps| && st.cons[c].Resting?
    requires st.seqs[c] < Least(Sources(cfg, st, c)) && Resolution(cfg.size, st.marks, st.seqs[c] + 1).Resolved()
    ensures Longest(cfg, c, st.seqs[c], StillOf(cfg, st, c), end)
    ensures Leads(cfg, st, ByConsumer(c), st.(seqs := st.seqs[c := end]))
  {
    var env := StillOf(cfg, st, c);
    end := ComesToStore(cfg, c, st.seqs[c], env);
    var ms :| Path(cfg, c, st.seqs[c], env, Resting, ms, Storing(end));
    var last := With(st, c, Storing(end));
    var st' := st.(seqs := st.seqs[c := end]);
    assert Apply(cfg, last, Consume(c, Store)) == st';
    hide Leads, Path, Longest, StillOf;
    Arrived(cfg, st', ByConsumer(c));
    OneMore(cfg, last, Consume(c, Store), ByConsumer(c), st');
    Follows(cfg, st, c, ms, Storing(end), st');
  }

  /**
   * A consumer that runs alone acknowledges the longest batch there is: from any reachable state
   * in which it rests and the sequence after its own is there, its moves, with a handler that
   * fails nothing, store the end of the longest unbroken run of resolved sequences that its
   * dependencies and its limit allow.
   */
  lemma BatchAlone(cfg: Config, moves: seq<Move>, sts: seq<State>, i: nat, c: nat) returns (end: int)
    requires cfg.Valid() && cfg.multi && MultiRingProof.Run(cfg, moves, sts) && i < |sts| && c < |cfg.deps|
    requires c < |sts[i].cons| && sts[i].cons[c].Resting? && c < |sts[i].seqs|
    requires sts[i].seqs[c] < Least(Sources(cfg, sts[i], c)) && |sts[i].marks| == cfg.size
    requires Resolution(cfg.size, sts[i].marks, sts[i].seqs[c] + 1).Resolved()
    ensures Longest(cfg, c, sts[i].seqs[c], StillOf(cfg, sts[i], c), end)
    ensures Leads(cfg, sts[i], ByConsumer(c), sts[i].(seqs := sts[i].seqs[c := end]))
  {
    Reachable(cfg, moves, sts, i);
    end := BatchFrom(cfg, sts[i], c);
  }
}
