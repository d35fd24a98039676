/**
 * What `Next` and `TryNext` return on the multi-producer ring, and why, told from the moves of any
 * interleaving: a claim is granted only with room for it, and refused for want of room only if at
 * some point of the call there was none.
 */
module MultiClaims {
  import opened Topology
  import opened Log
  import opened MultiRing
  import opened MultiTold

  /** There is room for `n` more: no gate would be lapped. */
  ghost predicate Fits(cfg: Config, st: State, n: int) {
    forall g :: g in cfg.gates && g < |st.seqs| ==> st.cursor + n - cfg.size <= st.seqs[g]
  }

  predicate IsBegin(mv: Move, p: nat) {
    mv.Produce? && mv.p == p && mv.pm.Begin?
  }

  /** Move `j` began the call that producer `p` is in at state `i`, or was in last. */
  predicate Began(moves: seq<Move>, i: int, j: int, p: nat) {
    0 <= j < i <= |moves| && IsBegin(moves[j], p) && forall l :: j < l < i ==> !IsBegin(moves[l], p)
  }

  predicate Asks(moves: seq<Move>, i: int, j: int, p: nat, n: int, blocking: bool) {
    Began(moves, i, j, p) && moves[j].pm == Begin(n, blocking)
  }

  /** Since move `j` some gate was read at `low`, after the cursor had come to `current`. */
  ghost predicate Read(cfg: Config, moves: seq<Move>, sts: seq<State>, i: int, j: int, current: int, low: int)
    requires |sts| == |moves| + 1
  {
    exists m: nat, g :: j < m < i <= |moves| && g in cfg.gates && g < |sts[m].seqs|
                   && sts[m].seqs[g] == low && current <= sts[m].cursor
  }

  /** Since move `j` the range was taken, when there was room for it. */
  ghost predicate Took(cfg: Config, moves: seq<Move>, sts: seq<State>, i: int, j: int, p: nat, low: int, high: int)
    requires |sts| == |moves| + 1
  {
    exists m: nat :: j < m < i <= |moves| && moves[m] == Produce(p, Swap)
                && low == sts[m].cursor + 1 && high == sts[m + 1].cursor && Fits(cfg, sts[m], high - low + 1)
  }

  /** A claim call under way, by the move that began it. */
  ghost predicate CallOK(cfg: Config, moves: seq<Move>, sts: seq<State>, i: int, j: int, p: nat, pc: ProducerPc)
    requires |sts| == |moves| + 1 && 0 <= i < |sts|
  {
    match pc
    case Top(n, b) => Asks(moves, i, j, p, n, b)
    case Checked(n, b) => Asks(moves, i, j, p, n, b)
    case Bounded(n, b, current) => Asks(moves, i, j, p, n, b) && current <= sts[i].cursor
    case Gating(n, b, current, k, low) =>
      && Asks(moves, i, j, p, n, b) && current <= sts[i].cursor
      && (k > 0 ==> Read(cfg, moves, sts, i, j, current, low))
    case Caching(n, b, current, low) =>
      Asks(moves, i, j, p, n, b) && current <= sts[i].cursor && Read(cfg, moves, sts, i, j, current, low)
    case Waiting(n) => Asks(moves, i, j, p, n, true)
    case Swapping(n, b, current) => Asks(moves, i, j, p, n, b) && current <= sts[i].cursor
    case Preparing(low, _, high) =>
      && Began(moves, i, j, p) && moves[j].pm.n == high - low + 1
      && Took(cfg, moves, sts, i, j, p, low, high)
    case _ => true
  }

  predicate InClaim(pc: ProducerPc) {
    !pc.Free? && !pc.Flagging? && !pc.Closing?
  }

  lemma ReadLater(cfg: Config, moves: seq<Move>, sts: seq<State>, i: nat, j: int, current: int, low: int)
    requires |sts| == |moves| + 1 && i < |moves| && Read(cfg, moves, sts, i, j, current, low)
    ensures Read(cfg, moves, sts, i + 1, j, current, low)
  {
    var m: nat, g :| j < m < i <= |moves| && g in cfg.gates && g < |sts[m].seqs|
                && sts[m].seqs[g] == low && current <= sts[m].cursor;
    assert m < i + 1;
  }

  lemma TookLater(cfg: Config, moves: seq<Move>, sts: seq<State>, i: nat, j: int, p: nat, low: int, high: int)
    requires |sts| == |moves| + 1 && i < |moves| && Took(cfg, moves, sts, i, j, p, low, high)
    ensures Took(cfg, moves, sts, i + 1, j, p, low, high)
  {
    var m: nat :| j < m < i <= |moves| && moves[m] == Produce(p, Swap)
             && low == sts[m].cursor + 1 && high == sts[m + 1].cursor && Fits(cfg, sts[m], high - low + 1);
    assert m < i + 1;
  }

  /** The call goes on through any move that is not its beginning and leaves its counter alone. */
  lemma CallLater(cfg: Config, moves: seq<Move>, sts: seq<State>, i: nat, j: int, p: nat, pc: ProducerPc)
    requires |sts| == |moves| + 1 && i < |moves| && !IsBegin(moves[i], p) && sts[i].cursor <= sts[i + 1].cursor
    requires CallOK(cfg, moves, sts, i, j, p, pc)
    ensures CallOK(cfg, moves, sts, i + 1, j, p, pc)
  {
    match pc
    case Gating(_, _, current, k, low) => if k > 0 { ReadLater(cfg, moves, sts, i, j, current, low); }
    case Caching(_, _, current, low) => ReadLater(cfg, moves, sts, i, j, current, low);
    case Preparing(low, _, high) => TookLater(cfg, moves, sts, i, j, p, low, high);
    case _ =>
  }

  lemma CursorGrows(cfg: Config, st: State, L: LogState, mv: Move)
    requires cfg.Valid() && Inv(cfg, st, L) && Enabled(cfg, st, mv)
    ensures st.cursor <= Apply(cfg, st, mv).cursor
  {
    if mv.Produce? {
      assert ProducerOK(cfg, L.recs, st.seqs, st.flag, mv.p, st.prods[mv.p]);
    }
  }

  /** A move of the call itself. */
  lemma CallMoves(cfg: Config, moves: seq<Move>, sts: seq<State>, i: nat, j: int, p: nat, pm: ProducerMove)
    requires cfg.Valid() && |sts| == |moves| + 1 && i < |moves| && moves[i] == Produce(p, pm) && j < i
    requires Shape(cfg, sts[i]) && Enabled(cfg, sts[i], moves[i]) && sts[i + 1] == Apply(cfg, sts[i], moves[i])
    requires sts[i].cursor <= sts[i + 1].cursor && !pm.Begin? && !pm.LoadGate? && !pm.Swap?
    requires InClaim(sts[i].prods[p].pc) && CallOK(cfg, moves, sts, i, j, p, sts[i].prods[p].pc)
    requires CallOK(cfg, moves, sts, i + 1, j, p, sts[i].prods[p].pc)
    ensures CallOK(cfg, moves, sts, i + 1, j, p, sts[i + 1].prods[p].pc)
  {
    hide Read, Began, Took;
  }

  /** Winning the cursor, which is tried only with room on all gates. */
  lemma CursorWon(cfg: Config, moves: seq<Move>, sts: seq<State>, L: LogState, i: nat, j: int, p: nat)
    requires cfg.Valid() && |sts| == |moves| + 1 && i < |moves| && moves[i] == Produce(p, Swap) && j < i
    requires Shape(cfg, sts[i]) && Enabled(cfg, sts[i], moves[i]) && sts[i + 1] == Apply(cfg, sts[i], moves[i])
    requires PcOK(cfg, L.recs, sts[i].seqs, sts[i].flag, p, sts[i].prods[p])
    requires CallOK(cfg, moves, sts, i + 1, j, p, sts[i].prods[p].pc)
    ensures CallOK(cfg, moves, sts, i + 1, j, p, sts[i + 1].prods[p].pc)
  {
    var st, pc := sts[i], sts[i].prods[p].pc;
    if st.cursor == pc.current {
      assert Fits(cfg, st, pc.n);
      assert sts[i + 1].cursor == st.cursor + pc.n;
      assert Took(cfg, moves, sts, i + 1, j, p, st.cursor + 1, sts[i + 1].cursor);
    }
    hide Read, Began, Took;
  }

  /** Reading a gate: the minimum in hand was read just now, or before. */
  lemma GateRead(cfg: Config, moves: seq<Move>, sts: seq<State>, i: nat, j: int, p: nat)
    requires cfg.Valid() && |sts| == |moves| + 1 && i < |moves| && moves[i] == Produce(p, LoadGate) && j < i
    requires Shape(cfg, sts[i]) && Enabled(cfg, sts[i], moves[i]) && sts[i + 1] == Apply(cfg, sts[i], moves[i])
    requires sts[i].prods[p].pc.Gating? && CallOK(cfg, moves, sts, i, j, p, sts[i].prods[p].pc)
    requires CallOK(cfg, moves, sts, i + 1, j, p, sts[i].prods[p].pc)
    ensures CallOK(cfg, moves, sts, i + 1, j, p, sts[i + 1].prods[p].pc)
  {
    var pc := sts[i].prods[p].pc;
    if pc.i < |cfg.gates| {
      var g := cfg.gates[pc.i];
      assert g in cfg.gates && g < |sts[i].seqs| && pc.current <= sts[i].cursor;
      assert Read(cfg, moves, sts, i + 1, j, pc.current, sts[i].seqs[g]);
    }
    hide Read, Began;
  }

  lemma CallStep(cfg: Config, moves: seq<Move>, sts: seq<State>, L: LogState, i: nat, j: int, p: nat)
    requires cfg.Valid() && |sts| == |moves| + 1 && i < |moves| && p < |sts[i].prods| && j < i
    requires Shape(cfg, sts[i]) && Enabled(cfg, sts[i], moves[i]) && sts[i + 1] == Apply(cfg, sts[i], moves[i])
    requires Inv(cfg, sts[i], L) && sts[i].cursor <= sts[i + 1].cursor && !IsBegin(moves[i], p)
    requires InClaim(sts[i].prods[p].pc) ==> CallOK(cfg, moves, sts, i, j, p, sts[i].prods[p].pc)
    ensures InClaim(sts[i + 1].prods[p].pc) ==> CallOK(cfg, moves, sts, i + 1, j, p, sts[i + 1].prods[p].pc)
  {
    if InClaim(sts[i + 1].prods[p].pc) {
      assert InClaim(sts[i].prods[p].pc);
      CallLater(cfg, moves, sts, i, j, p, sts[i].prods[p].pc);
      if moves[i].Produce? && moves[i].p == p {
        if moves[i].pm.LoadGate? {
          GateRead(cfg, moves, sts, i, j, p);
        } else if moves[i].pm.Swap? {
          assert ProducerOK(cfg, L.recs, sts[i].seqs, sts[i].flag, p, sts[i].prods[p]);
          CursorWon(cfg, moves, sts, L, i, j, p);
        } else {
          CallMoves(cfg, moves, sts, i, j, p, moves[i].pm);
        }
      } else {
        assert sts[i + 1].prods[p] == sts[i].prods[p];
      }
    }
  }

  lemma RunStep(cfg: Config, moves: seq<Move>, sts: seq<State>, i: nat) returns (L: LogState)
    requires cfg.Valid() && cfg.multi && MultiRingProof.Run(cfg, moves, sts) && i < |moves|
    ensures Inv(cfg, sts[i], L) && Shape(cfg, sts[i]) && Enabled(cfg, sts[i], moves[i])
    ensures sts[i + 1] == Apply(cfg, sts[i], moves[i]) && sts[i].cursor <= sts[i + 1].cursor
    ensures |sts[i].prods| == |sts[i + 1].prods| == cfg.producers
  {
    var Ls := Beside(cfg, moves, sts, i);
    L := Ls[i];
    CursorGrows(cfg, sts[i], L, moves[i]);
  }

  lemma SomeStart(cfg: Config, moves: seq<Move>, sts: seq<State>, p: nat)
    requires cfg.Valid() && MultiRingProof.Run(cfg, moves, sts) && p < cfg.producers
    ensures p < |sts[0].prods| && !InClaim(sts[0].prods[p].pc)
  {
  }

  lemma {:induction false} CallKnown(cfg: Config, moves: seq<Move>, sts: seq<State>, i: nat, p: nat) returns (j: int)
    requires cfg.Valid() && cfg.multi && MultiRingProof.Run(cfg, moves, sts) && i < |sts| && p < cfg.producers
    ensures p < |sts[i].prods| && j < i
    ensures InClaim(sts[i].prods[p].pc) ==> CallOK(cfg, moves, sts, i, j, p, sts[i].prods[p].pc)
  {
    hide CallOK, Inv, Enabled, Apply, InClaim, Shape, IsBegin, MultiRing.Initial;
    j := -1;
    if i == 0 {
      SomeStart(cfg, moves, sts, p);
    } else {
      j := CallKnown(cfg, moves, sts, i - 1, p);
      var L := RunStep(cfg, moves, sts, i - 1);
      if IsBegin(moves[i - 1], p) {
        j := i - 1;
        BeginStarts(cfg, moves, sts, i - 1, p);
      } else {
        CallStep(cfg, moves, sts, L, i - 1, j, p);
      }
    }
  }

  lemma BeginStarts(cfg: Config, moves: seq<Move>, sts: seq<State>, i: nat, p: nat)
    requires cfg.Valid() && |sts| == |moves| + 1 && i < |moves| && IsBegin(moves[i], p)
    requires Shape(cfg, sts[i]) && Enabled(cfg, sts[i], moves[i]) && sts[i + 1] == Apply(cfg, sts[i], moves[i])
    ensures InClaim(sts[i + 1].prods[p].pc) ==> CallOK(cfg, moves, sts, i + 1, i, p, sts[i + 1].prods[p].pc)
  {
    assert Began(moves, i + 1, i, p);
  }

  /** A refusal for want of room: some gate read during the call left too little. */
  lemma RefusedWithoutRoom(cfg: Config, moves: seq<Move>, sts: seq<State>, i: nat, j: int, current: int, low: int,
                           n: int)
    requires |sts| == |moves| + 1 && Read(cfg, moves, sts, i, j, current, low) && current + n - cfg.size > low
    ensures exists m: nat :: j < m < i && i <= |moves| && !Fits(cfg, sts[m], n)
  {
    var m: nat, g :| j < m < i <= |moves| && g in cfg.gates && g < |sts[m].seqs|
                     && sts[m].seqs[g] == low && current <= sts[m].cursor;
    assert !Fits(cfg, sts[m], n);
  }

  /** Why the call that move `j` began returns with move `i`. */
  ghost predicate Returns(cfg: Config, moves: seq<Move>, sts: seq<State>, i: nat, j: int, p: nat, n: int,
                          blocking: bool)
    requires |sts| == |moves| + 1 && i < |moves| && p < |sts[i].prods| && p < |sts[i + 1].prods|
  {
    moves[i].Produce? && moves[i].p == p &&
    match moves[i].pm
    case Refuse => true
    case Cancel => blocking
    case StoreCache => !blocking && exists m: nat :: j < m < i && !Fits(cfg, sts[m], n)
    case PrepareOne =>
      exists m: nat :: j < m < i && moves[m] == Produce(p, Swap) && Fits(cfg, sts[m], n)
                       && sts[m + 1].cursor == sts[m].cursor + n
                       && sts[i + 1].prods[p].owned
                          == sts[i].prods[p].owned + Range(sts[m].cursor + 1, sts[m + 1].cursor)
    case _ => false
  }

  lemma CallReturns(cfg: Config, moves: seq<Move>, sts: seq<State>, L: LogState, i: nat, j: int, p: nat)
    requires cfg.Valid() && |sts| == |moves| + 1 && i < |moves| && p < |sts[i].prods| && j < i
    requires Shape(cfg, sts[i]) && Enabled(cfg, sts[i], moves[i]) && sts[i + 1] == Apply(cfg, sts[i], moves[i])
    requires PcOK(cfg, L.recs, sts[i].seqs, sts[i].flag, p, sts[i].prods[p])
    requires CallOK(cfg, moves, sts, i, j, p, sts[i].prods[p].pc)
    requires InClaim(sts[i].prods[p].pc) && !InClaim(sts[i + 1].prods[p].pc)
    ensures 0 <= j && IsBegin(moves[j], p)
    ensures Returns(cfg, moves, sts, i, j, p, moves[j].pm.n, moves[j].pm.blocking)
  {
    var pc, pm := sts[i].prods[p].pc, moves[i].pm;
    if pm.StoreCache? {
      RefusedWithoutRoom(cfg, moves, sts, i, j, pc.current, pc.low, pc.n);
    } else if pm.PrepareOne? {
      var m: nat :| j < m < i && moves[m] == Produce(p, Swap)
                    && pc.low == sts[m].cursor + 1 && pc.high == sts[m + 1].cursor
                    && Fits(cfg, sts[m], pc.high - pc.low + 1);
    }
    hide Read, Took, Fits;
  }

  /**
   * Every claim call returns for a reason, in any interleaving and whatever the cache held: it
   * found the ring sealed; or it was blocking, and cancelled; or it was not blocking, and at some
   * point of the call there was no room for what it asked; or it was granted exactly the number it
   * asked for, by winning the cursor within the call, at a point when there was room.
   */
  lemma ClaimsReturn(cfg: Config, moves: seq<Move>, sts: seq<State>, i: nat, p: nat)
    requires cfg.Valid() && cfg.multi && MultiRingProof.Run(cfg, moves, sts) && i < |moves| && p < cfg.producers
    requires p < |sts[i].prods| && p < |sts[i + 1].prods|
    requires InClaim(sts[i].prods[p].pc) && !InClaim(sts[i + 1].prods[p].pc)
    ensures exists j, n, blocking :: Asks(moves, i, j, p, n, blocking) && Returns(cfg, moves, sts, i, j, p, n, blocking)
  {
    var j := CallKnown(cfg, moves, sts, i, p);
    var L := RunStep(cfg, moves, sts, i);
    assert ProducerOK(cfg, L.recs, sts[i].seqs, sts[i].flag, p, sts[i].prods[p]);
    hide Inv, Apply, Enabled, Returns, Shape;
    CallReturns(cfg, moves, sts, L, i, j, p);
    assert Asks(moves, i, j, p, moves[j].pm.n, moves[j].pm.blocking);
  }

  /** A call that asks for no legal number returns at once; any other goes on. */
  lemma ClaimsBegin(cfg: Config, moves: seq<Move>, sts: seq<State>, i: nat, p: nat)
    requires cfg.Valid() && MultiRingProof.Run(cfg, moves, sts) && i < |moves| && IsBegin(moves[i], p)
    ensures p < |sts[i + 1].prods|
    ensures InClaim(sts[i + 1].prods[p].pc) <==> 1 <= moves[i].pm.n <= cfg.size
  {
  }

  /** A cancelled wait, and a claim on a sealed ring, return at once with nothing taken or changed. */
  lemma CancelsReturn(cfg: Config, moves: seq<Move>, sts: seq<State>, i: nat, p: nat)
    requires cfg.Valid() && MultiRingProof.Run(cfg, moves, sts) && i < |moves|
    requires moves[i] == Produce(p, Cancel) || moves[i] == Produce(p, Refuse)
    ensures p < |sts[i].prods|
    ensures sts[i + 1] == sts[i].(prods := sts[i].prods[p := sts[i].prods[p].(pc := Free)])
  {
    assert Enabled(cfg, sts[i], moves[i]) && sts[i + 1] == Apply(cfg, sts[i], moves[i]);
  }
}
