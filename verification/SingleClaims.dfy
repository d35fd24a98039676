/**
 * What `Next` and `TryNext` return on the single-producer ring, and why, told from the moves of
 * any interleaving.
 */
module SingleClaims {
  import opened Topology
  import opened Consumers
  import opened SingleRing
  import opened SingleTold

  /** There is room for `n` more: no gate would be lapped. */
  ghost predicate Fits(cfg: Config, st: State, n: int) {
    forall g :: g in cfg.gates && g < |st.seqs| ==> st.next + n - cfg.size <= st.seqs[g]
  }

  predicate IsBegin(mv: Move) {
    mv.Produce? && mv.pm.Begin?
  }

  /** Move `j` began the call that the producer is in at state `i`, or was in last. */
  predicate Asks(moves: seq<Move>, i: int, j: int, n: int, blocking: bool) {
    0 <= j < i <= |moves| && moves[j] == Produce(Begin(n, blocking)) && forall l :: j < l < i ==> !IsBegin(moves[l])
  }

  /** Since move `j` some gate was read at `low`, with the claims as they are at state `i`. */
  ghost predicate Read(cfg: Config, moves: seq<Move>, sts: seq<State>, i: int, j: int, low: int)
    requires |sts| == |moves| + 1 && 0 <= i < |sts|
  {
    exists m: nat, g :: j < m < i && g in cfg.gates && g < |sts[m].seqs|
                        && sts[m].seqs[g] == low && sts[m].next == sts[i].next
  }

  ghost predicate CallOK(cfg: Config, moves: seq<Move>, sts: seq<State>, i: int, j: int, pc: ProducerPc)
    requires |sts| == |moves| + 1 && 0 <= i < |sts|
  {
    match pc
    case Top(n, b) => Asks(moves, i, j, n, b)
    case Checked(n, b) => Asks(moves, i, j, n, b)
    case Retry(n) => Asks(moves, i, j, n, true)
    case Gating(n, b, k, low) => Asks(moves, i, j, n, b) && (k > 0 ==> Read(cfg, moves, sts, i, j, low))
    case Waiting(n) => Asks(moves, i, j, n, true)
    case _ => true
  }

  predicate InClaim(pc: ProducerPc) {
    pc.Top? || pc.Checked? || pc.Retry? || pc.Gating? || pc.Waiting?
  }

  /** The call goes on through any move that is not its beginning and claims nothing. */
  lemma CallLater(cfg: Config, moves: seq<Move>, sts: seq<State>, i: nat, j: int, pc: ProducerPc)
    requires |sts| == |moves| + 1 && i < |moves| && !IsBegin(moves[i]) && sts[i + 1].next == sts[i].next
    requires CallOK(cfg, moves, sts, i, j, pc)
    ensures CallOK(cfg, moves, sts, i + 1, j, pc)
  {
    if pc.Gating? && pc.i > 0 {
      var m: nat, g :| j < m < i && g in cfg.gates && g < |sts[m].seqs|
                       && sts[m].seqs[g] == pc.low && sts[m].next == sts[i].next;
      assert m < i + 1;
    }
  }

  /** A move of the producer within the call: a gate's value is the minimum in hand, or an earlier one is. */
  lemma CallMoves(cfg: Config, moves: seq<Move>, sts: seq<State>, i: nat, j: int, pm: ProducerMove)
    requires cfg.Valid() && |sts| == |moves| + 1 && i < |moves| && moves[i] == Produce(pm) && j < i
    requires Shape(cfg, sts[i]) && Enabled(cfg, sts[i], moves[i]) && sts[i + 1] == Apply(cfg, sts[i], moves[i])
    requires !pm.Begin? && InClaim(sts[i].pc) && InClaim(sts[i + 1].pc)
    requires CallOK(cfg, moves, sts, i, j, sts[i].pc) && CallOK(cfg, moves, sts, i + 1, j, sts[i].pc)
    ensures CallOK(cfg, moves, sts, i + 1, j, sts[i + 1].pc)
  {
    var pc := sts[i].pc;
    if pm.LoadGate? && pc.i < |cfg.gates| {
      var g := cfg.gates[pc.i];
      assert g in cfg.gates && g < |sts[i].seqs|;
      assert Read(cfg, moves, sts, i + 1, j, sts[i].seqs[g]);
    }
    hide Read, Asks;
  }

  /** While a claim is under way only its end changes the claim position. */
  lemma NextStays(cfg: Config, st: State, mv: Move)
    requires cfg.Valid() && Shape(cfg, st) && Enabled(cfg, st, mv)
    ensures InClaim(Apply(cfg, st, mv).pc) ==> Apply(cfg, st, mv).next == st.next && (InClaim(st.pc) || IsBegin(mv))
  {
  }

  lemma CallStep(cfg: Config, moves: seq<Move>, sts: seq<State>, i: nat, j: int)
    requires cfg.Valid() && |sts| == |moves| + 1 && i < |moves| && j < i && !IsBegin(moves[i])
    requires Shape(cfg, sts[i]) && Enabled(cfg, sts[i], moves[i]) && sts[i + 1] == Apply(cfg, sts[i], moves[i])
    requires InClaim(sts[i].pc) ==> CallOK(cfg, moves, sts, i, j, sts[i].pc)
    ensures InClaim(sts[i + 1].pc) ==> CallOK(cfg, moves, sts, i + 1, j, sts[i + 1].pc)
  {
    if InClaim(sts[i + 1].pc) {
      NextStays(cfg, sts[i], moves[i]);
      CallLater(cfg, moves, sts, i, j, sts[i].pc);
      if moves[i].Produce? {
        CallMoves(cfg, moves, sts, i, j, moves[i].pm);
      }
    }
  }

  lemma BeginStarts(cfg: Config, moves: seq<Move>, sts: seq<State>, i: nat)
    requires cfg.Valid() && |sts| == |moves| + 1 && i < |moves| && IsBegin(moves[i])
    requires Shape(cfg, sts[i]) && Enabled(cfg, sts[i], moves[i]) && sts[i + 1] == Apply(cfg, sts[i], moves[i])
    ensures InClaim(sts[i + 1].pc) ==> CallOK(cfg, moves, sts, i + 1, i, sts[i + 1].pc)
  {
  }

  lemma {:induction false} CallKnown(cfg: Config, moves: seq<Move>, sts: seq<State>, i: nat) returns (j: int)
    requires cfg.Valid() && SingleRefinement.Run(cfg, moves, sts) && i < |sts|
    ensures j < i && (InClaim(sts[i].pc) ==> CallOK(cfg, moves, sts, i, j, sts[i].pc))
  {
    j := -1;
    if i > 0 {
      hide CallOK, Enabled, Apply, InClaim, Shape, IsBegin;
      j := CallKnown(cfg, moves, sts, i - 1);
      if IsBegin(moves[i - 1]) {
        j := i - 1;
        BeginStarts(cfg, moves, sts, i - 1);
      } else {
        CallStep(cfg, moves, sts, i - 1, j);
      }
    }
  }

  /** Why the call that move `j` began returns with move `i`. */
  ghost predicate Returns(cfg: Config, moves: seq<Move>, sts: seq<State>, i: nat, j: int, n: int, blocking: bool)
    requires |sts| == |moves| + 1 && i < |moves|
  {
    var granted := Fits(cfg, sts[i], n) && sts[i + 1].next == sts[i].next + n;
    moves[i].Produce? &&
    match moves[i].pm
    case Refuse => sts[i + 1].next == sts[i].next
    case Pass => !(1 <= n <= cfg.size) && sts[i + 1].next == sts[i].next
    case Cancel => blocking && sts[i + 1].next == sts[i].next
    case Decide => granted
    case LoadGate =>
      granted || (!blocking && sts[i + 1].next == sts[i].next && exists m: nat :: j < m <= i && !Fits(cfg, sts[m], n))
    case _ => false
  }

  lemma ScanReturns(cfg: Config, moves: seq<Move>, sts: seq<State>, i: nat, j: int)
    requires cfg.Valid() && |sts| == |moves| + 1 && i < |moves| && j < i && moves[i] == Produce(LoadGate)
    requires Shape(cfg, sts[i]) && Enabled(cfg, sts[i], moves[i]) && sts[i + 1] == Apply(cfg, sts[i], moves[i])
    requires PcOK(cfg, sts[i]) && CallOK(cfg, moves, sts, i, j, sts[i].pc) && !InClaim(sts[i + 1].pc)
    ensures Returns(cfg, moves, sts, i, j, sts[i].pc.n, sts[i].pc.blocking)
  {
    var st, pc := sts[i], sts[i].pc;
    var v, wrap := st.seqs[cfg.gates[pc.i]], st.next + pc.n - cfg.size;
    var low := if pc.i == 0 then v else Min(pc.low, v);
    if wrap <= low {
      forall g | g in cfg.gates && g < |st.seqs| ensures wrap <= st.seqs[g] {
        var x :| 0 <= x < |cfg.gates| && cfg.gates[x] == g;
      }
    } else if wrap > v {
      assert !Fits(cfg, st, pc.n);
    } else {
      var m: nat, g :| j < m < i && g in cfg.gates && g < |sts[m].seqs|
                       && sts[m].seqs[g] == pc.low && sts[m].next == st.next;
      assert !Fits(cfg, sts[m], pc.n);
    }
  }

  lemma CallReturns(cfg: Config, moves: seq<Move>, sts: seq<State>, i: nat, j: int)
    requires cfg.Valid() && |sts| == |moves| + 1 && i < |moves| && j < i
    requires Shape(cfg, sts[i]) && Enabled(cfg, sts[i], moves[i]) && sts[i + 1] == Apply(cfg, sts[i], moves[i])
    requires PcOK(cfg, sts[i]) && Above(sts[i].seqs, sts[i].cached) && CallOK(cfg, moves, sts, i, j, sts[i].pc)
    requires InClaim(sts[i].pc) && !InClaim(sts[i + 1].pc)
    ensures 0 <= j && IsBegin(moves[j]) && Asks(moves, i, j, moves[j].pm.n, moves[j].pm.blocking)
    ensures Returns(cfg, moves, sts, i, j, moves[j].pm.n, moves[j].pm.blocking)
  {
    if moves[i].Produce? && moves[i].pm.LoadGate? {
      ScanReturns(cfg, moves, sts, i, j);
    } else {
      hide Read;
    }
  }

  /**
   * Every claim call returns for a reason, in any interleaving and whatever the cache held: it
   * found the ring sealed; it asked for no legal number; it was blocking, and cancelled; it was
   * not blocking, and at some point of the call there was no room for what it asked; or it was
   * granted exactly the number it asked for, at a point when there was room.
   */
  lemma ClaimsReturn(cfg: Config, moves: seq<Move>, sts: seq<State>, i: nat)
    requires cfg.Valid() && !cfg.multi && cfg.producers == 1 && SingleRefinement.Run(cfg, moves, sts) && i < |moves|
    requires InClaim(sts[i].pc) && !InClaim(sts[i + 1].pc)
    ensures exists j, n, blocking :: Asks(moves, i, j, n, blocking) && Returns(cfg, moves, sts, i, j, n, blocking)
  {
    var j := CallKnown(cfg, moves, sts, i);
    var Ls := Beside(cfg, moves, sts, i);
    assert Shape(cfg, sts[i]) && Enabled(cfg, sts[i], moves[i]) && sts[i + 1] == Apply(cfg, sts[i], moves[i]);
    assert PcOK(cfg, sts[i]) && Above(sts[i].seqs, sts[i].cached);
    hide Inv, Apply, Enabled, Returns, Shape, PcOK;
    CallReturns(cfg, moves, sts, i, j);
  }

  /** A cancelled wait, and a claim on a sealed ring, return at once with nothing taken or changed. */
  lemma CancelsReturn(cfg: Config, moves: seq<Move>, sts: seq<State>, i: nat)
    requires cfg.Valid() && SingleRefinement.Run(cfg, moves, sts) && i < |moves|
    requires moves[i] == Produce(Cancel) || moves[i] == Produce(Refuse)
    ensures sts[i + 1] == sts[i].(pc := Free)
  {
    assert Enabled(cfg, sts[i], moves[i]) && sts[i + 1] == Apply(cfg, sts[i], moves[i]);
  }
}
