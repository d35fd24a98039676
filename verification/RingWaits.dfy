/**
 * The blocking waits beside a ring: what a ring's claims look like to the wait protocol, and why a
 * claim that has room again is never left asleep. Both ring modes are instances.
 */
module RingWaits {
  import W = ProducerWaits

  /**
   * A producer as the waits see it: elsewhere, scanning the gates of a blocking claim, or asleep.
   * `room` is the wrap point the sleeping claim would have if it were made now.
   */
  datatype Claimer = Elsewhere | Scanning(wrap: int, i: nat, low: int) | Asleep(room: int)

  /** A ring as the waits see it. */
  datatype View = View(seqs: seq<int>, gates: seq<nat>, claimers: seq<Claimer>)

  /** What a ring move is to the waits. `m` is the thread that stores consumer `c`'s sequence. */
  datatype Step =
    | Ring
    | Store(c: nat, m: nat, v: int)
    | Read(p: nat)
    | Leave(p: nat, woken: bool)

  ghost predicate WellFormed(v: View) {
    v.gates != [] && forall i :: 0 <= i < |v.gates| ==> v.gates[i] < |v.seqs|
  }

  /** Reading gate `i` of a scan that needs `wrap`; a claim that comes back short goes to sleep. */
  ghost predicate ScansTo(v: View, cl: Claimer, cl': Claimer)
    requires WellFormed(v)
  {
    cl.Scanning? && cl.i < |v.gates| &&
    (var x := v.seqs[v.gates[cl.i]];
     var low := if cl.i == 0 || x < cl.low then x else cl.low;
     if cl.i + 1 < |v.gates| then cl' == Scanning(cl.wrap, cl.i + 1, low)
     else if cl.wrap > low then cl'.Asleep? && cl.wrap <= cl'.room
     else cl'.Elsewhere?)
  }

  /** A claimer while the others move: the claim asleep may only need more room than before. */
  predicate Rests(cl: Claimer, cl': Claimer) {
    if cl.Asleep? then cl'.Asleep? && cl.room <= cl'.room else cl' == cl
  }

  predicate Begins(cl: Claimer, cl': Claimer) {
    cl.Elsewhere? && cl'.Scanning? && cl'.i == 0
  }

  /** The ring's side of a step. */
  ghost predicate Moves(v: View, step: Step, v': View)
    requires WellFormed(v)
  {
    && v'.gates == v.gates && |v'.claimers| == |v.claimers|
    && match step
       case Ring =>
         && v'.seqs == v.seqs
         && forall q :: 0 <= q < |v.claimers| ==>
              Rests(v.claimers[q], v'.claimers[q]) || Begins(v.claimers[q], v'.claimers[q])
       case Store(c, _, x) => c < |v.seqs| && v' == v.(seqs := v.seqs[c := x])
       case Read(p) =>
         && p < |v.claimers| && ScansTo(v, v.claimers[p], v'.claimers[p])
         && v' == v.(claimers := v.claimers[p := v'.claimers[p]])
       case Leave(p, _) =>
         p < |v.claimers| && v.claimers[p].Asleep? && v' == v.(claimers := v.claimers[p := Elsewhere])
  }

  /** The waits' side of a step: the move of the wait machine that goes with it. */
  function Companion(step: Step): W.Move
    requires !step.Ring?
  {
    match step
    case Store(c, m, v) => W.Store(m, c, v)
    case Read(p) => W.ReadGate(p)
    case Leave(p, woken) => if woken then W.Wake(p) else W.Cancel(p)
  }

  /**
   * Moves of the wait machine alone: signals, other sequences, other rings, closing, and the
   * preparation of a claim, which waits for the wrap point the ring computed.
   */
  predicate Alone(v: View, w: W.State, mv: W.Move) {
    match mv
    case Store(_, x, _) => x >= |v.seqs|
    case LockAdd(_) => false
    case LockRemove(_) => false
    case ReadGate(_) => false
    case Wake(_) => false
    case Cancel(_) => false
    case Prepare(p, wrap) =>
      p < |v.claimers| && v.claimers[p].Scanning? && v.claimers[p].i == 0 && wrap == v.claimers[p].wrap
    case _ => true
  }

  /** A producer of the ring and its part in the wait machine. */
  predicate Paired(gates: seq<nat>, cl: Claimer, pc: W.ProducerPc) {
    match cl
    case Elsewhere => pc.Away?
    case Scanning(wrap, i, low) =>
      if pc.Scanning? then pc.wrap == wrap && pc.i == i && pc.snap == gates && (i > 0 ==> pc.low == low)
      else i == 0 && (pc.Away? || (pc.Prepared? && pc.wrap == wrap))
    case Asleep(room) => pc.Sleeping? && pc.wrap <= room
  }

  predicate NoGateChange(admin: W.AdminPc) {
    admin.Unlocked? || admin.Clearing? || admin.ClearSwap?
  }

  ghost predicate Coupled(v: View, w: W.State) {
    && WellFormed(v) && W.Inv(w) && NoGateChange(w.admin) && w.gates == v.gates
    && |v.seqs| <= |w.val| && (forall c :: 0 <= c < |v.seqs| ==> w.val[c] == v.seqs[c])
    && |w.prods| == |v.claimers|
    && forall p :: 0 <= p < |v.claimers| ==> Paired(v.gates, v.claimers[p], w.prods[p])
  }

  lemma AloneKeeps(v: View, w: W.State, mv: W.Move)
    requires Coupled(v, w) && W.Enabled(w, mv) && Alone(v, w, mv)
    ensures Coupled(v, W.Apply(w, mv))
  {
    W.InvKept(w, mv);
    var w' := W.Apply(w, mv);
    forall p | 0 <= p < |v.claimers| ensures Paired(v.gates, v.claimers[p], w'.prods[p]) {
      assert Paired(v.gates, v.claimers[p], w.prods[p]);
    }
  }

  lemma RingKeeps(v: View, w: W.State, v': View)
    requires Coupled(v, w) && Moves(v, Ring, v')
    ensures Coupled(v', w)
  {
    forall p | 0 <= p < |v'.claimers| ensures Paired(v'.gates, v'.claimers[p], w.prods[p]) {
      assert Paired(v.gates, v.claimers[p], w.prods[p]);
      assert Rests(v.claimers[p], v'.claimers[p]) || Begins(v.claimers[p], v'.claimers[p]);
    }
  }

  lemma TogetherKeeps(v: View, w: W.State, step: Step, v': View)
    requires Coupled(v, w) && !step.Ring? && Moves(v, step, v') && W.Enabled(w, Companion(step))
    ensures Coupled(v', W.Apply(w, Companion(step)))
  {
    W.InvKept(w, Companion(step));
    var w' := W.Apply(w, Companion(step));
    forall p | 0 <= p < |v'.claimers| ensures Paired(v'.gates, v'.claimers[p], w'.prods[p]) {
      assert Paired(v.gates, v.claimers[p], w.prods[p]);
    }
  }

  /**
   * No wakeup is lost at the ring: while a claim sleeps on the current channel although every gate
   * leaves it room, some thread is between its gate store and the signal that follows.
   */
  lemma RoomMeansOwed(v: View, w: W.State, p: nat)
    requires Coupled(v, w) && p < |v.claimers| && v.claimers[p].Asleep?
    requires w.prods[p].Sleeping? && w.prods[p].gen == w.gen && W.ChannelOpen(w)
    requires forall g :: g in v.gates && g < |v.seqs| ==> v.claimers[p].room <= v.seqs[g]
    ensures W.SignalOwed(w)
  {
    assert Paired(v.gates, v.claimers[p], w.prods[p]);
    assert W.WaiterOK(w, w.prods[p]);
  }

  /** The wait machine as gate registration leaves it, before the first claim. */
  function Attached(gates: seq<nat>, consumers: nat, movers: nat, producers: nat): W.State {
    W.State(0, seq(consumers, i => -1), seq(consumers, i => W.Signals(1, if i in gates then [W.OURS] else [])),
            gates, W.Unlocked, W.NotClosed, seq(movers, i => W.Quiet), seq(producers, i => W.Away))
  }

  lemma AttachedOK(gates: seq<nat>, consumers: nat, movers: nat, producers: nat)
    requires W.Known(consumers, gates)
    ensures W.Inv(Attached(gates, consumers, movers, producers))
  {
    var w := Attached(gates, consumers, movers, producers);
    forall x | 0 <= x < |w.signals|
      ensures W.Registered(w.signals[x]) == if x in W.Elements(w.gates) then 1 else 0
    {
      if x in gates {
        W.OursCounts([]);
        assert [] + [W.OURS] == [W.OURS];
      }
    }
  }
}
