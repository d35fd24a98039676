/** What the refinement means for the ring's own state, in every reachable state. */
module MultiSafety {
  import opened Topology
  import opened Log
  import opened Consumers
  import opened Window
  import opened MultiRing
  import opened MultiRingProof

  /** A producer that may write `s`: it is preparing its marker, or has yet to resolve it. */
  ghost predicate MayWrite(pr: Producer, s: int) {
    s in pr.live || Claiming(pr, s)
  }

  /** No slot is used for two sequences at once, and none is written while a batch holds it. */
  ghost predicate Exclusive(cfg: Config, st: State)
    requires cfg.Valid() && Shape(cfg, st)
  {
    && (forall p, q, s, t :: 0 <= p < |st.prods| && 0 <= q < |st.prods|
          && MayWrite(st.prods[p], s) && MayWrite(st.prods[q], t)
          && Slot(cfg.size, s) == Slot(cfg.size, t)
          ==> p == q && s == t)
    && (forall p, c, s, t :: 0 <= p < |st.prods| && 0 <= c < |st.cons|
          && MayWrite(st.prods[p], s) && Selects(st.seqs[c], st.cons[c], t)
          ==> Slot(cfg.size, s) != Slot(cfg.size, t))
    && (forall c, d, s, t :: 0 <= c < |st.cons| && 0 <= d < |st.cons|
          && Selects(st.seqs[c], st.cons[c], s) && Selects(st.seqs[d], st.cons[d], t)
          && Slot(cfg.size, s) == Slot(cfg.size, t)
          ==> s == t)
  }

  /**
   * The cursor never laps a consumer, and neither the racy cache nor any minimum a scan has in
   * hand exceeds a gate it covers, so a claim that wins its swap never laps one either.
   */
  ghost predicate WrapSafe(cfg: Config, st: State)
    requires cfg.Valid() && Shape(cfg, st)
  {
    && Above(st.seqs, st.cursor - cfg.size)
    && Above(st.seqs, st.cache)
    && forall p :: 0 <= p < |st.prods| ==>
         match st.prods[p].pc
         case Gating(_, _, _, i, low) => forall j :: 0 <= j < i && j < |cfg.gates| ==> low <= st.seqs[cfg.gates[j]]
         case Caching(_, _, _, low) => Above(st.seqs, low)
         case Swapping(n, _, current) => Above(st.seqs, current + n - cfg.size)
         case _ => true
  }

  ghost predicate Visible(cfg: Config, st: State, s: int)
    requires cfg.Valid() && Shape(cfg, st)
  {
    Resolution(cfg.size, st.marks, s).Resolved()
  }

  /**
   * What a consumer has scanned or selected is resolved without a gap, and a scan never reaches
   * beyond one lap, so no slot stands for two of its sequences.
   */
  ghost predicate GapFree(cfg: Config, st: State)
    requires cfg.Valid() && Shape(cfg, st)
  {
    forall c :: 0 <= c < |st.cons| ==>
      && (forall s :: Selects(st.seqs[c], st.cons[c], s) ==> Visible(cfg, st, s))
      && (match st.cons[c]
          case Scanning(k, available) =>
            && st.seqs[c] < k <= available <= st.seqs[c] + cfg.size
            && (forall s :: st.seqs[c] < s < k ==> Visible(cfg, st, s))
          case _ => true)
  }

  /**
   * The slowest gate is behind every consumer, every consumer behind those it depends on and the
   * cursor, and everything a consumer has passed is resolved.
   */
  ghost predicate InOrder(cfg: Config, st: State)
    requires cfg.Valid() && Shape(cfg, st)
  {
    && (exists g :: g in cfg.gates && g < |st.seqs| && Above(st.seqs, st.seqs[g]))
    && Ordered(cfg, st.seqs)
    && (forall c :: 0 <= c < |st.seqs| ==> st.seqs[c] <= st.cursor)
    && (forall c, s :: 0 <= c < |st.seqs| && 0 <= s <= st.seqs[c] && st.cursor - cfg.size < s ==> Visible(cfg, st, s))
  }

  lemma MayWriteOpen(cfg: Config, st: State, L: LogState, p: nat, s: int)
    requires cfg.Valid() && Inv(cfg, st, L) && p < |st.prods| && MayWrite(st.prods[p], s)
    ensures InWindow(cfg, L.recs, s) && !L.recs[s].status.Resolved() && L.recs[s].owner == p
  {
    assert ProducerOK(cfg, L.recs, st.seqs, st.flag, p, st.prods[p]);
    UnresolvedInWindow(cfg, L, s);
  }

  lemma SelectedResolved(cfg: Config, st: State, L: LogState, c: nat, s: int)
    requires cfg.Valid() && Inv(cfg, st, L) && c < |st.cons| && Selects(st.seqs[c], st.cons[c], s)
    ensures InWindow(cfg, L.recs, s) && L.recs[s].status.Resolved()
  {
    assert ConsumerInv(cfg, L, c, st.cons[c]);
    assert ReaderOK(cfg, L.recs, L.readers[c]);
    assert L.readers[c].pos == st.seqs[c];
    assert Batch(cfg, L, c, st.cons[c].end);
    PendingInWindow(cfg, L, c, s);
  }

  lemma SlotsExclusive(cfg: Config, st: State, L: LogState)
    requires cfg.Valid() && Inv(cfg, st, L)
    ensures Exclusive(cfg, st)
  {
    forall p, q, s, t | 0 <= p < |st.prods| && 0 <= q < |st.prods|
      && MayWrite(st.prods[p], s) && MayWrite(st.prods[q], t) && Slot(cfg.size, s) == Slot(cfg.size, t)
      ensures p == q && s == t
    {
      MayWriteOpen(cfg, st, L, p, s);
      MayWriteOpen(cfg, st, L, q, t);
      NearbySlotsDiffer(cfg.size, s, t);
    }
    forall p, c, s, t | 0 <= p < |st.prods| && 0 <= c < |st.cons|
      && MayWrite(st.prods[p], s) && Selects(st.seqs[c], st.cons[c], t)
      ensures Slot(cfg.size, s) != Slot(cfg.size, t)
    {
      MayWriteOpen(cfg, st, L, p, s);
      SelectedResolved(cfg, st, L, c, t);
      if Slot(cfg.size, s) == Slot(cfg.size, t) {
        NearbySlotsDiffer(cfg.size, s, t);
      }
    }
    forall c, d, s, t | 0 <= c < |st.cons| && 0 <= d < |st.cons|
      && Selects(st.seqs[c], st.cons[c], s) && Selects(st.seqs[d], st.cons[d], t)
      && Slot(cfg.size, s) == Slot(cfg.size, t)
      ensures s == t
    {
      SelectedResolved(cfg, st, L, c, s);
      SelectedResolved(cfg, st, L, d, t);
      NearbySlotsDiffer(cfg.size, s, t);
    }
  }

  lemma WrapsSafely(cfg: Config, st: State, L: LogState)
    requires cfg.Valid() && Inv(cfg, st, L)
    ensures WrapSafe(cfg, st)
  {
    forall c | 0 <= c < |st.seqs| ensures st.cursor - cfg.size <= st.seqs[c] {
      assert ReaderOK(cfg, L.recs, L.readers[c]);
    }
    forall p | 0 <= p < |st.prods|
      ensures PcOK(cfg, L.recs, st.seqs, st.flag, p, st.prods[p])
    {
      assert ProducerOK(cfg, L.recs, st.seqs, st.flag, p, st.prods[p]);
    }
  }

  /** A resolved record still in its slot is read as resolved. */
  lemma ResolvedIsVisible(cfg: Config, st: State, L: LogState, s: int)
    requires cfg.Valid() && Inv(cfg, st, L) && InWindow(cfg, L.recs, s) && L.recs[s].status.Resolved()
    ensures Resolution(cfg.size, st.marks, s) == L.recs[s].status && Visible(cfg, st, s)
  {
  }

  lemma NoGaps(cfg: Config, st: State, L: LogState)
    requires cfg.Valid() && Inv(cfg, st, L)
    ensures GapFree(cfg, st)
  {
    forall c, s | 0 <= c < |st.cons| && Selects(st.seqs[c], st.cons[c], s) ensures Visible(cfg, st, s) {
      SelectedResolved(cfg, st, L, c, s);
      ResolvedIsVisible(cfg, st, L, s);
    }
    forall c | 0 <= c < |st.cons| && st.cons[c].Scanning?
      ensures st.seqs[c] < st.cons[c].k <= st.cons[c].available <= st.seqs[c] + cfg.size
      ensures forall s :: st.seqs[c] < s < st.cons[c].k ==> Visible(cfg, st, s)
    {
      assert ConsumerInv(cfg, L, c, st.cons[c]);
      assert ReaderOK(cfg, L.recs, L.readers[c]);
      assert st.seqs[c] == L.readers[c].pos;
      forall s | st.seqs[c] < s < st.cons[c].k ensures Visible(cfg, st, s) {
        PendingInWindow(cfg, L, c, s);
        ResolvedIsVisible(cfg, st, L, s);
      }
    }
  }

  lemma {:induction false} SlowestGate(cfg: Config, seqs: seq<int>, k: nat) returns (g: nat)
    requires cfg.Valid() && |seqs| == |cfg.deps| && k < |cfg.gates|
    ensures g in cfg.gates && g < |seqs|
    ensures forall j :: 0 <= j <= k ==> seqs[g] <= seqs[cfg.gates[j]]
  {
    if k == 0 {
      g := cfg.gates[0];
    } else {
      g := SlowestGate(cfg, seqs, k - 1);
      if seqs[cfg.gates[k]] < seqs[g] {
        g := cfg.gates[k];
      }
    }
  }

  lemma PositionsInOrder(cfg: Config, st: State, L: LogState)
    requires cfg.Valid() && Inv(cfg, st, L)
    ensures InOrder(cfg, st)
  {
    var g := SlowestGate(cfg, st.seqs, |cfg.gates| - 1);
    GatesProtectAll(cfg, st.seqs, st.seqs[g]);
    forall c | 0 <= c < |st.seqs| ensures st.seqs[c] <= st.cursor {
      assert ReaderOK(cfg, L.recs, L.readers[c]);
    }
    forall c, s | 0 <= c < |st.seqs| && 0 <= s <= st.seqs[c] && st.cursor - cfg.size < s
      ensures Visible(cfg, st, s)
    {
      assert ReaderOK(cfg, L.recs, L.readers[c]);
      ResolvedIsVisible(cfg, st, L, s);
    }
  }

  /** Safety of the multi-producer ring, in every state of every interleaving. */
  lemma RunIsSafe(cfg: Config, moves: seq<Move>, sts: seq<State>, i: nat)
    requires cfg.Valid() && cfg.multi && MultiRingProof.Run(cfg, moves, sts) && i < |sts|
    ensures Shape(cfg, sts[i])
    ensures Exclusive(cfg, sts[i]) && WrapSafe(cfg, sts[i]) && GapFree(cfg, sts[i]) && InOrder(cfg, sts[i])
  {
    RunRefinesLog(cfg, moves, sts);
    var Ls :| Linked(cfg, Trace(cfg, moves, sts), sts, Ls);
    assert Inv(cfg, sts[i], Ls[i]);
    SlotsExclusive(cfg, sts[i], Ls[i]);
    WrapsSafely(cfg, sts[i], Ls[i]);
    NoGaps(cfg, sts[i], Ls[i]);
    PositionsInOrder(cfg, sts[i], Ls[i]);
  }

  ghost predicate HasClaimed(pr: Producer, s: int) {
    s in pr.owned || Claiming(pr, s)
  }

  /**
   * Claims partition the sequences: in every state of every interleaving, each sequence up to the
   * cursor is claimed by exactly one producer, and no sequence beyond it by any.
   */
  lemma ClaimsPartition(cfg: Config, moves: seq<Move>, sts: seq<State>, i: nat, s: int)
    requires cfg.Valid() && cfg.multi && MultiRingProof.Run(cfg, moves, sts) && i < |sts|
    ensures 0 <= s <= sts[i].cursor <==> exists p :: 0 <= p < |sts[i].prods| && HasClaimed(sts[i].prods[p], s)
    ensures forall p, q :: 0 <= p < |sts[i].prods| && 0 <= q < |sts[i].prods|
              && HasClaimed(sts[i].prods[p], s) && HasClaimed(sts[i].prods[q], s)
              ==> p == q
  {
    RunRefinesLog(cfg, moves, sts);
    var Ls :| Linked(cfg, Trace(cfg, moves, sts), sts, Ls);
    var st, L := sts[i], Ls[i];
    assert Inv(cfg, st, L);
    forall p | 0 <= p < |st.prods|
      ensures HasClaimed(st.prods[p], s) <==> 0 <= s <= st.cursor && p == L.recs[s].owner
    {
      assert ProducerOK(cfg, L.recs, st.seqs, st.flag, p, st.prods[p]);
    }
    if 0 <= s <= st.cursor {
      assert HasClaimed(st.prods[L.recs[s].owner], s);
    }
  }

  /**
   * First resolution wins at the ring: once the slot of a sequence reads published or discarded,
   * it reads the same in every later state, until its slot is claimed for a later lap.
   */
  lemma FirstResolutionWins(cfg: Config, moves: seq<Move>, sts: seq<State>, i: nat, j: nat, s: int)
    requires cfg.Valid() && cfg.multi && MultiRingProof.Run(cfg, moves, sts) && i <= j < |sts|
    requires Shape(cfg, sts[i]) && Shape(cfg, sts[j])
    requires 0 <= s && sts[j].cursor - cfg.size < s <= sts[i].cursor && Visible(cfg, sts[i], s)
    ensures Resolution(cfg.size, sts[j].marks, s) == Resolution(cfg.size, sts[i].marks, s)
  {
    hide Permitted, Perform, Enabled, Apply, ActionFor, ConsumersOK, ProducersOK, LogInv;
    RunRefinesLog(cfg, moves, sts);
    var Ls :| Linked(cfg, Trace(cfg, moves, sts), sts, Ls);
    ResolutionIsFinal(cfg, Trace(cfg, moves, sts), Ls, i, j);
    assert Inv(cfg, sts[i], Ls[i]) && Inv(cfg, sts[j], Ls[j]);
    VisibleIsResolved(cfg, sts[i], Ls[i], s);
    ResolvedIsVisible(cfg, sts[i], Ls[i], s);
    ResolvedIsVisible(cfg, sts[j], Ls[j], s);
  }

  lemma VisibleIsResolved(cfg: Config, st: State, L: LogState, s: int)
    requires cfg.Valid() && Inv(cfg, st, L) && InWindow(cfg, L.recs, s) && Visible(cfg, st, s)
    ensures L.recs[s].status.Resolved()
  {
    if L.recs[s].status.Claimed? && s >= cfg.size {
      PreviousLap(cfg.size, s);
    }
  }
}
