/**
 * What every run of the multi-producer ring gives its users for the calls they make: told from
 * the moves, each resolution is the one its claimant asked for first, each handler reads what was
 * written, and each published sequence is acknowledged once, after a whole attempt.
 */
module MultiTold {
  import opened Topology
  import opened Log
  import opened Consumers
  import opened Window
  import opened Events
  import opened Told
  import opened MultiRing
  import opened MultiRingProof

  function NoteOf(st: State, mv: Move, st': State): Note {
    match mv
    case Produce(p, pm) => ProducerNote(st, p, pm, st')
    case Consume(c, cm) => if c < |st.cons| && Ready(st.cons[c], cm) then ConsumerNote(c, st.cons[c], cm) else Quiet
  }

  /** Winning the cursor takes the sequences it moved over. */
  function ProducerNote(st: State, p: nat, pm: ProducerMove, st': State): Note {
    match pm
    case Swap => if st.cursor < st'.cursor then Took(p, st.cursor + 1, st'.cursor) else Quiet
    case StartPublish(low, high) => Asked(p, low, high, Published)
    case StartDiscard(low, high) => Asked(p, low, high, Discarded)
    case WriteEvent(s, v) => Put(s, v)
    case _ => Quiet
  }

  ghost function Notes(cfg: Config, moves: seq<Move>, sts: seq<State>): seq<Note>
    requires cfg.Valid() && MultiRingProof.Run(cfg, moves, sts)
  {
    seq(|moves|, i requires 0 <= i < |moves| => NoteOf(sts[i], moves[i], sts[i + 1]))
  }

  lemma MoveEchoes(cfg: Config, st: State, L: LogState, mv: Move)
    requires cfg.Valid() && Core(cfg, st, L) && Enabled(cfg, st, mv)
    requires mv.Produce? ==> PcOK(cfg, L.recs, st.seqs, st.flag, mv.p, st.prods[mv.p])
    ensures Echoes(L, NoteOf(st, mv, Apply(cfg, st, mv)), ActionFor(cfg, st, mv))
  {
  }

  lemma RunEchoes(cfg: Config, moves: seq<Move>, sts: seq<State>, Ls: seq<LogState>)
    requires cfg.Valid() && MultiRingProof.Run(cfg, moves, sts) && Linked(cfg, Trace(cfg, moves, sts), sts, Ls)
    ensures Echoed(Notes(cfg, moves, sts), Trace(cfg, moves, sts), Ls)
  {
    forall i | 0 <= i < |moves|
      ensures Echoes(Ls[i], Notes(cfg, moves, sts)[i], Trace(cfg, moves, sts)[i])
    {
      assert Inv(cfg, sts[i], Ls[i]);
      if moves[i].Produce? {
        assert ProducerOK(cfg, Ls[i].recs, sts[i].seqs, sts[i].flag, moves[i].p, sts[i].prods[moves[i].p]);
      }
      MoveEchoes(cfg, sts[i], Ls[i], moves[i]);
    }
  }

  // Resolutions

  /** A resolution call under way that has yet to come to `s`. */
  predicate Covers(pc: ProducerPc, s: int) {
    match pc
    case Flagging(low, high) => low <= s <= high
    case Closing(k, high, _) => k <= s <= high
    case _ => false
  }

  predicate Bringing(pc: ProducerPc, s: int, status: Status) {
    Covers(pc, s) && match pc case Closing(_, _, asked) => asked == status case _ => status.Discarded?
  }

  predicate AnswerOK(status: Status, first: Option<Status>, pc: ProducerPc, s: int) {
    match first
    case None => !status.Resolved() && !Covers(pc, s)
    case Some(asked) => asked.Resolved() && (status == asked || (!status.Resolved() && Bringing(pc, s, asked)))
  }

  /** Every record is as its owner asked first, or a call of the owner is bringing that about. */
  ghost predicate AnswersOK(recs: seq<Record>, prods: seq<Producer>, notes: seq<Note>) {
    && (forall p, s :: |recs| <= s ==> FirstAsked(notes, p, s).None?)
    && (forall s :: 0 <= s < |recs| && recs[s].owner < |prods| ==>
          AnswerOK(recs[s].status, FirstAsked(notes, recs[s].owner, s), prods[recs[s].owner].pc, s))
  }

  /** A call that starts or passes the flag covers what it asks for. */
  lemma AskedAnswer(cfg: Config, st: State, notes: seq<Note>, p: nat, pm: ProducerMove, status: Status, s: int)
    requires cfg.size >= 1 && Shape(cfg, st) && p < |st.prods| && CanProduce(st.prods[p], pm)
    requires pm.StartPublish? || pm.StartDiscard? || pm.SetFlag?
    requires AnswerOK(status, FirstAsked(notes, p, s), st.prods[p].pc, s)
    ensures AnswerOK(status, FirstAsked(notes + [ProducerNote(st, p, pm, st)], p, s),
                     Produced(cfg, st, st.prods[p], pm).1.pc, s)
  {
    FirstAskedStep(notes, ProducerNote(st, p, pm, st), p, s);
    hide Slot, Lap, FirstAsked;
  }

  /** The swap of a resolution finds its sequence open, or resolved as was asked before. */
  lemma ResolvedAnswer(cfg: Config, st: State, L: LogState, first: Option<Status>, p: nat, s: int)
    requires cfg.Valid() && Core(cfg, st, L) && MarksOK(cfg, st.marks, L.recs)
    requires Enabled(cfg, st, Produce(p, ResolveOne))
    requires ProducerOK(cfg, L.recs, st.seqs, st.flag, p, st.prods[p])
    requires Permitted(cfg, L, ActionFor(cfg, st, Produce(p, ResolveOne)))
    requires 0 <= s < |L.recs| && L.recs[s].owner == p && AnswerOK(L.recs[s].status, first, st.prods[p].pc, s)
    ensures var L' := Perform(cfg, L, ActionFor(cfg, st, Produce(p, ResolveOne)));
            AnswerOK(L'.recs[s].status, first, Produced(cfg, st, st.prods[p], ResolveOne).1.pc, s)
  {
    var pr := st.prods[p];
    assert pr.pc.k in pr.owned;
    SwapExactlyWhenOpen(cfg, st, L, pr.pc.k);
    hide Slot, Lap, MarksOK, Core, Swaps;
  }

  /** Claims, preparations and writes come when no resolution is under way. */
  lemma OtherAnswer(cfg: Config, st: State, L: LogState, first: Option<Status>, p: nat, pm: ProducerMove, s: int)
    requires cfg.Valid() && Shape(cfg, st) && Enabled(cfg, st, Produce(p, pm))
    requires !pm.StartPublish? && !pm.StartDiscard? && !pm.SetFlag? && !pm.ResolveOne?
    requires Permitted(cfg, L, ActionFor(cfg, st, Produce(p, pm)))
    requires 0 <= s < |L.recs| && AnswerOK(L.recs[s].status, first, st.prods[p].pc, s)
    ensures var L' := Perform(cfg, L, ActionFor(cfg, st, Produce(p, pm)));
            AnswerOK(L'.recs[s].status, first, Produced(cfg, st, st.prods[p], pm).1.pc, s)
  {
  }

  /** One record of the producer that moves. */
  lemma OwnAnswer(cfg: Config, st: State, L: LogState, notes: seq<Note>, p: nat, pm: ProducerMove, s: int)
    requires cfg.Valid() && Core(cfg, st, L) && MarksOK(cfg, st.marks, L.recs) && Enabled(cfg, st, Produce(p, pm))
    requires ProducerOK(cfg, L.recs, st.seqs, st.flag, p, st.prods[p])
    requires Permitted(cfg, L, ActionFor(cfg, st, Produce(p, pm)))
    requires 0 <= s < |L.recs| && L.recs[s].owner == p
    requires AnswerOK(L.recs[s].status, FirstAsked(notes, p, s), st.prods[p].pc, s)
    ensures var st', L' := Apply(cfg, st, Produce(p, pm)), Perform(cfg, L, ActionFor(cfg, st, Produce(p, pm)));
            var notes' := notes + [NoteOf(st, Produce(p, pm), st')];
            AnswerOK(L'.recs[s].status, FirstAsked(notes', p, s), st'.prods[p].pc, s)
  {
    FirstAskedStep(notes, NoteOf(st, Produce(p, pm), Apply(cfg, st, Produce(p, pm))), p, s);
    hide Permitted, AnswerOK, MarksOK, Core, ProducerOK;
    if pm.StartPublish? || pm.StartDiscard? || pm.SetFlag? {
      AskedAnswer(cfg, st, notes, p, pm, L.recs[s].status, s);
    } else if pm.ResolveOne? {
      ResolvedAnswer(cfg, st, L, FirstAsked(notes, p, s), p, s);
    } else {
      OtherAnswer(cfg, st, L, FirstAsked(notes, p, s), p, pm, s);
    }
  }

  /** Calls ask only for sequences that were claimed. */
  lemma AsksForClaimed(cfg: Config, st: State, L: LogState, mv: Move, p: nat, s: int)
    requires cfg.Valid() && Inv(cfg, st, L) && Enabled(cfg, st, mv)
    requires var note := NoteOf(st, mv, Apply(cfg, st, mv));
             note.Asked? && note.p == p && note.low <= s <= note.high
    ensures 0 <= s < |L.recs| && mv.Produce? && mv.p == p
  {
    assert ProducerOK(cfg, L.recs, st.seqs, st.flag, p, st.prods[p]);
    assert s in st.prods[p].owned;
  }

  /** Moves of others leave a producer's records and calls alone. */
  lemma OtherRecord(cfg: Config, st: State, L: LogState, notes: seq<Note>, mv: Move, s: int)
    requires cfg.Valid() && Shape(cfg, st) && Enabled(cfg, st, mv) && Permitted(cfg, L, ActionFor(cfg, st, mv))
    requires 0 <= s < |L.recs| && L.recs[s].owner < |st.prods| && !(mv.Produce? && mv.p == L.recs[s].owner)
    ensures var st', recs' := Apply(cfg, st, mv), Perform(cfg, L, ActionFor(cfg, st, mv)).recs;
            var q := L.recs[s].owner;
            && s < |recs'| && recs'[s].status == L.recs[s].status && |st'.prods| == |st.prods|
            && st'.prods[q] == st.prods[q]
            && FirstAsked(notes + [NoteOf(st, mv, st')], q, s) == FirstAsked(notes, q, s)
  {
    ActionUntouched(cfg, L, ActionFor(cfg, st, mv), L.recs[s].owner);
    FirstAskedStep(notes, NoteOf(st, mv, Apply(cfg, st, mv)), L.recs[s].owner, s);
    hide Permitted, Perform;
  }

  lemma RecordAnswered(cfg: Config, st: State, L: LogState, notes: seq<Note>, mv: Move, s: int)
    requires cfg.Valid() && Inv(cfg, st, L) && Enabled(cfg, st, mv) && AnswersOK(L.recs, st.prods, notes)
    requires Permitted(cfg, L, ActionFor(cfg, st, mv))
    requires 0 <= s < |L.recs| && L.recs[s].owner < |st.prods|
    ensures var st', recs' := Apply(cfg, st, mv), Perform(cfg, L, ActionFor(cfg, st, mv)).recs;
            var notes', q := notes + [NoteOf(st, mv, st')], L.recs[s].owner;
            && s < |recs'| && recs'[s].owner == q && |st'.prods| == |st.prods|
            && AnswerOK(recs'[s].status, FirstAsked(notes', q, s), st'.prods[q].pc, s)
  {
    var q, act := L.recs[s].owner, ActionFor(cfg, st, mv);
    PerformEvolves(cfg, L, act);
    assert AnswerOK(L.recs[s].status, FirstAsked(notes, q, s), st.prods[q].pc, s);
    assert Core(cfg, st, L) && MarksOK(cfg, st.marks, L.recs);
    assert ProducerOK(cfg, L.recs, st.seqs, st.flag, q, st.prods[q]);
    hide AnswersOK, AnswerOK, Inv, ProducerOK, MarksOK, Permitted, Perform, NoteOf, Produced, ActionFor;
    if mv.Produce? && mv.p == q {
      OwnAnswer(cfg, st, L, notes, q, mv.pm, s);
    } else {
      OtherRecord(cfg, st, L, notes, mv, s);
    }
  }

  lemma AnswersKept(cfg: Config, st: State, L: LogState, notes: seq<Note>, mv: Move)
    requires cfg.Valid() && Inv(cfg, st, L) && Enabled(cfg, st, mv) && AnswersOK(L.recs, st.prods, notes)
    requires Permitted(cfg, L, ActionFor(cfg, st, mv))
    ensures var st' := Apply(cfg, st, mv);
            AnswersOK(Perform(cfg, L, ActionFor(cfg, st, mv)).recs, st'.prods, notes + [NoteOf(st, mv, st')])
  {
    var act, st' := ActionFor(cfg, st, mv), Apply(cfg, st, mv);
    var note, recs' := NoteOf(st, mv, st'), Perform(cfg, L, act).recs;
    PerformEvolves(cfg, L, act);
    forall p, s | |L.recs| <= s ensures FirstAsked(notes + [note], p, s).None? {
      FirstAskedStep(notes, note, p, s);
      if note.Asked? && note.p == p && note.low <= s <= note.high {
        AsksForClaimed(cfg, st, L, mv, p, s);
      }
    }
    forall s | 0 <= s < |recs'| && recs'[s].owner < |st'.prods|
      ensures AnswerOK(recs'[s].status, FirstAsked(notes + [note], recs'[s].owner, s), st'.prods[recs'[s].owner].pc, s)
    {
      if s < |L.recs| {
        RecordAnswered(cfg, st, L, notes, mv, s);
      } else {
        ClaimedFresh(cfg, st, L, mv, s);
      }
    }
  }

  /** A fresh claim is unresolved and nobody resolves it yet. */
  lemma ClaimedFresh(cfg: Config, st: State, L: LogState, mv: Move, s: int)
    requires cfg.Valid() && Shape(cfg, st) && Enabled(cfg, st, mv) && Permitted(cfg, L, ActionFor(cfg, st, mv))
    requires |L.recs| <= s < |Perform(cfg, L, ActionFor(cfg, st, mv)).recs|
    ensures var st', r := Apply(cfg, st, mv), Perform(cfg, L, ActionFor(cfg, st, mv)).recs[s];
            && r.owner < |st'.prods| && !r.status.Resolved() && !Covers(st'.prods[r.owner].pc, s)
  {
  }

  lemma NotesStep(cfg: Config, moves: seq<Move>, sts: seq<State>, i: nat)
    requires cfg.Valid() && MultiRingProof.Run(cfg, moves, sts) && i < |moves|
    ensures Enabled(cfg, sts[i], moves[i]) && sts[i + 1] == Apply(cfg, sts[i], moves[i])
    ensures Notes(cfg, moves, sts)[..i + 1] == Notes(cfg, moves, sts)[..i] + [NoteOf(sts[i], moves[i], sts[i + 1])]
    ensures Trace(cfg, moves, sts)[i] == ActionFor(cfg, sts[i], moves[i])
  {
    hide Apply, Enabled, ActionFor, NoteOf;
    assert Notes(cfg, moves, sts)[i] == NoteOf(sts[i], moves[i], sts[i + 1]);
  }

  /** One step of a linked run. */
  lemma LinkedStep(cfg: Config, acts: seq<Action>, sts: seq<State>, Ls: seq<LogState>, i: nat)
    requires cfg.Valid() && Linked(cfg, acts, sts, Ls) && i < |acts|
    ensures Inv(cfg, sts[i], Ls[i]) && Permitted(cfg, Ls[i], acts[i]) && Ls[i + 1] == Perform(cfg, Ls[i], acts[i])
  {
    hide Inv, Permitted, Perform;
  }

  lemma {:induction false} RunAnswers(cfg: Config, moves: seq<Move>, sts: seq<State>, Ls: seq<LogState>, k: nat)
    requires cfg.Valid() && MultiRingProof.Run(cfg, moves, sts) && Linked(cfg, Trace(cfg, moves, sts), sts, Ls)
    requires k < |sts|
    ensures AnswersOK(Ls[k].recs, sts[k].prods, Notes(cfg, moves, sts)[..k])
  {
    if k > 0 {
      hide Inv, Apply, Enabled, ActionFor, Permitted, Perform, AnswersOK, NoteOf;
      RunAnswers(cfg, moves, sts, Ls, k - 1);
      NotesStep(cfg, moves, sts, k - 1);
      LinkedStep(cfg, Trace(cfg, moves, sts), sts, Ls, k - 1);
      AnswersKept(cfg, sts[k - 1], Ls[k - 1], Notes(cfg, moves, sts)[..k - 1], moves[k - 1]);
    } else {
      NothingAsked(cfg, sts[0].prods);
    }
  }

  lemma NothingAsked(cfg: Config, prods: seq<Producer>)
    requires cfg.Valid()
    ensures AnswersOK(Start(cfg).recs, prods, [])
  {
  }

  /** The run of the log beside a run of the ring, with everything the notes say of it. */
  lemma Beside(cfg: Config, moves: seq<Move>, sts: seq<State>, k: nat) returns (Ls: seq<LogState>)
    requires cfg.Valid() && cfg.multi && MultiRingProof.Run(cfg, moves, sts) && k < |sts|
    ensures Linked(cfg, Trace(cfg, moves, sts), sts, Ls) && Inv(cfg, sts[k], Ls[k])
    ensures Echoed(Notes(cfg, moves, sts), Trace(cfg, moves, sts), Ls)
    ensures AnswersOK(Ls[k].recs, sts[k].prods, Notes(cfg, moves, sts)[..k])
    ensures Answered(Notes(cfg, moves, sts)[..k], Ls[k].recs)
    ensures forall p, s :: Taken(Notes(cfg, moves, sts)[..k], p, s) <==>
              0 <= s < |Ls[k].recs| && Ls[k].recs[s].owner == p
  {
    hide Enabled, Apply, ActionFor, Permitted, Perform, NoteOf, AnswersOK, Inv, Taken, FirstAsked;
    var notes := Notes(cfg, moves, sts);
    RunRefinesLog(cfg, moves, sts);
    Ls :| Linked(cfg, Trace(cfg, moves, sts), sts, Ls);
    RunEchoes(cfg, moves, sts, Ls);
    RunAnswers(cfg, moves, sts, Ls, k);
    assert Inv(cfg, sts[k], Ls[k]);
    forall p: nat, s: int
      ensures Taken(notes[..k], p, s) <==> 0 <= s < |Ls[k].recs| && Ls[k].recs[s].owner == p
    {
      OwnersTook(cfg, notes, Trace(cfg, moves, sts), Ls, k, p, s);
    }
    AnsweredHere(cfg, sts[k], Ls[k], notes[..k]);
  }

  lemma AnsweredHere(cfg: Config, st: State, L: LogState, notes: seq<Note>)
    requires cfg.Valid() && Inv(cfg, st, L) && AnswersOK(L.recs, st.prods, notes)
    requires forall p, s :: Taken(notes, p, s) <==> 0 <= s < |L.recs| && L.recs[s].owner == p
    ensures Answered(notes, L.recs)
  {
  }

  /** Every sequence up to the cursor was claimed by exactly one producer, and no other by any. */
  lemma TakenByOne(cfg: Config, moves: seq<Move>, sts: seq<State>, i: nat, s: int)
    requires cfg.Valid() && cfg.multi && MultiRingProof.Run(cfg, moves, sts) && i < |sts|
    ensures 0 <= s <= sts[i].cursor <==> exists p :: Taken(Notes(cfg, moves, sts)[..i], p, s)
    ensures var notes := Notes(cfg, moves, sts)[..i];
            forall p, q :: Taken(notes, p, s) && Taken(notes, q, s) ==> p == q
  {
    var Ls := Beside(cfg, moves, sts, i);
    if 0 <= s <= sts[i].cursor {
      assert Taken(Notes(cfg, moves, sts)[..i], Ls[i].recs[s].owner, s);
    }
  }

  /**
   * The first call decides: a sequence still in its slot reads exactly as its claimant asked first,
   * or unresolved while that call is still under way, and unresolved when the claimant has asked
   * for nothing. So whatever reads published was published by its claimant, and whatever reads
   * discarded was discarded by it.
   */
  lemma FirstCallDecides(cfg: Config, moves: seq<Move>, sts: seq<State>, i: nat, p: nat, s: int)
    requires cfg.Valid() && cfg.multi && MultiRingProof.Run(cfg, moves, sts) && i < |sts|
    requires Taken(Notes(cfg, moves, sts)[..i], p, s) && sts[i].cursor - cfg.size < s
    ensures p < |sts[i].prods| && |sts[i].marks| == cfg.size
    ensures var seen := Resolution(cfg.size, sts[i].marks, s);
            match FirstAsked(Notes(cfg, moves, sts)[..i], p, s)
            case None => seen.Open?
            case Some(asked) => seen == asked || (seen.Open? && !sts[i].prods[p].pc.Free?)
  {
    var Ls := Beside(cfg, moves, sts, i);
    var st, recs := sts[i], Ls[i].recs;
    assert recs[s].owner == p;
    ReadsRecord(cfg, st, Ls[i], s);
  }

  lemma ReadsRecord(cfg: Config, st: State, L: LogState, s: int)
    requires cfg.Valid() && Inv(cfg, st, L) && InWindow(cfg, L.recs, s)
    ensures Resolution(cfg.size, st.marks, s) == if L.recs[s].status.Resolved() then L.recs[s].status else Open
  {
    if L.recs[s].status.Claimed? && s >= cfg.size {
      PreviousLap(cfg.size, s);
    }
  }

  /** The value a handler sees is the body of its record. */
  lemma SeenIsBody(cfg: Config, st: State, L: LogState, c: nat, v: Event)
    requires cfg.Valid() && Inv(cfg, st, L) && Enabled(cfg, st, Consume(c, See(v)))
    ensures 0 <= st.cons[c].k < |L.recs| && L.recs[st.cons[c].k].body == v
  {
    hide Perform, Apply, MarksOK, ProducersOK, LogInv;
    ConsumeKept(cfg, st, L, c, See(v));
  }

  /**
   * Reads from an unbounded log, told from the moves: whatever the interleaving, a handler called
   * for a sequence finds the last value its claimant, or a handler of it, put there, and otherwise
   * what the same rule gives for the sequence one lap before.
   */
  lemma HandlerReadsContents(cfg: Config, moves: seq<Move>, sts: seq<State>, i: nat)
    requires cfg.Valid() && cfg.multi && MultiRingProof.Run(cfg, moves, sts) && i < |moves|
    requires moves[i].Consume? && moves[i].cm.See?
    ensures sts[i].cons[moves[i].c].k >= 0
    ensures moves[i].cm.v == Left(cfg, Notes(cfg, moves, sts)[..i], sts[i].cons[moves[i].c].k)
  {
    hide Perform, Apply, Inv, Contents, Left, NoteOf, LogInv;
    var Ls := Beside(cfg, moves, sts, i);
    var acts := Trace(cfg, moves, sts);
    SeenIsBody(cfg, sts[i], Ls[i], moves[i].c, moves[i].cm.v);
    BodyIsContents(cfg, acts, Ls, i, sts[i].cons[moves[i].c].k);
    EchoedLeft(cfg, Notes(cfg, moves, sts), acts, Ls, i, sts[i].cons[moves[i].c].k);
  }

  lemma PositionOf(cfg: Config, st: State, L: LogState, c: nat)
    requires cfg.Valid() && Inv(cfg, st, L) && c < |cfg.deps|
    ensures c < |st.seqs| && c < |L.readers| && st.seqs[c] == L.readers[c].pos
  {
  }

  /**
   * Exactly-once acknowledgement, told from the moves: in every state of every interleaving, the
   * handler calls a consumer has stored are for exactly the sequences up to its own that their
   * claimants published, each once and in order, whatever failed and was replayed in between; and
   * the attempt in progress has called for exactly those that follow.
   */
  lemma AcknowledgedExactlyOnce(cfg: Config, moves: seq<Move>, sts: seq<State>, i: nat, c: nat)
    requires cfg.Valid() && cfg.multi && MultiRingProof.Run(cfg, moves, sts) && i < |sts| && c < |cfg.deps|
    ensures c < |sts[i].seqs|
    ensures var notes := Notes(cfg, moves, sts)[..i];
            var a := Tell(notes, c);
            && ExactlyPublished(notes, a.acked, -1, sts[i].seqs[c])
            && (a.attempt != [] ==>
                  ExactlyPublished(notes, a.attempt, sts[i].seqs[c], a.attempt[|a.attempt| - 1].seqno))
  {
    hide Enabled, Apply, ActionFor, NoteOf, Inv, ExactlyPublished, Tell, Permitted, Perform, Answered, Echoes;
    var Ls := Beside(cfg, moves, sts, i);
    AccountIsExact(cfg, Notes(cfg, moves, sts), Trace(cfg, moves, sts), Ls, i, c);
    PositionOf(cfg, sts[i], Ls[i], c);
  }

  lemma {:induction false} RunWithinLimit(cfg: Config, moves: seq<Move>, sts: seq<State>, k: nat, c: nat)
    requires cfg.Valid() && MultiRingProof.Run(cfg, moves, sts) && k < |sts| && c < |cfg.deps|
    ensures c < |sts[k].seqs| && c < |sts[k].cons| && WithinLimit(cfg.batch[c], sts[k].seqs[c], sts[k].cons[c])
  {
    if k > 0 {
      RunWithinLimit(cfg, moves, sts, k - 1, c);
      var st := sts[k - 1];
      assert Enabled(cfg, st, moves[k - 1]) && sts[k] == Apply(cfg, st, moves[k - 1]);
      if moves[k - 1].Consume? && moves[k - 1].c == c {
        LimitKept(cfg, c, st.seqs[c], st.cons[c], moves[k - 1].cm);
      }
      hide Next, Produced, WithinLimit;
    }
  }

  /**
   * A consumer's sequence moves only when a whole batch was handled: the calls since the last
   * store or failure returned well, all of them, flag exactly the last, and are for exactly the
   * published sequences the store passes; and the batch keeps to the consumer's limit.
   */
  lemma StoreEndsBatch(cfg: Config, moves: seq<Move>, sts: seq<State>, j: nat, c: nat)
    requires cfg.Valid() && cfg.multi && MultiRingProof.Run(cfg, moves, sts) && j < |moves| && c < |cfg.deps|
    ensures c < |sts[j].seqs| && c < |sts[j + 1].seqs|
    ensures moves[j] != Consume(c, Store) ==> sts[j + 1].seqs[c] == sts[j].seqs[c]
    ensures moves[j] == Consume(c, Store) ==>
              var notes, q, e := Notes(cfg, moves, sts)[..j], sts[j].seqs[c], sts[j + 1].seqs[c];
              && q <= e <= q + cfg.batch[c]
              && Whole(Tell(notes, c)) && ExactlyPublished(notes, Tell(notes, c).attempt, q, e)
  {
    assert moves[j] != Consume(c, Store) ==> sts[j + 1].seqs[c] == sts[j].seqs[c];
    if moves[j] == Consume(c, Store) {
      assert sts[j + 1].seqs[c] == sts[j].cons[c].end;
      assert Trace(cfg, moves, sts)[j] == Acknowledge(c, sts[j].cons[c].end);
      hide Enabled, Apply, ActionFor, NoteOf, Whole, ExactlyPublished, Tell, Permitted, Perform;
      RunWithinLimit(cfg, moves, sts, j, c);
      var Ls := Beside(cfg, moves, sts, j);
      StoreEndsAttempt(cfg, Notes(cfg, moves, sts), Trace(cfg, moves, sts), Ls, j, c);
      PositionOf(cfg, sts[j], Ls[j], c);
    }
  }

  lemma {:induction false} SequenceStays(cfg: Config, moves: seq<Move>, sts: seq<State>, i: nat, k: nat, c: nat)
    requires cfg.Valid() && cfg.multi && MultiRingProof.Run(cfg, moves, sts) && i <= k <= |moves| && c < |cfg.deps|
    requires forall j :: i <= j < k ==> moves[j] != Consume(c, Store)
    ensures c < |sts[i].seqs| && c < |sts[k].seqs| && sts[k].seqs[c] == sts[i].seqs[c]
    decreases k
  {
    if i < k {
      SequenceStays(cfg, moves, sts, i, k - 1, c);
      assert Enabled(cfg, sts[k - 1], moves[k - 1]) && sts[k] == Apply(cfg, sts[k - 1], moves[k - 1]);
      hide Next, Produced;
    } else if i < |moves| {
      assert Shape(cfg, sts[i]);
    } else {
      assert i > 0 ==> sts[i] == Apply(cfg, sts[i - 1], moves[i - 1]);
      hide Next, Produced;
    }
  }

  /**
   * A failed call stops the acknowledgement: the consumer's sequence stays where it was until a
   * later store, and that store ends a whole new attempt, made since the failure, that called for
   * everything published from the sequence on and had every call return well.
   */
  lemma FailedBatchIsReplayed(cfg: Config, moves: seq<Move>, sts: seq<State>, i: nat, k: nat, c: nat)
    requires cfg.Valid() && cfg.multi && MultiRingProof.Run(cfg, moves, sts) && i < k <= |moves| && c < |cfg.deps|
    requires moves[i] == Consume(c, Return(false))
    requires forall j :: i <= j < k ==> moves[j] != Consume(c, Store)
    ensures c < |sts[i].seqs| && c < |sts[k].seqs| && sts[k].seqs[c] == sts[i].seqs[c]
    ensures k < |moves| && moves[k] == Consume(c, Store) ==>
              var notes := Notes(cfg, moves, sts);
              var since := Tell(notes[i + 1..k], c);
              && c < |sts[k + 1].seqs| && Whole(since)
              && ExactlyPublished(notes[..k], since.attempt, sts[i].seqs[c], sts[k + 1].seqs[c])
  {
    hide Enabled, Apply, NoteOf, ExactlyPublished, Tell, Whole, WithinLimit, Shape;
    SequenceStays(cfg, moves, sts, i, k, c);
    if k < |moves| && moves[k] == Consume(c, Store) {
      FailureNoted(cfg, moves, sts, i, c);
      TellAfterFailure(Notes(cfg, moves, sts), i, k, c);
      StoreEndsBatch(cfg, moves, sts, k, c);
      WholeAlike(Tell(Notes(cfg, moves, sts)[..k], c), Tell(Notes(cfg, moves, sts)[i + 1..k], c));
    }
  }

  lemma FailureNoted(cfg: Config, moves: seq<Move>, sts: seq<State>, i: nat, c: nat)
    requires cfg.Valid() && MultiRingProof.Run(cfg, moves, sts) && i < |moves| && moves[i] == Consume(c, Return(false))
    ensures Notes(cfg, moves, sts)[i] == Returned(c, false)
  {
    assert Enabled(cfg, sts[i], moves[i]);
  }
}
