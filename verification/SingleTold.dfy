/**
 * What every run of the single-producer ring gives its users for the calls they make, told from
 * the moves as for the multi-producer ring.
 */
module SingleTold {
  import opened Topology
  import opened Log
  import opened Consumers
  import opened Events
  import opened Told
  import opened SingleRing
  import opened SingleRefinement

  /** A claim takes the sequences the claim position moved over. */
  function NoteOf(st: State, mv: Move, st': State): Note {
    match mv
    case Produce(pm) =>
      if st.next < st'.next then Took(0, st.next + 1, st'.next)
      else (match pm
            case StartPublish(low, high) => Asked(0, low, high, Published)
            case StartDiscard(low, high) => Asked(0, low, high, Discarded)
            case WriteEvent(s, v) => Put(s, v)
            case _ => Quiet)
    case Peek(_) => Quiet
    case Consume(c, cm) => if c < |st.cons| && Ready(st.cons[c], cm) then ConsumerNote(c, st.cons[c], cm) else Quiet
  }

  ghost function Notes(cfg: Config, moves: seq<Move>, sts: seq<State>): seq<Note>
    requires cfg.Valid() && SingleRefinement.Run(cfg, moves, sts)
  {
    seq(|moves|, i requires 0 <= i < |moves| => NoteOf(sts[i], moves[i], sts[i + 1]))
  }

  lemma MoveEchoes(cfg: Config, st: State, L: LogState, mv: Move)
    requires cfg.Valid() && Core(cfg, st, L) && Enabled(cfg, st, mv) && PcOK(cfg, st)
    ensures Echoes(L, NoteOf(st, mv, Apply(cfg, st, mv)), ActionFor(cfg, st, mv))
  {
  }

  lemma RunEchoes(cfg: Config, moves: seq<Move>, sts: seq<State>, Ls: seq<LogState>)
    requires cfg.Valid() && SingleRefinement.Run(cfg, moves, sts) && Linked(cfg, Trace(cfg, moves, sts), sts, Ls)
    ensures Echoed(Notes(cfg, moves, sts), Trace(cfg, moves, sts), Ls)
  {
    forall i | 0 <= i < |moves|
      ensures Echoes(Ls[i], Notes(cfg, moves, sts)[i], Trace(cfg, moves, sts)[i])
    {
      assert Inv(cfg, sts[i], Ls[i]);
      MoveEchoes(cfg, sts[i], Ls[i], moves[i]);
    }
  }

  // Resolutions

  /** The resolution call under way has yet to come to `s`, unless `s` was resolved before. */
  predicate Covers(pc: ProducerPc, s: int) {
    match pc
    case Publishing(high) => s <= high
    case Flagging(low, high) => low <= s <= high
    case Sifting(k, high) => k <= s <= high
    case Marking(k, high) => k <= s <= high
    case Showing(k, high) => k <= s <= high
    case _ => false
  }

  predicate Bringing(pc: ProducerPc, s: int, status: Status) {
    Covers(pc, s) && status == if pc.Publishing? then Published else Discarded
  }

  predicate AnswerOK(status: Status, first: Option<Status>, pc: ProducerPc, s: int) {
    match first
    case None => !status.Resolved() && !Covers(pc, s)
    case Some(asked) => asked.Resolved() && (status == asked || (!status.Resolved() && Bringing(pc, s, asked)))
  }

  ghost predicate AnswersOK(recs: seq<Record>, pc: ProducerPc, notes: seq<Note>) {
    && (forall s :: |recs| <= s ==> FirstAsked(notes, 0, s).None?)
    && (forall s :: 0 <= s < |recs| ==> AnswerOK(recs[s].status, FirstAsked(notes, 0, s), pc, s))
  }

  /** Resolution calls: what they ask for, and the cursor stores that bring it about. */
  lemma ResolverAnswers(cfg: Config, st: State, L: LogState, first: Option<Status>, pm: ProducerMove, s: int)
    requires cfg.Valid() && Core(cfg, st, L) && PcOK(cfg, st) && CanProduce(st, pm)
    requires pm.SetFlag? || pm.Compare? || pm.StoreMark? || pm.StoreCursor?
    requires Permitted(cfg, L, ProducerAction(cfg, st, pm))
    requires 0 <= s < |L.recs| && AnswerOK(L.recs[s].status, first, st.pc, s)
    ensures var st', recs' := Produced(cfg, st, pm), Perform(cfg, L, ProducerAction(cfg, st, pm)).recs;
            s < |recs'| && AnswerOK(recs'[s].status, first, st'.pc, s)
  {
  }

  lemma OtherAnswers(cfg: Config, st: State, L: LogState, notes: seq<Note>, pm: ProducerMove, s: int)
    requires cfg.Valid() && Core(cfg, st, L) && CanProduce(st, pm)
    requires !pm.SetFlag? && !pm.Compare? && !pm.StoreMark? && !pm.StoreCursor?
    requires Permitted(cfg, L, ProducerAction(cfg, st, pm))
    requires 0 <= s < |L.recs| && AnswerOK(L.recs[s].status, FirstAsked(notes, 0, s), st.pc, s)
    ensures var st', recs' := Produced(cfg, st, pm), Perform(cfg, L, ProducerAction(cfg, st, pm)).recs;
            s < |recs'|
            && AnswerOK(recs'[s].status, FirstAsked(notes + [NoteOf(st, Produce(pm), st')], 0, s), st'.pc, s)
  {
    FirstAskedStep(notes, NoteOf(st, Produce(pm), Produced(cfg, st, pm)), 0, s);
  }

  /** A move of the producer. */
  lemma ProducerAnswers(cfg: Config, st: State, L: LogState, notes: seq<Note>, pm: ProducerMove, s: int)
    requires cfg.Valid() && Core(cfg, st, L) && PcOK(cfg, st) && CanProduce(st, pm)
    requires Permitted(cfg, L, ProducerAction(cfg, st, pm))
    requires 0 <= s < |L.recs| && AnswerOK(L.recs[s].status, FirstAsked(notes, 0, s), st.pc, s)
    ensures var st', recs' := Produced(cfg, st, pm), Perform(cfg, L, ProducerAction(cfg, st, pm)).recs;
            s < |recs'|
            && AnswerOK(recs'[s].status, FirstAsked(notes + [NoteOf(st, Produce(pm), st')], 0, s), st'.pc, s)
  {
    if pm.SetFlag? || pm.Compare? || pm.StoreMark? || pm.StoreCursor? {
      FirstAskedStep(notes, NoteOf(st, Produce(pm), Produced(cfg, st, pm)), 0, s);
      hide Permitted, Perform, AnswerOK, Core, PcOK;
      ResolverAnswers(cfg, st, L, FirstAsked(notes, 0, s), pm, s);
    } else {
      hide Permitted, Perform, AnswerOK, Core, PcOK;
      OtherAnswers(cfg, st, L, notes, pm, s);
    }
  }

  /** Calls ask only for sequences that were claimed, and a fresh claim is unresolved. */
  lemma FreshAnswers(cfg: Config, st: State, L: LogState, notes: seq<Note>, pm: ProducerMove, s: int)
    requires cfg.Valid() && Core(cfg, st, L) && PcOK(cfg, st) && CanProduce(st, pm)
    requires Permitted(cfg, L, ProducerAction(cfg, st, pm)) && |L.recs| <= s && FirstAsked(notes, 0, s).None?
    ensures var st', recs' := Produced(cfg, st, pm), Perform(cfg, L, ProducerAction(cfg, st, pm)).recs;
            var first := FirstAsked(notes + [NoteOf(st, Produce(pm), st')], 0, s);
            first.None? && (s < |recs'| ==> AnswerOK(recs'[s].status, first, st'.pc, s))
  {
    FirstAskedStep(notes, NoteOf(st, Produce(pm), Produced(cfg, st, pm)), 0, s);
  }

  lemma AnswersKept(cfg: Config, st: State, L: LogState, notes: seq<Note>, mv: Move)
    requires cfg.Valid() && Inv(cfg, st, L) && Enabled(cfg, st, mv) && AnswersOK(L.recs, st.pc, notes)
    requires Permitted(cfg, L, ActionFor(cfg, st, mv))
    ensures var st' := Apply(cfg, st, mv);
            AnswersOK(Perform(cfg, L, ActionFor(cfg, st, mv)).recs, st'.pc, notes + [NoteOf(st, mv, st')])
  {
    var act, st' := ActionFor(cfg, st, mv), Apply(cfg, st, mv);
    var note, recs' := NoteOf(st, mv, st'), Perform(cfg, L, act).recs;
    PerformEvolves(cfg, L, act);
    match mv
    case Produce(pm) =>
      forall s | |L.recs| <= s
        ensures FirstAsked(notes + [note], 0, s).None?
        ensures s < |recs'| ==> AnswerOK(recs'[s].status, FirstAsked(notes + [note], 0, s), st'.pc, s)
      {
        FreshAnswers(cfg, st, L, notes, pm, s);
      }
      forall s | 0 <= s < |L.recs|
        ensures AnswerOK(recs'[s].status, FirstAsked(notes + [note], 0, s), st'.pc, s)
      {
        ProducerAnswers(cfg, st, L, notes, pm, s);
      }
    case _ =>
      forall s ensures FirstAsked(notes + [note], 0, s) == FirstAsked(notes, 0, s) {
        FirstAskedStep(notes, note, 0, s);
      }
      ConsumersResolveNothing(cfg, st, L, mv);
  }

  lemma ConsumersResolveNothing(cfg: Config, st: State, L: LogState, mv: Move)
    requires cfg.Valid() && Shape(cfg, st) && Enabled(cfg, st, mv) && !mv.Produce?
    requires Permitted(cfg, L, ActionFor(cfg, st, mv))
    ensures var recs' := Perform(cfg, L, ActionFor(cfg, st, mv)).recs;
            && |recs'| == |L.recs| && Apply(cfg, st, mv).pc == st.pc
            && forall s :: 0 <= s < |recs'| ==> recs'[s].status == L.recs[s].status
  {
  }

  lemma NotesStep(cfg: Config, moves: seq<Move>, sts: seq<State>, i: nat)
    requires cfg.Valid() && SingleRefinement.Run(cfg, moves, sts) && i < |moves|
    ensures Enabled(cfg, sts[i], moves[i]) && sts[i + 1] == Apply(cfg, sts[i], moves[i])
    ensures Notes(cfg, moves, sts)[..i + 1] == Notes(cfg, moves, sts)[..i] + [NoteOf(sts[i], moves[i], sts[i + 1])]
    ensures Trace(cfg, moves, sts)[i] == ActionFor(cfg, sts[i], moves[i])
  {
    hide Apply, Enabled, ActionFor, NoteOf;
    assert Notes(cfg, moves, sts)[i] == NoteOf(sts[i], moves[i], sts[i + 1]);
  }

  /** One step of a linked run. */
  lemma LinkedStep(cfg: Config, acts: seq<Action>, sts: seq<State>, Ls: seq<LogState>, i: nat)
    requires cfg.Valid() && Linked(cfg, acts, sts, Ls) && i < |acts|
    ensures Inv(cfg, sts[i], Ls[i]) && Permitted(cfg, Ls[i], acts[i]) && Ls[i + 1] == Perform(cfg, Ls[i], acts[i])
  {
    hide Inv, Permitted, Perform;
  }

  lemma {:induction false} RunAnswers(cfg: Config, moves: seq<Move>, sts: seq<State>, Ls: seq<LogState>, k: nat)
    requires cfg.Valid() && SingleRefinement.Run(cfg, moves, sts) && Linked(cfg, Trace(cfg, moves, sts), sts, Ls)
    requires k < |sts|
    ensures AnswersOK(Ls[k].recs, sts[k].pc, Notes(cfg, moves, sts)[..k])
  {
    if k > 0 {
      hide Inv, Apply, Enabled, ActionFor, Permitted, Perform, AnswersOK, NoteOf;
      RunAnswers(cfg, moves, sts, Ls, k - 1);
      NotesStep(cfg, moves, sts, k - 1);
      LinkedStep(cfg, Trace(cfg, moves, sts), sts, Ls, k - 1);
      AnswersKept(cfg, sts[k - 1], Ls[k - 1], Notes(cfg, moves, sts)[..k - 1], moves[k - 1]);
    } else {
      NothingAsked(cfg, sts[0].pc);
    }
  }

  lemma NothingAsked(cfg: Config, pc: ProducerPc)
    requires cfg.Valid()
    ensures AnswersOK(Start(cfg).recs, pc, [])
  {
  }

  /** The run of the log beside a run of the ring, with everything the notes say of it. */
  lemma Beside(cfg: Config, moves: seq<Move>, sts: seq<State>, k: nat) returns (Ls: seq<LogState>)
    requires cfg.Valid() && !cfg.multi && cfg.producers == 1 && SingleRefinement.Run(cfg, moves, sts)
    requires k < |sts|
    ensures Linked(cfg, Trace(cfg, moves, sts), sts, Ls) && Inv(cfg, sts[k], Ls[k])
    ensures Echoed(Notes(cfg, moves, sts), Trace(cfg, moves, sts), Ls)
    ensures AnswersOK(Ls[k].recs, sts[k].pc, Notes(cfg, moves, sts)[..k])
    ensures Answered(Notes(cfg, moves, sts)[..k], Ls[k].recs)
    ensures forall p, s :: Taken(Notes(cfg, moves, sts)[..k], p, s) <==>
              0 <= s < |Ls[k].recs| && Ls[k].recs[s].owner == p
  {
    hide Enabled, Apply, ActionFor, Permitted, Perform, NoteOf, AnswersOK, Inv, Taken, FirstAsked;
    var notes := Notes(cfg, moves, sts);
    RunRefinesLog(cfg, moves, sts);
    Ls :| Linked(cfg, Trace(cfg, moves, sts), sts, Ls);
    RunEchoes(cfg, moves, sts, Ls);
    RunAnswers(cfg, moves, sts, Ls, k);
    assert Inv(cfg, sts[k], Ls[k]);
    forall p: nat, s: int
      ensures Taken(notes[..k], p, s) <==> 0 <= s < |Ls[k].recs| && Ls[k].recs[s].owner == p
    {
      OwnersTook(cfg, notes, Trace(cfg, moves, sts), Ls, k, p, s);
    }
    AnsweredHere(cfg, sts[k], Ls[k], notes[..k]);
  }

  lemma AnsweredHere(cfg: Config, st: State, L: LogState, notes: seq<Note>)
    requires cfg.Valid() && Inv(cfg, st, L) && AnswersOK(L.recs, st.pc, notes)
    requires forall p, s :: Taken(notes, p, s) <==> 0 <= s < |L.recs| && L.recs[s].owner == p
    ensures Answered(notes, L.recs)
  {
  }

  /** Exactly the sequences up to the claim position were claimed. */
  lemma TakenUpToNext(cfg: Config, moves: seq<Move>, sts: seq<State>, i: nat, s: int)
    requires cfg.Valid() && !cfg.multi && cfg.producers == 1 && SingleRefinement.Run(cfg, moves, sts)
    requires i < |sts|
    ensures Taken(Notes(cfg, moves, sts)[..i], 0, s) <==> 0 <= s <= sts[i].next
  {
    var Ls := Beside(cfg, moves, sts, i);
  }

  /**
   * The first call decides: a claimed sequence is visible exactly when the call that asked for it
   * first has come to it, and the discard test, on any cursor loaded since it became visible, is
   * then true exactly when that call was a discard, over any number of laps, for as long as some
   * consumer has yet to pass it.
   */
  lemma FirstCallDecides(cfg: Config, moves: seq<Move>, sts: seq<State>, i: nat, s: int)
    requires cfg.Valid() && !cfg.multi && cfg.producers == 1 && SingleRefinement.Run(cfg, moves, sts)
    requires i < |sts|
    requires 0 <= s <= sts[i].next
    ensures Shape(cfg, sts[i])
    ensures match FirstAsked(Notes(cfg, moves, sts)[..i], 0, s)
            case None => sts[i].cursor < s
            case Some(asked) =>
              && (s <= sts[i].cursor || !sts[i].pc.Free?)
              && forall c, cursor :: 0 <= c < |sts[i].seqs| && sts[i].seqs[c] < s <= cursor <= sts[i].cursor ==>
                   (IsDiscarded(cfg.size, sts[i].marks, cursor, s) <==> asked.Discarded?)
  {
    var Ls := Beside(cfg, moves, sts, i);
    var st, recs, first := sts[i], Ls[i].recs, FirstAsked(Notes(cfg, moves, sts)[..i], 0, s);
    assert AnswerOK(recs[s].status, first, st.pc, s);
    assert recs[s].status.Resolved() <==> s <= st.cursor;
    hide Inv, IsDiscarded;
    forall c, cursor | 0 <= c < |st.seqs| && st.seqs[c] < s <= cursor <= st.cursor
      ensures first.Some? && (IsDiscarded(cfg.size, st.marks, cursor, s) <==> first.value.Discarded?)
    {
      DiscardsAreExact(cfg, st, Ls[i], c, cursor, s);
    }
  }

  /** The value a handler sees is the body of its record. */
  lemma SeenIsBody(cfg: Config, st: State, L: LogState, c: nat, v: Event)
    requires cfg.Valid() && Inv(cfg, st, L) && Enabled(cfg, st, Consume(c, See(v)))
    ensures 0 <= st.cons[c].k < |L.recs| && L.recs[st.cons[c].k].body == v
  {
    hide Perform, Apply, MarksTrue, MarksComplete, PcOK, LogInv;
    ConsumeKept(cfg, st, L, c, See(v));
  }

  /**
   * Reads from an unbounded log, told from the moves: whatever the interleaving, a handler called
   * for a sequence finds the last value its claimant, or a handler of it, put there, and otherwise
   * what the same rule gives for the sequence one lap before.
   */
  lemma HandlerReadsContents(cfg: Config, moves: seq<Move>, sts: seq<State>, i: nat)
    requires cfg.Valid() && !cfg.multi && cfg.producers == 1 && SingleRefinement.Run(cfg, moves, sts)
    requires i < |moves|
    requires moves[i].Consume? && moves[i].cm.See?
    ensures sts[i].cons[moves[i].c].k >= 0
    ensures moves[i].cm.v == Left(cfg, Notes(cfg, moves, sts)[..i], sts[i].cons[moves[i].c].k)
  {
    hide Perform, Apply, Inv, Contents, Left, NoteOf, LogInv;
    var Ls := Beside(cfg, moves, sts, i);
    var acts := Trace(cfg, moves, sts);
    SeenIsBody(cfg, sts[i], Ls[i], moves[i].c, moves[i].cm.v);
    BodyIsContents(cfg, acts, Ls, i, sts[i].cons[moves[i].c].k);
    EchoedLeft(cfg, Notes(cfg, moves, sts), acts, Ls, i, sts[i].cons[moves[i].c].k);
  }

  lemma PositionOf(cfg: Config, st: State, L: LogState, c: nat)
    requires cfg.Valid() && Inv(cfg, st, L) && c < |cfg.deps|
    ensures c < |st.seqs| && c < |L.readers| && st.seqs[c] == L.readers[c].pos
  {
  }

  /**
   * Exactly-once acknowledgement, told from the moves: in every state of every interleaving, the
   * handler calls a consumer has stored are for exactly the sequences up to its own that their
   * claimants published, each once and in order, whatever failed and was replayed in between; and
   * the attempt in progress has called for exactly those that follow.
   */
  lemma AcknowledgedExactlyOnce(cfg: Config, moves: seq<Move>, sts: seq<State>, i: nat, c: nat)
    requires cfg.Valid() && !cfg.multi && cfg.producers == 1 && SingleRefinement.Run(cfg, moves, sts)
    requires i < |sts| && c < |cfg.deps|
    ensures c < |sts[i].seqs|
    ensures var notes := Notes(cfg, moves, sts)[..i];
            var a := Tell(notes, c);
            && ExactlyPublished(notes, a.acked, -1, sts[i].seqs[c])
            && (a.attempt != [] ==>
                  ExactlyPublished(notes, a.attempt, sts[i].seqs[c], a.attempt[|a.attempt| - 1].seqno))
  {
    hide Enabled, Apply, ActionFor, NoteOf, Inv, ExactlyPublished, Tell, Permitted, Perform, Answered, Echoes;
    var Ls := Beside(cfg, moves, sts, i);
    AccountIsExact(cfg, Notes(cfg, moves, sts), Trace(cfg, moves, sts), Ls, i, c);
    PositionOf(cfg, sts[i], Ls[i], c);
  }

  lemma {:induction false} RunWithinLimit(cfg: Config, moves: seq<Move>, sts: seq<State>, k: nat, c: nat)
    requires cfg.Valid() && SingleRefinement.Run(cfg, moves, sts) && k < |sts| && c < |cfg.deps|
    ensures c < |sts[k].seqs| && c < |sts[k].cons| && WithinLimit(cfg.batch[c], sts[k].seqs[c], sts[k].cons[c])
  {
    if k > 0 {
      RunWithinLimit(cfg, moves, sts, k - 1, c);
      var st := sts[k - 1];
      assert Enabled(cfg, st, moves[k - 1]) && sts[k] == Apply(cfg, st, moves[k - 1]);
      if moves[k - 1].Consume? && moves[k - 1].c == c {
        LimitKept(cfg, c, st.seqs[c], st.cons[c], moves[k - 1].cm);
      }
      hide Next, Produced, WithinLimit;
    }
  }

  /**
   * A consumer's sequence moves only when a whole batch was handled: the calls since the last
   * store or failure returned well, all of them, flag exactly the last, and are for exactly the
   * published sequences the store passes; and the batch keeps to the consumer's limit.
   */
  lemma StoreEndsBatch(cfg: Config, moves: seq<Move>, sts: seq<State>, j: nat, c: nat)
    requires cfg.Valid() && !cfg.multi && cfg.producers == 1 && SingleRefinement.Run(cfg, moves, sts)
    requires j < |moves| && c < |cfg.deps|
    ensures c < |sts[j].seqs| && c < |sts[j + 1].seqs|
    ensures moves[j] != Consume(c, Store) ==> sts[j + 1].seqs[c] == sts[j].seqs[c]
    ensures moves[j] == Consume(c, Store) ==>
              var notes, q, e := Notes(cfg, moves, sts)[..j], sts[j].seqs[c], sts[j + 1].seqs[c];
              && q <= e <= q + cfg.batch[c]
              && Whole(Tell(notes, c)) && ExactlyPublished(notes, Tell(notes, c).attempt, q, e)
  {
    assert moves[j] != Consume(c, Store) ==> sts[j + 1].seqs[c] == sts[j].seqs[c];
    if moves[j] == Consume(c, Store) {
      assert sts[j + 1].seqs[c] == sts[j].cons[c].end;
      assert Trace(cfg, moves, sts)[j] == Acknowledge(c, sts[j].cons[c].end);
      hide Enabled, Apply, ActionFor, NoteOf, Whole, ExactlyPublished, Tell, Permitted, Perform;
      RunWithinLimit(cfg, moves, sts, j, c);
      var Ls := Beside(cfg, moves, sts, j);
      StoreEndsAttempt(cfg, Notes(cfg, moves, sts), Trace(cfg, moves, sts), Ls, j, c);
      PositionOf(cfg, sts[j], Ls[j], c);
    }
  }

  lemma {:induction false} SequenceStays(cfg: Config, moves: seq<Move>, sts: seq<State>, i: nat, k: nat, c: nat)
    requires cfg.Valid() && !cfg.multi && cfg.producers == 1 && SingleRefinement.Run(cfg, moves, sts)
    requires i <= k <= |moves| && c < |cfg.deps|
    requires forall j :: i <= j < k ==> moves[j] != Consume(c, Store)
    ensures c < |sts[i].seqs| && c < |sts[k].seqs| && sts[k].seqs[c] == sts[i].seqs[c]
    decreases k
  {
    if i < k {
      SequenceStays(cfg, moves, sts, i, k - 1, c);
      assert Enabled(cfg, sts[k - 1], moves[k - 1]) && sts[k] == Apply(cfg, sts[k - 1], moves[k - 1]);
      hide Next, Produced;
    } else if i < |moves| {
      assert Shape(cfg, sts[i]);
    } else {
      assert i > 0 ==> sts[i] == Apply(cfg, sts[i - 1], moves[i - 1]);
      hide Next, Produced;
    }
  }

  /**
   * A failed call stops the acknowledgement: the consumer's sequence stays where it was until a
   * later store, and that store ends a whole new attempt, made since the failure, that called for
   * everything published from the sequence on and had every call return well.
   */
  lemma FailedBatchIsReplayed(cfg: Config, moves: seq<Move>, sts: seq<State>, i: nat, k: nat, c: nat)
    requires cfg.Valid() && !cfg.multi && cfg.producers == 1 && SingleRefinement.Run(cfg, moves, sts)
    requires i < k <= |moves| && c < |cfg.deps|
    requires moves[i] == Consume(c, Return(false))
    requires forall j :: i <= j < k ==> moves[j] != Consume(c, Store)
    ensures c < |sts[i].seqs| && c < |sts[k].seqs| && sts[k].seqs[c] == sts[i].seqs[c]
    ensures k < |moves| && moves[k] == Consume(c, Store) ==>
              var notes := Notes(cfg, moves, sts);
              var since := Tell(notes[i + 1..k], c);
              && c < |sts[k + 1].seqs| && Whole(since)
              && ExactlyPublished(notes[..k], since.attempt, sts[i].seqs[c], sts[k + 1].seqs[c])
  {
    hide Enabled, Apply, NoteOf, ExactlyPublished, Tell, Whole, WithinLimit, Shape;
    SequenceStays(cfg, moves, sts, i, k, c);
    if k < |moves| && moves[k] == Consume(c, Store) {
      FailureNoted(cfg, moves, sts, i, c);
      TellAfterFailure(Notes(cfg, moves, sts), i, k, c);
      StoreEndsBatch(cfg, moves, sts, k, c);
      WholeAlike(Tell(Notes(cfg, moves, sts)[..k], c), Tell(Notes(cfg, moves, sts)[i + 1..k], c));
    }
  }

  lemma FailureNoted(cfg: Config, moves: seq<Move>, sts: seq<State>, i: nat, c: nat)
    requires cfg.Valid() && SingleRefinement.Run(cfg, moves, sts)
    requires i < |moves| && moves[i] == Consume(c, Return(false))
    ensures Notes(cfg, moves, sts)[i] == Returned(c, false)
  {
    assert Enabled(cfg, sts[i], moves[i]);
  }
}
