/**
 * What the users of a ring do and get, noted move by move: claims taken, resolutions asked for,
 * events written, handler calls and their returns, and stores of a consumer's sequence. The notes
 * say nothing of what the ring makes of them; that is for the theorems.
 */
module Told {
  import opened Topology
  import opened Log
  import opened Consumers
  import opened Events

  datatype Note =
    | Quiet
    | Took(p: nat, low: int, high: int)
    | Asked(p: nat, low: int, high: int, status: Status)
    | Put(s: int, v: Event)
    | Called(c: nat, s: int, last: bool)
    | Returned(c: nat, ok: bool)
    | Stored(c: nat)

  function ConsumerNote(c: nat, pc: ConsumerPc, m: ConsumerMove): Note
    requires Ready(pc, m)
  {
    match m
    case Call => Called(c, pc.k, pc.k == pc.last)
    case Change(v) => Put(pc.k, v)
    case Return(ok) => Returned(c, ok)
    case Store => Stored(c)
    case _ => Quiet
  }

  // Claims and resolutions

  predicate Takes(note: Note, p: nat, s: int) {
    note.Took? && note.p == p && note.low <= s <= note.high
  }

  /** Producer `p` claimed `s`. */
  predicate Taken(notes: seq<Note>, p: nat, s: int) {
    exists j :: 0 <= j < |notes| && Takes(notes[j], p, s)
  }

  /** The resolution producer `p` asked for first for `s`. */
  function FirstAsked(notes: seq<Note>, p: nat, s: int): Option<Status>
    decreases |notes|
  {
    if notes == [] then None
    else
      var before, note := FirstAsked(notes[..|notes| - 1], p, s), notes[|notes| - 1];
      if before.None? && note.Asked? && note.p == p && note.low <= s <= note.high then Some(note.status) else before
  }

  /** The claimant of `s` asked for its publication before any other resolution. */
  ghost predicate PublishedFirst(notes: seq<Note>, s: int) {
    exists p :: Taken(notes, p, s) && FirstAsked(notes, p, s) == Some(Published)
  }

  lemma TakenStep(notes: seq<Note>, note: Note, p: nat, s: int)
    ensures Taken(notes + [note], p, s) <==> Taken(notes, p, s) || Takes(note, p, s)
  {
    var all := notes + [note];
    assert forall j :: 0 <= j < |notes| ==> all[j] == notes[j];
    if Takes(note, p, s) {
      assert Takes(all[|notes|], p, s);
    }
    if Taken(notes, p, s) {
      var j :| 0 <= j < |notes| && Takes(notes[j], p, s);
      assert Takes(all[j], p, s);
    }
  }

  lemma FirstAskedStep(notes: seq<Note>, note: Note, p: nat, s: int)
    ensures var first := FirstAsked(notes, p, s);
            FirstAsked(notes + [note], p, s) ==
            if first.None? && note.Asked? && note.p == p && note.low <= s <= note.high
            then Some(note.status) else first
  {
    assert (notes + [note])[..|notes|] == notes;
  }

  // Events

  /** The last value put in the event of `s`. */
  function LastPut(notes: seq<Note>, s: int): Option<Event>
    decreases |notes|
  {
    if notes == [] then None
    else if notes[|notes| - 1].Put? && notes[|notes| - 1].s == s then Some(notes[|notes| - 1].v)
    else LastPut(notes[..|notes| - 1], s)
  }

  /** What was left in the event of `s`: the last value put there, or what the lap before left. */
  function Left(cfg: Config, notes: seq<Note>, s: nat): Event
    requires 1 <= cfg.size == |cfg.factory|
  {
    match LastPut(notes, s)
    case Some(v) => v
    case None => if s < cfg.size then cfg.factory[s] else Left(cfg, notes, s - cfg.size)
  }

  // Handler calls

  /** The calls of the attempt in progress, how many of them returned well, and the calls stored. */
  datatype Account = Account(attempt: seq<Delivery>, returned: nat, acked: seq<Delivery>)

  /**
   * A call joins the attempt, a failed return drops it, and a store of the consumer's sequence
   * keeps it for good.
   */
  function TellNext(a: Account, note: Note, c: nat): Account {
    match note
    case Called(d, s, last) => if d == c then a.(attempt := a.attempt + [Delivery(s, last)]) else a
    case Returned(d, ok) =>
      if d != c then a else if ok then a.(returned := a.returned + 1) else Account([], 0, a.acked)
    case Stored(d) => if d == c then Account([], 0, a.acked + a.attempt) else a
    case _ => a
  }

  function Tell(notes: seq<Note>, c: nat): Account
    decreases |notes|
  {
    if notes == [] then Account([], 0, [])
    else TellNext(Tell(notes[..|notes| - 1], c), notes[|notes| - 1], c)
  }

  lemma TellStep(notes: seq<Note>, note: Note, c: nat)
    ensures Tell(notes + [note], c) == TellNext(Tell(notes, c), note, c)
  {
    assert (notes + [note])[..|notes|] == notes;
  }

  lemma TellAlike(a: Account, b: Account, note: Note, c: nat)
    requires a.attempt == b.attempt && a.returned == b.returned
    ensures TellNext(a, note, c).attempt == TellNext(b, note, c).attempt
    ensures TellNext(a, note, c).returned == TellNext(b, note, c).returned
  {
  }

  /** After a failed return the attempt is what was called since, whatever was called before. */
  lemma {:induction false} TellAfterFailure(notes: seq<Note>, i: nat, k: nat, c: nat)
    requires i < k <= |notes| && notes[i] == Returned(c, false)
    ensures Tell(notes[..k], c).attempt == Tell(notes[i + 1..k], c).attempt
    ensures Tell(notes[..k], c).returned == Tell(notes[i + 1..k], c).returned
    decreases k
  {
    var whole, since := notes[..k - 1], if k == i + 1 then [] else notes[i + 1..k - 1];
    assert notes[..k] == whole + [notes[k - 1]];
    TellStep(whole, notes[k - 1], c);
    if k == i + 1 {
      assert notes[i + 1..k] == [];
    } else {
      TellAfterFailure(notes, i, k - 1, c);
      assert notes[i + 1..k] == since + [notes[k - 1]];
      TellStep(since, notes[k - 1], c);
      TellAlike(Tell(whole, c), Tell(since, c), notes[k - 1], c);
      hide Tell, TellNext;
    }
  }

  // Notes beside a run of the log

  /** A note and the action of the log that goes with it; resolutions answer earlier notes. */
  ghost predicate Echoes(L: LogState, note: Note, act: Action) {
    match act
    case Claim(p, n, _) => note == Took(p, |L.recs|, |L.recs| + n - 1)
    case Write(_, s, v) => note == Put(s, v)
    case Modify(_, s, v) => note == Put(s, v)
    case Deliver(c, s, last) => note == Called(c, s, last)
    case Complete(c) => note == Returned(c, true)
    case Abandon(c) => note == Returned(c, false)
    case Acknowledge(c, _) => note == Stored(c)
    case _ => note.Quiet? || note.Asked?
  }

  ghost predicate Echoed(notes: seq<Note>, acts: seq<Action>, Ls: seq<LogState>) {
    && |notes| == |acts| && |Ls| == |acts| + 1
    && forall i :: 0 <= i < |acts| ==> Echoes(Ls[i], notes[i], acts[i])
  }

  lemma {:induction false} EchoedLastPut(notes: seq<Note>, acts: seq<Action>, Ls: seq<LogState>, k: nat, s: int)
    requires Echoed(notes, acts, Ls) && k <= |acts|
    ensures LastPut(notes[..k], s) == LastWrite(acts[..k], s)
  {
    if k > 0 {
      EchoedLastPut(notes, acts, Ls, k - 1, s);
      assert acts[..k][..k - 1] == acts[..k - 1] && notes[..k][..k - 1] == notes[..k - 1];
      assert Echoes(Ls[k - 1], notes[k - 1], acts[k - 1]);
    }
  }

  lemma {:induction false} EchoedLeft(cfg: Config, notes: seq<Note>, acts: seq<Action>, Ls: seq<LogState>, k: nat,
                                      s: nat)
    requires 1 <= cfg.size == |cfg.factory| && Echoed(notes, acts, Ls) && k <= |acts|
    ensures Left(cfg, notes[..k], s) == Contents(cfg, acts[..k], s)
  {
    EchoedLastPut(notes, acts, Ls, k, s);
    if s >= cfg.size {
      EchoedLeft(cfg, notes, acts, Ls, k, s - cfg.size);
    }
  }

  /** The log's consumer is what its calls, returns and stores say. */
  ghost predicate Tells(r: Reader, a: Account) {
    && r.attempt == a.attempt && r.acked == Seqnos(a.acked)
    && |a.attempt| == a.returned + if r.handling then 1 else 0
  }

  lemma SeqnosAppend(a: seq<Delivery>, b: seq<Delivery>)
    ensures Seqnos(a + b) == Seqnos(a) + Seqnos(b)
  {
  }

  lemma ReaderTells(cfg: Config, L: LogState, note: Note, act: Action, c: nat, a: Account)
    requires cfg.Valid() && Permitted(cfg, L, act) && Echoes(L, note, act)
    requires c < |L.readers| && Tells(L.readers[c], a)
    ensures Tells(Perform(cfg, L, act).readers[c], TellNext(a, note, c))
  {
    SeqnosAppend(a.acked, a.attempt);
  }

  lemma {:induction false} ReadersTell(cfg: Config, notes: seq<Note>, acts: seq<Action>, Ls: seq<LogState>, k: nat,
                                       c: nat)
    requires cfg.Valid() && Log.Run(cfg, acts, Ls) && Echoed(notes, acts, Ls) && k <= |acts| && c < |cfg.deps|
    ensures c < |Ls[k].readers| && Tells(Ls[k].readers[c], Tell(notes[..k], c))
  {
    if k > 0 {
      ReadersTell(cfg, notes, acts, Ls, k - 1, c);
      assert notes[..k] == notes[..k - 1] + [notes[k - 1]];
      TellStep(notes[..k - 1], notes[k - 1], c);
      assert Echoes(Ls[k - 1], notes[k - 1], acts[k - 1]);
      ReaderTells(cfg, Ls[k - 1], notes[k - 1], acts[k - 1], c, Tell(notes[..k - 1], c));
      hide Permitted, Perform, Echoes, Tell, TellNext, Tells;
    }
  }

  /** The owner of a record is the producer that claimed it, and the only one. */
  lemma {:induction false} OwnersTook(cfg: Config, notes: seq<Note>, acts: seq<Action>, Ls: seq<LogState>, k: nat,
                                      p: nat, s: int)
    requires cfg.Valid() && Log.Run(cfg, acts, Ls) && Echoed(notes, acts, Ls) && k <= |acts|
    ensures Taken(notes[..k], p, s) <==> 0 <= s < |Ls[k].recs| && Ls[k].recs[s].owner == p
    decreases k
  {
    if k > 0 {
      OwnersTook(cfg, notes, acts, Ls, k - 1, p, s);
      assert notes[..k] == notes[..k - 1] + [notes[k - 1]];
      TakenStep(notes[..k - 1], notes[k - 1], p, s);
      assert Echoes(Ls[k - 1], notes[k - 1], acts[k - 1]);
      PerformEvolves(cfg, Ls[k - 1], acts[k - 1]);
    }
  }

  // Resolutions beside the log

  /** A record is resolved as was asked first, or is about to be. */
  predicate AnsweredAs(status: Status, first: Option<Status>, pending: bool) {
    match first
    case None => !status.Resolved()
    case Some(asked) => status == asked || (!status.Resolved() && pending)
  }

  /** Consumers read published exactly what was asked to be published first. */
  lemma ResolvedAsAsked(notes: seq<Note>, recs: seq<Record>, s: int)
    requires 0 <= s < |recs| && recs[s].status.Resolved()
    requires forall p :: Taken(notes, p, s) <==> recs[s].owner == p
    requires FirstAsked(notes, recs[s].owner, s) == Some(recs[s].status)
    ensures recs[s].status.Published? <==> PublishedFirst(notes, s)
  {
    assert Taken(notes, recs[s].owner, s);
  }

  // Handler calls beside the log

  /** The sequences of `t` are those after `a` up to `b` that were published, each once, in order. */
  ghost predicate ExactlyPublished(notes: seq<Note>, ds: seq<Delivery>, a: int, b: int) {
    && Increasing(Seqnos(ds))
    && forall s :: s in Seqnos(ds) <==> a < s <= b && PublishedFirst(notes, s)
  }

  /** An attempt called for its whole batch: every call returned well and the last one was flagged. */
  predicate Whole(a: Account) {
    && a.returned == |a.attempt|
    && forall i :: 0 <= i < |a.attempt| ==> (a.attempt[i].last <==> i == |a.attempt| - 1)
  }

  lemma WholeAlike(a: Account, b: Account)
    requires a.attempt == b.attempt && a.returned == b.returned
    ensures Whole(a) <==> Whole(b)
  {
  }

  /** Up to its last resolved record, a log beside these notes holds what was asked first. */
  ghost predicate Answered(notes: seq<Note>, recs: seq<Record>) {
    forall s :: 0 <= s < |recs| && recs[s].status.Resolved() ==>
      && (forall p :: Taken(notes, p, s) <==> recs[s].owner == p)
      && FirstAsked(notes, recs[s].owner, s) == Some(recs[s].status)
  }

  lemma ExactFromLog(notes: seq<Note>, recs: seq<Record>, ds: seq<Delivery>, a: int, b: int)
    requires Answered(notes, recs) && -1 <= a && b < |recs| && Increasing(Seqnos(ds))
    requires forall s :: a < s <= b ==> recs[s].status.Resolved()
    requires forall s :: s in Seqnos(ds) <==> a < s <= b && recs[s].status.Published?
    ensures ExactlyPublished(notes, ds, a, b)
  {
    forall s | a < s <= b ensures recs[s].status.Published? <==> PublishedFirst(notes, s) {
      ResolvedAsAsked(notes, recs, s);
    }
  }

  lemma AckedIsExact(cfg: Config, notes: seq<Note>, recs: seq<Record>, r: Reader, a: Account)
    requires Answered(notes, recs) && ReaderOK(cfg, recs, r) && Tells(r, a)
    ensures ExactlyPublished(notes, a.acked, -1, r.pos)
  {
    LiveIsExact(recs, 0, r.pos + 1);
    hide Answered, Increasing, ExactlyPublished, Live, AttemptOK;
    ExactFromLog(notes, recs, a.acked, -1, r.pos);
  }

  lemma AttemptIsExact(cfg: Config, notes: seq<Note>, recs: seq<Record>, r: Reader, a: Account)
    requires Answered(notes, recs) && ReaderOK(cfg, recs, r) && Tells(r, a) && a.attempt != []
    ensures ExactlyPublished(notes, a.attempt, r.pos, a.attempt[|a.attempt| - 1].seqno)
  {
    var s := r.attempt[|r.attempt| - 1].seqno;
    LiveIsExact(recs, r.pos + 1, s + 1);
    hide Answered, Increasing, ExactlyPublished, Live;
    ExactFromLog(notes, recs, a.attempt, r.pos, s);
  }

  /** What a consumer's calls amount to, in any state of a run of the log that these notes go with. */
  lemma AccountIsExact(cfg: Config, notes: seq<Note>, acts: seq<Action>, Ls: seq<LogState>, k: nat, c: nat)
    requires cfg.Valid() && Log.Run(cfg, acts, Ls) && Echoed(notes, acts, Ls) && k <= |acts| && c < |cfg.deps|
    requires Answered(notes[..k], Ls[k].recs)
    ensures c < |Ls[k].readers|
    ensures var a, q := Tell(notes[..k], c), Ls[k].readers[c].pos;
            && ExactlyPublished(notes[..k], a.acked, -1, q)
            && (a.attempt != [] ==>
                  ExactlyPublished(notes[..k], a.attempt, q, a.attempt[|a.attempt| - 1].seqno))
  {
    var a := Tell(notes[..k], c);
    RunKeepsInv(cfg, acts, Ls, k);
    ReadersTell(cfg, notes, acts, Ls, k, c);
    assert ReaderOK(cfg, Ls[k].recs, Ls[k].readers[c]);
    hide ExactlyPublished, Tell, TellNext, Permitted, Perform, LogInv, Answered, Echoes, ReaderOK, Tells;
    AckedIsExact(cfg, notes[..k], Ls[k].recs, Ls[k].readers[c], a);
    if a.attempt != [] {
      AttemptIsExact(cfg, notes[..k], Ls[k].recs, Ls[k].readers[c], a);
    }
  }

  /** What the log requires of an acknowledgement, of the batch it closes. */
  lemma AcknowledgedBatch(cfg: Config, L: LogState, c: nat, e: int)
    requires cfg.Valid() && Permitted(cfg, L, Acknowledge(c, e))
    ensures var ds, q := L.readers[c].attempt, L.readers[c].pos;
            && !L.readers[c].handling && -1 <= q <= e < |L.recs| && AllResolved(L.recs, 0, e + 1)
            && (forall i :: 0 <= i < |ds| ==> (ds[i].last <==> i == |ds| - 1))
            && Increasing(Seqnos(ds))
            && forall s :: s in Seqnos(ds) <==> q < s <= e && L.recs[s].status.Published?
  {
    var q := L.readers[c].pos;
    assert L.readers[c].attempt == Deliveries(L.recs, q + 1, e + 1, LastLive(L.recs, q + 1, e + 1));
    assert AllResolved(L.recs, 0, e + 1) && !L.readers[c].handling && -1 <= q <= e < |L.recs|;
    BatchCalls(L.recs, q + 1, e + 1);
    hide Permitted, Increasing, Deliveries, LastLive, Live;
  }

  /** The calls for a resolved range: its published sequences in order, the last of them flagged. */
  lemma BatchCalls(recs: seq<Record>, a: int, b: int)
    requires 0 <= a <= b <= |recs| && AllResolved(recs, a, b)
    ensures var ds := Deliveries(recs, a, b, LastLive(recs, a, b));
            && (forall i :: 0 <= i < |ds| ==> (ds[i].last <==> i == |ds| - 1)) && Increasing(Seqnos(ds))
            && forall s :: s in Seqnos(ds) <==> a <= s < b && recs[s].status.Published?
  {
    OnlyLastFlagged(recs, a, b);
    SeqnosOfDeliveries(recs, a, b, LastLive(recs, a, b));
    LiveIsExact(recs, a, b);
    hide Increasing, LastLive;
  }

  /** A store ends a whole attempt at the batch it acknowledges. */
  lemma StoreEndsAttempt(cfg: Config, notes: seq<Note>, acts: seq<Action>, Ls: seq<LogState>, k: nat, c: nat)
    requires cfg.Valid() && Log.Run(cfg, acts, Ls) && Echoed(notes, acts, Ls) && k < |acts| && c < |cfg.deps|
    requires Answered(notes[..k], Ls[k].recs) && acts[k].Acknowledge? && acts[k].c == c
    ensures c < |Ls[k].readers| && Ls[k].readers[c].pos <= acts[k].end
    ensures Whole(Tell(notes[..k], c))
    ensures ExactlyPublished(notes[..k], Tell(notes[..k], c).attempt, Ls[k].readers[c].pos, acts[k].end)
  {
    assert Permitted(cfg, Ls[k], acts[k]);
    ReadersTell(cfg, notes, acts, Ls, k, c);
    AcknowledgedBatch(cfg, Ls[k], c, acts[k].end);
    hide Permitted, Perform, Tell, Increasing, ExactlyPublished;
    ExactFromLog(notes[..k], Ls[k].recs, Tell(notes[..k], c).attempt, Ls[k].readers[c].pos, acts[k].end);
  }
}
