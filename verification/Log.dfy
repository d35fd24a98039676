/**
 * The specification of a ring: an append-only log that is never overwritten. It has no slots, no
 * markers, no cached gate and no cursor races; a claim appends records, a resolution closes them,
 * and each consumer reads them in order from its own position.
 */
module Log {
  import opened Topology

  /** `Claimed` records become `Open` once their marker is prepared; both await resolution. */
  datatype Status = Claimed | Open | Published | Discarded
  {
    predicate Resolved() {
      Published? || Discarded?
    }
  }

  datatype Record = Record(owner: nat, status: Status, body: Event)

  /** One handler call: the sequence and the end-of-batch flag it was given. */
  datatype Delivery = Delivery(seqno: int, last: bool)

  /**
   * A consumer: its acknowledged position, the handler calls of the attempt in progress, whether
   * the latest of them is still running, and every sequence acknowledged as delivered.
   */
  datatype Reader = Reader(pos: int, attempt: seq<Delivery>, handling: bool, acked: seq<int>)

  datatype LogState = LogState(recs: seq<Record>, readers: seq<Reader>)

  datatype Action =
    | Silent
    | Claim(p: nat, n: int, initial: Status)
    | Prepare(p: nat, s: int)
    | Write(p: nat, s: int, v: Event)
    | Resolve(p: nat, lo: int, hi: int, status: Status)
    | Deliver(c: nat, s: int, last: bool)
    | Observe(c: nat, s: int, v: Event)
    | Modify(c: nat, s: int, v: Event)
    | Complete(c: nat)
    | Abandon(c: nat)
    | Acknowledge(c: nat, end: int)

  // Ranges of the log, from `a` up to but excluding `b`

  ghost predicate AllResolved(recs: seq<Record>, a: int, b: int) {
    forall t :: a <= t < b && 0 <= t < |recs| ==> recs[t].status.Resolved()
  }

  /** The sequences to deliver: those not discarded. */
  function Live(recs: seq<Record>, a: int, b: int): seq<int>
    requires 0 <= a && b <= |recs|
    decreases b - a
  {
    if b <= a then []
    else Live(recs, a, b - 1) + (if recs[b - 1].status.Discarded? then [] else [b - 1])
  }

  /** The greatest live sequence, or `a - 1` when all are discarded. */
  function LastLive(recs: seq<Record>, a: int, b: int): int
    requires 0 <= a && b <= |recs|
    decreases b - a
  {
    if b <= a then a - 1
    else if recs[b - 1].status.Discarded? then LastLive(recs, a, b - 1) else b - 1
  }

  /** Handler calls for the live sequences, flagged at `last`. */
  function Deliveries(recs: seq<Record>, a: int, b: int, last: int): seq<Delivery>
    requires 0 <= a && b <= |recs|
    decreases b - a
  {
    if b <= a then []
    else Deliveries(recs, a, b - 1, last)
         + (if recs[b - 1].status.Discarded? then [] else [Delivery(b - 1, b - 1 == last)])
  }

  function Seqnos(ds: seq<Delivery>): seq<int> {
    seq(|ds|, i requires 0 <= i < |ds| => ds[i].seqno)
  }

  function Positions(readers: seq<Reader>): seq<int> {
    seq(|readers|, i requires 0 <= i < |readers| => readers[i].pos)
  }

  // The actions of the log

  /** What a freshly claimed record shows: the event left in its slot one lap before. */
  function Inherited(cfg: Config, recs: seq<Record>, s: int): Event
    requires 0 <= s && |cfg.factory| == cfg.size && s - cfg.size < |recs|
  {
    if s < cfg.size then cfg.factory[s] else recs[s - cfg.size].body
  }

  ghost predicate Owns(recs: seq<Record>, p: nat, s: int) {
    0 <= s < |recs| && recs[s].owner == p && !recs[s].status.Resolved()
  }

  ghost predicate Upstream(cfg: Config, readers: seq<Reader>, c: nat, s: int) {
    forall i :: c < |cfg.deps| && 0 <= i < |cfg.deps[c]| && cfg.deps[c][i] < |readers|
      ==> s <= readers[cfg.deps[c][i]].pos
  }

  ghost predicate Handles(r: Reader, s: int) {
    r.handling && r.attempt != [] && r.attempt[|r.attempt| - 1].seqno == s
  }

  ghost predicate Permitted(cfg: Config, L: LogState, act: Action)
    requires cfg.Valid()
  {
    var recs, readers := L.recs, L.readers;
    match act
    case Silent => true
    case Claim(p, n, initial) =>
      && p < cfg.producers && 1 <= n <= cfg.size && !initial.Resolved()
      && Above(Positions(readers), |recs| - 1 + n - cfg.size)
    case Prepare(p, s) => Owns(recs, p, s) && recs[s].status.Claimed?
    case Write(p, s, v) => Owns(recs, p, s)
    case Resolve(p, lo, hi, status) =>
      && 0 <= lo <= hi < |recs| && status.Resolved()
      && forall t :: lo <= t <= hi ==> Owns(recs, p, t)
    case Deliver(c, s, last) =>
      && c < |readers| && !readers[c].handling
      && 0 <= readers[c].pos + 1 <= s < |recs|
      && AllResolved(recs, readers[c].pos + 1, s) && recs[s].status.Published?
      && Upstream(cfg, readers, c, s)
      && Seqnos(readers[c].attempt) == Live(recs, readers[c].pos + 1, s)
    case Observe(c, s, v) =>
      c < |readers| && Handles(readers[c], s) && 0 <= s < |recs| && recs[s].body == v
    case Modify(c, s, v) =>
      c < |readers| && Handles(readers[c], s) && 0 <= s < |recs|
    case Complete(c) => c < |readers| && readers[c].handling
    case Abandon(c) => c < |readers|
    case Acknowledge(c, end) =>
      && c < |readers| && !readers[c].handling
      && -1 <= readers[c].pos <= end < |recs|
      && AllResolved(recs, 0, end + 1)
      && Upstream(cfg, readers, c, end)
      && readers[c].attempt
         == Deliveries(recs, readers[c].pos + 1, end + 1, LastLive(recs, readers[c].pos + 1, end + 1))
  }

  function Appended(cfg: Config, recs: seq<Record>, p: nat, n: int, initial: Status): seq<Record>
    requires |cfg.factory| == cfg.size && 0 <= n <= cfg.size
  {
    recs + seq(n, i requires 0 <= i < n => Record(p, initial, Inherited(cfg, recs, |recs| + i)))
  }

  function Resolving(recs: seq<Record>, lo: int, hi: int, status: Status): seq<Record> {
    seq(|recs|, i requires 0 <= i < |recs| => if lo <= i <= hi then recs[i].(status := status) else recs[i])
  }

  ghost function Perform(cfg: Config, L: LogState, act: Action): (L': LogState)
    requires cfg.Valid() && Permitted(cfg, L, act)
    ensures |L'.readers| == |L.readers|
  {
    var recs, readers := L.recs, L.readers;
    match act
    case Silent => L
    case Claim(p, n, initial) => L.(recs := Appended(cfg, recs, p, n, initial))
    case Prepare(p, s) => L.(recs := recs[s := recs[s].(status := Open)])
    case Write(p, s, v) => L.(recs := recs[s := recs[s].(body := v)])
    case Resolve(p, lo, hi, status) => L.(recs := Resolving(recs, lo, hi, status))
    case Deliver(c, s, last) =>
      L.(readers := readers[c := readers[c].(attempt := readers[c].attempt + [Delivery(s, last)], handling := true)])
    case Observe(c, s, v) => L
    case Modify(c, s, v) => L.(recs := recs[s := recs[s].(body := v)])
    case Complete(c) => L.(readers := readers[c := readers[c].(handling := false)])
    case Abandon(c) => L.(readers := readers[c := readers[c].(attempt := [], handling := false)])
    case Acknowledge(c, end) =>
      L.(readers := readers[c := Reader(end, [], false, readers[c].acked + Seqnos(readers[c].attempt))])
  }

  ghost function Start(cfg: Config): LogState {
    LogState([], seq(|cfg.deps|, i => Reader(-1, [], false, [])))
  }

  // What every run of the log keeps

  /** Records only accumulate, their owner is fixed, and a resolution is final. */
  ghost predicate Evolves(recs: seq<Record>, recs': seq<Record>) {
    && |recs| <= |recs'|
    && forall s :: 0 <= s < |recs| ==>
         && recs'[s].owner == recs[s].owner
         && (recs[s].status.Resolved() ==> recs'[s].status == recs[s].status)
  }

  /**
   * A consumer has acknowledged exactly the live records up to its position, all of which are
   * resolved; the attempt in progress is a prefix of the live records that follow.
   */
  ghost predicate ReaderOK(cfg: Config, recs: seq<Record>, r: Reader) {
    && -1 <= r.pos < |recs|
    && |recs| - 1 - cfg.size <= r.pos
    && AllResolved(recs, 0, r.pos + 1)
    && r.acked == Live(recs, 0, r.pos + 1)
    && (r.handling ==> r.attempt != [])
    && AttemptOK(recs, r)
  }

  ghost predicate AttemptOK(recs: seq<Record>, r: Reader)
    requires -1 <= r.pos < |recs|
  {
    r.attempt == [] ||
    (var s := r.attempt[|r.attempt| - 1].seqno;
     && r.pos < s < |recs|
     && AllResolved(recs, r.pos + 1, s + 1)
     && Seqnos(r.attempt) == Live(recs, r.pos + 1, s + 1))
  }

  ghost predicate LogInv(cfg: Config, L: LogState) {
    && |L.readers| == |cfg.deps|
    && (forall s :: 0 <= s < |L.recs| ==> L.recs[s].owner < cfg.producers)
    && (forall c :: 0 <= c < |L.readers| ==> ReaderOK(cfg, L.recs, L.readers[c]))
    && Ordered(cfg, Positions(L.readers))
  }

  lemma {:induction false} LiveStable(recs: seq<Record>, recs': seq<Record>, a: int, b: int)
    requires 0 <= a && b <= |recs| && Evolves(recs, recs') && AllResolved(recs, a, b)
    ensures Live(recs', a, b) == Live(recs, a, b)
    decreases b - a
  {
    if a < b {
      LiveStable(recs, recs', a, b - 1);
    }
  }

  lemma {:induction false} DeliveriesStable(recs: seq<Record>, recs': seq<Record>, a: int, b: int, last: int)
    requires 0 <= a && b <= |recs| && Evolves(recs, recs') && AllResolved(recs, a, b)
    ensures Deliveries(recs', a, b, last) == Deliveries(recs, a, b, last)
    decreases b - a
  {
    if a < b {
      DeliveriesStable(recs, recs', a, b - 1, last);
    }
  }

  lemma {:induction false} LiveSplits(recs: seq<Record>, a: int, m: int, b: int)
    requires 0 <= a <= m <= b <= |recs|
    ensures Live(recs, a, b) == Live(recs, a, m) + Live(recs, m, b)
    decreases b - m
  {
    if m < b {
      LiveSplits(recs, a, m, b - 1);
    }
  }

  lemma {:induction false} SeqnosOfDeliveries(recs: seq<Record>, a: int, b: int, last: int)
    requires 0 <= a && b <= |recs|
    ensures Seqnos(Deliveries(recs, a, b, last)) == Live(recs, a, b)
    decreases b - a
  {
    if a < b {
      SeqnosOfDeliveries(recs, a, b - 1, last);
    }
  }

  lemma PerformEvolves(cfg: Config, L: LogState, act: Action)
    requires cfg.Valid() && Permitted(cfg, L, act)
    ensures Evolves(L.recs, Perform(cfg, L, act).recs)
  {
    if act.Resolve? {
      assert forall t :: act.lo <= t <= act.hi ==> Owns(L.recs, act.p, t);
      forall t | act.lo <= t <= act.hi ensures !L.recs[t].status.Resolved() {
        assert Owns(L.recs, act.p, t);
      }
    }
  }

  lemma ReaderStable(cfg: Config, recs: seq<Record>, recs': seq<Record>, r: Reader)
    requires ReaderOK(cfg, recs, r) && Evolves(recs, recs')
    requires |recs'| - 1 - cfg.size <= r.pos
    ensures ReaderOK(cfg, recs', r)
  {
    hide Live;
    LiveStable(recs, recs', 0, r.pos + 1);
    if r.attempt != [] {
      LiveStable(recs, recs', r.pos + 1, r.attempt[|r.attempt| - 1].seqno + 1);
    }
  }

  lemma DeliverAdvances(cfg: Config, L: LogState, act: Action)
    requires cfg.Valid() && act.Deliver? && Permitted(cfg, L, act) && ReaderOK(cfg, L.recs, L.readers[act.c])
    ensures ReaderOK(cfg, L.recs, Perform(cfg, L, act).readers[act.c])
  {
    var r, r' := L.readers[act.c], Perform(cfg, L, act).readers[act.c];
    assert Seqnos(r'.attempt) == Seqnos(r.attempt) + [act.s];
    assert Live(L.recs, r.pos + 1, act.s + 1) == Live(L.recs, r.pos + 1, act.s) + [act.s];
  }

  lemma AcknowledgeAdvances(cfg: Config, L: LogState, act: Action)
    requires cfg.Valid() && act.Acknowledge? && Permitted(cfg, L, act) && ReaderOK(cfg, L.recs, L.readers[act.c])
    ensures ReaderOK(cfg, L.recs, Perform(cfg, L, act).readers[act.c])
  {
    var r := L.readers[act.c];
    SeqnosOfDeliveries(L.recs, r.pos + 1, act.end + 1, LastLive(L.recs, r.pos + 1, act.end + 1));
    LiveSplits(L.recs, 0, r.pos + 1, act.end + 1);
  }

  lemma ReaderAdvances(cfg: Config, L: LogState, act: Action)
    requires cfg.Valid() && Permitted(cfg, L, act)
    requires act.Deliver? || act.Complete? || act.Abandon? || act.Acknowledge?
    requires ReaderOK(cfg, L.recs, L.readers[act.c])
    ensures ReaderOK(cfg, L.recs, Perform(cfg, L, act).readers[act.c])
  {
    if act.Deliver? {
      DeliverAdvances(cfg, L, act);
    } else if act.Acknowledge? {
      AcknowledgeAdvances(cfg, L, act);
    }
  }

  lemma LogInvKept(cfg: Config, L: LogState, act: Action)
    requires cfg.Valid() && LogInv(cfg, L) && Permitted(cfg, L, act)
    ensures LogInv(cfg, Perform(cfg, L, act))
  {
    var L' := Perform(cfg, L, act);
    PerformEvolves(cfg, L, act);
    forall c | 0 <= c < |L'.readers| ensures ReaderOK(cfg, L'.recs, L'.readers[c]) {
      assert ReaderOK(cfg, L.recs, L.readers[c]);
      if L'.readers[c] == L.readers[c] {
        if act.Claim? {
          assert |L.recs| - 1 + act.n - cfg.size <= Positions(L.readers)[c];
        }
        ReaderStable(cfg, L.recs, L'.recs, L.readers[c]);
      } else {
        ReaderAdvances(cfg, L, act);
      }
    }
    OrderKept(cfg, L, act);
  }

  lemma OrderKept(cfg: Config, L: LogState, act: Action)
    requires cfg.Valid() && LogInv(cfg, L) && Permitted(cfg, L, act)
    ensures Ordered(cfg, Positions(Perform(cfg, L, act).readers))
  {
    var pos, pos' := Positions(L.readers), Positions(Perform(cfg, L, act).readers);
    if act.Acknowledge? {
      assert pos' == pos[act.c := act.end];
      forall c, i | 0 <= c < |cfg.deps| && 0 <= i < |cfg.deps[c]|
        ensures pos'[c] <= pos'[cfg.deps[c][i]]
      {
        assert pos[c] <= pos[cfg.deps[c][i]];
      }
    } else {
      assert pos' == pos;
    }
  }

  // Runs

  /** `Ls` are the states a run with actions `acts` goes through. */
  ghost predicate Run(cfg: Config, acts: seq<Action>, Ls: seq<LogState>)
    requires cfg.Valid()
  {
    && |Ls| == |acts| + 1 && Ls[0] == Start(cfg)
    && forall i :: 0 <= i < |acts| ==> Permitted(cfg, Ls[i], acts[i]) && Ls[i + 1] == Perform(cfg, Ls[i], acts[i])
  }

  lemma Extend(cfg: Config, acts: seq<Action>, Ls: seq<LogState>, act: Action)
    requires cfg.Valid() && Run(cfg, acts, Ls) && Permitted(cfg, Ls[|acts|], act)
    ensures Run(cfg, acts + [act], Ls + [Perform(cfg, Ls[|acts|], act)])
  {
    var acts', Ls' := acts + [act], Ls + [Perform(cfg, Ls[|acts|], act)];
    forall i | 0 <= i < |acts'|
      ensures Permitted(cfg, Ls'[i], acts'[i]) && Ls'[i + 1] == Perform(cfg, Ls'[i], acts'[i]) {
      if i < |acts| {
        assert Ls'[i] == Ls[i] && acts'[i] == acts[i];
      }
    }
  }

  lemma StartOK(cfg: Config)
    requires cfg.Valid()
    ensures LogInv(cfg, Start(cfg))
  {
  }

  lemma {:induction false} RunKeepsInv(cfg: Config, acts: seq<Action>, Ls: seq<LogState>, k: nat)
    requires cfg.Valid() && Run(cfg, acts, Ls) && k < |Ls|
    ensures LogInv(cfg, Ls[k])
  {
    if k == 0 {
      StartOK(cfg);
    } else {
      RunKeepsInv(cfg, acts, Ls, k - 1);
      LogInvKept(cfg, Ls[k - 1], acts[k - 1]);
    }
  }

  ghost predicate Increasing(s: seq<int>) {
    forall i, j :: 0 <= i < j < |s| ==> s[i] < s[j]
  }

  lemma {:induction false} LiveMembers(recs: seq<Record>, a: int, b: int)
    requires 0 <= a && b <= |recs|
    ensures forall s :: s in Live(recs, a, b) <==> a <= s < b && !recs[s].status.Discarded?
    decreases b - a
  {
    if a < b {
      LiveMembers(recs, a, b - 1);
    }
  }

  lemma {:induction false} LiveIncreases(recs: seq<Record>, a: int, b: int)
    requires 0 <= a && b <= |recs|
    ensures Increasing(Live(recs, a, b))
    decreases b - a
  {
    if a < b {
      LiveIncreases(recs, a, b - 1);
      LiveMembers(recs, a, b - 1);
      var rest := Live(recs, a, b - 1);
      forall i | 0 <= i < |rest| ensures rest[i] < b - 1 {
        assert rest[i] in rest;
      }
    }
  }

  /** The live sequences of a range are its sequences that are not discarded, each once, in order. */
  lemma LiveIsExact(recs: seq<Record>, a: int, b: int)
    requires 0 <= a && b <= |recs|
    ensures Increasing(Live(recs, a, b))
    ensures forall s :: s in Live(recs, a, b) <==> a <= s < b && !recs[s].status.Discarded?
  {
    LiveMembers(recs, a, b);
    LiveIncreases(recs, a, b);
  }

  lemma {:induction false} FlaggedLater(recs: seq<Record>, a: int, b: int, last: int)
    requires 0 <= a && b <= |recs| && b <= last
    ensures forall d :: d in Deliveries(recs, a, b, last) ==> !d.last
    decreases b - a
  {
    if a < b {
      FlaggedLater(recs, a, b - 1, last);
    }
  }

  /** The calls for a batch flag exactly the last of them. */
  lemma {:induction false} OnlyLastFlagged(recs: seq<Record>, a: int, b: int)
    requires 0 <= a && b <= |recs|
    ensures var ds := Deliveries(recs, a, b, LastLive(recs, a, b));
            forall i :: 0 <= i < |ds| ==> (ds[i].last <==> i == |ds| - 1)
    decreases b - a
  {
    if a < b {
      if recs[b - 1].status.Discarded? {
        OnlyLastFlagged(recs, a, b - 1);
        assert Deliveries(recs, a, b, LastLive(recs, a, b)) == Deliveries(recs, a, b - 1, LastLive(recs, a, b - 1));
      } else {
        FlaggedLater(recs, a, b - 1, b - 1);
        var rest := Deliveries(recs, a, b - 1, b - 1);
        assert forall i :: 0 <= i < |rest| ==> rest[i] in rest;
      }
    }
  }

  /**
   * Exactly-once acknowledgement with replay, in every state of every run of the log. What a
   * consumer has acknowledged is exactly the published sequences up to its position, each once
   * and in order; the attempt in progress has called the handler for exactly the published
   * sequences from there to its latest call, in order.
   */
  lemma ExactlyOnce(cfg: Config, acts: seq<Action>, Ls: seq<LogState>, k: nat, c: nat)
    requires cfg.Valid() && Run(cfg, acts, Ls) && k < |Ls| && c < |cfg.deps|
    ensures c < |Ls[k].readers|
    ensures var recs, r := Ls[k].recs, Ls[k].readers[c];
            && Increasing(r.acked)
            && (forall s :: s in r.acked <==> 0 <= s <= r.pos && s < |recs| && recs[s].status.Published?)
    ensures var recs, r := Ls[k].recs, Ls[k].readers[c];
            r.attempt != [] ==>
              && Increasing(Seqnos(r.attempt))
              && (forall s :: s in Seqnos(r.attempt) <==>
                    r.pos < s <= r.attempt[|r.attempt| - 1].seqno && 0 <= s < |recs| && recs[s].status.Published?)
  {
    RunKeepsInv(cfg, acts, Ls, k);
    var recs, r := Ls[k].recs, Ls[k].readers[c];
    assert ReaderOK(cfg, recs, r);
    LiveIsExact(recs, 0, r.pos + 1);
    if r.attempt != [] {
      LiveIsExact(recs, r.pos + 1, r.attempt[|r.attempt| - 1].seqno + 1);
    }
  }

  /** First resolution wins: between any two states of a run, a resolved record never changes its resolution. */
  lemma {:induction false} ResolutionIsFinal(cfg: Config, acts: seq<Action>, Ls: seq<LogState>, j: nat, k: nat)
    requires cfg.Valid() && Run(cfg, acts, Ls) && j <= k < |Ls|
    ensures Evolves(Ls[j].recs, Ls[k].recs)
    decreases k - j
  {
    if j < k {
      ResolutionIsFinal(cfg, acts, Ls, j, k - 1);
      PerformEvolves(cfg, Ls[k - 1], acts[k - 1]);
    }
  }
}
