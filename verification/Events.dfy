/**
 * What the event of a sequence holds, told from the actions of a run alone: the last value its
 * claimant or a handler put there, or what was left by the sequence one lap before.
 */
module Events {
  import opened Topology
  import opened Log

  datatype Option<T> = None | Some(value: T)

  /** The last value an action put in the event of `s`. */
  function LastWrite(acts: seq<Action>, s: int): Option<Event>
    decreases |acts|
  {
    if acts == [] then None
    else
      match acts[|acts| - 1]
      case Write(_, t, v) => if t == s then Some(v) else LastWrite(acts[..|acts| - 1], s)
      case Modify(_, t, v) => if t == s then Some(v) else LastWrite(acts[..|acts| - 1], s)
      case _ => LastWrite(acts[..|acts| - 1], s)
  }

  function Contents(cfg: Config, acts: seq<Action>, s: nat): Event
    requires 1 <= cfg.size == |cfg.factory|
  {
    match LastWrite(acts, s)
    case Some(v) => v
    case None => if s < cfg.size then cfg.factory[s] else Contents(cfg, acts, s - cfg.size)
  }

  predicate Writes(act: Action) {
    act.Write? || act.Modify?
  }

  lemma LastWriteStep(acts: seq<Action>, act: Action, s: int)
    ensures LastWrite(acts + [act], s) == if Writes(act) && act.s == s then Some(act.v) else LastWrite(acts, s)
  {
    assert (acts + [act])[..|acts|] == acts;
  }

  /** A write elsewhere in the current lap leaves the contents of `s` alone. */
  lemma {:induction false} ContentsStep(cfg: Config, acts: seq<Action>, act: Action, s: nat)
    requires 1 <= cfg.size == |cfg.factory|
    requires Writes(act) ==> act.s != s && s - cfg.size < act.s
    ensures Contents(cfg, acts + [act], s) == Contents(cfg, acts, s)
  {
    LastWriteStep(acts, act, s);
    if s >= cfg.size {
      ContentsStep(cfg, acts, act, s - cfg.size);
    }
  }

  /** Only a claimed sequence that no consumer has passed is written. */
  lemma WrittenInWindow(cfg: Config, L: LogState, act: Action)
    requires cfg.Valid() && LogInv(cfg, L) && Permitted(cfg, L, act) && Writes(act)
    ensures |L.recs| - 1 - cfg.size < act.s < |L.recs|
  {
    var g := cfg.gates[0];
    assert ReaderOK(cfg, L.recs, L.readers[g]);
    if act.Modify? {
      assert ReaderOK(cfg, L.recs, L.readers[act.c]);
    }
  }

  lemma {:induction false} UnclaimedUnwritten(cfg: Config, acts: seq<Action>, Ls: seq<LogState>, k: nat, s: nat)
    requires cfg.Valid() && Run(cfg, acts, Ls) && k < |Ls| && |Ls[k].recs| <= s
    ensures LastWrite(acts[..k], s) == None
  {
    if k > 0 {
      var L, act := Ls[k - 1], acts[k - 1];
      PerformEvolves(cfg, L, act);
      UnclaimedUnwritten(cfg, acts, Ls, k - 1, s);
      assert acts[..k] == acts[..k - 1] + [act];
      LastWriteStep(acts[..k - 1], act, s);
    }
  }

  lemma FreshContents(cfg: Config, acts: seq<Action>, Ls: seq<LogState>, k: nat, s: nat)
    requires cfg.Valid() && Run(cfg, acts, Ls) && 0 < k < |Ls| && |Ls[k - 1].recs| <= s < |Ls[k].recs|
    requires s >= cfg.size ==>
               s - cfg.size < |Ls[k - 1].recs|
               && Ls[k - 1].recs[s - cfg.size].body == Contents(cfg, acts[..k - 1], s - cfg.size)
    ensures Ls[k].recs[s].body == Contents(cfg, acts[..k], s)
  {
    var L, act := Ls[k - 1], acts[k - 1];
    assert act.Claim?;
    assert Ls[k].recs[s].body == Inherited(cfg, L.recs, s);
    UnclaimedUnwritten(cfg, acts, Ls, k - 1, s);
    assert acts[..k] == acts[..k - 1] + [act];
    LastWriteStep(acts[..k - 1], act, s);
    if s >= cfg.size {
      ContentsStep(cfg, acts[..k - 1], act, s - cfg.size);
    }
  }

  /** A step that claims nothing writes one record or none. */
  lemma OldContents(cfg: Config, acts: seq<Action>, L: LogState, act: Action, s: nat)
    requires cfg.Valid() && LogInv(cfg, L) && Permitted(cfg, L, act) && s < |L.recs|
    requires L.recs[s].body == Contents(cfg, acts, s)
    ensures Perform(cfg, L, act).recs[s].body == Contents(cfg, acts + [act], s)
  {
    if Writes(act) {
      WrittenInWindow(cfg, L, act);
    }
    if Writes(act) && act.s == s {
      LastWriteStep(acts, act, s);
    } else {
      ContentsStep(cfg, acts, act, s);
    }
  }

  /** In every run of the log, the body of a record is what the actions so far left there. */
  lemma {:induction false} BodyIsContents(cfg: Config, acts: seq<Action>, Ls: seq<LogState>, k: nat, s: nat)
    requires cfg.Valid() && Run(cfg, acts, Ls) && k < |Ls| && s < |Ls[k].recs|
    ensures Ls[k].recs[s].body == Contents(cfg, acts[..k], s)
    decreases k
  {
    if k > 0 {
      var L, act := Ls[k - 1], acts[k - 1];
      assert Permitted(cfg, L, act) && Ls[k] == Perform(cfg, L, act);
      RunKeepsInv(cfg, acts, Ls, k - 1);
      hide Permitted, Perform, LogInv, Contents;
      if s >= |L.recs| {
        if s >= cfg.size {
          BodyIsContents(cfg, acts, Ls, k - 1, s - cfg.size);
        }
        FreshContents(cfg, acts, Ls, k, s);
      } else {
        BodyIsContents(cfg, acts, Ls, k - 1, s);
        OldContents(cfg, acts[..k - 1], L, act, s);
        assert acts[..k] == acts[..k - 1] + [act];
      }
    }
  }
}
