/** Which records the physical slots still hold, and what the slots contain. */
module Window {
  import opened Topology
  import opened Log

  /** The sequences whose slot no newer claim has taken. */
  ghost predicate InWindow(cfg: Config, recs: seq<Record>, s: int) {
    0 <= s < |recs| && |recs| - 1 - cfg.size < s
  }

  ghost predicate EntriesOK(cfg: Config, entries: seq<Event>, recs: seq<Record>)
    requires cfg.size >= 1 && |entries| == cfg.size == |cfg.factory|
  {
    && (forall s :: InWindow(cfg, recs, s) ==> entries[Slot(cfg.size, s)] == recs[s].body)
    && (forall i :: |recs| <= i < cfg.size ==> entries[i] == cfg.factory[i])
  }

  ghost predicate FlagOK(flag: bool, recs: seq<Record>) {
    !flag ==> forall t :: 0 <= t < |recs| ==> !recs[t].status.Discarded?
  }

  /** Whatever some consumer has yet to pass is still in its slot. */
  lemma PendingInWindow(cfg: Config, L: LogState, c: nat, s: int)
    requires cfg.Valid() && LogInv(cfg, L) && c < |cfg.deps|
    requires L.readers[c].pos < s < |L.recs|
    ensures InWindow(cfg, L.recs, s)
  {
    assert ReaderOK(cfg, L.recs, L.readers[c]);
  }

  /** An unresolved record is ahead of every consumer. */
  lemma UnresolvedInWindow(cfg: Config, L: LogState, s: int)
    requires cfg.Valid() && LogInv(cfg, L)
    requires 0 <= s < |L.recs| && !L.recs[s].status.Resolved()
    ensures InWindow(cfg, L.recs, s)
    ensures forall c :: 0 <= c < |L.readers| ==> L.readers[c].pos < s
  {
    forall c | 0 <= c < |L.readers| ensures L.readers[c].pos < s {
      assert ReaderOK(cfg, L.recs, L.readers[c]);
    }
    assert cfg.gates[0] < |cfg.deps|;
    PendingInWindow(cfg, L, cfg.gates[0], s);
  }

  lemma BehindResolved(cfg: Config, L: LogState, s: int)
    requires cfg.Valid() && LogInv(cfg, L)
    requires 0 <= s <= |L.recs| - 1 - cfg.size
    ensures L.recs[s].status.Resolved()
  {
    var g := cfg.gates[0];
    assert ReaderOK(cfg, L.recs, L.readers[g]);
  }

  // Entries

  lemma EntriesAfterClaim(cfg: Config, L: LogState, entries: seq<Event>, p: nat, n: int, initial: Status)
    requires cfg.Valid() && LogInv(cfg, L) && |entries| == cfg.size && EntriesOK(cfg, entries, L.recs)
    requires Permitted(cfg, L, Claim(p, n, initial))
    ensures EntriesOK(cfg, entries, Appended(cfg, L.recs, p, n, initial))
  {
    var recs, recs' := L.recs, Appended(cfg, L.recs, p, n, initial);
    forall s | InWindow(cfg, recs', s) ensures entries[Slot(cfg.size, s)] == recs'[s].body {
      if s < |recs| {
        assert InWindow(cfg, recs, s);
      } else {
        assert recs'[s].body == Inherited(cfg, recs, s);
        if s < cfg.size {
          FirstLap(cfg.size, s);
        } else {
          assert InWindow(cfg, recs, s - cfg.size);
          PreviousLap(cfg.size, s);
        }
      }
    }
  }

  lemma EntriesAfterBody(cfg: Config, entries: seq<Event>, recs: seq<Record>, s: int, v: Event)
    requires cfg.Valid() && |entries| == cfg.size && EntriesOK(cfg, entries, recs)
    requires InWindow(cfg, recs, s)
    ensures EntriesOK(cfg, entries[Slot(cfg.size, s) := v], recs[s := recs[s].(body := v)])
  {
    var recs', entries' := recs[s := recs[s].(body := v)], entries[Slot(cfg.size, s) := v];
    forall t | InWindow(cfg, recs', t) ensures entries'[Slot(cfg.size, t)] == recs'[t].body {
      assert InWindow(cfg, recs, t);
      if t != s && Slot(cfg.size, s) == Slot(cfg.size, t) {
        NearbySlotsDiffer(cfg.size, s, t);
      }
    }
    if |recs| < cfg.size {
      FirstLap(cfg.size, s);
    }
  }

  lemma EntriesAfterStatus(cfg: Config, entries: seq<Event>, recs: seq<Record>, s: int, status: Status)
    requires cfg.Valid() && |entries| == cfg.size && EntriesOK(cfg, entries, recs) && 0 <= s < |recs|
    ensures EntriesOK(cfg, entries, recs[s := recs[s].(status := status)])
  {
    var recs' := recs[s := recs[s].(status := status)];
    forall t | InWindow(cfg, recs', t) ensures entries[Slot(cfg.size, t)] == recs'[t].body {
      assert InWindow(cfg, recs, t);
    }
  }
}
