/**
 * A consumer that runs alone while the shared state stands still: it selects the longest batch its
 * limit allows, calls its handler through it and comes to store its end.
 */
module Batches {
  import opened Topology
  import opened Consumers

  /**
   * What a consumer reads meanwhile: the positions it waits on, which sequences are resolved and
   * which of them discarded, and the discard flag.
   */
  datatype Still = Still(sources: seq<int>, resolved: int -> bool, flagged: bool, discarded: int -> bool)

  /** A move that reads the still state, with a handler that neither fails nor changes its event. */
  predicate Smooth(pc: ConsumerPc, m: ConsumerMove, env: Still) {
    Ready(pc, m) &&
    match m
    case Load(v) => var i := if pc.Resting? then 0 else pc.i; i < |env.sources| && v == env.sources[i]
    case Scan(resolved, polling) => resolved == env.resolved(pc.k) && !polling
    case ReadFlag(flagged) => flagged == env.flagged
    case Test(discarded) => discarded == env.discarded(pc.k)
    case Call => true
    case Return(ok) => ok
    case _ => false
  }

  /** Such moves lead from `pc` to `pc'`. */
  ghost predicate Path(cfg: Config, c: nat, q: int, env: Still, pc: ConsumerPc, ms: seq<ConsumerMove>, pc': ConsumerPc)
    requires c < |cfg.batch| && c < |cfg.deps|
    decreases |ms|
  {
    if ms == [] then pc' == pc
    else Smooth(pc, ms[0], env) && Path(cfg, c, q, env, Next(cfg, c, q, pc, ms[0]), ms[1..], pc')
  }

  ghost predicate Goes(cfg: Config, c: nat, q: int, env: Still, pc: ConsumerPc, pc': ConsumerPc)
    requires c < |cfg.batch| && c < |cfg.deps|
  {
    exists ms :: Path(cfg, c, q, env, pc, ms, pc')
  }

  lemma There(cfg: Config, c: nat, q: int, env: Still, pc: ConsumerPc)
    requires c < |cfg.batch| && c < |cfg.deps|
    ensures Goes(cfg, c, q, env, pc, pc)
  {
    assert Path(cfg, c, q, env, pc, [], pc);
  }

  lemma OneMore(cfg: Config, c: nat, q: int, env: Still, pc: ConsumerPc, m: ConsumerMove, pc': ConsumerPc)
    requires c < |cfg.batch| && c < |cfg.deps| && Smooth(pc, m, env)
    requires Goes(cfg, c, q, env, Next(cfg, c, q, pc, m), pc')
    ensures Goes(cfg, c, q, env, pc, pc')
  {
    var ms :| Path(cfg, c, q, env, Next(cfg, c, q, pc, m), ms, pc');
    assert ([m] + ms)[1..] == ms;
    assert Path(cfg, c, q, env, pc, [m] + ms, pc');
  }

  /** The least of the positions from the first to the last. */
  function Least(sources: seq<int>): int
    requires sources != []
  {
    if |sources| == 1 then sources[0] else Min(Least(sources[..|sources| - 1]), sources[|sources| - 1])
  }

  /** From the call at `k`, or the test of it, to the end of the batch. */
  lemma {:induction false} CallsThrough(cfg: Config, c: nat, q: int, env: Still, pc: ConsumerPc)
    requires c < |cfg.batch| && c < |cfg.deps| && (pc.Testing? || pc.Calling?) && pc.k <= pc.end
    ensures Goes(cfg, c, q, env, pc, Storing(pc.end))
    decreases pc.end - pc.k, if pc.Testing? then 1 else 0
  {
    if pc.Testing? {
      var m := Test(env.discarded(pc.k));
      var next := Next(cfg, c, q, pc, m);
      if next.Storing? {
        There(cfg, c, q, env, next);
      } else {
        CallsThrough(cfg, c, q, env, next);
      }
      OneMore(cfg, c, q, env, pc, m, Storing(pc.end));
    } else {
      var handling := Next(cfg, c, q, pc, Call);
      var next := Next(cfg, c, q, handling, Return(true));
      if next.Storing? {
        There(cfg, c, q, env, next);
      } else {
        CallsThrough(cfg, c, q, env, next);
      }
      OneMore(cfg, c, q, env, handling, Return(true), Storing(pc.end));
      OneMore(cfg, c, q, env, pc, Call, Storing(pc.end));
    }
  }

  /** The backward search for the last live sequence, and the calls after it. */
  lemma {:induction false} SearchesBack(cfg: Config, c: nat, q: int, env: Still, pc: ConsumerPc)
    requires c < |cfg.batch| && c < |cfg.deps| && pc.Backing? && q < pc.k <= pc.end
    ensures Goes(cfg, c, q, env, pc, Storing(pc.end))
    decreases pc.k - q
  {
    var m := Test(env.discarded(pc.k));
    var next := Next(cfg, c, q, pc, m);
    if next.Backing? {
      SearchesBack(cfg, c, q, env, next);
    } else {
      CallsThrough(cfg, c, q, env, next);
    }
    OneMore(cfg, c, q, env, pc, m, Storing(pc.end));
  }

  lemma BatchRuns(cfg: Config, c: nat, q: int, env: Still, end: int)
    requires c < |cfg.batch| && c < |cfg.deps| && q < end
    ensures Goes(cfg, c, q, env, Chosen(end), Storing(end))
  {
    var next := Next(cfg, c, q, Chosen(end), ReadFlag(env.flagged));
    if env.flagged {
      SearchesBack(cfg, c, q, env, next);
    } else {
      CallsThrough(cfg, c, q, env, next);
    }
    OneMore(cfg, c, q, env, Chosen(end), ReadFlag(env.flagged), Storing(end));
  }

  /** The longest run of resolved sequences after `q` that the positions and the limit allow. */
  ghost predicate Longest(cfg: Config, c: nat, q: int, env: Still, end: int)
    requires c < |cfg.batch| && env.sources != []
  {
    var low := Least(env.sources);
    && q < end <= low && end <= q + cfg.batch[c]
    && (cfg.multi ==> forall s :: q < s <= end ==> env.resolved(s))
    && (end == low || end == q + cfg.batch[c] || (cfg.multi && !env.resolved(end + 1)))
  }

  /** The forward scan. */
  lemma {:induction false} ScansTo(cfg: Config, c: nat, q: int, env: Still, k: int, end: int)
    requires c < |cfg.batch| && c < |cfg.deps| && cfg.batch[c] >= 1 && cfg.multi && env.sources != []
    requires Longest(cfg, c, q, env, end) && q < k <= Least(env.sources)
    requires forall s :: q < s < k ==> env.resolved(s)
    ensures Goes(cfg, c, q, env, Scanning(k, Least(env.sources)), Storing(end))
    decreases Least(env.sources) - k
  {
    var low := Least(env.sources);
    var pc, m := Scanning(k, low), Scan(env.resolved(k), false);
    var next := Next(cfg, c, q, pc, m);
    if env.resolved(k) && k < low {
      ScansTo(cfg, c, q, env, k + 1, end);
    } else {
      assert next == Chosen(end);
      BatchRuns(cfg, c, q, env, end);
    }
    OneMore(cfg, c, q, env, pc, m, Storing(end));
  }

  lemma SelectsLongest(cfg: Config, c: nat, q: int, env: Still, end: int)
    requires c < |cfg.batch| && c < |cfg.deps| && cfg.batch[c] >= 1 && env.sources != []
    requires Longest(cfg, c, q, env, end)
    ensures Goes(cfg, c, q, env, Loaded(cfg, c, q, Least(env.sources)), Storing(end))
  {
    if cfg.multi {
      ScansTo(cfg, c, q, env, q + 1, end);
    } else {
      BatchRuns(cfg, c, q, env, end);
    }
  }

  /** Reading the positions one by one. */
  lemma {:induction false} LoadsAll(cfg: Config, c: nat, q: int, env: Still, i: nat, end: int)
    requires c < |cfg.batch| && c < |cfg.deps| && cfg.batch[c] >= 1
    requires env.sources != [] && |env.sources| == (if cfg.deps[c] == [] then 1 else |cfg.deps[c]|)
    requires Longest(cfg, c, q, env, end) && i < |env.sources|
    ensures Goes(cfg, c, q, env, if i == 0 then Resting else Loading(i, Least(env.sources[..i])), Storing(end))
    decreases |env.sources| - i
  {
    var pc := if i == 0 then Resting else Loading(i, Least(env.sources[..i]));
    var m := Load(env.sources[i]);
    assert env.sources[..i + 1][..i] == env.sources[..i];
    assert Found(pc, env.sources[i]) == Least(env.sources[..i + 1]);
    if i + 1 < |env.sources| {
      LoadsAll(cfg, c, q, env, i + 1, end);
    } else {
      assert env.sources[..i + 1] == env.sources;
      SelectsLongest(cfg, c, q, env, end);
    }
    OneMore(cfg, c, q, env, pc, m, Storing(end));
  }

  /** There is a longest batch as soon as the next sequence is there. */
  lemma {:induction false} SomeLongest(cfg: Config, c: nat, q: int, env: Still, from: int) returns (end: int)
    requires c < |cfg.batch| && cfg.batch[c] >= 1 && env.sources != [] && q < from <= Least(env.sources)
    requires from <= q + cfg.batch[c] && (cfg.multi ==> forall s :: q < s <= from ==> env.resolved(s))
    ensures Longest(cfg, c, q, env, end)
    decreases q + cfg.batch[c] - from
  {
    if from == Least(env.sources) || from == q + cfg.batch[c] || (cfg.multi && !env.resolved(from + 1)) {
      end := from;
    } else {
      end := SomeLongest(cfg, c, q, env, from + 1);
    }
  }

  /** A resting consumer whose next sequence is there comes to store the longest batch. */
  lemma ComesToStore(cfg: Config, c: nat, q: int, env: Still) returns (end: int)
    requires c < |cfg.batch| && c < |cfg.deps| && cfg.batch[c] >= 1
    requires env.sources != [] && |env.sources| == (if cfg.deps[c] == [] then 1 else |cfg.deps[c]|)
    requires q < Least(env.sources) && (cfg.multi ==> env.resolved(q + 1))
    ensures Longest(cfg, c, q, env, end) && Goes(cfg, c, q, env, Resting, Storing(end))
  {
    end := SomeLongest(cfg, c, q, env, q + 1);
    LoadsAll(cfg, c, q, env, 0, end);
  }
}
