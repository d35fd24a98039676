/** Ring configuration, the consumer graph, and the arithmetic of slots. */
module Topology {
  import opened Bits

  /** The contents of one reusable event. */
  type Event = int

  /**
   * A ring and its consumers. Consumer `c` waits on the consumers in `deps[c]`, or on the
   * producer cursor when that list is empty, and handles at most `batch[c]` events at a time.
   * `gates` are the consumers whose sequences hold producers back. With `multi` the ring uses
   * the multi-producer sequencer. `factory` holds the events the ring starts with.
   */
  datatype Config = Config(
    size: int,
    multi: bool,
    producers: nat,
    deps: seq<seq<nat>>,
    gates: seq<nat>,
    batch: seq<int>,
    factory: seq<Event>)
  {
    ghost predicate Valid() {
      && size >= 1
      && |factory| == size
      && |batch| == |deps|
      && (forall c :: 0 <= c < |batch| ==> batch[c] >= 1)
      && (forall c, i :: 0 <= c < |deps| && 0 <= i < |deps[c]| ==> deps[c][i] < |deps|)
      && gates != []
      && (forall i :: 0 <= i < |gates| ==> gates[i] < |deps|)
      && (forall c :: 0 <= c < |deps| ==> Gated(c))
    }

    /** Consumer `c` is a gate, or some chain of consumers depending on it ends in one. */
    ghost predicate Gated(c: int) {
      exists path: seq<nat> :: IsPath(path) && path[0] == c && path[|path| - 1] in gates
    }

    /** Each consumer of the path is a dependency of the one after it. */
    ghost predicate IsPath(path: seq<nat>) {
      && path != []
      && (forall i :: 0 <= i < |path| ==> path[i] < |deps|)
      && (forall i :: 0 < i < |path| ==> path[i - 1] in deps[path[i]])
    }
  }

  /** No consumer is ahead of one it depends on. */
  ghost predicate Ordered(cfg: Config, pos: seq<int>) {
    && |pos| == |cfg.deps|
    && forall c, i :: 0 <= c < |cfg.deps| && 0 <= i < |cfg.deps[c]| && cfg.deps[c][i] < |pos|
           ==> pos[c] <= pos[cfg.deps[c][i]]
  }

  /** Every position is at least `bound`. */
  ghost predicate Above(pos: seq<int>, bound: int) {
    forall c :: 0 <= c < |pos| ==> bound <= pos[c]
  }

  lemma {:induction false} PathDescends(cfg: Config, pos: seq<int>, path: seq<nat>)
    requires cfg.Valid() && Ordered(cfg, pos) && cfg.IsPath(path)
    ensures pos[path[|path| - 1]] <= pos[path[0]]
    decreases |path|
  {
    if |path| > 1 {
      var rest := path[1..];
      assert cfg.IsPath(rest) by {
        forall i | 0 < i < |rest| ensures rest[i - 1] in cfg.deps[rest[i]] {
          assert rest[i] == path[i + 1] && rest[i - 1] == path[i];
        }
      }
      PathDescends(cfg, pos, rest);
      assert path[0] in cfg.deps[path[1]];
    }
  }

  /**
   * Gating the terminal consumers is enough: for any dependency graph in which every consumer
   * leads to a gate, a lower bound on the gates is a lower bound on all consumers.
   */
  lemma GatesProtectAll(cfg: Config, pos: seq<int>, bound: int)
    requires cfg.Valid() && Ordered(cfg, pos)
    requires forall i :: 0 <= i < |cfg.gates| ==> bound <= pos[cfg.gates[i]]
    ensures Above(pos, bound)
  {
    forall c | 0 <= c < |pos| ensures bound <= pos[c] {
      assert cfg.Gated(c);
      var path: seq<nat> :| cfg.IsPath(path) && path[0] == c && path[|path| - 1] in cfg.gates;
      PathDescends(cfg, pos, path);
    }
  }

  // Slots

  function Slot(size: int, s: int): (i: int)
    requires size >= 1
    ensures 0 <= i < size
  {
    s % size
  }

  function Lap(size: int, s: int): int
    requires size >= 1
  {
    s / size
  }

  /** Two sequences less than one lap apart never share a slot. */
  lemma NearbySlotsDiffer(size: int, s: int, t: int)
    requires size >= 1 && -size < s - t < size && Slot(size, s) == Slot(size, t)
    ensures s == t
  {
    assert s == size * (s / size) + s % size;
    assert t == size * (t / size) + t % size;
    var e := s / size - t / size;
    assert size * e == size * (s / size) - size * (t / size) == s - t;
    Multiples(size, e);
  }

  lemma PreviousLap(size: int, s: int)
    requires size >= 1
    ensures Slot(size, s - size) == Slot(size, s) && Lap(size, s - size) == Lap(size, s) - 1
  {
    var q, r := s / size, s % size;
    assert s == size * q + r;
    assert size * (q - 1) == size * q - size;
    DivModUnique(s - size, size, q - 1, r);
  }

  lemma FirstLap(size: int, s: int)
    requires size >= 1 && 0 <= s < size
    ensures Slot(size, s) == s && Lap(size, s) == 0
  {
    DivModUnique(s, size, 0, s);
  }

  /** The newest sequence up to `top` that lives in the slot of `s`, negative if none has come yet. */
  function Newest(size: int, top: int, s: int): int
    requires size >= 1
  {
    top - (top - s) % size
  }

  lemma NewestShares(size: int, top: int, s: int)
    requires size >= 1 && s <= top
    ensures top - size < Newest(size, top, s) <= top && s <= Newest(size, top, s)
    ensures Slot(size, Newest(size, top, s)) == Slot(size, s)
    ensures s != Newest(size, top, s) ==> s <= Newest(size, top, s) - size
  {
    var n := Newest(size, top, s);
    var k := (top - s) / size;
    assert top - s == size * k + (top - s) % size;
    assert n == s + size * k;
    var q, r := s / size, s % size;
    assert s == size * q + r;
    assert size * (q + k) == size * q + size * k;
    DivModUnique(n, size, q + k, r);
    Multiples(size, k);
  }

  lemma NewestBelow(size: int, top: int, s: int)
    requires size >= 1 && top < s
    ensures top - size < Newest(size, top, s) <= top
    ensures Slot(size, Newest(size, top, s)) == Slot(size, s)
    ensures Newest(size, top, s) <= s - size
  {
    var n, k := Newest(size, top, s), (top - s) / size;
    assert top - s == size * k + (top - s) % size;
    assert n == s + size * k;
    var q, r := s / size, s % size;
    assert s == size * q + r;
    assert size * (q + k) == size * q + size * k;
    DivModUnique(n, size, q + k, r);
    Multiples(size, k);
  }

  lemma LapsGrow(size: int, s: int, t: int)
    requires size >= 1 && s <= t
    ensures Lap(size, s) <= Lap(size, t)
  {
    assert s == size * (s / size) + s % size;
    assert t == size * (t / size) + t % size;
    var e := t / size - s / size;
    assert size * e == size * (t / size) - size * (s / size);
    Multiples(size, e);
  }
}
