/**
 * Blocking producer waits: the generation channel of `producerWaiter`, the copy-on-write gate
 * list, and the copy-on-write signal list of every sequence, as one concurrent machine. A channel
 * is a generation number and closing it an increment. The waiter of this ring is `OURS`; other
 * rings' waiters come and go on the same sequences.
 */
module ProducerWaits {

  const OURS: nat := 0

  /** A sequence's signal list; the version stands for the pointer a compare-and-swap compares. */
  datatype Signals = Signals(version: nat, waiters: seq<nat>)

  /** A thread inside `Sequence.Store`, `Add` or `CompareAndSwap`: value first, signals after. */
  datatype MoverPc = Quiet | Stored(x: nat) | Telling(left: seq<nat>)

  /** The holder of `gatingMu`, inside AddGatingSequences, RemoveGatingSequence or Close. */
  datatype AdminPc =
    | Unlocked
    | Adding(todo: seq<nat>, next: seq<nat>)
    | AddStored(todo: seq<nat>, next: seq<nat>)
    | AddTelling(todo: seq<nat>, next: seq<nat>, left: seq<nat>)
    | Registering(todo: seq<nat>, next: seq<nat>)
    | AddSwap(todo: seq<nat>, next: seq<nat>, seen: Signals)
    | Removing(target: nat, next: seq<nat>)
    | Dropping(target: nat)
    | DropSwap(target: nat, seen: Signals)
    | Announcing
    | Clearing(todo: seq<nat>, done: set<nat>)
    | ClearSwap(todo: seq<nat>, done: set<nat>, seen: Signals)

  datatype CloserPc = NotClosed | FlagStored | ChannelClosed | Signalled | Holding | Closed

  /** A producer in a blocking claim; `at` is the gate where its scan found the minimum `low`. */
  datatype ProducerPc =
    | Away
    | Prepared(wrap: int, gen: nat)
    | Scanning(wrap: int, gen: nat, snap: seq<nat>, i: nat, low: int, at: nat)
    | Sleeping(wrap: int, gen: nat, low: int, at: nat)

  datatype State = State(
    gen: nat,
    val: seq<int>,
    signals: seq<Signals>,
    gates: seq<nat>,
    admin: AdminPc,
    closer: CloserPc,
    movers: seq<MoverPc>,
    prods: seq<ProducerPc>)

  datatype Move =
    | Store(m: nat, x: nat, v: int)
    | LoadSignals(m: nat)
    | Tell(m: nat)
    | Join(x: nat, w: nat)
    | Leave(x: nat, w: nat)
    | LockAdd(sequences: seq<nat>)
    | LockRemove(target: nat)
    | LockClear
    | Admin(v: int)
    | Close
    | Prepare(p: nat, wrap: int)
    | Snapshot(p: nat)
    | ReadGate(p: nat)
    | Wake(p: nat)
    | Cancel(p: nat)

  // Lists

  function IndexOf(s: seq<nat>, x: nat): (i: nat)
    ensures i <= |s|
    ensures i < |s| <==> x in s
    ensures i < |s| ==> s[i] == x
  {
    if s == [] || s[0] == x then 0 else 1 + IndexOf(s[1..], x)
  }

  /** The list without its first occurrence of `x`. */
  function Without(s: seq<nat>, x: nat): seq<nat> {
    var i := IndexOf(s, x);
    if i < |s| then s[..i] + s[i + 1..] else s
  }

  function Registered(sig: Signals): nat {
    multiset(sig.waiters)[OURS]
  }

  function Enlisted(sig: Signals, w: nat): Signals {
    if w in sig.waiters then sig else Signals(sig.version + 1, sig.waiters + [w])
  }

  function Delisted(sig: Signals, w: nat): Signals {
    if w in sig.waiters then Signals(sig.version + 1, Without(sig.waiters, w)) else sig
  }

  lemma WithoutCounts(s: seq<nat>, x: nat)
    ensures multiset(Without(s, x)) == if x in s then multiset(s) - multiset{x} else multiset(s)
  {
    var i := IndexOf(s, x);
    if i < |s| {
      assert s == s[..i] + ([s[i]] + s[i + 1..]);
    }
  }

  // The machine

  predicate Known(n: nat, xs: seq<nat>) {
    forall i :: 0 <= i < |xs| ==> xs[i] < n
  }

  predicate AdminKnown(n: nat, admin: AdminPc) {
    match admin
    case Adding(todo, next) => Known(n, todo) && Known(n, next)
    case AddStored(todo, next) => todo != [] && Known(n, todo) && Known(n, next)
    case AddTelling(todo, next, _) => todo != [] && Known(n, todo) && Known(n, next)
    case Registering(todo, next) => todo != [] && Known(n, todo) && Known(n, next)
    case AddSwap(todo, next, _) => todo != [] && Known(n, todo) && Known(n, next)
    case Removing(target, next) => target < n && Known(n, next)
    case Dropping(target) => target < n
    case DropSwap(target, _) => target < n
    case Clearing(todo, _) => Known(n, todo)
    case ClearSwap(todo, _, _) => todo != [] && Known(n, todo)
    case _ => true
  }

  predicate ProducerKnown(n: nat, pc: ProducerPc) {
    pc.Scanning? ==> Known(n, pc.snap) && pc.i < |pc.snap|
  }

  predicate MoverKnown(n: nat, pc: MoverPc) {
    pc.Stored? ==> pc.x < n
  }

  predicate Shape(st: State) {
    && |st.signals| == |st.val|
    && Known(|st.val|, st.gates)
    && AdminKnown(|st.val|, st.admin)
    && (forall m :: 0 <= m < |st.movers| ==> MoverKnown(|st.val|, st.movers[m]))
    && (forall p :: 0 <= p < |st.prods| ==> ProducerKnown(|st.val|, st.prods[p]))
  }

  predicate Enabled(st: State, mv: Move) {
    match mv
    case Store(m, x, _) => m < |st.movers| && st.movers[m].Quiet? && x < |st.val|
    case LoadSignals(m) => m < |st.movers| && st.movers[m].Stored?
    case Tell(m) => m < |st.movers| && st.movers[m].Telling?
    case Join(x, w) => x < |st.val| && w != OURS
    case Leave(x, w) => x < |st.val| && w != OURS
    case LockAdd(sequences) => st.admin.Unlocked? && Known(|st.val|, sequences)
    case LockRemove(target) => st.admin.Unlocked? && target < |st.val|
    case LockClear => st.admin.Unlocked? && st.closer.Signalled?
    case Admin(_) => !st.admin.Unlocked?
    case Close => st.closer.NotClosed? || st.closer.FlagStored? || st.closer.ChannelClosed?
    case Prepare(p, _) => p < |st.prods| && st.prods[p].Away?
    case Snapshot(p) => p < |st.prods| && st.prods[p].Prepared?
    case ReadGate(p) => p < |st.prods| && st.prods[p].Scanning?
    case Wake(p) =>
      && p < |st.prods| && st.prods[p].Sleeping?
      && (st.prods[p].gen != st.gen || !(st.closer.NotClosed? || st.closer.FlagStored?))
    case Cancel(p) => p < |st.prods|
  }

  function TellOne(st: State, left: seq<nat>): nat {
    if left != [] && left[0] == OURS then st.gen + 1 else st.gen
  }

  /** One step of the thread that holds the mutex. */
  function Administer(st: State, v: int): State
    requires Shape(st) && !st.admin.Unlocked?
  {
    match st.admin
    case Adding(todo, next) =>
      if todo == [] then st.(gates := next, admin := Unlocked)
      else st.(val := st.val[todo[0] := v], admin := AddStored(todo, next))
    case AddStored(todo, next) => st.(admin := AddTelling(todo, next, st.signals[todo[0]].waiters))
    case AddTelling(todo, next, left) =>
      if left == [] then st.(admin := Registering(todo, next))
      else st.(gen := TellOne(st, left), admin := AddTelling(todo, next, left[1..]))
    case Registering(todo, next) =>
      if OURS in st.signals[todo[0]].waiters then st.(admin := Adding(todo[1..], next + [todo[0]]))
      else st.(admin := AddSwap(todo, next, st.signals[todo[0]]))
    case AddSwap(todo, next, seen) =>
      if st.signals[todo[0]].version == seen.version
      then st.(signals := st.signals[todo[0] := Signals(seen.version + 1, seen.waiters + [OURS])],
               admin := Adding(todo[1..], next + [todo[0]]))
      else st.(admin := Registering(todo, next))
    case Removing(target, next) =>
      st.(gates := next, admin := if target in next then Announcing else Dropping(target))
    case Dropping(target) =>
      if OURS in st.signals[target].waiters then st.(admin := DropSwap(target, st.signals[target]))
      else st.(admin := Announcing)
    case DropSwap(target, seen) =>
      if st.signals[target].version == seen.version
      then st.(signals := st.signals[target := Signals(seen.version + 1, Without(seen.waiters, OURS))],
               admin := Announcing)
      else st.(admin := Dropping(target))
    case Announcing => st.(gen := st.gen + 1, admin := Unlocked)
    case Clearing(todo, done) =>
      if todo == [] then st.(admin := Unlocked, closer := Closed)
      else if todo[0] in done then st.(admin := Clearing(todo[1..], done))
      else if OURS in st.signals[todo[0]].waiters then st.(admin := ClearSwap(todo, done, st.signals[todo[0]]))
      else st.(admin := Clearing(todo[1..], done + {todo[0]}))
    case ClearSwap(todo, done, seen) =>
      if st.signals[todo[0]].version == seen.version
      then st.(signals := st.signals[todo[0] := Signals(seen.version + 1, Without(seen.waiters, OURS))],
               admin := Clearing(todo[1..], done + {todo[0]}))
      else st.(admin := Clearing(todo, done))
  }

  function ScanStep(st: State, pc: ProducerPc): ProducerPc
    requires pc.Scanning? && pc.i < |pc.snap| && Known(|st.val|, pc.snap)
  {
    var x := pc.snap[pc.i];
    var better := pc.i == 0 || st.val[x] < pc.low;
    var low, at := if better then st.val[x] else pc.low, if better then x else pc.at;
    if pc.i + 1 < |pc.snap| then Scanning(pc.wrap, pc.gen, pc.snap, pc.i + 1, low, at)
    else if pc.wrap > low then Sleeping(pc.wrap, pc.gen, low, at)
    else Away
  }

  function Apply(st: State, mv: Move): State
    requires Shape(st) && Enabled(st, mv)
  {
    match mv
    case Store(m, x, v) => st.(val := st.val[x := v], movers := st.movers[m := Stored(x)])
    case LoadSignals(m) => st.(movers := st.movers[m := Telling(st.signals[st.movers[m].x].waiters)])
    case Tell(m) =>
      var left := st.movers[m].left;
      if left == [] then st.(movers := st.movers[m := Quiet])
      else st.(gen := TellOne(st, left), movers := st.movers[m := Telling(left[1..])])
    case Join(x, w) => st.(signals := st.signals[x := Enlisted(st.signals[x], w)])
    case Leave(x, w) => st.(signals := st.signals[x := Delisted(st.signals[x], w)])
    case LockAdd(sequences) =>
      if st.closer.NotClosed? then st.(admin := Adding(sequences, st.gates)) else st
    case LockRemove(target) =>
      if target in st.gates then st.(admin := Removing(target, Without(st.gates, target))) else st
    case LockClear => st.(admin := Clearing(st.gates, {}), closer := Holding)
    case Admin(v) => Administer(st, v)
    case Close =>
      if st.closer.NotClosed? then st.(closer := FlagStored)
      else if st.closer.FlagStored? then st.(closer := ChannelClosed)
      else st.(gen := st.gen + 1, closer := Signalled)
    case Prepare(p, wrap) => st.(prods := st.prods[p := Prepared(wrap, st.gen)])
    case Snapshot(p) =>
      st.(prods := st.prods[p := if st.gates == [] then Away
                                 else Scanning(st.prods[p].wrap, st.prods[p].gen, st.gates, 0, 0, 0)])
    case ReadGate(p) => st.(prods := st.prods[p := ScanStep(st, st.prods[p])])
    case Wake(p) => st.(prods := st.prods[p := Away])
    case Cancel(p) => st.(prods := st.prods[p := Away])
  }

  // Registration

  /** Exactly one registration for each sequence of `on` and none elsewhere. */
  predicate RegisteredOn(signals: seq<Signals>, on: set<nat>) {
    forall x :: 0 <= x < |signals| ==> Registered(signals[x]) == if x in on then 1 else 0
  }

  function Elements(s: seq<nat>): set<nat> {
    set x | x in s
  }

  /** What `seen` shows is the current list if its version is; versions never run backwards. */
  predicate Current(sig: Signals, seen: Signals) {
    seen.version <= sig.version && (seen.version == sig.version ==> seen == sig)
  }

  /** The gate list and the registrations, at every point of an administrative call. */
  predicate RegistrationOK(st: State) {
    var gates := Elements(st.gates);
    match st.admin
    case Unlocked => RegisteredOn(st.signals, if st.closer.Closed? then {} else gates)
    case Adding(_, next) => !st.closer.Closed? && RegisteredOn(st.signals, Elements(next)) && gates <= Elements(next)
    case AddStored(_, next) => !st.closer.Closed? && RegisteredOn(st.signals, Elements(next)) && gates <= Elements(next)
    case AddTelling(_, next, _) =>
      !st.closer.Closed? && RegisteredOn(st.signals, Elements(next)) && gates <= Elements(next)
    case Registering(_, next) =>
      !st.closer.Closed? && RegisteredOn(st.signals, Elements(next)) && gates <= Elements(next)
    case AddSwap(todo, next, seen) =>
      && !st.closer.Closed? && RegisteredOn(st.signals, Elements(next)) && gates <= Elements(next)
      && todo != [] && todo[0] < |st.signals| && Current(st.signals[todo[0]], seen) && OURS !in seen.waiters
    case Removing(target, next) =>
      && RegisteredOn(st.signals, if st.closer.Closed? then {} else gates)
      && target in gates && Elements(next) + {target} == gates
    case Dropping(target) =>
      target !in gates && RegisteredOn(st.signals, if st.closer.Closed? then {} else gates + {target})
    case DropSwap(target, seen) =>
      && target !in gates && !st.closer.Closed? && RegisteredOn(st.signals, gates + {target})
      && target < |st.signals| && Current(st.signals[target], seen) && OURS in seen.waiters
    case Announcing => RegisteredOn(st.signals, if st.closer.Closed? then {} else gates)
    case Clearing(todo, done) =>
      st.closer.Holding? && RegisteredOn(st.signals, gates - done) && gates <= Elements(todo) + done
    case ClearSwap(todo, done, seen) =>
      && st.closer.Holding? && RegisteredOn(st.signals, gates - done) && gates <= Elements(todo) + done
      && todo != [] && todo[0] < |st.signals| && todo[0] !in done
      && Current(st.signals[todo[0]], seen) && OURS in seen.waiters
  }

  predicate CloserOK(st: State) {
    st.closer.Holding? <==> st.admin.Clearing? || st.admin.ClearSwap?
  }

  predicate RegInv(st: State) {
    Shape(st) && CloserOK(st) && RegistrationOK(st)
  }

  function Initial(values: seq<int>, movers: nat, producers: nat): State {
    State(0, values, seq(|values|, i => Signals(0, [])), [], Unlocked, NotClosed,
          seq(movers, i => Quiet), seq(producers, i => Away))
  }

  lemma EnlistKeepsOurs(sig: Signals, w: nat)
    requires w != OURS
    ensures Registered(Enlisted(sig, w)) == Registered(sig) && Registered(Delisted(sig, w)) == Registered(sig)
  {
    WithoutCounts(sig.waiters, w);
    assert multiset(sig.waiters + [w]) == multiset(sig.waiters) + multiset{w};
  }

  lemma OursCounts(waiters: seq<nat>)
    ensures multiset(waiters)[OURS] > 0 <==> OURS in waiters
    ensures multiset(waiters + [OURS])[OURS] == multiset(waiters)[OURS] + 1
    ensures OURS in waiters ==> multiset(Without(waiters, OURS))[OURS] == multiset(waiters)[OURS] - 1
  {
    WithoutCounts(waiters, OURS);
    assert multiset(waiters + [OURS]) == multiset(waiters) + multiset{OURS};
  }

  lemma WithoutElements(s: seq<nat>, x: nat)
    requires x in s
    ensures Elements(Without(s, x)) + {x} == Elements(s)
  {
    var i := IndexOf(s, x);
    assert s == s[..i] + [x] + s[i + 1..];
  }

  lemma RegisterMore(signals: seq<Signals>, on: set<nat>, x: nat, sig: Signals)
    requires RegisteredOn(signals, on) && x < |signals| && Registered(sig) == 1
    ensures RegisteredOn(signals[x := sig], on + {x})
  {
  }

  lemma RegisterFewer(signals: seq<Signals>, on: set<nat>, x: nat, sig: Signals)
    requires RegisteredOn(signals, on) && x < |signals| && Registered(sig) == 0
    ensures RegisteredOn(signals[x := sig], on - {x})
  {
  }

  lemma AppendElements(s: seq<nat>, x: nat)
    ensures Elements(s + [x]) == Elements(s) + {x}
  {
  }

  lemma TailElements(s: seq<nat>)
    requires s != []
    ensures Elements(s) == {s[0]} + Elements(s[1..])
  {
    assert s == [s[0]] + s[1..];
  }

  lemma RegisteringKept(st: State, v: int)
    requires RegInv(st) && (st.admin.Registering? || st.admin.AddSwap?)
    ensures RegistrationOK(Administer(st, v))
  {
    var todo, next := st.admin.todo, st.admin.next;
    var x := todo[0];
    AppendElements(next, x);
    if st.admin.AddSwap? {
      OursCounts(st.admin.seen.waiters);
      assert Registered(Signals(st.admin.seen.version + 1, st.admin.seen.waiters + [OURS])) == 1;
      RegisterMore(st.signals, Elements(next), x, Signals(st.admin.seen.version + 1, st.admin.seen.waiters + [OURS]));
    } else {
      OursCounts(st.signals[x].waiters);
      assert OURS in st.signals[x].waiters ==> Elements(next) + {x} == Elements(next);
    }
  }

  lemma AddingKept(st: State, v: int)
    requires RegInv(st) && (st.admin.Adding? || st.admin.AddStored? || st.admin.AddTelling?)
    ensures RegistrationOK(Administer(st, v))
  {
  }

  lemma DropKept(st: State, v: int)
    requires RegInv(st) && (st.admin.Removing? || st.admin.Dropping? || st.admin.DropSwap? || st.admin.Announcing?)
    ensures RegistrationOK(Administer(st, v))
  {
    match st.admin
    case Removing(target, next) =>
      if target in next {
        assert Elements(next) == Elements(st.gates);
      }
    case Dropping(target) =>
      OursCounts(st.signals[target].waiters);
      if OURS !in st.signals[target].waiters {
        assert Registered(st.signals[target]) == 0;
      }
    case DropSwap(target, seen) =>
      OursCounts(seen.waiters);
      var sig := Signals(seen.version + 1, Without(seen.waiters, OURS));
      if st.signals[target].version == seen.version {
        assert Registered(sig) == 0;
        RegisterFewer(st.signals, Elements(st.gates) + {target}, target, sig);
        assert Elements(st.gates) + {target} - {target} == Elements(st.gates);
      }
    case _ =>
  }

  lemma ClearingKept(st: State, v: int)
    requires RegInv(st) && st.admin.Clearing?
    ensures RegistrationOK(Administer(st, v))
  {
    var todo, done, gates := st.admin.todo, st.admin.done, Elements(st.gates);
    if todo == [] {
      assert gates - done == {};
    } else {
      var x := todo[0];
      TailElements(todo);
      OursCounts(st.signals[x].waiters);
      if OURS !in st.signals[x].waiters {
        assert Registered(st.signals[x]) == 0;
        RegisterFewer(st.signals, gates - done, x, st.signals[x]);
        assert st.signals[x := st.signals[x]] == st.signals;
        assert gates - (done + {x}) == gates - done - {x};
      }
    }
  }

  lemma ClearSwapKept(st: State, v: int)
    requires RegInv(st) && st.admin.ClearSwap?
    ensures RegistrationOK(Administer(st, v))
  {
    var todo, done, seen, gates := st.admin.todo, st.admin.done, st.admin.seen, Elements(st.gates);
    var x := todo[0];
    TailElements(todo);
    OursCounts(seen.waiters);
    if st.signals[x].version == seen.version {
      var sig := Signals(seen.version + 1, Without(seen.waiters, OURS));
      assert Registered(sig) == 0;
      RegisterFewer(st.signals, gates - done, x, sig);
      assert gates - (done + {x}) == gates - done - {x};
    }
  }

  lemma AdministerKept(st: State, v: int)
    requires RegInv(st) && !st.admin.Unlocked?
    ensures RegistrationOK(Administer(st, v))
  {
    if st.admin.Clearing? {
      ClearingKept(st, v);
    } else if st.admin.ClearSwap? {
      ClearSwapKept(st, v);
    } else if st.admin.Registering? || st.admin.AddSwap? {
      RegisteringKept(st, v);
    } else if st.admin.Adding? || st.admin.AddStored? || st.admin.AddTelling? {
      AddingKept(st, v);
    } else {
      DropKept(st, v);
    }
  }

  predicate IsAdding(admin: AdminPc) {
    admin.Adding? || admin.AddStored? || admin.AddTelling? || admin.Registering? || admin.AddSwap?
  }

  lemma AddingShape(st: State, v: int)
    requires Shape(st) && CloserOK(st) && IsAdding(st.admin)
    ensures Shape(Administer(st, v)) && CloserOK(Administer(st, v))
  {
  }

  lemma AdminShape(st: State, v: int)
    requires Shape(st) && CloserOK(st) && !st.admin.Unlocked?
    ensures Shape(Administer(st, v)) && CloserOK(Administer(st, v))
  {
    if IsAdding(st.admin) {
      AddingShape(st, v);
    }
  }

  predicate OfProducer(mv: Move) {
    mv.Prepare? || mv.Snapshot? || mv.ReadGate? || mv.Wake? || mv.Cancel?
  }

  lemma ProducerShape(st: State, mv: Move)
    requires Shape(st) && CloserOK(st) && Enabled(st, mv) && OfProducer(mv)
    ensures Shape(Apply(st, mv)) && CloserOK(Apply(st, mv))
  {
  }

  lemma ShapeKept(st: State, mv: Move)
    requires Shape(st) && CloserOK(st) && Enabled(st, mv)
    ensures Shape(Apply(st, mv)) && CloserOK(Apply(st, mv))
  {
    if mv.Admin? {
      AdminShape(st, mv.v);
    } else if OfProducer(mv) {
      ProducerShape(st, mv);
    }
  }

  lemma OthersKept(st: State, x: nat, sig: Signals)
    requires RegInv(st) && x < |st.signals| && Registered(sig) == Registered(st.signals[x])
    requires sig == st.signals[x] || sig.version > st.signals[x].version
    ensures RegistrationOK(st.(signals := st.signals[x := sig]))
  {
  }

  lemma SameRegistration(st: State, st': State)
    requires RegistrationOK(st)
    requires st'.signals == st.signals && st'.gates == st.gates && st'.admin == st.admin && st'.closer == st.closer
    ensures RegistrationOK(st')
  {
  }

  /** Stores, signals, scans and sleeps touch neither the gate list nor the registrations. */
  lemma QuietKept(st: State, mv: Move)
    requires RegInv(st) && Enabled(st, mv)
    requires !mv.Join? && !mv.Leave? && !mv.LockRemove? && !mv.LockClear? && !mv.Admin?
    ensures RegistrationOK(Apply(st, mv))
  {
    if !mv.LockAdd? && !mv.Close? {
      SameRegistration(st, Apply(st, mv));
    }
  }

  /**
   * Registration agrees with the gate list: at every point of every call, and whatever other
   * rings do to the same sequences, this ring's waiter is registered as `RegistrationOK` says.
   */
  lemma RegistrationKept(st: State, mv: Move)
    requires RegInv(st) && Enabled(st, mv)
    ensures RegInv(Apply(st, mv))
  {
    ShapeKept(st, mv);
    match mv
    case Join(x, w) =>
      EnlistKeepsOurs(st.signals[x], w);
      OthersKept(st, x, Enlisted(st.signals[x], w));
    case Leave(x, w) =>
      EnlistKeepsOurs(st.signals[x], w);
      OthersKept(st, x, Delisted(st.signals[x], w));
    case LockRemove(target) =>
      if target in st.gates {
        WithoutElements(st.gates, target);
      }
    case LockClear => assert Elements(st.gates) - {} == Elements(st.gates);
    case Admin(v) => AdministerKept(st, v);
    case _ => QuietKept(st, mv);
  }

  /**
   * With no holder of the mutex, the waiter is registered exactly once on each gate of an open
   * ring and on no other sequence, and on none once the ring has closed.
   */
  lemma RegistrationMatchesGates(st: State)
    requires RegInv(st) && st.admin.Unlocked?
    ensures forall x :: 0 <= x < |st.signals| ==>
              Registered(st.signals[x]) == if !st.closer.Closed? && x in st.gates then 1 else 0
  {
  }

  // Wakeups

  predicate MoverOwes(st: State, m: nat)
    requires Shape(st) && m < |st.movers|
  {
    match st.movers[m]
    case Quiet => false
    case Stored(x) => OURS in st.signals[x].waiters
    case Telling(left) => OURS in left
  }

  /** A gate has left the list and the removal has yet to signal. */
  predicate RemovalOwes(st: State) {
    st.admin.Dropping? || st.admin.DropSwap? || st.admin.Announcing?
  }

  predicate AdminOwes(st: State)
    requires Shape(st)
  {
    match st.admin
    case AddStored(todo, _) => OURS in st.signals[todo[0]].waiters
    case AddTelling(_, _, left) => OURS in left
    case _ => RemovalOwes(st)
  }

  /** Some thread is between its gate store, or gate removal, and the signal that follows. */
  ghost predicate SignalOwed(st: State)
    requires Shape(st)
  {
    AdminOwes(st) || exists m :: 0 <= m < |st.movers| && MoverOwes(st, m)
  }

  predicate ChannelOpen(st: State) {
    st.closer.NotClosed? || st.closer.FlagStored?
  }

  /** The gate a producer found too slow is still registered and still slow, or a signal is owed. */
  ghost predicate Watched(st: State, gen: nat, low: int, at: nat)
    requires Shape(st)
  {
    gen == st.gen && ChannelOpen(st) ==>
      (at in st.gates && at < |st.val| && st.val[at] == low) || SignalOwed(st)
  }

  ghost predicate WaiterOK(st: State, pc: ProducerPc)
    requires Shape(st)
  {
    match pc
    case Away => true
    case Prepared(_, gen) => gen <= st.gen
    case Scanning(_, gen, snap, i, low, at) =>
      && gen <= st.gen
      && (gen == st.gen && ChannelOpen(st) && !RemovalOwes(st) ==> Elements(snap) <= Elements(st.gates))
      && (i > 0 ==> Watched(st, gen, low, at))
    case Sleeping(wrap, gen, low, at) => gen <= st.gen && low < wrap && Watched(st, gen, low, at)
  }

  ghost predicate Inv(st: State) {
    RegInv(st) && forall p :: 0 <= p < |st.prods| ==> WaiterOK(st, st.prods[p])
  }

  lemma InitialOK(values: seq<int>, movers: nat, producers: nat)
    ensures Inv(Initial(values, movers, producers))
  {
  }

  /** Every gate of a ring whose channel is open is registered, even in the middle of a call. */
  lemma GateRegistered(st: State, x: nat)
    requires RegInv(st) && ChannelOpen(st) && x in st.gates
    ensures x < |st.signals| && OURS in st.signals[x].waiters
  {
    var i :| 0 <= i < |st.gates| && st.gates[i] == x;
    assert x in Elements(st.gates);
    assert Registered(st.signals[x]) == 1;
    OursCounts(st.signals[x].waiters);
  }

  lemma AdminOursStay(st: State, v: int, x: nat)
    requires Shape(st) && CloserOK(st) && !st.admin.Unlocked? && x < |st.signals| && OURS in st.signals[x].waiters
    ensures |Administer(st, v).signals| == |st.signals|
    ensures OURS in Administer(st, v).signals[x].waiters || Administer(st, v).admin.Announcing? || !ChannelOpen(st)
  {
  }

  lemma OursStay(st: State, mv: Move, x: nat)
    requires RegInv(st) && Enabled(st, mv) && x < |st.signals| && OURS in st.signals[x].waiters
    ensures var st' := Apply(st, mv);
            |st'.signals| == |st.signals|
            && (OURS in st'.signals[x].waiters || st'.admin.Announcing? || !ChannelOpen(st))
  {
    match mv
    case Join(y, w) =>
    case Leave(y, w) =>
      EnlistKeepsOurs(st.signals[y], w);
      OursCounts(st.signals[y].waiters);
      OursCounts(Delisted(st.signals[y], w).waiters);
    case Admin(v) => AdminOursStay(st, v, x);
    case _ =>
  }

  lemma MoverDebtKept(st: State, mv: Move, m: nat)
    requires RegInv(st) && Enabled(st, mv) && m < |st.movers| && MoverOwes(st, m)
    requires Shape(Apply(st, mv)) && ChannelOpen(st) && Apply(st, mv).gen == st.gen
    ensures |Apply(st, mv).movers| == |st.movers|
    ensures MoverOwes(Apply(st, mv), m) || AdminOwes(Apply(st, mv))
  {
    if st.movers[m].Stored? {
      OursStay(st, mv, st.movers[m].x);
    } else if mv.Tell? && mv.m == m {
      assert st.movers[m].left == [st.movers[m].left[0]] + st.movers[m].left[1..];
    }
  }

  lemma AdminDebtKept(st: State, mv: Move)
    requires RegInv(st) && Enabled(st, mv) && AdminOwes(st)
    requires Shape(Apply(st, mv)) && ChannelOpen(st) && Apply(st, mv).gen == st.gen
    ensures AdminOwes(Apply(st, mv))
  {
    if st.admin.AddStored? {
      OursStay(st, mv, st.admin.todo[0]);
    } else if st.admin.AddTelling? {
      assert st.admin.left == [st.admin.left[0]] + st.admin.left[1..];
    }
  }

  /** A signal that is owed stays owed until the generation moves. */
  lemma DebtKept(st: State, mv: Move)
    requires RegInv(st) && Enabled(st, mv) && SignalOwed(st) && ChannelOpen(st)
    requires Apply(st, mv).gen == st.gen
    ensures Shape(Apply(st, mv)) && SignalOwed(Apply(st, mv))
  {
    ShapeKept(st, mv);
    if AdminOwes(st) {
      AdminDebtKept(st, mv);
    } else {
      var m :| 0 <= m < |st.movers| && MoverOwes(st, m);
      MoverDebtKept(st, mv, m);
    }
  }

  lemma WatchKept(st: State, mv: Move, gen: nat, low: int, at: nat)
    requires RegInv(st) && Enabled(st, mv) && gen <= st.gen && Watched(st, gen, low, at)
    requires Shape(Apply(st, mv))
    ensures Watched(Apply(st, mv), gen, low, at)
  {
    var st' := Apply(st, mv);
    if gen == st'.gen && ChannelOpen(st') {
      assert gen == st.gen && ChannelOpen(st);
      if SignalOwed(st) {
        DebtKept(st, mv);
      } else {
        GateRegistered(st, at);
        match mv
        case Store(m, x, _) =>
          if x == at {
            assert MoverOwes(st', m);
          }
        case Admin(_) => AdminWatchKept(st, mv, low, at);
        case _ =>
      }
    }
  }

  lemma AdminWatchKept(st: State, mv: Move, low: int, at: nat)
    requires RegInv(st) && mv.Admin? && Enabled(st, mv) && Shape(Apply(st, mv))
    requires at in st.gates && at < |st.val| && st.val[at] == low && OURS in st.signals[at].waiters
    ensures (at in Apply(st, mv).gates && Apply(st, mv).val[at] == low) || AdminOwes(Apply(st, mv))
  {
    if st.admin.Adding? && st.admin.todo == [] {
      assert at in Elements(st.admin.next);
    }
  }

  lemma AdminSnapshotKept(st: State, v: int, gen: nat, snap: seq<nat>)
    requires RegInv(st) && !st.admin.Unlocked? && gen <= st.gen
    requires gen == st.gen && ChannelOpen(st) && !RemovalOwes(st) ==> Elements(snap) <= Elements(st.gates)
    ensures var st' := Administer(st, v);
            && st.gen <= st'.gen
            && (gen == st'.gen && ChannelOpen(st') && !RemovalOwes(st') ==> Elements(snap) <= Elements(st'.gates))
  {
  }

  lemma SnapshotKept(st: State, mv: Move, gen: nat, snap: seq<nat>)
    requires RegInv(st) && Enabled(st, mv) && gen <= st.gen
    requires gen == st.gen && ChannelOpen(st) && !RemovalOwes(st) ==> Elements(snap) <= Elements(st.gates)
    ensures var st' := Apply(st, mv);
            && st.gen <= st'.gen
            && (gen == st'.gen && ChannelOpen(st') && !RemovalOwes(st') ==> Elements(snap) <= Elements(st'.gates))
  {
    if mv.Admin? {
      AdminSnapshotKept(st, mv.v, gen, snap);
    }
  }

  lemma OwnScanKept(st: State, mv: Move, p: nat)
    requires Inv(st) && Enabled(st, mv) && Shape(Apply(st, mv)) && p < |st.prods|
    requires Apply(st, mv).prods[p] != st.prods[p]
    ensures WaiterOK(Apply(st, mv), Apply(st, mv).prods[p])
  {
    var pc := st.prods[p];
    assert WaiterOK(st, pc);
    var st' := Apply(st, mv);
    if mv.ReadGate? {
      assert pc.snap[pc.i] in Elements(pc.snap);
      if ChannelOpen(st) && SignalOwed(st) {
        DebtKept(st, mv);
      }
    }
  }

  lemma InvKept(st: State, mv: Move)
    requires Inv(st) && Enabled(st, mv)
    ensures Inv(Apply(st, mv))
  {
    var st' := Apply(st, mv);
    RegistrationKept(st, mv);
    assert |st'.prods| == |st.prods|;
    forall p | 0 <= p < |st'.prods| ensures WaiterOK(st', st'.prods[p]) {
      if st'.prods[p] != st.prods[p] {
        OwnScanKept(st, mv, p);
      } else {
        WaiterStable(st, mv, p);
      }
    }
  }

  lemma WaiterStable(st: State, mv: Move, p: nat)
    requires Inv(st) && Enabled(st, mv) && Shape(Apply(st, mv)) && p < |st.prods|
    ensures WaiterOK(Apply(st, mv), st.prods[p])
  {
    var pc := st.prods[p];
    assert WaiterOK(st, pc);
    match pc
    case Scanning(_, gen, snap, i, low, at) =>
      SnapshotKept(st, mv, gen, snap);
      if i > 0 {
        WatchKept(st, mv, gen, low, at);
      }
    case Sleeping(_, gen, low, at) =>
      SnapshotKept(st, mv, gen, []);
      WatchKept(st, mv, gen, low, at);
    case _ =>
  }

  // Runs

  /** The state after the moves of `mvs`, when each was enabled in turn. */
  ghost predicate Run(st: State, mvs: seq<Move>, st': State)
    decreases |mvs|
  {
    if mvs == [] then st' == st
    else Shape(st) && Enabled(st, mvs[0]) && Run(Apply(st, mvs[0]), mvs[1..], st')
  }

  lemma {:induction false} RunKeeps(st: State, mvs: seq<Move>, st': State)
    requires Inv(st) && Run(st, mvs, st')
    ensures Inv(st')
    decreases |mvs|
  {
    if mvs != [] {
      InvKept(st, mvs[0]);
      RunKeeps(Apply(st, mvs[0]), mvs[1..], st');
    }
  }

  /**
   * Producer waits lose no wakeup, in any run from an empty ring: while a producer sleeps on the
   * current generation although no gate of the list holds its wrap point back, some thread is
   * between its gate store, or its gate removal, and the signal that follows.
   */
  lemma NoLostProducerWakeup(values: seq<int>, movers: nat, producers: nat, mvs: seq<Move>, st: State, p: nat)
    requires Run(Initial(values, movers, producers), mvs, st)
    requires p < |st.prods| && st.prods[p].Sleeping? && st.prods[p].gen == st.gen && ChannelOpen(st)
    requires forall x :: x in st.gates && x < |st.val| ==> st.prods[p].wrap <= st.val[x]
    ensures Shape(st) && SignalOwed(st)
  {
    InitialOK(values, movers, producers);
    RunKeeps(Initial(values, movers, producers), mvs, st);
    assert WaiterOK(st, st.prods[p]);
  }

  /** A mover, or the holder of the mutex. */
  datatype Thread = Mover(m: nat) | Holder

  predicate MoveOf(t: Thread, mv: Move) {
    match t
    case Mover(m) => mv == LoadSignals(m) || mv == Tell(m)
    case Holder => mv.Admin?
  }

  /** Moves of the thread `t` alone close the current channel. */
  ghost predicate Pays(st: State, t: Thread) {
    exists mvs, st' :: (forall i :: 0 <= i < |mvs| ==> MoveOf(t, mvs[i])) && Run(st, mvs, st') && st'.gen > st.gen
  }

  lemma PaysLater(st: State, mv: Move, t: Thread)
    requires Shape(st) && Enabled(st, mv) && MoveOf(t, mv)
    requires Apply(st, mv).gen > st.gen || (Apply(st, mv).gen == st.gen && Pays(Apply(st, mv), t))
    ensures Pays(st, t)
  {
    var st1 := Apply(st, mv);
    if st1.gen > st.gen {
      assert Run(st, [mv], st1);
    } else {
      var mvs, st' :| (forall i :: 0 <= i < |mvs| ==> MoveOf(t, mvs[i])) && Run(st1, mvs, st') && st'.gen > st1.gen;
      assert ([mv] + mvs)[1..] == mvs;
      assert Run(st, [mv] + mvs, st');
    }
  }

  lemma {:induction false} TellingPays(st: State, m: nat)
    requires Shape(st) && CloserOK(st) && m < |st.movers| && st.movers[m].Telling? && OURS in st.movers[m].left
    ensures Pays(st, Mover(m))
    decreases |st.movers[m].left|
  {
    var left := st.movers[m].left;
    if left[0] != OURS {
      assert left == [left[0]] + left[1..];
      ShapeKept(st, Tell(m));
      TellingPays(Apply(st, Tell(m)), m);
    }
    PaysLater(st, Tell(m), Mover(m));
  }

  lemma MoverPays(st: State, m: nat)
    requires RegInv(st) && m < |st.movers| && MoverOwes(st, m)
    ensures Pays(st, Mover(m))
  {
    if st.movers[m].Stored? {
      ShapeKept(st, LoadSignals(m));
      TellingPays(Apply(st, LoadSignals(m)), m);
      PaysLater(st, LoadSignals(m), Mover(m));
    } else {
      TellingPays(st, m);
    }
  }

  lemma {:induction false} AddTellingPays(st: State)
    requires Shape(st) && CloserOK(st) && st.admin.AddTelling? && OURS in st.admin.left
    ensures Pays(st, Holder)
    decreases |st.admin.left|
  {
    var left := st.admin.left;
    if left[0] != OURS {
      assert left == [left[0]] + left[1..];
      ShapeKept(st, Admin(0));
      AddTellingPays(Apply(st, Admin(0)));
    }
    PaysLater(st, Admin(0), Holder);
  }

  lemma AnnouncingPays(st: State)
    requires Shape(st) && st.admin.Announcing?
    ensures Pays(st, Holder)
  {
    PaysLater(st, Admin(0), Holder);
  }

  /** A removal whose list read is up to date swaps and then signals. */
  lemma FreshDropPays(st: State)
    requires Shape(st) && CloserOK(st)
    requires st.admin.DropSwap? && st.admin.seen == st.signals[st.admin.target]
    ensures Pays(st, Holder)
  {
    ShapeKept(st, Admin(0));
    AnnouncingPays(Apply(st, Admin(0)));
    PaysLater(st, Admin(0), Holder);
  }

  lemma DroppingPays(st: State)
    requires Shape(st) && CloserOK(st) && st.admin.Dropping?
    ensures Pays(st, Holder)
  {
    ShapeKept(st, Admin(0));
    if OURS in st.signals[st.admin.target].waiters {
      FreshDropPays(Apply(st, Admin(0)));
    } else {
      AnnouncingPays(Apply(st, Admin(0)));
    }
    PaysLater(st, Admin(0), Holder);
  }

  lemma AdminPays(st: State)
    requires RegInv(st) && AdminOwes(st)
    ensures Pays(st, Holder)
  {
    ShapeKept(st, Admin(0));
    match st.admin
    case AddStored(_, _) =>
      AddTellingPays(Apply(st, Admin(0)));
      PaysLater(st, Admin(0), Holder);
    case AddTelling(_, _, _) => AddTellingPays(st);
    case Dropping(_) => DroppingPays(st);
    case DropSwap(_, _) =>
      if Apply(st, Admin(0)).admin.Announcing? {
        AnnouncingPays(Apply(st, Admin(0)));
      } else {
        DroppingPays(Apply(st, Admin(0)));
      }
      PaysLater(st, Admin(0), Holder);
    case Announcing => AnnouncingPays(st);
  }

  /** What is owed is paid: in any reachable state one thread signals by steps of its own. */
  lemma OwedIsPaid(st: State)
    requires RegInv(st) && SignalOwed(st)
    ensures exists t :: Pays(st, t)
  {
    if AdminOwes(st) {
      AdminPays(st);
    } else {
      var m :| 0 <= m < |st.movers| && MoverOwes(st, m);
      MoverPays(st, m);
    }
  }

  // The gate list, told from the calls

  /** The gates after these moves, by the calls that took the mutex: closing refuses later additions. */
  function Listed(gates: seq<nat>, closed: bool, mvs: seq<Move>): seq<nat>
    decreases |mvs|
  {
    if mvs == [] then gates
    else
      match mvs[0]
      case LockAdd(sequences) => Listed(if closed then gates else gates + sequences, closed, mvs[1..])
      case LockRemove(target) => Listed(Without(gates, target), closed, mvs[1..])
      case Close => Listed(gates, true, mvs[1..])
      case _ => Listed(gates, closed, mvs[1..])
  }

  /** The list that the call in progress is to leave behind. */
  function Intended(st: State): seq<nat> {
    match st.admin
    case Adding(todo, next) => next + todo
    case AddStored(todo, next) => next + todo
    case AddTelling(todo, next, _) => next + todo
    case Registering(todo, next) => next + todo
    case AddSwap(todo, next, _) => next + todo
    case Removing(_, next) => next
    case _ => st.gates
  }

  /** The holder of the mutex goes on towards the same list. */
  lemma HolderKeepsIntent(st: State, v: int)
    requires RegInv(st) && !st.admin.Unlocked?
    ensures Intended(Administer(st, v)) == Intended(st)
    ensures Administer(st, v).closer.NotClosed? <==> st.closer.NotClosed?
  {
    match st.admin
    case Registering(todo, next) => AdditionKeepsIntent(st, v);
    case AddSwap(todo, next, _) => AdditionKeepsIntent(st, v);
    case Adding(todo, next) => assert todo == [] ==> next + todo == next;
    case _ =>
  }

  lemma AdditionKeepsIntent(st: State, v: int)
    requires Shape(st) && (st.admin.Registering? || st.admin.AddSwap?)
    ensures Intended(Administer(st, v)) == Intended(st) && Administer(st, v).closer == st.closer
  {
    assert st.admin.next + [st.admin.todo[0]] + st.admin.todo[1..] == st.admin.next + st.admin.todo;
  }

  lemma IntendedStep(st: State, mv: Move)
    requires RegInv(st) && Enabled(st, mv)
    ensures Intended(Apply(st, mv)) == Listed(Intended(st), !st.closer.NotClosed?, [mv])
    ensures !Apply(st, mv).closer.NotClosed? <==> !st.closer.NotClosed? || mv.Close?
  {
    assert [mv][1..] == [];
    match mv
    case Admin(v) => HolderKeepsIntent(st, v);
    case LockRemove(target) => assert target !in st.gates ==> Without(st.gates, target) == st.gates;
    case _ =>
  }

  lemma ListedStep(gates: seq<nat>, closed: bool, mvs: seq<Move>)
    requires mvs != []
    ensures Listed(gates, closed, mvs) == Listed(Listed(gates, closed, [mvs[0]]), closed || mvs[0].Close?, mvs[1..])
  {
    assert [mvs[0]][1..] == [];
  }

  lemma {:induction false} RunLists(st: State, mvs: seq<Move>, st': State)
    requires RegInv(st) && Run(st, mvs, st')
    ensures Intended(st') == Listed(Intended(st), !st.closer.NotClosed?, mvs)
    decreases |mvs|
  {
    if mvs != [] {
      IntendedStep(st, mvs[0]);
      RegistrationKept(st, mvs[0]);
      ListedStep(Intended(st), !st.closer.NotClosed?, mvs);
      hide Enabled, Apply, Intended, Shape, RegInv;
      RunLists(Apply(st, mvs[0]), mvs[1..], st');
    }
  }

  lemma ClearStep(st: State, mv: Move)
    requires RegInv(st) && Enabled(st, mv)
    ensures var st' := Apply(st, mv);
            st'.closer.Holding? || st'.closer.Closed? <==> st.closer.Holding? || st.closer.Closed? || mv.LockClear?
  {
  }

  /** Whether `Close` has come to remove the registrations. */
  lemma {:induction false} RunClears(st: State, mvs: seq<Move>, st': State)
    requires RegInv(st) && Run(st, mvs, st')
    ensures st'.closer.Holding? || st'.closer.Closed? <==> st.closer.Holding? || st.closer.Closed? || LockClear in mvs
    decreases |mvs|
  {
    if mvs != [] {
      assert mvs == [mvs[0]] + mvs[1..];
      ClearStep(st, mvs[0]);
      RegistrationKept(st, mvs[0]);
      hide Enabled, Apply, Shape, RegInv;
      RunClears(Apply(st, mvs[0]), mvs[1..], st');
    }
  }

  /**
   * Registration follows the gate list, and the gate list follows the calls, in every run: with
   * the mutex free the gates are those the additions and removals so far leave, in order, and the
   * waiter is registered once on each of them and nowhere else, or nowhere once `Close` has taken
   * the registrations away.
   */
  lemma RunRegistration(values: seq<int>, movers: nat, producers: nat, mvs: seq<Move>, st: State)
    requires Run(Initial(values, movers, producers), mvs, st) && st.admin.Unlocked?
    ensures st.gates == Listed([], false, mvs)
    ensures forall x :: 0 <= x < |st.signals| ==>
              Registered(st.signals[x]) == if LockClear !in mvs && x in Listed([], false, mvs) then 1 else 0
  {
    InitialOK(values, movers, producers);
    RunKeeps(Initial(values, movers, producers), mvs, st);
    RunLists(Initial(values, movers, producers), mvs, st);
    RunClears(Initial(values, movers, producers), mvs, st);
    RegistrationMatchesGates(st);
  }

  // Calls that hold the mutex end

  predicate Fresh(st: State) {
    match st.admin
    case AddSwap(todo, _, seen) => todo != [] && todo[0] < |st.signals| && seen == st.signals[todo[0]]
    case DropSwap(target, seen) => target < |st.signals| && seen == st.signals[target]
    case ClearSwap(todo, _, seen) => todo != [] && todo[0] < |st.signals| && seen == st.signals[todo[0]]
    case _ => false
  }

  function Todo(st: State): nat {
    match st.admin
    case Adding(todo, _) => |todo|
    case AddStored(todo, _) => |todo|
    case AddTelling(todo, _, _) => |todo|
    case Registering(todo, _) => |todo|
    case AddSwap(todo, _, _) => |todo|
    case Clearing(todo, _) => |todo|
    case ClearSwap(todo, _, _) => |todo|
    case _ => 0
  }

  function Stage(st: State): nat {
    match st.admin
    case Unlocked => 0
    case Announcing => 1
    case Removing(_, _) => 5
    case Dropping(_) => 3
    case Registering(_, _) => 3
    case Clearing(_, _) => 3
    case AddTelling(_, _, _) => 5
    case AddStored(_, _) => 6
    case Adding(_, _) => 7
    case _ => if Fresh(st) then 2 else 4
  }

  function Tellings(st: State): nat {
    if st.admin.AddTelling? then |st.admin.left| else 0
  }

  /** Each step of the holder comes closer to the end. */
  lemma HolderAdvances(st: State)
    requires Shape(st) && !st.admin.Unlocked?
    ensures var st' := Administer(st, 0);
            Todo(st') < Todo(st) || (Todo(st') == Todo(st)
            && (Stage(st') < Stage(st) || (Stage(st') == Stage(st) && Tellings(st') < Tellings(st))))
  {
  }

  /** Additions, removals and closing end: their thread releases the mutex by steps of its own. */
  lemma {:induction false} HolderFinishes(st: State)
    requires Shape(st) && CloserOK(st)
    ensures exists mvs, st' :: (forall i :: 0 <= i < |mvs| ==> MoveOf(Holder, mvs[i])) && Run(st, mvs, st')
                               && st'.admin.Unlocked?
    decreases Todo(st), Stage(st), Tellings(st)
  {
    if st.admin.Unlocked? {
      assert Run(st, [], st);
    } else {
      var st1 := Apply(st, Admin(0));
      HolderAdvances(st);
      ShapeKept(st, Admin(0));
      HolderFinishes(st1);
      var mvs, st' :| (forall i :: 0 <= i < |mvs| ==> MoveOf(Holder, mvs[i])) && Run(st1, mvs, st')
                      && st'.admin.Unlocked?;
      assert ([Admin(0)] + mvs)[1..] == mvs;
      assert Run(st, [Admin(0)] + mvs, st');
    }
  }

  /**
   * A wait for room ends exactly when it has a reason to: the scan read its last gate and found
   * room, or there were no gates; the channel it had fetched was closed, or the ring was; or the
   * caller cancelled. A scan that finds no room sleeps.
   */
  lemma WaitsEnd(st: State, mv: Move, p: nat)
    requires Shape(st) && Enabled(st, mv) && p < |st.prods| && !st.prods[p].Away?
    ensures var pc := st.prods[p];
            var last := mv == ReadGate(p) && pc.i + 1 == |pc.snap|;
            var room := last && (pc.i > 0 ==> pc.wrap <= pc.low) && pc.wrap <= st.val[pc.snap[pc.i]];
            && (last && !room ==> Apply(st, mv).prods[p].Sleeping?)
            && (Apply(st, mv).prods[p].Away? <==>
                  || mv == Cancel(p) || room || (mv == Snapshot(p) && st.gates == [])
                  || (mv == Wake(p) && (pc.gen != st.gen || !ChannelOpen(st))))
  {
  }
}
