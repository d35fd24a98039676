/**
 * Blocking consumer waits: `BlockingWaitStrategy.waitFor` and every thread that must wake it, as
 * one concurrent machine. A channel is a generation number and closing it an increment.
 */
module ConsumerWaits {

  /** A thread inside `Publish` or `Discard`, which signals when it has resolved its range. */
  datatype PublisherPc = Idle | Resolving(k: int, high: int) | Signalling

  /** A thread inside `Alert` of the barrier of waiter `w`. */
  datatype AlerterPc = Quiet | AlertStored(w: nat)

  /** A consumer inside `waitFor`, up to the loop that only yields. */
  datatype WaiterPc =
    | Away
    | Testing(desired: int)
    | Fetching(desired: int)
    | Retesting(desired: int, gen: nat)
    | Checking(desired: int, gen: nat)
    | Sleeping(desired: int, gen: nat)

  datatype State = State(
    multi: bool,
    gen: nat,
    cursor: int,
    resolved: set<int>,
    alerted: seq<bool>,
    channelOpen: bool,
    pubs: seq<PublisherPc>,
    alerters: seq<AlerterPc>,
    waiters: seq<WaiterPc>)

  datatype Move =
    | Claim(n: int)
    | StartRange(u: nat, low: int, high: int)
    | ResolveOne(u: nat)
    | Signal(u: nat)
    | StoreAlert(a: nat, w: nat)
    | SignalAlert(a: nat)
    | ClearAlert(w: nat)
    | CloseChannel
    | SignalClose
    | Enter(w: nat, desired: int)
    | Test(w: nat)
    | Fetch(w: nat)
    | Retest(w: nat)
    | Check(w: nat)
    | Wake(w: nat)
    | Cancel(w: nat)

  predicate Shape(st: State) {
    |st.alerted| == |st.waiters|
  }

  /** Is the sequence visible to consumers: resolved, or in single mode at or below the cursor. */
  predicate Visible(st: State, s: int) {
    if st.multi then s in st.resolved else s <= st.cursor
  }

  predicate Enabled(st: State, mv: Move) {
    match mv
    case Claim(n) => st.multi && n >= 1
    case StartRange(u, low, high) =>
      && u < |st.pubs| && st.pubs[u].Idle?
      && (if st.multi then high <= st.cursor else low <= st.cursor + 1)
    case ResolveOne(u) => u < |st.pubs| && st.pubs[u].Resolving?
    case Signal(u) => u < |st.pubs| && st.pubs[u].Signalling?
    case StoreAlert(a, w) => a < |st.alerters| && st.alerters[a].Quiet? && w < |st.alerted|
    case SignalAlert(a) => a < |st.alerters| && st.alerters[a].AlertStored?
    case ClearAlert(w) => w < |st.waiters| && st.waiters[w].Away?
    case CloseChannel => true
    case SignalClose => !st.channelOpen
    case Enter(w, _) => w < |st.waiters| && st.waiters[w].Away?
    case Test(w) => w < |st.waiters| && st.waiters[w].Testing?
    case Fetch(w) => w < |st.waiters| && st.waiters[w].Fetching?
    case Retest(w) => w < |st.waiters| && st.waiters[w].Retesting?
    case Check(w) => w < |st.waiters| && st.waiters[w].Checking?
    case Wake(w) =>
      w < |st.waiters| && st.waiters[w].Sleeping? && (st.waiters[w].gen != st.gen || !st.channelOpen)
    case Cancel(w) => w < |st.waiters|
  }

  function Apply(st: State, mv: Move): State
    requires Shape(st) && Enabled(st, mv)
  {
    match mv
    case Claim(n) => st.(cursor := st.cursor + n)
    case StartRange(u, low, high) =>
      st.(pubs := st.pubs[u := if low > high then Signalling else Resolving(low, high)])
    case ResolveOne(u) =>
      var k, high := st.pubs[u].k, st.pubs[u].high;
      st.(resolved := st.resolved + {k},
          cursor := if !st.multi && k > st.cursor then k else st.cursor,
          pubs := st.pubs[u := if k == high then Signalling else Resolving(k + 1, high)])
    case Signal(u) => st.(gen := st.gen + 1, pubs := st.pubs[u := Idle])
    case StoreAlert(a, w) => st.(alerted := st.alerted[w := true], alerters := st.alerters[a := AlertStored(w)])
    case SignalAlert(a) => st.(gen := st.gen + 1, alerters := st.alerters[a := Quiet])
    case ClearAlert(w) => st.(alerted := st.alerted[w := false])
    case CloseChannel => st.(channelOpen := false)
    case SignalClose => st.(gen := st.gen + 1)
    case Enter(w, desired) => st.(waiters := st.waiters[w := Testing(desired)])
    case Test(w) =>
      var desired := st.waiters[w].desired;
      st.(waiters := st.waiters[w := if st.cursor < desired then Fetching(desired) else Away])
    case Fetch(w) => st.(waiters := st.waiters[w := Retesting(st.waiters[w].desired, st.gen)])
    case Retest(w) =>
      var pc := st.waiters[w];
      st.(waiters := st.waiters[w := if st.cursor >= pc.desired then Away else Checking(pc.desired, pc.gen)])
    case Check(w) =>
      var pc := st.waiters[w];
      st.(waiters := st.waiters[w := if st.alerted[w] then Away else Sleeping(pc.desired, pc.gen)])
    case Wake(w) => st.(waiters := st.waiters[w := Testing(st.waiters[w].desired)])
    case Cancel(w) => st.(waiters := st.waiters[w := Away])
  }

  function Initial(multi: bool, pubs: nat, alerters: nat, waiters: nat): State {
    State(multi, 0, -1, {}, seq(waiters, i => false), true,
          seq(pubs, i => Idle), seq(alerters, i => Quiet), seq(waiters, i => Away))
  }

  /** A publisher or discarder that has yet to signal. */
  ghost predicate PublisherOwes(st: State) {
    exists u :: 0 <= u < |st.pubs| && !st.pubs[u].Idle?
  }

  ghost predicate AlerterOwes(st: State, w: nat) {
    exists a :: 0 <= a < |st.alerters| && st.alerters[a] == AlertStored(w)
  }

  ghost predicate Watched(st: State, gen: nat, desired: int) {
    gen == st.gen && Visible(st, desired) ==> PublisherOwes(st)
  }

  ghost predicate WaiterOK(st: State, w: nat)
    requires Shape(st) && w < |st.waiters|
  {
    match st.waiters[w]
    case Retesting(_, gen) => gen <= st.gen
    case Checking(desired, gen) => gen <= st.gen && Watched(st, gen, desired)
    case Sleeping(desired, gen) =>
      && gen <= st.gen && Watched(st, gen, desired)
      && (gen == st.gen && st.alerted[w] ==> AlerterOwes(st, w))
    case _ => true
  }

  ghost predicate Inv(st: State) {
    && Shape(st)
    && (forall s :: s in st.resolved ==> st.multi ==> s <= st.cursor)
    && (forall u :: 0 <= u < |st.pubs| ==> st.pubs[u].Resolving? ==>
          st.pubs[u].k <= st.pubs[u].high && (st.multi ==> st.pubs[u].high <= st.cursor))
    && forall w :: 0 <= w < |st.waiters| ==> WaiterOK(st, w)
  }

  lemma OwedKept(st: State, mv: Move)
    requires Inv(st) && Enabled(st, mv) && Apply(st, mv).gen == st.gen
    ensures PublisherOwes(st) ==> PublisherOwes(Apply(st, mv))
    ensures mv.ResolveOne? ==> PublisherOwes(Apply(st, mv))
    ensures forall w :: AlerterOwes(st, w) ==> AlerterOwes(Apply(st, mv), w)
  {
    var st' := Apply(st, mv);
    if PublisherOwes(st) {
      var u :| 0 <= u < |st.pubs| && !st.pubs[u].Idle?;
      assert !st'.pubs[u].Idle?;
    }
    if mv.ResolveOne? {
      assert !st'.pubs[mv.u].Idle?;
    }
    forall w | AlerterOwes(st, w) ensures AlerterOwes(st', w) {
      var a :| 0 <= a < |st.alerters| && st.alerters[a] == AlertStored(w);
      assert st'.alerters[a] == AlertStored(w);
    }
  }

  lemma WaiterKept(st: State, mv: Move, w: nat)
    requires Inv(st) && Enabled(st, mv) && w < |st.waiters| && Shape(Apply(st, mv))
    requires |Apply(st, mv).waiters| == |st.waiters|
    ensures WaiterOK(Apply(st, mv), w)
  {
    var st' := Apply(st, mv);
    assert WaiterOK(st, w);
    if st'.gen == st.gen {
      OwedKept(st, mv);
      if mv.StoreAlert? {
        assert st'.alerters[mv.a] == AlertStored(mv.w);
      }
    }
  }

  lemma InvKept(st: State, mv: Move)
    requires Inv(st) && Enabled(st, mv)
    ensures Inv(Apply(st, mv))
  {
    var st' := Apply(st, mv);
    forall w | 0 <= w < |st'.waiters| ensures WaiterOK(st', w) {
      WaiterKept(st, mv, w);
    }
  }

  ghost predicate Run(st: State, mvs: seq<Move>, st': State)
    decreases |mvs|
  {
    if mvs == [] then st' == st
    else Shape(st) && Enabled(st, mvs[0]) && Run(Apply(st, mvs[0]), mvs[1..], st')
  }

  lemma {:induction false} RunKeeps(st: State, mvs: seq<Move>, st': State)
    requires Inv(st) && Run(st, mvs, st')
    ensures Inv(st')
    decreases |mvs|
  {
    if mvs != [] {
      InvKept(st, mvs[0]);
      RunKeeps(Apply(st, mvs[0]), mvs[1..], st');
    }
  }

  /**
   * Blocking consumers lose no wakeup, in any run: while a waiter sleeps on the current channel
   * and its sequence is visible, some publisher or discarder has yet to signal; while its barrier
   * is alerted, some alerter has. Claims of the multi-producer mode move the cursor silently.
   */
  lemma NoLostConsumerWakeup(multi: bool, pubs: nat, alerters: nat, waiters: nat, mvs: seq<Move>, st: State, w: nat)
    requires Run(Initial(multi, pubs, alerters, waiters), mvs, st)
    requires w < |st.waiters| && st.waiters[w].Sleeping? && st.waiters[w].gen == st.gen
    ensures Shape(st)
    ensures Visible(st, st.waiters[w].desired) ==> PublisherOwes(st)
    ensures st.alerted[w] ==> AlerterOwes(st, w)
  {
    RunKeeps(Initial(multi, pubs, alerters, waiters), mvs, st);
    assert WaiterOK(st, w);
  }

  /** Steps of publisher `u` alone that close the current channel. */
  ghost predicate Pays(st: State, u: nat) {
    exists mvs, st' :: (forall i :: 0 <= i < |mvs| ==> mvs[i] == ResolveOne(u) || mvs[i] == Signal(u))
                       && Run(st, mvs, st') && st'.gen > st.gen
  }

  /** A publisher or discarder that owes a signal gives it by steps of its own. */
  lemma {:induction false} PublisherPays(st: State, u: nat)
    requires Shape(st) && u < |st.pubs| && !st.pubs[u].Idle?
    requires st.pubs[u].Resolving? ==> st.pubs[u].k <= st.pubs[u].high
    ensures Pays(st, u)
    decreases if st.pubs[u].Resolving? then st.pubs[u].high - st.pubs[u].k + 1 else 0
  {
    if st.pubs[u].Signalling? {
      assert Run(st, [Signal(u)], Apply(st, Signal(u)));
    } else {
      var st1 := Apply(st, ResolveOne(u));
      PublisherPays(st1, u);
      var mvs, st' :| (forall i :: 0 <= i < |mvs| ==> mvs[i] == ResolveOne(u) || mvs[i] == Signal(u))
                      && Run(st1, mvs, st') && st'.gen > st1.gen;
      assert ([ResolveOne(u)] + mvs)[1..] == mvs;
      assert Run(st, [ResolveOne(u)] + mvs, st');
    }
  }

  // Told from the moves

  lemma VisibleStays(st: State, mv: Move, s: int)
    requires Shape(st) && Enabled(st, mv) && Visible(st, s)
    ensures Visible(Apply(st, mv), s) && Apply(st, mv).multi == st.multi
    ensures Shape(Apply(st, mv)) && |Apply(st, mv).pubs| == |st.pubs|
  {
  }

  lemma ThreadsStay(st: State, mv: Move)
    requires Shape(st) && Enabled(st, mv)
    ensures Shape(Apply(st, mv)) && |Apply(st, mv).pubs| == |st.pubs|
  {
  }

  /** A sequence that is visible, or that publisher `u` has yet to come to. */
  predicate Coming(st: State, u: nat, s: int) {
    Visible(st, s) || (u < |st.pubs| && st.pubs[u].Resolving? && st.pubs[u].k <= s <= st.pubs[u].high)
  }

  lemma ComingStays(st: State, mv: Move, u: nat, s: int)
    requires Shape(st) && Enabled(st, mv) && Coming(st, u, s)
    ensures Coming(Apply(st, mv), u, s)
  {
  }

  lemma {:induction false} ComingComes(st: State, mvs: seq<Move>, st': State, u: nat, s: int)
    requires Shape(st) && Run(st, mvs, st') && Coming(st, u, s)
    ensures Coming(st', u, s)
    decreases |mvs|
  {
    if mvs != [] {
      ComingStays(st, mvs[0], u, s);
      ThreadsStay(st, mvs[0]);
      hide Coming, Apply, Enabled;
      ComingComes(Apply(st, mvs[0]), mvs[1..], st', u, s);
    }
  }

  /** What is published or discarded is visible once the call has returned. */
  lemma {:induction false} RangesBecomeVisible(st: State, mvs: seq<Move>, st': State, i: nat, u: nat, low: int,
                                               high: int, s: int)
    requires Shape(st) && Run(st, mvs, st') && i < |mvs| && mvs[i] == StartRange(u, low, high) && low <= s <= high
    requires u < |st'.pubs| && st'.pubs[u].Idle?
    ensures Visible(st', s)
    decreases |mvs|
  {
    var st1 := Apply(st, mvs[0]);
    ThreadsStay(st, mvs[0]);
    if i == 0 {
      assert Coming(st1, u, s);
      ComingComes(st1, mvs[1..], st', u, s);
    } else {
      RangesBecomeVisible(st1, mvs[1..], st', i - 1, u, low, high, s);
    }
  }

  /**
   * A wait ends exactly when it has a reason to: the cursor has come to the desired sequence, the barrier is alerted,
   * or the caller cancelled. A wakeup alone only makes it look again.
   */
  lemma WaitsEnd(st: State, mv: Move, w: nat)
    requires Shape(st) && Enabled(st, mv) && w < |st.waiters|
    requires !st.waiters[w].Away?
    ensures Apply(st, mv).waiters[w].Away? <==>
              || (mv == Test(w) && st.waiters[w].desired <= st.cursor)
              || (mv == Retest(w) && st.waiters[w].desired <= st.cursor)
              || (mv == Check(w) && st.alerted[w]) || mv == Cancel(w)
    ensures !Apply(st, mv).waiters[w].Away? ==> Apply(st, mv).waiters[w].desired == st.waiters[w].desired
  {
  }
}
