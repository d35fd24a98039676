/** What a sequencer has done so far when its calls do not overlap: the specification of both modes. */
module History {
  import opened Log
  import opened Topology
  import opened Bits

  datatype Error = ErrClosed | ErrInvalidClaimSize | ErrInsufficientCapacity

  datatype ClaimResult = Granted(high: int) | Refused(error: Error)

  /** Resolves the open claims of a range; what is resolved already stays as it is. */
  function Settle(h: seq<Status>, low: int, high: int, status: Status): seq<Status> {
    seq(|h|, i requires 0 <= i < |h| => if low <= i <= high && h[i].Open? then status else h[i])
  }

  /** The same, for claims whose slot no newer claim has taken. */
  function SettleHeld(size: int, h: seq<Status>, low: int, high: int, status: Status): seq<Status> {
    seq(|h|, i requires 0 <= i < |h| =>
      if low <= i <= high && h[i].Open? && |h| - 1 - size < i then status else h[i])
  }

  /** No claim was overtaken by a whole lap before it was resolved. */
  predicate Unlapped(size: int, h: seq<Status>) {
    forall s :: 0 <= s < |h| && s <= |h| - 1 - size ==> h[s].Resolved()
  }

  lemma HeldSettles(size: int, h: seq<Status>, low: int, high: int, status: Status)
    requires Unlapped(size, h)
    ensures SettleHeld(size, h, low, high, status) == Settle(h, low, high, status)
    ensures status.Resolved() ==> Unlapped(size, Settle(h, low, high, status))
  {
  }

  function Opened(h: seq<Status>, n: nat): seq<Status> {
    h + seq(n, i => Open)
  }

  /** The end of the resolved prefix. */
  function Visible(h: seq<Status>): (v: int)
    ensures -1 <= v < |h|
    ensures forall s :: 0 <= s <= v ==> h[s].Resolved()
    ensures v + 1 < |h| ==> !h[v + 1].Resolved()
  {
    VisibleFrom(h, 0)
  }

  function VisibleFrom(h: seq<Status>, k: nat): (v: int)
    requires k <= |h| && forall s :: 0 <= s < k ==> h[s].Resolved()
    ensures k - 1 <= v < |h|
    ensures forall s :: 0 <= s <= v ==> h[s].Resolved()
    ensures v + 1 < |h| ==> !h[v + 1].Resolved()
    decreases |h| - k
  {
    if k < |h| && h[k].Resolved() then VisibleFrom(h, k + 1) else k - 1
  }

  lemma VisibleIs(h: seq<Status>, v: int)
    requires -1 <= v < |h| && forall s :: 0 <= s <= v ==> h[s].Resolved()
    requires v + 1 < |h| ==> !h[v + 1].Resolved()
    ensures Visible(h) == v
  {
    var w := Visible(h);
    var beyond := w + 1 < |h| && h[w + 1].Resolved();
  }

  /** Opening further claims hides nothing and shows nothing. */
  lemma VisibleStays(h: seq<Status>, n: nat)
    ensures Visible(Opened(h, n)) == Visible(h)
  {
    VisibleIs(Opened(h, n), Visible(h));
  }

  /** Resolving claims only extends the visible prefix. */
  lemma SettleShows(h: seq<Status>, low: int, high: int, status: Status)
    requires status.Resolved()
    ensures Visible(Settle(h, low, high, status)) >= Visible(h)
  {
    var h', v := Settle(h, low, high, status), Visible(h);
    var w := Visible(h');
    assert forall k :: 0 <= k <= v ==> h'[k] == h[k];
    var next := w + 1 < |h'| && h'[w + 1].Resolved();
  }

  lemma SettleNext(h: seq<Status>, low: int, k: int, status: Status)
    requires low <= k
    ensures Settle(Settle(h, low, k - 1, status), k, k, status) == Settle(h, low, k, status)
    ensures Settle(h, low, low - 1, status) == h
  {
  }

  lemma SettleHeldNext(size: int, h: seq<Status>, low: int, k: int, status: Status)
    requires low <= k
    ensures SettleHeld(size, SettleHeld(size, h, low, k - 1, status), k, k, status)
            == SettleHeld(size, h, low, k, status)
    ensures SettleHeld(size, h, low, low - 1, status) == h
  {
  }

  /** Free capacity, given the slowest gate. */
  function Remaining(size: int, h: seq<Status>, gate: int): int {
    size - (|h| - 1 - gate)
  }

  /** A non-blocking claim on an open ring: no cache, just the capacity. */
  function TryClaim(size: int, h: seq<Status>, gate: int, n: int): ClaimResult {
    if n < 1 || n > size then Refused(ErrInvalidClaimSize)
    else if n > Remaining(size, h, gate) then Refused(ErrInsufficientCapacity)
    else Granted(|h| - 1 + n)
  }

  predicate Grants(size: int, h: seq<Status>, gate: int, n: int) {
    TryClaim(size, h, gate, n).Granted?
  }

  /** Claims of up to `capacity` are granted, as far as a ring may be claimed at once, and no others. */
  ghost predicate Bounds(size: int, h: seq<Status>, gate: int, capacity: int) {
    forall n :: Grants(size, h, gate, n) <==> 1 <= n <= capacity && n <= size
  }

  function After(h: seq<Status>, c: ClaimResult): seq<Status> {
    if c.Granted? && c.high >= |h| then Opened(h, c.high + 1 - |h|) else h
  }

  /** The masked slot of a sequence, as `index` and `Get` compute it. */
  function Position(size: int64, sequence: int64): (i: int)
    requires SizeAccepted(size as int) && sequence >= 0
    ensures i == Slot(size as int, sequence as int)
  {
    SlotArithmetic(size as int, sequence as int);
    Index(size as int, sequence as int)
  }

  /** How many claims the markers of a ring can tell apart. */
  function Room(size: int): int {
    if size == 1 then TWO_62 else TWO_63
  }

  function Code(status: Status): nat {
    if status.Published? then PUBLISHED else if status.Discarded? then DISCARDED else UNRESOLVED
  }

  /** The availability word of a sequence. */
  function Word(size: int, s: int, status: Status): (w: int64)
    requires size >= 1
  {
    PublicationValue(Flag(size, s), Code(status)) as int64
  }

  lemma WordsOfOneSequence(size: int, s: int, a: Status, b: Status)
    requires size >= 1
    ensures Word(size, s, a) == Word(size, s, b) <==> Code(a) == Code(b)
    ensures Word(size, s, a) != -1
  {
    MarkersCollideExactlyWhen(Flag(size, s), Flag(size, s), Code(a), Code(b));
    MarkerIsNeverInitial(Flag(size, s), Code(a));
  }

  lemma WordsOfTwoLaps(size: int, s: int, t: int, a: Status, b: Status)
    requires SizeAccepted(size) && size < TWO_63
    requires 0 <= s < Room(size) && 0 <= t < Room(size) && s != t && Slot(size, s) == Slot(size, t)
    ensures Word(size, s, a) != Word(size, t, b)
  {
    if size >= 2 {
      SameSlot(size, s, t);
      MarkersSeparateLaps(size, s, t, Code(a), Code(b));
    } else {
      SingleSlotFlag(s);
      SingleSlotFlag(t);
      CollideBelow(s, t, Code(a), Code(b));
    }
  }

  lemma SameSlot(size: int, s: int, t: int)
    requires SizeAccepted(size) && size < TWO_63 && 0 <= s < TWO_63 && 0 <= t < TWO_63
    ensures Index(size, s) == Index(size, t) <==> Slot(size, s) == Slot(size, t)
  {
    SlotArithmetic(size, s);
    SlotArithmetic(size, t);
  }

  /** What a reader finds for a sequence: its resolution, or none once its slot is claimed again. */
  function Reading(size: int, h: seq<Status>, s: int): Status {
    if 0 <= s < |h| && |h| - 1 - size < s then h[s] else Open
  }
}
