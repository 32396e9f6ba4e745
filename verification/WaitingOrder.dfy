/** The order kept by the waiting queue, on values.

    A queue is a sequence of fiber identities; what the queue operations look at
    in a fiber (state, deadline, interruption flag, list of joiners) is given by a map.
 */
module WaitingOrder {
  import opened Seqs

  /** The clock counts nanoseconds in 64 bits. */
  const TIME_MAX := 0x7FFF_FFFF_FFFF_FFFF

  type TimePoint = t: int | -TIME_MAX - 1 <= t <= TIME_MAX witness 0

  datatype FiberState = Ready | Running | Waiting | Terminated

  /** `joiners` is the fiber's `waiting_` vector. `joining` is the fiber whose end it waits for, or has waited for, in a
      call of `join` that did not return yet: the argument of that call. */
  datatype Info<F> = Info(state: FiberState, tp: TimePoint, flag: bool, joiners: seq<F>, joining: Option<F>)

  type Infos<F> = map<F, Info<F>>

  ghost predicate Keyed<F>(q: seq<F>, m: Infos<F>) {
    forall i :: 0 <= i < |q| ==> q[i] in m
  }

  /** A prefix of READY fibers, then WAITING fibers by nondecreasing deadline. */
  ghost predicate Ordered<F>(q: seq<F>, m: Infos<F>)
    requires Keyed(q, m)
  {
    forall i, j :: 0 <= i < j < |q| && !m[q[i]].state.Ready? ==>
      !m[q[j]].state.Ready? && m[q[i]].tp <= m[q[j]].tp
  }

  /** Does the scan of `push` stop at this entry? */
  predicate StopsAt<F>(i: Info<F>, tp: TimePoint) {
    !i.state.Ready? && tp <= i.tp
  }

  /** The first entry the scan of `push` stops at. */
  ghost function ScanPos<F>(q: seq<F>, m: Infos<F>, tp: TimePoint): (k: nat)
    requires Keyed(q, m)
    ensures k <= |q|
    ensures forall i :: 0 <= i < k ==> !StopsAt(m[q[i]], tp)
    ensures k < |q| ==> StopsAt(m[q[k]], tp)
  {
    if q == [] then 0 else if StopsAt(m[q[0]], tp) then 0 else 1 + ScanPos(q[1..], m, tp)
  }

  lemma ScanPosUnique<F>(q: seq<F>, m: Infos<F>, tp: TimePoint, k: nat)
    requires Keyed(q, m) && k <= |q|
    requires forall i :: 0 <= i < k ==> !StopsAt(m[q[i]], tp)
    requires k < |q| ==> StopsAt(m[q[k]], tp)
    ensures k == ScanPos(q, m, tp)
  {
  }

  /** Where `push` links a fiber with this data. */
  ghost function PushPos<F>(q: seq<F>, m: Infos<F>, item: Info<F>): (k: nat)
    requires Keyed(q, m)
    ensures k <= |q|
  {
    if item.state.Ready? then 0
    else if item.tp == TIME_MAX then |q|
    else ScanPos(q, m, item.tp)
  }

  ghost function InsertAt<F>(q: seq<F>, k: nat, f: F): seq<F>
    requires k <= |q|
  {
    q[..k] + [f] + q[k..]
  }

  /** The queue after `push` of a fiber that is in no waiting queue. */
  ghost function Pushed<F>(q: seq<F>, m: Infos<F>, f: F): seq<F>
    requires Keyed(q, m) && f in m
  {
    InsertAt(q, PushPos(q, m, m[f]), f)
  }

  /** May `a` stand before `b`? */
  predicate Before<F>(a: Info<F>, b: Info<F>) {
    !a.state.Ready? ==> !b.state.Ready? && a.tp <= b.tp
  }

  lemma InsertKeepsOrder<F>(q: seq<F>, m: Infos<F>, k: nat, f: F)
    requires Keyed(q, m) && f in m && Ordered(q, m) && k <= |q|
    requires forall i :: 0 <= i < k ==> Before(m[q[i]], m[f])
    requires forall i :: k <= i < |q| ==> Before(m[f], m[q[i]])
    ensures Keyed(InsertAt(q, k, f), m) && Ordered(InsertAt(q, k, f), m)
  {
    var r := InsertAt(q, k, f);
    assert forall i :: 0 <= i < |r| ==> r[i] == if i < k then q[i] else if i == k then f else q[i - 1];
  }

  /** `push` keeps the order: this is what the early exit of the sweep relies on. */
  lemma PushKeepsOrder<F>(q: seq<F>, m: Infos<F>, f: F)
    requires Keyed(q, m) && f in m && Ordered(q, m)
    ensures Keyed(Pushed(q, m, f), m) && Ordered(Pushed(q, m, f), m)
  {
    var k := PushPos(q, m, m[f]);
    forall i | k <= i < |q| ensures Before(m[f], m[q[i]]) {
      assert i > k && !m[f].state.Ready? ==> Before(m[q[k]], m[q[i]]);
    }
    InsertKeepsOrder(q, m, k, f);
  }

  /** Where `push` puts a fiber: a READY one first; one without a deadline last; any other behind the READY fibers and
      the earlier deadlines, and before all that are not earlier. The others keep their order. */
  lemma PushedExactly<F>(q: seq<F>, m: Infos<F>, f: F) returns (k: nat)
    requires Keyed(q, m) && f in m && Ordered(q, m)
    ensures k <= |q| && Pushed(q, m, f) == q[..k] + [f] + q[k..]
    ensures m[f].state.Ready? ==> k == 0
    ensures !m[f].state.Ready? && m[f].tp == TIME_MAX ==> k == |q|
    ensures !m[f].state.Ready? && m[f].tp < TIME_MAX ==>
      && (forall i :: 0 <= i < k ==> m[q[i]].state.Ready? || m[q[i]].tp < m[f].tp)
      && (forall i :: k <= i < |q| ==> !m[q[i]].state.Ready? && m[f].tp <= m[q[i]].tp)
  {
    k := PushPos(q, m, m[f]);
    forall i | k < i < |q| ensures Before(m[q[k]], m[q[i]]) {}
  }

  lemma InsertMembers<F>(q: seq<F>, k: nat, f: F)
    requires k <= |q|
    ensures forall x :: x in InsertAt(q, k, f) <==> x in q || x == f
    ensures NoDup(q) && f !in q ==> NoDup(InsertAt(q, k, f))
  {
    var r := InsertAt(q, k, f);
    assert forall i :: 0 <= i < |q| ==> q[i] == r[if i < k then i else i + 1];
    assert forall i :: 0 <= i < |r| ==> r[i] == if i < k then q[i] else if i == k then f else q[i - 1];
  }

  ghost function MovedToFront<F>(q: seq<F>, k: nat): seq<F>
    requires k < |q|
  {
    [q[k]] + Without(q, k)
  }

  lemma HeadStays<F>(q: seq<F>)
    requires q != []
    ensures IndexOf(q, q[0]) == 0 && MovedToFront(q, 0) == q
  {
  }

  /** Marking a queued fiber READY and moving it to the front keeps the order. */
  lemma MoveToFrontKeepsOrder<F>(q: seq<F>, m: Infos<F>, k: nat, i': Info<F>)
    requires Keyed(q, m) && Ordered(q, m) && NoDup(q) && k < |q| && i'.state.Ready?
    ensures var r := MovedToFront(q, k); var m' := m[q[k] := i'];
            Keyed(r, m') && Ordered(r, m') && NoDup(r)
    ensures forall x :: x in MovedToFront(q, k) <==> x in q
  {
    var r := MovedToFront(q, k);
    WithoutMembers(q, k);
    assert forall i :: 1 <= i < |r| ==> r[i] == q[if i <= k then i - 1 else i];
  }

  /** The test of the sweep: `fetch_ready` on a queued fiber. */
  predicate Fetched<F>(i: Info<F>, now: TimePoint) {
    i.tp <= now || i.flag || i.state.Ready?
  }

  /** How many fibers the sweep takes from the front. */
  ghost function SweepLen<F>(q: seq<F>, m: Infos<F>, now: TimePoint): (k: nat)
    requires Keyed(q, m)
    ensures k <= |q|
    ensures forall i :: 0 <= i < k ==> Fetched(m[q[i]], now)
    ensures k < |q| ==> !Fetched(m[q[k]], now)
  {
    if q == [] || !Fetched(m[q[0]], now) then 0 else 1 + SweepLen(q[1..], m, now)
  }

  /** The longest prefix is the only one with these two properties. */
  lemma SweepLenUnique<F>(q: seq<F>, m: Infos<F>, now: TimePoint, k: nat)
    requires Keyed(q, m) && k <= |q|
    requires forall i :: 0 <= i < k ==> Fetched(m[q[i]], now)
    requires k < |q| ==> !Fetched(m[q[k]], now)
    ensures k == SweepLen(q, m, now)
  {
  }

  /** Entry `j` is a WAITING fiber that carries the flag and waits behind an entry that is neither due nor flagged. */
  ghost predicate HiddenInterruption<F>(q: seq<F>, m: Infos<F>, now: TimePoint, j: int)
    requires Keyed(q, m)
  {
    0 <= j < |q| && m[q[j]].flag && exists i :: 0 <= i < j && !Fetched(m[q[i]], now)
  }

  ghost function FetchTest<F>(m: Infos<F>, now: TimePoint): F -> bool {
    x => x in m && Fetched(m[x], now)
  }

  ghost function DueTest<F>(m: Infos<F>, now: TimePoint): F -> bool {
    x => x in m && (m[x].state.Ready? || m[x].tp <= now)
  }

  /** The early exit is exact: what the sweep takes is the whole filter, in the same order, and what it leaves is the
      rest, if and only if no interrupted fiber waits behind one that is not due. */
  lemma EarlyExitExact<F>(q: seq<F>, m: Infos<F>, now: TimePoint)
    requires Keyed(q, m) && Ordered(q, m)
    ensures var k := SweepLen(q, m, now);
            (q[..k] == Filter(q, FetchTest(m, now)) && q[k..] == FilterOut(q, FetchTest(m, now))) <==>
            !exists j :: HiddenInterruption(q, m, now, j)
  {
    var k := SweepLen(q, m, now);
    if j :| HiddenInterruption(q, m, now, j) {
      assert k < j;
      assert q[k..][j - k] == q[j];
      assert q[j] in q[k..] && q[j] !in FilterOut(q, FetchTest(m, now));
    } else {
      forall i | k <= i < |q| ensures !Fetched(m[q[i]], now) {
        assert !HiddenInterruption(q, m, now, i);
      }
      FilterSplit(q, FetchTest(m, now), k);
    }
  }

  /** When no WAITING entry carries the flag, the sweep takes exactly the READY fibers and those past their deadline. */
  lemma EarlyExitByDeadline<F>(q: seq<F>, m: Infos<F>, now: TimePoint)
    requires Keyed(q, m) && Ordered(q, m)
    requires forall i :: 0 <= i < |q| && m[q[i]].flag ==> m[q[i]].state.Ready?
    ensures var k := SweepLen(q, m, now);
            q[..k] == Filter(q, DueTest(m, now)) && q[k..] == FilterOut(q, DueTest(m, now))
  {
    FilterSplit(q, DueTest(m, now), SweepLen(q, m, now));
  }
}
