/** The ready queue of the work-stealing scheduler: its owner pushes and pops, other threads steal fibers that are not
    bound to their thread. */
module WorkStealing {
  import opened Seqs
  import opened SchedulerHeap

  /** A queued fiber and its thread-affinity flag. */
  datatype Entry<F> = Entry(f: F, affine: bool)

  // ---------------------------------------------------------------- what the queue does

  /** The position of the first entry without affinity, or the length of the queue. */
  ghost function StealPos<F>(q: seq<Entry<F>>): (k: nat)
    ensures k <= |q|
    ensures forall i :: 0 <= i < k ==> q[i].affine
    ensures k < |q| ==> !q[k].affine
  {
    if q == [] || !q[0].affine then 0 else 1 + StealPos(q[1..])
  }

  lemma StealPosUnique<F>(q: seq<Entry<F>>, k: nat)
    requires k <= |q| && (forall i :: 0 <= i < k ==> q[i].affine) && (k < |q| ==> !q[k].affine)
    ensures StealPos(q) == k
  {
  }

  // ---------------------------------------------------------------- how it does it

  ghost predicate NextAt(q: seq<WorkerFiber>, i: nat)
    requires i < |q|
    reads {q[i]}`nxt
  {
    q[i].nxt == if i == |q| - 1 then null else q[i + 1]
  }

  /** The fibers from `head` to `tail`, linked forwards only, are `q`. */
  ghost predicate Chained(q: seq<WorkerFiber>, head: WorkerFiber?, tail: WorkerFiber?)
    reads q`nxt
  {
    && head == (if q == [] then null else q[0])
    && tail == (if q == [] then null else q[|q| - 1])
    && forall i {:trigger NextAt(q, i)} :: 0 <= i < |q| ==> NextAt(q, i)
  }

  /** The links keep the entries apart. */
  lemma {:induction false} ChainedApart(q: seq<WorkerFiber>, head: WorkerFiber?, tail: WorkerFiber?, i: nat, j: nat)
    requires Chained(q, head, tail) && i < j < |q|
    ensures q[i] != q[j]
    decreases |q| - j
  {
    assert NextAt(q, i) && NextAt(q, j);
    if j < |q| - 1 { ChainedApart(q, head, tail, i + 1, j + 1); }
  }

  lemma ChainedNoDup(q: seq<WorkerFiber>, head: WorkerFiber?, tail: WorkerFiber?)
    requires Chained(q, head, tail)
    ensures NoDup(q)
  {
    forall i, j | 0 <= i < j < |q| ensures q[i] != q[j] { ChainedApart(q, head, tail, i, j); }
  }

  /** Only the last entry has no successor. */
  lemma OnlyLastEnds(q: seq<WorkerFiber>, head: WorkerFiber?, tail: WorkerFiber?, f: WorkerFiber)
    requires Chained(q, head, tail) && f.nxt == null
    ensures f in q ==> f == tail
  {
    if f in q { assert NextAt(q, IndexOf(q, f)); }
  }

  class WorkStealingQueue {
    var head: WorkerFiber?
    var tail: WorkerFiber?
    ghost var q: seq<WorkerFiber>

    ghost predicate Valid()
      reads this, q`nxt
    {
      Chained(q, head, tail)
    }

    ghost function View(): seq<Entry<WorkerFiber>>
      reads this, q
    {
      seq(|q|, i requires 0 <= i < |q| reads this, q => Entry(q[i], q[i].affinity))
    }

    constructor ()
      ensures Valid() && View() == []
    {
      head, tail, q := null, null, [];
    }

    /** A fiber that is not queued is appended. The code asserts only that it has no successor, which also holds of
        the last entry; pushing that one links it to itself, and the list is a list no more. */
    method Push(item: WorkerFiber)
      requires Valid() && item.nxt == null
      modifies this, q`nxt
      ensures Valid() <==> item !in old(q)
      ensures item !in old(q) ==> q == old(q) + [item] && View() == old(View()) + [Entry(item, item.affinity)]
      ensures item in old(q) ==> q == old(q) && item == old(tail) == tail && item.nxt == item
    {
      ChainedNoDup(q, head, tail);
      OnlyLastEnds(q, head, tail, item);
      if head == null {
        head, tail := item, item;
      } else {
        tail.nxt := item;
        tail := item;
      }
      if item !in q {
        q := q + [item];
        forall i | 0 <= i < |q| ensures NextAt(q, i) {
          assert i < |q| - 2 ==> old(NextAt(q, i));
        }
      } else {
        assert !NextAt(q, |q| - 1);
      }
    }

    method Pop() returns (item: WorkerFiber?)
      requires Valid()
      modifies this, q`nxt
      ensures Valid() && if old(q) == [] then item == null && q == [] else item == old(q)[0] && q == old(q)[1..]
      ensures View() == if old(q) == [] then [] else old(View())[1..]
      ensures item != null ==> item.nxt == null
    {
      item := head;
      if head != null {
        Detach(0, null);
        assert q == old(q)[1..];
      }
    }

    /** Unlinks the fiber at index `k`, whose predecessor is `prev`: the code of `pop_` and of the four cases of
        `steal_`. */
    method Detach(ghost k: nat, prev: WorkerFiber?)
      requires Valid() && k < |q| && prev == if k == 0 then null else q[k - 1]
      modifies this, q`nxt
      ensures Valid() && q == Without(old(q), k) && old(q)[k].nxt == null
    {
      forall i | 0 <= i < |q| ensures (i != k ==> q[i] != q[k]) && (k > 0 && i != k - 1 ==> q[i] != q[k - 1]) {
        ChainedNoDup(q, head, tail);
      }
      assert NextAt(q, k) && (k > 0 ==> NextAt(q, k - 1));
      var f := if prev == null then head else prev.nxt;
      var nxt := f.nxt;
      if prev == null {
        head := nxt;
        if head == null { tail := null; }
      } else {
        if nxt == null { tail := prev; }
        prev.nxt := nxt;
      }
      f.nxt := null;
      q := Without(q, k);
      forall i | 0 <= i < |q| ensures NextAt(q, i) {
        assert old(NextAt(q, if i < k then i else i + 1));
      }
    }

    /** The first fiber without affinity leaves the queue; null exactly when there is none. */
    method Steal() returns (r: WorkerFiber?)
      requires Valid()
      modifies this, q`nxt
      ensures Valid()
      ensures r == null <==> forall e :: e in old(View()) ==> e.affine
      ensures var k := StealPos(old(View()));
              if k == |old(View())| then r == null && View() == old(View())
              else r == old(q)[k] && r.nxt == null && !r.affinity && View() == Without(old(View()), k)
    {
      var f: WorkerFiber?, prev: WorkerFiber? := head, null;
      ghost var k := 0;
      while f != null
        invariant q == old(q) && Valid() && View() == old(View())
        invariant k <= |q| && f == (if k == |q| then null else q[k]) && prev == if k == 0 then null else q[k - 1]
        invariant forall i :: 0 <= i < k ==> View()[i].affine
        decreases |q| - k
      {
        assert NextAt(q, k);
        assert View()[k].affine == f.affinity;
        var nxt := f.nxt;
        if !f.affinity {
          assert View()[k] in View();
          StealPosUnique(View(), k);
          Detach(k, prev);
          assert View() == Without(old(View()), k) by {
            forall i | 0 <= i < |q| ensures View()[i] == Without(old(View()), k)[i] {
              assert q[i] == old(q)[if i < k then i else i + 1];
            }
          }
          return f;
        }
        prev := f;
        f := nxt;
        k := k + 1;
      }
      StealPosUnique(View(), k);
      return null;
    }
  }

  // ---------------------------------------------------------------- runs

  /** The queue and the histories of pushes, of pops and of steals. `left` has both kinds of leaving, in order. */
  datatype Sys<F> = Sys(q: seq<Entry<F>>, pushed: seq<Entry<F>>, popped: seq<Entry<F>>, stolen: seq<Entry<F>>,
                        left: seq<Entry<F>>)

  datatype Action<F> = Push(e: Entry<F>) | Pop | Steal

  ghost function Next<F>(s: Sys<F>, a: Action<F>): Sys<F> {
    match a
    case Push(e) => s.(q := s.q + [e], pushed := s.pushed + [e])
    case Pop =>
      if s.q == [] then s
      else s.(q := s.q[1..], popped := s.popped + [s.q[0]], left := s.left + [s.q[0]])
    case Steal =>
      var k := StealPos(s.q);
      if k == |s.q| then s
      else s.(q := Without(s.q, k), stolen := s.stolen + [s.q[k]], left := s.left + [s.q[k]])
  }

  ghost function After<F>(s: Sys<F>, acts: seq<Action<F>>): Sys<F>
    decreases |acts|
  {
    if acts == [] then s else After(Next(s, acts[0]), acts[1..])
  }

  /** Is an entry bound, or is it not? */
  ghost function Kind<F>(affine: bool): Entry<F> -> bool {
    (e: Entry<F>) => e.affine == affine
  }

  ghost predicate InOrder<F>(s: Sys<F>, affine: bool) {
    Filter(s.pushed, Kind(affine)) == Filter(s.left, Kind(affine)) + Filter(s.q, Kind(affine))
  }

  /** Every push is answered by at most one leaving. */
  ghost predicate Counted<F>(s: Sys<F>) {
    && multiset(s.pushed) == multiset(s.popped) + multiset(s.stolen) + multiset(s.q)
    && multiset(s.left) == multiset(s.popped) + multiset(s.stolen)
  }

  /** Bound fibers leave through `pop` only. */
  ghost predicate PoppedOnly<F(!new)>(s: Sys<F>) {
    && Filter(s.left, Kind(true)) == Filter(s.popped, Kind(true))
    && (forall e :: e in s.stolen ==> !e.affine)
  }

  /** Bound fibers leave in the order of the pushes, and so do the others, whoever takes them. */
  ghost predicate Inv<F(!new)>(s: Sys<F>) {
    InOrder(s, true) && InOrder(s, false) && PoppedOnly(s) && Counted(s)
  }

  lemma PushInOrder<F>(s: Sys<F>, e: Entry<F>, affine: bool)
    requires InOrder(s, affine)
    ensures InOrder(Next(s, Push(e)), affine)
  {
    FilterAppend(s.pushed, e, Kind(affine));
    FilterAppend(s.q, e, Kind(affine));
    Assoc(Filter(s.left, Kind(affine)), Filter(s.q, Kind(affine)), if Kind(affine)(e) then [e] else []);
  }

  /** The entry at `k` of the queue leaves: the head, or the first without affinity. */
  ghost predicate Leaves<F>(s: Sys<F>, a: Action<F>, k: nat) {
    k < |s.q| && ((a.Pop? && k == 0) || (a.Steal? && k == StealPos(s.q)))
  }

  lemma LeaveInOrder<F>(s: Sys<F>, a: Action<F>, k: nat, affine: bool)
    requires InOrder(s, affine) && Leaves(s, a, k)
    ensures InOrder(Next(s, a), affine)
  {
    var p, e := Kind(affine), s.q[k];
    assert Next(s, a).q == Without(s.q, k);
    FilterWithout(s.q, k, p);
    FilterAppend(s.left, e, p);
    Assoc(Filter(s.left, p), if p(e) then [e] else [], Filter(Without(s.q, k), p));
  }

  lemma LeavePoppedOnly<F(!new)>(s: Sys<F>, a: Action<F>, k: nat)
    requires PoppedOnly(s) && Leaves(s, a, k)
    ensures PoppedOnly(Next(s, a))
  {
    FilterAppend(s.left, s.q[k], Kind(true));
    FilterAppend(s.popped, s.q[k], Kind(true));
  }

  lemma LeaveCounted<F>(s: Sys<F>, a: Action<F>, k: nat)
    requires Counted(s) && Leaves(s, a, k)
    ensures Counted(Next(s, a))
  {
    WithoutCounts(s.q, k);
    assert Next(s, a).q == Without(s.q, k);
  }

  lemma NextInv<F(!new)>(s: Sys<F>, a: Action<F>)
    requires Inv(s)
    ensures Inv(Next(s, a))
  {
    if a.Push? {
      PushInOrder(s, a.e, true);
      PushInOrder(s, a.e, false);
    } else {
      var k := if a.Pop? then 0 else StealPos(s.q);
      if k < |s.q| {
        LeaveInOrder(s, a, k, true);
        LeaveInOrder(s, a, k, false);
        LeavePoppedOnly(s, a, k);
        LeaveCounted(s, a, k);
      }
    }
  }

  lemma {:induction false} RunInv<F(!new)>(s: Sys<F>, acts: seq<Action<F>>)
    requires Inv(s)
    ensures Inv(After(s, acts))
    decreases |acts|
  {
    if acts != [] {
      NextInv(s, acts[0]);
      RunInv(Next(s, acts[0]), acts[1..]);
    }
  }

  /** Any history of a new queue: bound fibers are popped in the order of their pushes and never stolen; fibers
      without affinity leave in the order of their pushes too, whoever takes them; every push is answered by at most
      one leaving. */
  lemma HistoryOrder<F(!new)>(acts: seq<Action<F>>)
    ensures var s: Sys<F> := After(Sys([], [], [], [], []), acts);
            && Filter(s.pushed, Kind(true)) == Filter(s.popped, Kind(true)) + Filter(s.q, Kind(true))
            && Filter(s.pushed, Kind(false)) == Filter(s.left, Kind(false)) + Filter(s.q, Kind(false))
            && (forall e :: e in s.stolen ==> !e.affine)
            && multiset(s.pushed) == multiset(s.popped) + multiset(s.stolen) + multiset(s.q)
  {
    RunInv<F>(Sys([], [], [], [], []), acts);
  }

  /** What a step does, by the histories: a push is recorded; `pop` takes the oldest entry whenever there is one;
      `steal` takes the oldest entry without affinity whenever there is one, and nothing else. */
  lemma TakesExactly<F(!new)>(s: Sys<F>, a: Action<F>)
    requires Inv(s)
    ensures var r := Next(s, a);
            match a
            case Push(e) => r.pushed == s.pushed + [e] && r.left == s.left && r.q == s.q + [e]
            case Pop =>
              && r.pushed == s.pushed && r.stolen == s.stolen
              && (if s.q == [] then r == s else r.popped == s.popped + [s.q[0]] && s.q == [s.q[0]] + r.q)
            case Steal =>
              && r.pushed == s.pushed && r.popped == s.popped
              && (if Filter(s.q, Kind(false)) == [] then r == s
                  else && r.stolen == s.stolen + [Filter(s.q, Kind(false))[0]]
                       && Filter(r.q, Kind(false)) == Filter(s.q, Kind(false))[1..]
                       && Filter(r.q, Kind(true)) == Filter(s.q, Kind(true)))
  {
    if a.Steal? { FirstUnbound(s.q); }
  }

  /** The entry that `steal` looks for is the first of those without affinity. */
  lemma FirstUnbound<F>(q: seq<Entry<F>>)
    ensures var k, free := StealPos(q), Filter(q, Kind(false));
            if k == |q| then free == []
            else && free == [q[k]] + Filter(Without(q, k), Kind(false))
                 && Filter(q, Kind(true)) == Filter(Without(q, k), Kind(true))
  {
    var k := StealPos(q);
    if k == |q| {
      FilterSplit(q, Kind(false), 0);
    } else {
      FilterWithout(q, k, Kind(false));
      FilterWithout(q, k, Kind(true));
    }
  }
}
