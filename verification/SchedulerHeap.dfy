/** Fibers and their queues as the code keeps them: objects linked through the fibers' own `nxt_` and `prev_` fields. */
module SchedulerHeap {
  import opened Seqs
  import opened WaitingOrder

  class WorkerFiber {
    var prev: WorkerFiber?
    var nxt: WorkerFiber?
    var tp: TimePoint
    var state: FiberState
    var flag: bool
    var affinity: bool
    var waiting: seq<WorkerFiber>
    /** `phead_` and `ptail_`: the waiting queue whose `head_` and `tail_` they point to. */
    var queue: WaitingQueue?
    ghost var joining: Option<WorkerFiber>

    constructor ()
      ensures Unlinked() && queue == null
      ensures Record() == Info(Ready, TIME_MAX, false, [], None)
    {
      prev, nxt, queue := null, null, null;
      tp, state, flag, affinity, waiting := TIME_MAX, Ready, false, false, [];
      joining := None;
    }

    ghost function Record(): Info<WorkerFiber>
      reads `state, `tp, `flag, `waiting, `joining
    {
      Info(state, tp, flag, waiting, joining)
    }

    ghost predicate Unlinked()
      reads `nxt, `prev
    {
      nxt == null && prev == null
    }
  }

  /** The links of entry `i` lead to its neighbours. */
  ghost predicate LinkAt(q: seq<WorkerFiber>, i: int)
    requires 0 <= i < |q|
    reads {q[i]}`nxt, {q[i]}`prev
  {
    && q[i].prev == (if i == 0 then null else q[i - 1])
    && q[i].nxt == (if i == |q| - 1 then null else q[i + 1])
  }

  /** The fibers from `head` to `tail` are `q`, in both directions. */
  ghost predicate Linked(q: seq<WorkerFiber>, head: WorkerFiber?, tail: WorkerFiber?)
    reads q`nxt, q`prev
  {
    && head == (if q == [] then null else q[0])
    && tail == (if q == [] then null else q[|q| - 1])
    && forall i :: 0 <= i < |q| ==> LinkAt(q, i)
  }

  /** The links keep the entries apart. */
  lemma {:induction false} LinkedNoDup(q: seq<WorkerFiber>, head: WorkerFiber?, tail: WorkerFiber?)
    requires Linked(q, head, tail)
    ensures NoDup(q)
  {
    forall i, j | 0 <= i < j < |q| ensures q[i] != q[j] { Apart(q, i, j); }
  }

  lemma {:induction false} Apart(q: seq<WorkerFiber>, i: nat, j: nat)
    requires i < j < |q| && forall k :: 0 <= k < |q| ==> LinkAt(q, k)
    ensures q[i] != q[j]
  {
    assert LinkAt(q, i) && LinkAt(q, j);
    if i > 0 { Apart(q, i - 1, j - 1); }
  }

  /** A fiber without links is in a queue only if it is alone there. */
  lemma UnlinkedAlone(q: seq<WorkerFiber>, head: WorkerFiber?, tail: WorkerFiber?, f: WorkerFiber)
    requires Linked(q, head, tail) && f.Unlinked()
    ensures f in q ==> q == [f]
  {
    if f in q {
      var i := IndexOf(q, f);
      assert LinkAt(q, i);
    }
  }

  // ---------------------------------------------------------------- the ready queue

  class Fifo {
    var head: WorkerFiber?
    var tail: WorkerFiber?
    ghost var q: seq<WorkerFiber>

    ghost predicate Valid()
      reads this, q`nxt, q`prev
    {
      Linked(q, head, tail)
    }

    constructor ()
      ensures Valid() && q == []
    {
      head, tail, q := null, null, [];
    }

    /** A fiber without links is appended, or is already the only entry, in which case nothing changes. */
    method Push(item: WorkerFiber)
      requires Valid() && item.Unlinked() && (item.state.Ready? || item.state.Running?)
      modifies this, q`nxt, item`prev
      ensures Valid() && q == if item in old(q) then old(q) else old(q) + [item]
    {
      UnlinkedAlone(q, head, tail, item);
      LinkedNoDup(q, head, tail);
      if head == null {
        head, tail, q := item, item, [item];
      } else if head == item {
        // already the head: avoid a cycle
      } else {
        tail.nxt := item;
        item.prev := tail;
        tail := item;
        q := q + [item];
        forall i | 0 <= i < |q| ensures LinkAt(q, i) {
          assert i < |q| - 1 ==> old(LinkAt(q, i));
        }
      }
    }

    method Pop() returns (item: WorkerFiber)
      requires Valid() && q != []
      modifies this, q`nxt, q`prev
      ensures Valid() && item == old(q)[0] && q == old(q)[1..] && item.Unlinked()
    {
      LinkedNoDup(q, head, tail);
      HeadAndTail(q);
      assert LinkAt(q, 0);
      item := head;
      head := head.nxt;
      if head == null {
        tail := null;
      } else {
        head.prev := null;
      }
      item.nxt := null;
      item.prev := null;
      q := q[1..];
      forall i | 0 <= i < |q| ensures LinkAt(q, i) { assert old(LinkAt(q, i + 1)); }
    }
  }

  // ---------------------------------------------------------------- the waiting queue

  class WaitingQueue {
    var head: WorkerFiber?
    var tail: WorkerFiber?
    ghost var q: seq<WorkerFiber>

    ghost predicate Valid()
      reads this, q`nxt, q`prev, q`queue
    {
      && Linked(q, head, tail)
      && forall i :: 0 <= i < |q| ==> q[i].queue == this
    }

    constructor ()
      ensures Valid() && q == []
    {
      head, tail, q := null, null, [];
    }

    method LinkFirst(item: WorkerFiber)
      requires Valid() && q != [] && item !in q && item.prev == null && item.queue == this
      modifies this, item`nxt, q`prev
      ensures Valid() && q == [item] + old(q)
    {
      LinkedNoDup(q, head, tail);
      item.nxt := head;
      head.prev := item;
      head := item;
      q := [item] + q;
      forall i | 0 <= i < |q| ensures LinkAt(q, i) { assert i > 0 ==> old(LinkAt(q, i - 1)); }
    }

    method LinkLast(item: WorkerFiber)
      requires Valid() && q != [] && item !in q && item.Unlinked() && item.queue == this
      modifies this, item`prev, q`nxt
      ensures Valid() && q == old(q) + [item]
    {
      LinkedNoDup(q, head, tail);
      tail.nxt := item;
      item.prev := tail;
      tail := item;
      q := q + [item];
      forall i | 0 <= i < |q| ensures LinkAt(q, i) { assert i < |q| - 1 ==> old(LinkAt(q, i)); }
    }

    method LinkBetween(prev: WorkerFiber, item: WorkerFiber, f: WorkerFiber, ghost k: nat)
      requires Valid() && 0 < k < |q| && q[k - 1] == prev && q[k] == f
      requires item !in q && item.Unlinked() && item.queue == this
      modifies this, item`nxt, item`prev, f`prev, prev`nxt
      ensures Valid() && q == InsertAt(old(q), k, item)
    {
      LinkedNoDup(q, head, tail);
      item.nxt := f;
      f.prev := item;
      prev.nxt := item;
      item.prev := prev;
      InsertMembers(q, k, item);
      q := InsertAt(q, k, item);
      forall i | 0 <= i < |q| ensures LinkAt(q, i) {
        if i < k { assert old(LinkAt(q, i)); } else if i > k { assert old(LinkAt(q, i - 1)); }
      }
    }

    /** `push`: nothing for a fiber that is in a waiting queue already; otherwise the fiber is linked at the place that
        its state and deadline call for. */
    method Push(item: WorkerFiber, ghost m: Infos<WorkerFiber>)
      requires Valid() && item.Unlinked()
      requires item in m && m[item] == item.Record() && Keyed(q, m)
      requires forall i :: 0 <= i < |q| ==> m[q[i]] == q[i].Record()
      modifies this, q`nxt, q`prev, item`nxt, item`prev, item`queue
      ensures Valid()
      ensures old(item.queue) != null ==> q == old(q) && unchanged(this) && unchanged(item) && unchanged(q)
      ensures old(item.queue) == null ==>
        q == Pushed(old(q), m, item) && item.queue == this
    {
      if item.queue != null {
        return;
      }
      item.queue := this;
      if head == null {
        head, tail, q := item, item, [item];
      } else if item.state.Ready? {
        LinkFirst(item);
      } else if item.tp == TIME_MAX {
        LinkLast(item);
      } else {
        Scan(item, m);
      }
    }

    /** The loop of `push`: link before the first WAITING entry whose deadline is not earlier. */
    method Scan(item: WorkerFiber, ghost m: Infos<WorkerFiber>)
      requires Valid() && q != [] && item !in q && item.Unlinked() && item.queue == this
      requires Keyed(q, m) && forall i :: 0 <= i < |q| ==> m[q[i]] == q[i].Record()
      modifies this, q`nxt, q`prev, item`nxt, item`prev
      ensures Valid() && q == InsertAt(old(q), ScanPos(old(q), m, item.tp), item)
    {
      LinkedNoDup(q, head, tail);
      var f, prev: WorkerFiber? := head, null;
      ghost var k := 0;
      while true
        invariant 0 <= k < |q| && f == q[k] && prev == if k == 0 then null else q[k - 1]
        invariant forall i :: 0 <= i < k ==> !StopsAt(m[q[i]], item.tp)
        decreases |q| - k
      {
        assert m[q[k]] == f.Record() && LinkAt(q, k);
        var nxt := f.nxt;
        if !f.state.Ready? && item.tp <= f.tp {
          ScanPosUnique(q, m, item.tp, k);
          if head == f {
            assert prev == null;
            LinkFirst(item);
          } else {
            assert prev != null;
            LinkBetween(prev, item, f, k);
          }
          break;
        } else if tail == f {
          assert nxt == null;
          ScanPosUnique(q, m, item.tp, k + 1);
          LinkLast(item);
          break;
        }
        prev, f, k := f, nxt, k + 1;
      }
    }

    /** One turn of the loop of `move_to`: the head leaves the queue, detached and without a deadline. */
    method PopHead() returns (f: WorkerFiber)
      requires Valid() && q != []
      modifies this, q`nxt, q`prev, head`queue, head`tp
      ensures Valid() && f == old(q)[0] && q == old(q)[1..]
      ensures f.Unlinked() && f.queue == null && f.tp == TIME_MAX
      ensures f !in q && forall x :: x in old(q) <==> x == f || x in q
    {
      LinkedNoDup(q, head, tail);
      HeadAndTail(q);
      assert LinkAt(q, 0);
      f := head;
      head := f.nxt;
      if head == null {
        tail := null;
      } else {
        head.prev := null;
      }
      f.nxt := null;
      f.prev := null;
      f.queue := null;
      f.tp := TIME_MAX;
      q := q[1..];
      forall i | 0 <= i < |q| ensures LinkAt(q, i) { assert old(LinkAt(q, i + 1)); }
    }

    /** Takes a fiber that is not the head out of the list; its own links are left as they are. */
    method Unlink(f: WorkerFiber, ghost k: nat)
      requires Valid() && 0 < k < |q| && q[k] == f
      modifies this, q`nxt, q`prev
      ensures Valid() && q == Without(old(q), k) && f !in q
    {
      LinkedNoDup(q, head, tail);
      assert LinkAt(q, k) && LinkAt(q, k - 1) && (k + 1 < |q| ==> LinkAt(q, k + 1));
      if f.nxt == null {
        tail := f.prev;
      } else {
        f.nxt.prev := f.prev;
      }
      f.prev.nxt := f.nxt;
      WithoutMembers(q, k);
      q := Without(q, k);
      forall i | 0 <= i < |q| ensures LinkAt(q, i) {
        assert old(LinkAt(q, if i < k then i else i + 1));
      }
    }

    method ToFront(f: WorkerFiber, ghost k: nat)
      requires Valid() && 0 < k < |q| && q[k] == f
      modifies this, q`nxt, q`prev
      ensures Valid() && q == MovedToFront(old(q), k)
      ensures forall x :: x in q <==> x in old(q)
    {
      LinkedNoDup(q, head, tail);
      WithoutMembers(q, k);
      Unlink(f, k);
      f.prev := null;
      LinkFirst(f);
    }

    /** `move_to_run`: a linked fiber goes to the front of the queue its back-pointers name, whichever queue that is. */
    static method MoveToRun(f: WorkerFiber, ghost k: nat, ghost fibers: seq<WorkerFiber>)
      requires !f.state.Running?
      requires f.queue != null ==> f.queue.Valid() && k < |f.queue.q| && f.queue.q[k] == f
      requires fibers == if f.queue == null then [] else f.queue.q
      modifies f.queue, fibers`nxt, fibers`prev
      ensures f.queue != null ==> f.queue.Valid() && f.queue.q == MovedToFront(old(f.queue.q), k)
      ensures f.queue != null ==> forall x :: x in f.queue.q <==> x in old(f.queue.q)
    {
      assert f.queue != null ==> LinkAt(f.queue.q, k);
      if f.prev == null {
        // the head of its queue, or alone in the ready queue: no need to move
        assert f.queue != null ==> MovedToFront(f.queue.q, 0) == f.queue.q;
      } else if f.queue != null {
        f.queue.ToFront(f, k);
      }
    }
  }
}
