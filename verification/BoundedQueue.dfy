/** The bounded queue: a linked list with a dummy tail node, two watermarks, and lists of blocked producers and
    consumers. */
module BoundedQueues {
  import opened Seqs
  import opened Mutexes
  import opened Conditions
  import opened QueueNodes

  /** `Blocked`: the call registered its fiber on a condition and is suspended. `Failed`: the assertion of `pop` that
      there is an item does not hold. */
  datatype Status = Success | Closed | Full | Empty | Blocked | Failed

  datatype Channel<T> = Channel(closed: bool, items: seq<T>, hwm: nat, lwm: nat, notFull: seq<Fid>, notEmpty: seq<Fid>)

  // ---------------------------------------------------------------- critical sections

  /** An item arrives and one consumer, if any is registered, is readied. */
  function Appended<T>(q: Channel<T>, v: T): Channel<T> {
    q.(items := q.items + [v], notEmpty := if q.notEmpty == [] then [] else q.notEmpty[1..])
  }

  /** How many producers the pop that leaves `n` items readies. */
  function Readied<T>(q: Channel<T>, n: nat): (k: nat)
    ensures k <= |q.notFull|
  {
    if n > q.lwm then 0
    else if q.lwm == q.hwm then (if q.notFull == [] then 0 else 1)
    else |q.notFull|
  }

  /** The producers that the next pop readies. */
  function Called<T>(q: Channel<T>): seq<Fid>
    requires q.items != []
  {
    q.notFull[..Readied(q, |q.items| - 1)]
  }

  /** The first item leaves and producers are readied. */
  function Removed<T>(q: Channel<T>): Channel<T>
    requires q.items != []
  {
    q.(items := q.items[1..], notFull := q.notFull[Readied(q, |q.items| - 1)..])
  }

  /** The loop of `push` up to its next suspension. It does not look at `closed` again. */
  function PushTurn<T>(q: Channel<T>, f: Fid, v: T): (Channel<T>, Status) {
    if |q.items| >= q.hwm then (q.(notFull := q.notFull + [f]), Blocked) else (Appended(q, v), Success)
  }

  function PushCall<T>(q: Channel<T>, f: Fid, v: T): (Channel<T>, Status) {
    if q.closed then (q, Closed) else PushTurn(q, f, v)
  }

  function TryPushCall<T>(q: Channel<T>, v: T): (Channel<T>, Status) {
    if q.closed then (q, Closed) else if |q.items| >= q.hwm then (q, Full) else (Appended(q, v), Success)
  }

  function TryPopCall<T>(q: Channel<T>): (Channel<T>, Status) {
    if q.items == [] then (q, if q.closed then Closed else Empty) else (Removed(q), Success)
  }

  /** The body of `pop` up to its next suspension. It waits when the queue is closed and empty; when it is open and
      empty it goes on to the assertion. */
  function PopTurn<T>(q: Channel<T>, f: Fid): (Channel<T>, Status) {
    if q.items != [] then (Removed(q), Success)
    else if q.closed then (q.(notEmpty := q.notEmpty + [f]), Blocked)
    else (q, Failed)
  }

  class BoundedQueue<T(0)> {
    var closed: bool
    var count: nat
    var head: Node<T>
    var tail: Node<T>
    const notEmpty: ConditionObject
    const notFull: ConditionObject
    const hwm: nat
    const lwm: nat
    /** The nodes from `head` to `tail`; the last one carries no item. */
    ghost var nodes: seq<Node<T>>

    ghost predicate Valid()
      reads this, nodes
    {
      && Chain(nodes) && head == nodes[0] && tail == nodes[|nodes| - 1] && count == |nodes| - 1
      && notEmpty != notFull
    }

    ghost function View(): Channel<T>
      reads this, nodes, notFull, notEmpty
      requires Valid()
    {
      Channel(closed, Items(nodes), hwm, lwm, notFull.waiting, notEmpty.waiting)
    }

    constructor (high: nat, low: nat)
      ensures Valid() && fresh(nodes) && fresh(notFull) && fresh(notEmpty)
      ensures View() == Channel(false, [], high, low, [], [])
    {
      var dummy := new Node<T>();
      closed, count, head, tail := false, 0, dummy, dummy;
      notEmpty := new ConditionObject();
      notFull := new ConditionObject();
      hwm, lwm := high, low;
      nodes := [dummy];
    }

    /** The two-argument constructor of the code throws when the watermarks are out of order. */
    static method Create(high: nat, low: nat) returns (q: BoundedQueue?<T>)
      ensures q == null <==> high < low
      ensures q != null ==> fresh(q) && q.Valid() && fresh(q.nodes) && fresh(q.notFull) && fresh(q.notEmpty)
                            && q.View() == Channel(false, [], high, low, [], [])
    {
      q := null;
      if high >= low {
        q := new BoundedQueue(high, low);
      }
    }

    method IsEmpty() returns (r: bool)
      requires Valid()
      ensures r <==> View().items == []
    {
      ChainEnds(nodes);
      r := head == tail;
    }

    /** `readied`: the consumer made runnable. */
    method Append(v: T) returns (readied: Option<Fid>)
      requires Valid()
      modifies this`tail, this`count, this`nodes, tail, notEmpty
      ensures Valid() && View() == Appended(old(View()), v)
      ensures readied == if old(notEmpty.waiting) == [] then None else Some(old(notEmpty.waiting)[0])
    {
      tail := QueueNodes.Append(tail, v, nodes);
      count := count + 1;
      nodes := nodes + [tail];
      readied := notEmpty.NotifyOne();
    }

    method PopHead() returns (v: T)
      requires Valid() && View().items != []
      modifies this`head, this`count, this`nodes
      ensures Valid() && nodes == old(nodes)[1..] && v == old(View()).items[0]
      ensures View() == old(View()).(items := old(View()).items[1..])
    {
      ChainTail(nodes);
      v := head.va;
      head := head.next;
      count := count - 1;
      nodes := nodes[1..];
    }

    method PushTurnOf(f: Fid, v: T) returns (r: Status)
      requires Valid() && f !in notFull.waiting
      modifies this, tail, notFull, notEmpty
      ensures Valid() && (View(), r) == PushTurn(old(View()), f, v)
    {
      if count >= hwm {
        notFull.Register(f);
        return Blocked;
      }
      var readied := Append(v);
      return Success;
    }

    method Push(f: Fid, v: T) returns (r: Status)
      requires Valid() && f !in notFull.waiting
      modifies this, tail, notFull, notEmpty
      ensures Valid() && (View(), r) == PushCall(old(View()), f, v)
    {
      if closed {
        return Status.Closed;
      }
      r := PushTurnOf(f, v);
    }

    method TryPush(v: T) returns (r: Status)
      requires Valid()
      modifies this, tail, notEmpty
      ensures Valid() && (View(), r) == TryPushCall(old(View()), v)
    {
      if closed {
        return Status.Closed;
      }
      if count >= hwm {
        return Full;
      }
      var readied := Append(v);
      return Success;
    }

    /** What follows the removal of an item. */
    method NotifyProducers() returns (readied: seq<Fid>)
      requires Valid()
      modifies notFull
      ensures var was := old(View()); var k := Readied(was, |was.items|);
              Valid() && View() == was.(notFull := was.notFull[k..]) && readied == was.notFull[..k]
    {
      readied := [];
      if count <= lwm {
        if lwm == hwm {
          var n := notFull.NotifyOne();
          readied := if n.Some? then [n.value] else [];
        } else {
          readied := notFull.NotifyAll();
        }
      }
    }

    /** The first item, and the producers made runnable, in order. */
    method Remove() returns (v: T, readied: seq<Fid>)
      requires Valid() && View().items != []
      modifies this`head, this`count, this`nodes, notFull
      ensures Valid() && View() == Removed(old(View())) && v == old(View()).items[0]
      ensures readied == Called(old(View()))
    {
      ghost var was := View();
      v := PopHead();
      ghost var now := View();
      assert Readied(now, |now.items|) == Readied(was, |was.items| - 1);
      readied := NotifyProducers();
    }

    method TryPop() returns (r: Status, v: Option<T>, readied: seq<Fid>)
      requires Valid()
      modifies this`head, this`count, this`nodes, notFull
      ensures Valid() && (View(), r) == TryPopCall(old(View()))
      ensures v == if old(View()).items == [] then None else Some(old(View()).items[0])
      ensures readied == if r.Success? then Called(old(View())) else []
    {
      var none := IsEmpty();
      if none {
        return if closed then Status.Closed else Empty, None, [];
      }
      var x;
      x, readied := Remove();
      return Success, Some(x), readied;
    }

    method PopTurnOf(f: Fid) returns (r: Status, v: Option<T>)
      requires Valid() && f !in notEmpty.waiting
      modifies this`head, this`count, this`nodes, notFull, notEmpty
      ensures Valid() && (View(), r) == PopTurn(old(View()), f)
      ensures v == if old(View()).items == [] then None else Some(old(View()).items[0])
    {
      var none := IsEmpty();
      if closed && none {
        notEmpty.Register(f);
        return Blocked, None;
      }
      if none {
        return Failed, None;
      }
      var x, readied := Remove();
      return Success, Some(x);
    }

    /** `readied`: the consumers and then the producers made runnable. */
    method Close() returns (readied: seq<Fid>)
      requires Valid()
      modifies this`closed, notFull, notEmpty
      ensures Valid() && View() == old(View()).(closed := true, notFull := [], notEmpty := [])
      ensures readied == old(View()).notEmpty + old(View()).notFull
    {
      closed := true;
      var consumers := notEmpty.NotifyAll();
      var producers := notFull.NotifyAll();
      readied := consumers + producers;
    }
  }

  // ---------------------------------------------------------------- runs

  /** A queue and its users. `blocked`: fibers inside `push`, with the value they bring. `woken`: those of them that
      were readied and have still to retry. `inPop` and `called`: the same for `pop`. `pushed`, `popped`: the values
      of successful calls, in order. */
  datatype Sys<T> = Sys(q: Channel<T>, blocked: map<Fid, T>, woken: set<Fid>, inPop: set<Fid>, called: set<Fid>,
                        pushed: seq<T>, popped: seq<T>)

  datatype Action<T> = Push(f: Fid, v: T) | Retry(f: Fid) | TryPush(v: T) | TryPop | Pop(f: Fid) | Close

  /** A fiber is inside one call at a time, and suspended there until it is readied. */
  ghost predicate Enabled<T>(s: Sys<T>, a: Action<T>) {
    match a
    case Push(f, v) => f !in s.blocked && f !in s.inPop
    case Retry(f) => f in s.woken && f in s.blocked
    case Pop(f) => f !in s.blocked && (f !in s.inPop || f in s.called)
    case _ => true
  }

  /** A value arrives. */
  ghost function Arrive<T>(s: Sys<T>, v: T): Sys<T> {
    s.(q := Appended(s.q, v), pushed := s.pushed + [v],
       called := s.called + if s.q.notEmpty == [] then {} else {s.q.notEmpty[0]})
  }

  /** A value leaves. */
  ghost function Depart<T>(s: Sys<T>): Sys<T>
    requires s.q.items != []
  {
    s.(q := Removed(s.q), popped := s.popped + [s.q.items[0]],
       woken := s.woken + Members(Called(s.q)))
  }

  ghost function Next<T>(s: Sys<T>, a: Action<T>): Sys<T>
    requires Enabled(s, a)
  {
    match a
    case Push(f, v) =>
      var (q, st) := PushCall(s.q, f, v);
      if st.Success? then Arrive(s, v) else if st.Blocked? then s.(q := q, blocked := s.blocked[f := v]) else s
    case Retry(f) =>
      var (q, st) := PushTurn(s.q, f, s.blocked[f]);
      if st.Success? then Arrive(s, s.blocked[f]).(blocked := s.blocked - {f}, woken := s.woken - {f})
      else s.(q := q, woken := s.woken - {f})
    case TryPush(v) => if TryPushCall(s.q, v).1.Success? then Arrive(s, v) else s
    case TryPop => if TryPopCall(s.q).1.Success? then Depart(s) else s
    case Pop(f) =>
      var (q, st) := PopTurn(s.q, f);
      if st.Success? then Depart(s).(inPop := s.inPop - {f}, called := s.called - {f})
      else if st.Blocked? then s.(q := q, inPop := s.inPop + {f}, called := s.called - {f})
      else s
    case Close =>
      s.(q := s.q.(closed := true, notFull := [], notEmpty := []), woken := s.woken + Members(s.q.notFull),
         called := s.called + Members(s.q.notEmpty))
  }

  ghost predicate Contents<T>(s: Sys<T>) {
    |s.q.items| <= s.q.hwm && s.q.lwm <= s.q.hwm && s.pushed == s.popped + s.q.items
  }

  /** The fibers blocked in `push` are the registered ones, once each, and the readied ones; and no producer sleeps
      while there is room for it. */
  ghost predicate Producers<T>(s: Sys<T>) {
    && NoDup(s.q.notFull)
    && (forall f :: f in s.blocked <==> f in s.q.notFull || f in s.woken)
    && (forall f :: f in s.q.notFull ==> f !in s.woken)
    && (s.q.notFull != [] && s.q.lwm < s.q.hwm ==> |s.q.items| > s.q.lwm)
    && (s.q.notFull != [] && s.q.lwm == s.q.hwm ==> s.q.hwm - |s.q.items| <= |s.woken|)
  }

  /** The fibers blocked in `pop` are the registered ones, once each, and the readied ones; consumers sleep only on a
      closed queue, and only while there is no item for them. */
  ghost predicate Consumers<T>(s: Sys<T>) {
    && NoDup(s.q.notEmpty)
    && (forall f :: f in s.inPop <==> f in s.q.notEmpty || f in s.called)
    && (forall f :: f in s.q.notEmpty ==> f !in s.called)
    && (s.q.notEmpty != [] ==> s.q.closed && |s.q.items| <= |s.called|)
  }

  ghost predicate Inv<T>(s: Sys<T>) {
    Producers(s) && Consumers(s) && Contents(s)
  }

  lemma ArriveInv<T>(s: Sys<T>, v: T)
    requires Inv(s) && |s.q.items| < s.q.hwm
    ensures Contents(Arrive(s, v)) && Consumers(Arrive(s, v))
  {
    Assoc(s.popped, s.q.items, [v]);
    if s.q.notEmpty != [] {
      HeadAndTail(s.q.notEmpty);
    }
  }

  lemma PushInv<T>(s: Sys<T>, a: Action<T>)
    requires Inv(s) && Enabled(s, a) && (a.Push? || a.Retry? || a.TryPush?)
    ensures Inv(Next(s, a))
  {
    if |s.q.items| < s.q.hwm {
      ArriveInv(s, if a.Retry? then s.blocked[a.f] else a.v);
    }
  }

  /** What readying the first `k` registered producers does to the lists of producers. */
  lemma ReadyProducers<T>(s: Sys<T>, k: nat)
    requires Producers(s) && k <= |s.q.notFull|
    ensures var left, woken := s.q.notFull[k..], s.woken + Members(s.q.notFull[..k]);
            && NoDup(left)
            && (forall f :: f in s.blocked <==> f in left || f in woken)
            && (forall f :: f in left ==> f !in woken)
            && |woken| >= |s.woken| + if k == 0 then 0 else 1
  {
    var fs := s.q.notFull;
    CutMembers(fs, k);
    assert forall f :: f in fs[k..] <==> f in Members(fs[k..]);
    assert forall f :: f in fs <==> f in Members(fs);
    var gone := Members(fs[..k]);
    if k > 0 {
      assert fs[0] in fs[..k];
      SubsetCardinality(s.woken + {fs[0]}, s.woken + gone);
    } else {
      assert s.woken + gone == s.woken;
    }
  }

  lemma DepartInv<T>(s: Sys<T>)
    requires Inv(s) && s.q.items != []
    ensures Inv(Depart(s))
  {
    HeadMoves(s.popped, s.q.items);
    ReadyProducers(s, Readied(s.q, |s.q.items| - 1));
  }

  lemma PopInv<T>(s: Sys<T>, f: Fid)
    requires Inv(s) && Enabled(s, Pop(f))
    ensures Inv(Next(s, Pop(f)))
  {
    if s.q.items != [] {
      DepartInv(s);
    }
  }

  lemma CloseInv<T>(s: Sys<T>)
    requires Inv(s)
    ensures Inv(Next(s, Close))
  {
    assert forall f :: f in Members(s.q.notFull) <==> f in s.q.notFull;
    assert forall f :: f in Members(s.q.notEmpty) <==> f in s.q.notEmpty;
  }

  lemma NextInv<T>(s: Sys<T>, a: Action<T>)
    requires Inv(s) && Enabled(s, a)
    ensures Inv(Next(s, a))
  {
    match a
    case TryPop => if s.q.items != [] { DepartInv(s); }
    case Pop(f) => PopInv(s, f);
    case Close => CloseInv(s);
    case _ => PushInv(s, a);
  }

  ghost predicate IsRun<T>(s: Sys<T>, acts: seq<Action<T>>)
    decreases |acts|
  {
    acts != [] ==> Enabled(s, acts[0]) && IsRun(Next(s, acts[0]), acts[1..])
  }

  ghost function After<T>(s: Sys<T>, acts: seq<Action<T>>): Sys<T>
    requires IsRun(s, acts)
    decreases |acts|
  {
    if acts == [] then s else After(Next(s, acts[0]), acts[1..])
  }

  ghost function Init<T>(hwm: nat, lwm: nat): Sys<T> {
    Sys(Channel(false, [], hwm, lwm, [], []), map[], {}, {}, {}, [], [])
  }

  lemma MarksStay<T>(s: Sys<T>, a: Action<T>)
    requires Enabled(s, a)
    ensures Next(s, a).q.hwm == s.q.hwm && Next(s, a).q.lwm == s.q.lwm
  {
  }

  lemma {:induction false} RunInv<T>(s: Sys<T>, acts: seq<Action<T>>)
    requires Inv(s) && IsRun(s, acts)
    ensures Inv(After(s, acts)) && After(s, acts).q.hwm == s.q.hwm && After(s, acts).q.lwm == s.q.lwm
    decreases |acts|
  {
    if acts != [] {
      NextInv(s, acts[0]);
      MarksStay(s, acts[0]);
      RunInv(Next(s, acts[0]), acts[1..]);
    }
  }

  /** A queue with any watermarks in order, after any run: the high watermark bounds the contents, items leave in the
      order of arrival, no producer sleeps while the pops so far have made room for it, and consumers sleep only on a
      closed queue, with no more items than readied consumers on their way. */
  lemma QueueRuns<T>(hwm: nat, lwm: nat, acts: seq<Action<T>>)
    requires lwm <= hwm && IsRun(Init(hwm, lwm), acts)
    ensures var s: Sys<T> := After(Init(hwm, lwm), acts);
            && |s.q.items| <= hwm
            && s.pushed == s.popped + s.q.items
            && (lwm < hwm && s.q.notFull != [] ==> |s.q.items| > lwm)
            && (lwm == hwm && s.q.notFull != [] ==> hwm - |s.q.items| <= |s.woken|)
            && (s.q.notEmpty != [] ==> s.q.closed && |s.q.items| <= |s.called|)
  {
    RunInv(Init(hwm, lwm), acts);
  }

  lemma {:induction false} Concat<T>(s: Sys<T>, a: seq<Action<T>>, b: seq<Action<T>>)
    requires IsRun(s, a) && IsRun(After(s, a), b)
    ensures IsRun(s, a + b) && After(s, a + b) == After(After(s, a), b)
    decreases |a|
  {
    if a == [] {
      assert a + b == b;
    } else {
      assert (a + b)[1..] == a[1..] + b;
      Concat(Next(s, a[0]), a[1..], b);
    }
  }

  // ---------------------------------------------------------------- closing

  /** After `close` only the producers that were already blocked can still push, each at most once: the history grows by
      exactly as many values as producers have left. */
  lemma {:induction false} ClosedPushes<T>(s: Sys<T>, acts: seq<Action<T>>)
    requires IsRun(s, acts) && s.q.closed
    ensures var r := After(s, acts);
            && r.q.closed && r.q.hwm == s.q.hwm && (s.q.hwm == 0 ==> r.pushed == s.pushed)
            && s.pushed <= r.pushed && r.blocked.Keys <= s.blocked.Keys
            && |r.pushed| - |s.pushed| == |s.blocked| - |r.blocked|
    decreases |acts|
  {
    if acts != [] {
      ClosedStep(s, acts[0]);
      ClosedPushes(Next(s, acts[0]), acts[1..]);
    }
  }

  lemma ClosedStep<T>(s: Sys<T>, a: Action<T>)
    requires Enabled(s, a) && s.q.closed
    ensures var t := Next(s, a);
            && t.q.closed && t.q.hwm == s.q.hwm && (s.q.hwm == 0 ==> t.pushed == s.pushed)
            && s.pushed <= t.pushed && t.blocked.Keys <= s.blocked.Keys
            && |t.pushed| - |s.pushed| == |s.blocked| - |t.blocked|
  {
    if a.Retry? && |s.q.items| < s.q.hwm {
      assert Next(s, a).blocked.Keys == s.blocked.Keys - {a.f};
    }
  }

  /** A closed queue with a blocked producer can be drained until that producer, or another, pushes. */
  lemma {:induction false} ClosedButPushes<T>(s: Sys<T>) returns (acts: seq<Action<T>>)
    requires Inv(s) && s.q.closed && s.blocked.Keys != {} && s.q.hwm > 0
    ensures IsRun(s, acts) && After(s, acts).pushed != s.pushed
    decreases |s.q.items|
  {
    if s.q.items == [] {
      assert s.woken != {} by {
        var f :| f in s.blocked;
        assert s.q.lwm == s.q.hwm && s.q.notFull != [] ==> |s.woken| > 0;
      }
      var f :| f in s.woken;
      acts := [Retry(f)];
      assert After(s, acts) == After(Next(s, Retry(f)), []);
    } else {
      DepartInv(s);
      var rest := ClosedButPushes(Next(s, TryPop));
      acts := [TryPop] + rest;
      assert acts[1..] == rest;
    }
  }

  ghost predicate NeverPushes<T(!new)>(s: Sys<T>) {
    forall acts :: IsRun(s, acts) ==> After(s, acts).pushed == s.pushed
  }

  /** No push succeeds after `close` exactly when nobody was blocked in `push` at that moment (or there is no room at
      all, with a high watermark of zero): a blocked `push` does not look at `closed` again. */
  lemma NoPushAfterCloseExact<T(!new)>(s: Sys<T>)
    requires Inv(s) && s.q.closed
    ensures NeverPushes(s) <==> s.blocked.Keys == {} || s.q.hwm == 0
  {
    if s.blocked.Keys == {} || s.q.hwm == 0 {
      forall acts | IsRun(s, acts) ensures After(s, acts).pushed == s.pushed {
        ClosedPushes(s, acts);
      }
    } else {
      var acts := ClosedButPushes(s);
    }
  }

  lemma Extend<T>(s: Sys<T>, acts: seq<Action<T>>, a: Action<T>)
    requires IsRun(s, acts) && Enabled(After(s, acts), a)
    ensures IsRun(s, acts + [a]) && After(s, acts + [a]) == Next(After(s, acts), a)
  {
    var r := After(s, acts);
    assert IsRun(Next(r, a), []) && IsRun(r, [a]) && After(r, [a]) == Next(r, a);
    Concat(s, acts, [a]);
  }

  /** Three calls close a queue with a producer blocked: a push that fills it, one that blocks, and `close`. */
  lemma ClosedWhileBlocked() returns (acts: seq<Action<int>>)
    ensures IsRun(Init<int>(1, 0), acts)
    ensures var s := After(Init<int>(1, 0), acts); s.q.closed && 1 in s.blocked
  {
    var s0 := Init<int>(1, 0);
    acts := [];
    Extend(s0, acts, Push(0, 5));
    acts := acts + [Push(0, 5)];
    Extend(s0, acts, Push(1, 6));
    acts := acts + [Push(1, 6)];
    Extend(s0, acts, Close);
    acts := acts + [Close];
  }

  /** And then a push succeeds. */
  lemma PushAfterCloseReached() returns (acts: seq<Action<int>>, more: seq<Action<int>>)
    ensures IsRun(Init<int>(1, 0), acts)
    ensures var s := After(Init<int>(1, 0), acts); s.q.closed && IsRun(s, more) && After(s, more).pushed != s.pushed
  {
    acts := ClosedWhileBlocked();
    RunInv(Init<int>(1, 0), acts);
    assert 1 in After(Init<int>(1, 0), acts).blocked.Keys;
    more := ClosedButPushes(After(Init<int>(1, 0), acts));
  }

  // ---------------------------------------------------------------- pop

  lemma {:induction false} PoppedGrows<T>(s: Sys<T>, acts: seq<Action<T>>)
    requires IsRun(s, acts)
    ensures s.popped <= After(s, acts).popped
    ensures After(s, acts).popped == s.popped ==> s.inPop <= After(s, acts).inPop
    decreases |acts|
  {
    if acts != [] {
      PoppedGrows(Next(s, acts[0]), acts[1..]);
    }
  }

  ghost predicate NeverPops<T(!new)>(s: Sys<T>) {
    forall acts :: IsRun(s, acts) ==> After(s, acts).popped == s.popped && s.inPop <= After(s, acts).inPop
  }

  /** A closed and empty queue: `pop` should report that it is closed, but it waits, and no call of it ever returns,
      exactly when no producer was blocked (or there is no room at all). */
  lemma PopWaitsForEverExactly<T(!new)>(s: Sys<T>)
    requires Inv(s) && s.q.closed && s.q.items == []
    ensures NeverPops(s) <==> s.blocked.Keys == {} || s.q.hwm == 0
  {
    if s.blocked.Keys == {} || s.q.hwm == 0 {
      forall acts | IsRun(s, acts) ensures After(s, acts).popped == s.popped && s.inPop <= After(s, acts).inPop {
        ClosedPushes(s, acts);
        RunInv(s, acts);
        PoppedGrows(s, acts);
        NoPushAfterCloseExact(s);
      }
    } else {
      var acts := ClosedButPushes(s);
      var r := After(s, acts);
      RunInv(s, acts);
      PoppedGrows(s, acts);
      if r.popped == s.popped {
        assert IsRun(r, [TryPop]) && After(r, [TryPop]) == Next(r, TryPop);
        Concat(s, acts, [TryPop]);
        assert After(s, acts + [TryPop]).popped != s.popped;
      }
    }
  }

  /** Both ways in which `pop` goes wrong are met at once: on a new queue it fails its assertion, and on a new queue
      that is closed it waits for ever. */
  lemma PopFailuresReached() returns (acts: seq<Action<int>>)
    ensures PopTurn(Init<int>(1, 0).q, 0).1.Failed?
    ensures IsRun(Init<int>(1, 0), acts)
    ensures var s := After(Init<int>(1, 0), acts); 0 in s.inPop && NeverPops(s)
  {
    var s0 := Init<int>(1, 0);
    acts := [];
    Extend(s0, acts, Close);
    acts := acts + [Close];
    Extend(s0, acts, Pop(0));
    acts := acts + [Pop(0)];
    RunInv(s0, acts);
    PopWaitsForEverExactly(After(s0, acts));
  }

  // ---------------------------------------------------------------- what the calls answer

  /** How many values are in the queue, by the history. */
  ghost function Load<T>(s: Sys<T>): int {
    |s.pushed| - |s.popped|
  }

  /** What the arrival of a value changes besides the callers of `push`: the first sleeping consumer is readied. */
  ghost predicate Arrived<T>(s: Sys<T>, r: Sys<T>, v: T) {
    && r.pushed == s.pushed + [v] && r.popped == s.popped && r.q.closed == s.q.closed && r.inPop == s.inPop
    && r.q.notFull == s.q.notFull
    && (if s.q.notEmpty == [] then r.q.notEmpty == [] && r.called == s.called
        else s.q.notEmpty == [s.q.notEmpty[0]] + r.q.notEmpty && r.called == s.called + {s.q.notEmpty[0]})
  }

  /** Nothing but the lists of producers may differ. */
  ghost predicate NothingArrived<T>(s: Sys<T>, r: Sys<T>) {
    && r.pushed == s.pushed && r.popped == s.popped && r.q.closed == s.q.closed
    && r.inPop == s.inPop && r.called == s.called && r.q.notEmpty == s.q.notEmpty
  }

  /** `push` on an open queue succeeds if and only if there is room below the high watermark, whatever the low one; on a
      full one its fiber goes to sleep with its value, the last in the list. A closed queue it leaves alone. */
  lemma PushExactly<T>(s: Sys<T>, f: Fid, v: T)
    requires Inv(s) && Enabled(s, Push(f, v))
    ensures var r, st := Next(s, Push(f, v)), PushCall(s.q, f, v).1;
            if s.q.closed then st == Closed && r == s
            else if Load(s) < s.q.hwm
            then st == Success && Arrived(s, r, v) && r.blocked == s.blocked && r.woken == s.woken
            else st == Blocked && NothingArrived(s, r) && r.q.notFull == s.q.notFull + [f]
                 && r.blocked == s.blocked[f := v] && r.woken == s.woken
  {
  }

  /** The continuation of a blocked `push`: the same, without a look at `closed`; when it succeeds the call is over. */
  lemma RetryExactly<T>(s: Sys<T>, f: Fid)
    requires Inv(s) && Enabled(s, Retry(f))
    ensures var r := Next(s, Retry(f));
            && r.woken == s.woken - {f}
            && (if Load(s) < s.q.hwm then Arrived(s, r, s.blocked[f]) && r.blocked == s.blocked - {f}
                else NothingArrived(s, r) && r.q.notFull == s.q.notFull + [f] && r.blocked == s.blocked)
  {
  }

  lemma TryPushExactly<T>(s: Sys<T>, v: T)
    requires Inv(s)
    ensures var r, st := Next(s, TryPush(v)), TryPushCall(s.q, v).1;
            if s.q.closed then st == Closed && r == s
            else if Load(s) < s.q.hwm
            then st == Success && Arrived(s, r, v) && r.blocked == s.blocked && r.woken == s.woken
            else st == Full && r == s
  {
  }

  /** What the departure of a value changes besides its taker: above the low watermark nobody is readied; at or below it
      the first sleeping producer if the watermarks are equal, otherwise all of them. */
  ghost predicate Departed<T>(s: Sys<T>, r: Sys<T>) {
    && |s.popped| < |s.pushed| && r.popped == s.popped + [s.pushed[|s.popped|]] && r.pushed == s.pushed
    && r.q.closed == s.q.closed && r.blocked == s.blocked && r.q.notEmpty == s.q.notEmpty
    && (if Load(r) > s.q.lwm || s.q.notFull == [] then r.q.notFull == s.q.notFull && r.woken == s.woken
        else if s.q.lwm < s.q.hwm then r.q.notFull == [] && r.woken == s.woken + Members(s.q.notFull)
        else s.q.notFull == [s.q.notFull[0]] + r.q.notFull && r.woken == s.woken + {s.q.notFull[0]})
  }

  lemma DepartExactly<T>(s: Sys<T>)
    requires Inv(s) && s.q.items != []
    ensures Departed(s, Depart(s))
  {
    assert s.pushed[|s.popped|] == s.q.items[0];
    var fs := s.q.notFull;
    if fs != [] {
      assert fs[..|fs|] == fs && fs[|fs|..] == [] && fs[..1] == [fs[0]] && Members([fs[0]]) == {fs[0]};
      assert fs == [fs[0]] + fs[1..];
    }
    assert fs[..0] == [] && fs[0..] == fs && s.woken + Members(fs[..0]) == s.woken;
  }

  /** `try_pop` gives the oldest value if there is one; otherwise it tells a closed queue from an empty one. */
  lemma TryPopExactly<T>(s: Sys<T>)
    requires Inv(s)
    ensures var r, st := Next(s, TryPop), TryPopCall(s.q).1;
            if Load(s) > 0 then st == Success && Departed(s, r) && r.inPop == s.inPop && r.called == s.called
            else st == (if s.q.closed then Closed else Empty) && r == s
  {
    if s.q.items != [] { DepartExactly(s); }
  }

  /** `pop` gives the oldest value if there is one. On an empty queue it goes to sleep if that is closed, the last in
      the list, and fails its assertion if that is open. */
  lemma PopExactly<T>(s: Sys<T>, f: Fid)
    requires Inv(s) && Enabled(s, Pop(f))
    ensures var r, st := Next(s, Pop(f)), PopTurn(s.q, f).1;
            if Load(s) > 0
            then st == Success && Departed(s, r) && r.inPop == s.inPop - {f} && r.called == s.called - {f}
            else if s.q.closed then st == Blocked && r.popped == s.popped && r.pushed == s.pushed
                                    && r.q == s.q.(notEmpty := s.q.notEmpty + [f]) && r.inPop == s.inPop + {f}
                                    && r.called == s.called - {f} && r.blocked == s.blocked && r.woken == s.woken
            else st == Failed && r == s
  {
    if s.q.items != [] { DepartExactly(s); }
  }

  /** `close` closes, keeps the contents, and readies everybody who sleeps in `push` or `pop`. */
  lemma CloseExactly<T>(s: Sys<T>)
    requires Inv(s)
    ensures var r := Next(s, Close);
            && r.q.closed && r.q.items == s.q.items && r.pushed == s.pushed && r.popped == s.popped
            && r.blocked == s.blocked && r.woken == s.blocked.Keys && r.inPop == s.inPop && r.called == s.inPop
            && r.q.notFull == [] && r.q.notEmpty == []
  {
    assert forall f :: f in Members(s.q.notFull) <==> f in s.q.notFull;
    assert forall f :: f in Members(s.q.notEmpty) <==> f in s.q.notEmpty;
    assert Next(s, Close).woken == s.blocked.Keys;
  }

  /** `acts` offers the values of `vs` one after the other, each by `push` or by `try_push`. */
  ghost predicate Offers<T>(acts: seq<Action<T>>, vs: seq<T>) {
    |acts| == |vs| && forall i :: 0 <= i < |acts| ==> acts[i] == TryPush(vs[i]) || (acts[i].Push? && acts[i].v == vs[i])
  }

  /** As long as nobody is inside a call and there is room, every offer is taken at once. */
  lemma {:induction false} RoomForAll<T>(s: Sys<T>, acts: seq<Action<T>>, vs: seq<T>)
    requires Inv(s) && !s.q.closed && s.blocked == map[] && s.inPop == {} && Offers(acts, vs)
    requires Load(s) + |vs| <= s.q.hwm
    ensures IsRun(s, acts)
    ensures var r := After(s, acts); r.pushed == s.pushed + vs && r.popped == s.popped && r.blocked == map[]
    decreases |acts|
  {
    if acts != [] {
      var r := Next(s, acts[0]);
      if acts[0].Push? { PushExactly(s, acts[0].f, vs[0]); } else { TryPushExactly(s, vs[0]); }
      NextInv(s, acts[0]);
      MarksStay(s, acts[0]);
      assert Arrived(s, r, vs[0]);
      assert Offers(acts[1..], vs[1..]);
      RoomForAll(r, acts[1..], vs[1..]);
      Assoc(s.pushed, [vs[0]], vs[1..]);
      assert vs == [vs[0]] + vs[1..];
    } else {
      assert s.pushed + vs == s.pushed;
    }
  }

  /** A new queue takes as many values as its high watermark says, in order, without blocking anybody; the next `push`
      blocks and the next `try_push` finds it full. */
  lemma FillsUp<T>(hwm: nat, lwm: nat, acts: seq<Action<T>>, vs: seq<T>, f: Fid, v: T)
    requires lwm <= hwm && Offers(acts, vs) && |vs| <= hwm
    ensures IsRun(Init(hwm, lwm), acts)
    ensures var r: Sys<T> := After(Init(hwm, lwm), acts);
            && r.pushed == vs && r.q.items == vs && r.blocked == map[]
            && (PushCall(r.q, f, v).1 == if |vs| == hwm then Blocked else Success)
            && (TryPushCall(r.q, v).1 == if |vs| == hwm then Full else Success)
  {
    var s: Sys<T> := Init(hwm, lwm);
    RoomForAll(s, acts, vs);
    RunInv(s, acts);
    OpenStays(s, acts);
    assert s.pushed + vs == vs;
  }

  lemma {:induction false} OpenStays<T>(s: Sys<T>, acts: seq<Action<T>>)
    requires IsRun(s, acts) && Close !in acts
    ensures After(s, acts).q.closed == s.q.closed
    decreases |acts|
  {
    if acts != [] { OpenStays(Next(s, acts[0]), acts[1..]); }
  }

  /** Nobody goes to sleep in `push` but its caller, and on a full queue. */
  lemma SleepsOnlyWhenFull<T>(s: Sys<T>, a: Action<T>, f: Fid)
    requires Inv(s) && Enabled(s, a) && f !in s.q.notFull && f in Next(s, a).q.notFull
    ensures Load(s) == s.q.hwm && (a == Retry(f) || (a.Push? && a.f == f))
  {
    match a
    case TryPop => TryPopExactly(s);
    case Pop(g) => PopExactly(s, g);
    case _ =>
  }
}
