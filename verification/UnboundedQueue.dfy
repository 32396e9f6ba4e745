/** The unbounded queue: the same linked list, without watermarks, and with blocked consumers. */
module UnboundedQueues {
  import opened Seqs
  import opened Mutexes
  import opened Conditions
  import opened QueueNodes

  /** `Blocked`: the call registered its fiber on `not_empty_cond_` and is suspended. */
  datatype Status = Success | Closed | Empty | Blocked

  datatype Channel<T> = Channel(closed: bool, items: seq<T>, notEmpty: seq<Fid>)

  // ---------------------------------------------------------------- critical sections

  function PushCall<T>(q: Channel<T>, v: T): (Channel<T>, Status) {
    if q.closed then (q, Closed)
    else (q.(items := q.items + [v], notEmpty := if q.notEmpty == [] then [] else q.notEmpty[1..]), Success)
  }

  /** The body of `pop` up to its next suspension, on the first call and on every retry. */
  function PopTurn<T>(q: Channel<T>, f: Fid): (Channel<T>, Status) {
    if !q.closed && q.items == [] then (q.(notEmpty := q.notEmpty + [f]), Blocked)
    else if q.items == [] then (q, Closed)
    else (q.(items := q.items[1..]), Success)
  }

  function TryPopCall<T>(q: Channel<T>): (Channel<T>, Status) {
    if q.items == [] then (q, if q.closed then Closed else Empty) else (q.(items := q.items[1..]), Success)
  }

  class UnboundedQueue<T(0)> {
    var closed: bool
    var head: Node<T>
    var tail: Node<T>
    const notEmpty: ConditionObject
    /** The nodes from `head` to `tail`; the last one carries no item. */
    ghost var nodes: seq<Node<T>>

    ghost predicate Valid()
      reads this, nodes
    {
      Chain(nodes) && head == nodes[0] && tail == nodes[|nodes| - 1]
    }

    ghost function View(): Channel<T>
      reads this, nodes, notEmpty
      requires Valid()
    {
      Channel(closed, Items(nodes), notEmpty.waiting)
    }

    constructor ()
      ensures Valid() && fresh(nodes) && fresh(notEmpty) && View() == Channel(false, [], [])
    {
      var dummy := new Node<T>();
      closed, head, tail := false, dummy, dummy;
      notEmpty := new ConditionObject();
      nodes := [dummy];
    }

    method IsEmpty() returns (r: bool)
      requires Valid()
      ensures r <==> View().items == []
    {
      ChainEnds(nodes);
      r := head == tail;
    }

    method PopHead() returns (v: T)
      requires Valid() && View().items != []
      modifies this`head, this`nodes
      ensures Valid() && nodes == old(nodes)[1..] && v == old(View()).items[0]
      ensures View() == old(View()).(items := old(View()).items[1..])
    {
      ChainTail(nodes);
      v := head.va;
      head := head.next;
      nodes := nodes[1..];
    }

    /** `readied`: the consumer made runnable. */
    method Push(v: T) returns (r: Status, readied: Option<Fid>)
      requires Valid()
      modifies this, tail, notEmpty
      ensures Valid() && (View(), r) == PushCall(old(View()), v)
      ensures var was := old(View()).notEmpty;
              readied == if was == [] || r.Closed? then None else Some(was[0])
    {
      if closed {
        return Status.Closed, None;
      }
      tail := QueueNodes.Append(tail, v, nodes);
      nodes := nodes + [tail];
      readied := notEmpty.NotifyOne();
      r := Success;
    }

    method PopTurnOf(f: Fid) returns (r: Status, v: Option<T>)
      requires Valid() && f !in notEmpty.waiting
      modifies this, notEmpty
      ensures Valid() && (View(), r) == PopTurn(old(View()), f)
      ensures v == if old(View()).items == [] then None else Some(old(View()).items[0])
    {
      var none := IsEmpty();
      if !closed && none {
        notEmpty.Register(f);
        return Blocked, None;
      }
      if closed && none {
        return Status.Closed, None;
      }
      var x := PopHead();
      return Success, Some(x);
    }

    method TryPop() returns (r: Status, v: Option<T>)
      requires Valid()
      modifies this
      ensures Valid() && (View(), r) == TryPopCall(old(View()))
      ensures v == if old(View()).items == [] then None else Some(old(View()).items[0])
    {
      var none := IsEmpty();
      if closed && none {
        return Status.Closed, None;
      }
      if none {
        return Empty, None;
      }
      var x := PopHead();
      return Success, Some(x);
    }

    method Close() returns (readied: seq<Fid>)
      requires Valid()
      modifies this`closed, notEmpty
      ensures Valid() && View() == old(View()).(closed := true, notEmpty := []) && readied == old(View()).notEmpty
    {
      closed := true;
      readied := notEmpty.NotifyAll();
    }
  }

  // ---------------------------------------------------------------- runs

  /** A queue and its consumers. `inPop`: fibers whose `pop` did not return yet. `woken`: those of them that were
      readied and have still to retry. `pushed`, `popped`: the values of successful calls, in order. */
  datatype Sys<T> = Sys(q: Channel<T>, inPop: set<Fid>, woken: set<Fid>, pushed: seq<T>, popped: seq<T>)

  datatype Action<T> = Push(v: T) | Pop(f: Fid) | TryPop | Close

  /** A fiber inside `pop` is suspended until it is readied; then it continues its loop. */
  ghost predicate Enabled<T>(s: Sys<T>, a: Action<T>) {
    a.Pop? ==> a.f !in s.inPop || a.f in s.woken
  }

  ghost function Next<T>(s: Sys<T>, a: Action<T>): Sys<T>
    requires Enabled(s, a)
  {
    match a
    case Push(v) =>
      var (q, st) := PushCall(s.q, v);
      if st.Success?
      then s.(q := q, pushed := s.pushed + [v], woken := s.woken + if s.q.notEmpty == [] then {} else {s.q.notEmpty[0]})
      else s
    case Pop(f) =>
      var (q, st) := PopTurn(s.q, f);
      if st.Blocked? then s.(q := q, inPop := s.inPop + {f}, woken := s.woken - {f})
      else s.(q := q, inPop := s.inPop - {f}, woken := s.woken - {f},
              popped := s.popped + if st.Success? then [s.q.items[0]] else [])
    case TryPop =>
      var (q, st) := TryPopCall(s.q);
      s.(q := q, popped := s.popped + if st.Success? then [s.q.items[0]] else [])
    case Close => s.(q := s.q.(closed := true, notEmpty := []), woken := s.woken + Members(s.q.notEmpty))
  }

  ghost predicate Inv<T>(s: Sys<T>) {
    && s.pushed == s.popped + s.q.items
    // the fibers blocked in `pop` are the registered ones, once each, and the readied ones
    && NoDup(s.q.notEmpty)
    && (forall f :: f in s.inPop <==> f in s.q.notEmpty || f in s.woken)
    && (forall f :: f in s.q.notEmpty ==> f !in s.woken)
    // no consumer sleeps while there is an item for it, and none at all once the queue is closed
    && (s.q.notEmpty != [] ==> |s.q.items| <= |s.woken| && !s.q.closed)
  }

  lemma PushInv<T>(s: Sys<T>, v: T)
    requires Inv(s)
    ensures Inv(Next(s, Push(v)))
  {
    if s.q.notEmpty != [] {
      HeadAndTail(s.q.notEmpty);
    }
    Assoc(s.popped, s.q.items, [v]);
  }

  lemma PopInv<T>(s: Sys<T>, a: Action<T>)
    requires Inv(s) && Enabled(s, a) && (a.Pop? || a.TryPop?)
    ensures Inv(Next(s, a))
  {
    if s.q.items != [] {
      HeadMoves(s.popped, s.q.items);
    }
  }

  lemma NextInv<T>(s: Sys<T>, a: Action<T>)
    requires Inv(s) && Enabled(s, a)
    ensures Inv(Next(s, a))
  {
    match a
    case Push(v) => PushInv(s, v);
    case Close => assert forall f :: f in Members(s.q.notEmpty) <==> f in s.q.notEmpty;
    case _ => PopInv(s, a);
  }

  ghost predicate IsRun<T>(s: Sys<T>, acts: seq<Action<T>>)
    decreases |acts|
  {
    acts != [] ==> Enabled(s, acts[0]) && IsRun(Next(s, acts[0]), acts[1..])
  }

  ghost function After<T>(s: Sys<T>, acts: seq<Action<T>>): Sys<T>
    requires IsRun(s, acts)
    decreases |acts|
  {
    if acts == [] then s else After(Next(s, acts[0]), acts[1..])
  }

  ghost function Init<T>(): Sys<T> {
    Sys(Channel(false, [], []), {}, {}, [], [])
  }

  lemma {:induction false} RunInv<T>(s: Sys<T>, acts: seq<Action<T>>)
    requires Inv(s) && IsRun(s, acts)
    ensures Inv(After(s, acts))
    decreases |acts|
  {
    if acts != [] {
      NextInv(s, acts[0]);
      RunInv(Next(s, acts[0]), acts[1..]);
    }
  }

  /** Any run of a new queue: items leave in the order of arrival, and while consumers sleep there are no more items
      than readied consumers on their way. */
  lemma QueueRuns<T>(acts: seq<Action<T>>)
    requires IsRun(Init(), acts)
    ensures var s: Sys<T> := After(Init(), acts);
            && s.pushed == s.popped + s.q.items
            && (s.q.notEmpty != [] ==> |s.q.items| <= |s.woken|)
  {
    RunInv<T>(Init(), acts);
  }

  /** After `close` the history of pushes is frozen, nobody is registered ever again, and every consumer still inside
      `pop` has been readied. */
  lemma {:induction false} ClosedRuns<T>(s: Sys<T>, acts: seq<Action<T>>)
    requires Inv(s) && IsRun(s, acts) && s.q.closed
    ensures var r := After(s, acts);
            && r.q.closed && r.pushed == s.pushed && r.q.notEmpty == [] && r.inPop == r.woken
            && r.inPop <= s.inPop && s.popped <= r.popped
    decreases |acts|
  {
    if acts != [] {
      NextInv(s, acts[0]);
      ClosedRuns(Next(s, acts[0]), acts[1..]);
    }
  }

  /** Calls of `pop`, one after the other. */
  ghost function Pops<T>(fs: seq<Fid>): (acts: seq<Action<T>>)
    ensures |acts| == |fs|
    ensures fs != [] ==> acts[0] == Pop(fs[0]) && acts[1..] == Pops(fs[1..])
  {
    if fs == [] then [] else [Pop(fs[0])] + Pops(fs[1..])
  }

  /** Draining a closed queue hands out exactly the remaining items, in order, and then every `pop` reports `Closed`. */
  lemma {:induction false} DrainClosed<T>(s: Sys<T>, fs: seq<Fid>)
    requires Inv(s) && s.q.closed && |fs| == |s.q.items|
    ensures IsRun(s, Pops(fs)) && After(s, Pops(fs)).popped == s.pushed
    ensures forall f :: PopTurn(After(s, Pops(fs)).q, f).1 == Closed
    decreases |fs|
  {
    if fs != [] {
      NextInv(s, Pop(fs[0]));
      DrainClosed(Next(s, Pop(fs[0])), fs[1..]);
    }
  }

  // ---------------------------------------------------------------- what the calls answer

  /** How many values are in the queue, by the history. */
  ghost function Load<T>(s: Sys<T>): int {
    |s.pushed| - |s.popped|
  }

  /** `push` always succeeds on an open queue and readies the consumer that sleeps longest; it leaves a closed one
      alone. */
  lemma PushExactly<T>(s: Sys<T>, v: T)
    requires Inv(s)
    ensures var r, st := Next(s, Push(v)), PushCall(s.q, v).1;
            if s.q.closed then st == Closed && r == s
            else && st == Success && r.pushed == s.pushed + [v] && r.popped == s.popped && !r.q.closed
                 && r.inPop == s.inPop
                 && (if s.q.notEmpty == [] then r.q.notEmpty == [] && r.woken == s.woken
                     else s.q.notEmpty == [s.q.notEmpty[0]] + r.q.notEmpty && r.woken == s.woken + {s.q.notEmpty[0]})
  {
  }

  /** The oldest value leaves. */
  ghost predicate Departed<T>(s: Sys<T>, r: Sys<T>) {
    && |s.popped| < |s.pushed| && r.popped == s.popped + [s.pushed[|s.popped|]] && r.pushed == s.pushed
    && r.q.closed == s.q.closed && r.q.notEmpty == s.q.notEmpty
  }

  /** A call of `pop`, or its continuation: with the oldest value if there is one; on an open empty queue it goes to
      sleep, the last in the list; and it reports `Closed` if and only if the queue is closed and empty. */
  lemma PopExactly<T>(s: Sys<T>, f: Fid)
    requires Inv(s) && Enabled(s, Pop(f))
    ensures var r, st := Next(s, Pop(f)), PopTurn(s.q, f).1;
            && r.woken == s.woken - {f}
            && if Load(s) > 0 then st == Success && Departed(s, r) && r.inPop == s.inPop - {f}
               else if s.q.closed then st == Closed && r.q == s.q && r.popped == s.popped && r.inPop == s.inPop - {f}
                                       && r.pushed == s.pushed
               else st == Blocked && r.q == s.q.(notEmpty := s.q.notEmpty + [f]) && r.inPop == s.inPop + {f}
                    && r.pushed == s.pushed && r.popped == s.popped
  {
    if s.q.items != [] { assert s.pushed[|s.popped|] == s.q.items[0]; }
  }

  lemma TryPopExactly<T>(s: Sys<T>)
    requires Inv(s)
    ensures var r, st := Next(s, TryPop), TryPopCall(s.q).1;
            if Load(s) > 0 then st == Success && Departed(s, r) && r.inPop == s.inPop && r.woken == s.woken
            else st == (if s.q.closed then Closed else Empty) && r == s
  {
    if s.q.items != [] { assert s.pushed[|s.popped|] == s.q.items[0]; }
  }

  /** `close` closes, keeps the contents, and readies every consumer. */
  lemma CloseExactly<T>(s: Sys<T>)
    requires Inv(s)
    ensures var r := Next(s, Close);
            && r.q == Channel(true, s.q.items, []) && r.pushed == s.pushed && r.popped == s.popped
            && r.inPop == s.inPop && r.woken == s.inPop
  {
    assert forall f :: f in Members(s.q.notEmpty) <==> f in s.q.notEmpty;
  }

  ghost function PushCount<T>(acts: seq<Action<T>>): nat {
    if acts == [] then 0 else (if acts[0].Push? then 1 else 0) + PushCount(acts[1..])
  }

  lemma ConsumerStep<T>(s: Sys<T>, a: Action<T>, k: nat)
    requires Inv(s) && Enabled(s, a) && k < |s.q.notEmpty| && !a.Close? && (a.Push? ==> k > 0)
    ensures var r, k' := Next(s, a), if a.Push? then k - 1 else k;
            Inv(r) && k' < |r.q.notEmpty| && r.q.notEmpty[k'] == s.q.notEmpty[k] && !r.q.closed
  {
    NextInv(s, a);
    match a
    case Push(v) => PushExactly(s, v);
    case Pop(f) => PopExactly(s, f);
    case TryPop => TryPopExactly(s);
  }

  /** A consumer at index `k` of the sleepers sleeps through the first `k` pushes, whatever else but `close` happens,
      and gets one place nearer with each: its call does not return, and it is not readied ... */
  lemma {:induction false} ConsumersAdvance<T>(s: Sys<T>, acts: seq<Action<T>>, k: nat)
    requires Inv(s) && IsRun(s, acts) && k < |s.q.notEmpty| && PushCount(acts) <= k && Close !in acts
    ensures var r, f := After(s, acts), s.q.notEmpty[k];
            && Inv(r) && !r.q.closed && k - PushCount(acts) < |r.q.notEmpty| && r.q.notEmpty[k - PushCount(acts)] == f
            && f in r.inPop && f !in r.woken
    decreases |acts|
  {
    if acts != [] {
      ConsumerStep(s, acts[0], k);
      ConsumersAdvance(Next(s, acts[0]), acts[1..], if acts[0].Push? then k - 1 else k);
    }
  }

  /** ... and the next push readies it; if no value is taken before it continues, its call returns one. */
  lemma ConsumerServed<T>(s: Sys<T>, acts: seq<Action<T>>, k: nat, v: T)
    requires Inv(s) && IsRun(s, acts) && k < |s.q.notEmpty| && PushCount(acts) == k && Close !in acts
    ensures var f, r := s.q.notEmpty[k], Next(After(s, acts), Push(v));
            && Enabled(r, Pop(f)) && f in r.woken && f !in r.q.notEmpty
            && var t := Next(r, Pop(f)); f !in t.inPop && |t.popped| == |r.popped| + 1
  {
    ConsumersAdvance(s, acts, k);
    var q, f := After(s, acts), s.q.notEmpty[k];
    PushExactly(q, v);
    NextInv(q, Push(v));
    PopExactly(Next(q, Push(v)), f);
  }

  /** A `pop` that begins on an open empty queue does not return before a later push or `close`. */
  lemma PopWaits<T>(s: Sys<T>, f: Fid, acts: seq<Action<T>>)
    requires Inv(s) && Enabled(s, Pop(f)) && !s.q.closed && Load(s) == 0
    requires IsRun(Next(s, Pop(f)), acts) && Close !in acts && PushCount(acts) == 0
    ensures var r := After(Next(s, Pop(f)), acts); f in r.inPop && f in r.q.notEmpty && f !in r.woken
  {
    var t, k := Next(s, Pop(f)), |s.q.notEmpty|;
    PopExactly(s, f);
    NextInv(s, Pop(f));
    assert t.q.notEmpty[k] == f;
    ConsumersAdvance(t, acts, k);
  }

  lemma {:induction false} RegisterAll<T>(s: Sys<T>, fs: seq<Fid>)
    requires Inv(s) && !s.q.closed && Load(s) == 0 && NoDup(fs) && forall f :: f in fs ==> f !in s.inPop
    ensures IsRun(s, Pops(fs)) && After(s, Pops(fs)).q.notEmpty == s.q.notEmpty + fs
    decreases |fs|
  {
    if fs != [] {
      PopExactly(s, fs[0]);
      NextInv(s, Pop(fs[0]));
      HeadAndTail(fs);
      RegisterAll(Next(s, Pop(fs[0])), fs[1..]);
      Assoc(s.q.notEmpty, [fs[0]], fs[1..]);
      assert fs == [fs[0]] + fs[1..];
    } else {
      assert s.q.notEmpty + fs == s.q.notEmpty;
    }
  }

  /** Consumers do sleep: any fibers that call `pop` on a new queue are registered, in the order of their calls. */
  lemma ConsumersRegister<T>(fs: seq<Fid>)
    requires NoDup(fs)
    ensures IsRun<T>(Init(), Pops(fs)) && After<T>(Init(), Pops(fs)).q.notEmpty == fs
  {
    RegisterAll<T>(Init(), fs);
    assert [] + fs == fs;
  }
}
