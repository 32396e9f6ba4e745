/** The scheduler object of one thread: every method is one step of the scheduler model, done on the linked fibers. */
module FiberManagers {
  import opened Seqs
  import opened WaitingOrder
  import opened SchedulerHeap
  import Model = SchedulerModel
  import Joins = SchedulerJoins
  import Runs = SchedulerRuns

  /** The two queues over one set of fibers, whose link fields they share. */
  class Queues {
    const wq: WaitingQueue
    /** The ready queue of the default algorithm, round robin. */
    const rq: Fifo
    ghost var all: set<WorkerFiber>

    /** The lists share no fiber; only waiting fibers point to the waiting queue; a fiber in neither has no links. */
    ghost predicate Home(f: WorkerFiber)
      reads this, wq, rq, f`nxt, f`prev, f`queue
    {
      && (f in wq.q ==> f !in rq.q)
      && (f !in wq.q ==> f.queue == null)
      && (f !in wq.q && f !in rq.q ==> f.Unlinked())
    }

    ghost predicate Valid()
      reads this, wq, rq, all`nxt, all`prev, all`queue
    {
      && (forall i :: 0 <= i < |wq.q| ==> wq.q[i] in all)
      && (forall i :: 0 <= i < |rq.q| ==> rq.q[i] in all)
      && wq.Valid() && rq.Valid()
      && forall f {:trigger Home(f)} :: f in all ==> Home(f)
    }

    constructor ()
      ensures Valid() && wq.q == [] && rq.q == [] && all == {} && fresh(wq) && fresh(rq)
    {
      wq := new WaitingQueue();
      rq := new Fifo();
      all := {};
    }

    /** A new fiber, in neither queue. */
    ghost method Adopt(f: WorkerFiber)
      requires Valid() && f !in all && f !in wq.q && f !in rq.q && f.Unlinked() && f.queue == null
      modifies `all
      ensures Valid() && all == old(all) + {f}
    {
      all := all + {f};
      forall g | g in all ensures Home(g) { if g != f { assert old(Home(g)); } }
    }

    /** A fiber that is not in the waiting queue stays where it is; any other goes to the front of it. */
    method MoveToRun(p: WorkerFiber)
      requires Valid() && p in all && !p.state.Running?
      modifies wq, all`nxt, all`prev
      ensures Valid()
      ensures wq.q == if p in old(wq.q) then MovedToFront(old(wq.q), IndexOf(old(wq.q), p)) else old(wq.q)
    {
      assert Home(p);
      ghost var k := if p in wq.q then IndexOf(wq.q, p) else 0;
      WaitingQueue.MoveToRun(p, k, if p in wq.q then wq.q else []);
      forall i | 0 <= i < |wq.q| ensures wq.q[i] in all { assert wq.q[i] in old(wq.q); }
      forall i | 0 <= i < |rq.q| ensures LinkAt(rq.q, i) {
        assert old(Home(rq.q[i]));
        assert old(LinkAt(rq.q, i));
      }
      forall f | f in all ensures Home(f) { assert old(Home(f)); }
    }

    /** The head of the waiting queue leaves it and is then in neither queue. */
    method TakeHead() returns (f: WorkerFiber)
      requires Valid() && wq.q != []
      modifies wq, all`nxt, all`prev, all`queue, {wq.q[0]}`tp
      ensures Valid() && f == old(wq.q)[0] && wq.q == old(wq.q)[1..] && f !in wq.q && f !in rq.q && f.tp == TIME_MAX
    {
      assert Home(wq.q[0]);
      f := wq.PopHead();
      forall i | 0 <= i < |rq.q| ensures LinkAt(rq.q, i) {
        assert old(Home(rq.q[i]));
        assert old(LinkAt(rq.q, i));
      }
      forall g | g in all ensures Home(g) { assert old(Home(g)); }
    }

    /** `awakened`: a fiber of neither queue goes to the end of the ready queue. */
    method Awakened(f: WorkerFiber)
      requires Valid() && f in all && f !in wq.q && f !in rq.q && f.state.Ready?
      modifies rq, all`nxt, all`prev
      ensures Valid() && rq.q == old(rq.q) + [f]
    {
      assert Home(f);
      rq.Push(f);
      forall i | 0 <= i < |wq.q| ensures LinkAt(wq.q, i) {
        assert old(Home(wq.q[i]));
        assert old(LinkAt(wq.q, i));
      }
      forall g | g in all ensures Home(g) { assert old(Home(g)); }
    }

    /** The head of the waiting queue, which is READY, goes to the end of the ready queue. */
    method AwakenHead() returns (f: WorkerFiber)
      requires Valid() && wq.q != [] && wq.q[0].state.Ready?
      modifies wq, rq, all`nxt, all`prev, all`queue, {wq.q[0]}`tp
      ensures Valid() && f == old(wq.q)[0] && f.tp == TIME_MAX
      ensures wq.q == old(wq.q)[1..] && rq.q == old(rq.q) + [f]
    {
      f := TakeHead();
      Awakened(f);
    }

    /** `pick_next`: the head of the ready queue, which is then in neither queue; null if there is none. */
    method PickNext() returns (f: WorkerFiber?)
      requires Valid()
      modifies rq, all`nxt, all`prev
      ensures Valid()
      ensures if old(rq.q) == [] then f == null && rq.q == []
              else f == old(rq.q)[0] && rq.q == old(rq.q)[1..]
    {
      if rq.head == null {
        f := null;
      } else {
        LinkedNoDup(rq.q, rq.head, rq.tail);
        HeadAndTail(rq.q);
        assert Home(rq.q[0]);
        f := rq.Pop();
        forall i | 0 <= i < |wq.q| ensures LinkAt(wq.q, i) {
          assert old(Home(wq.q[i]));
          assert old(LinkAt(wq.q, i));
        }
        forall g | g in all ensures Home(g) { assert old(Home(g)); }
      }
    }

    /** `push` on the waiting queue, for a fiber of neither queue. */
    method Enqueue(f: WorkerFiber, ghost m: Infos<WorkerFiber>)
      requires Valid() && f in all && f !in wq.q && f !in rq.q
      requires f in m && m[f] == f.Record() && Keyed(wq.q, m)
      requires forall i :: 0 <= i < |wq.q| ==> m[wq.q[i]] == wq.q[i].Record()
      modifies wq, all`nxt, all`prev, all`queue
      ensures Valid() && wq.q == Pushed(old(wq.q), m, f)
    {
      assert Home(f);
      InsertMembers(wq.q, PushPos(wq.q, m, m[f]), f);
      wq.Push(f, m);
      forall i | 0 <= i < |wq.q| ensures wq.q[i] in all { assert wq.q[i] in old(wq.q) + [f]; }
      forall i | 0 <= i < |rq.q| ensures LinkAt(rq.q, i) {
        assert old(Home(rq.q[i]));
        assert old(LinkAt(rq.q, i));
      }
      forall g | g in all ensures Home(g) { assert old(Home(g)); }
    }
  }

  ghost predicate TiedTo(f: WorkerFiber, m: Infos<WorkerFiber>)
    requires f in m
    reads f`state, f`tp, f`flag, f`waiting, f`joining
  {
    f.Record() == m[f]
  }

  /** The fibers are as `m` says. Their links do not matter here. */
  ghost predicate Recorded(m: Infos<WorkerFiber>)
    reads m.Keys`state, m.Keys`tp, m.Keys`flag, m.Keys`waiting, m.Keys`joining
  {
    forall f {:trigger TiedTo(f, m)} :: f in m ==> TiedTo(f, m)
  }

  class FiberManager {
    const queues: Queues
    var active: WorkerFiber?
    /** The abstract scheduler this object refines. */
    ghost var model: Model.Sched<WorkerFiber>

    ghost predicate Tied(f: WorkerFiber)
      requires f in model.info
      reads `model, f`state, f`tp, f`flag, f`waiting, f`joining
    {
      TiedTo(f, model.info)
    }

    /** The fibers and the queues are as the model says. */
    ghost predicate Refines()
      reads this, queues, queues.wq, queues.rq, queues.all
    {
      && queues.Valid()
      && model.info.Keys == queues.all && model.wq == queues.wq.q && model.rq == queues.rq.q
      && Recorded(model.info)
    }

    ghost predicate Valid()
      reads this, queues, queues.wq, queues.rq, queues.all
    {
      Refines() && model.active == (if active == null then None else Some(active)) && Model.Inv(model)
    }

    constructor ()
      ensures Valid() && model == Model.Init()
    {
      queues := new Queues();
      active := null;
      model := Model.Init();
    }

    /** `set_ready`. */
    method SetReady(p: WorkerFiber)
      requires Refines() && p in model.info && !p.state.Terminated?
      modifies this`model, queues.wq, queues.all`state, queues.all`nxt, queues.all`prev
      ensures Refines() && model == Model.SetReady(old(model), p)
    {
      assert Tied(p);
      p.state := Ready;
      queues.MoveToRun(p);
      model := Model.SetReady(model, p);
      forall f | f in model.info ensures TiedTo(f, model.info) { assert old(Tied(f)); }
    }

    /** One turn of the sweep, for a head that is READY. */
    method AwakenHead()
      requires Refines() && model.wq != [] && model.wq[0] in model.info && model.info[model.wq[0]].state.Ready?
      modifies this`model, queues.wq, queues.rq
      modifies queues.all`nxt, queues.all`prev, queues.all`queue, queues.all`tp
      ensures Refines() && model == Model.Awaken(old(model))
    {
      assert Tied(model.wq[0]);
      var f := queues.AwakenHead();
      model := Model.Awaken(model);
      forall g | g in model.info ensures TiedTo(g, model.info) { assert old(Tied(g)); }
    }

    /** `fetch_ready` on the head of the waiting queue. */
    method FetchReady(f: WorkerFiber, now: TimePoint) returns (ready: bool)
      requires Refines() && Model.Placed(model) && model.wq != [] && f == model.wq[0]
      modifies this`model, queues.wq, queues.all`state, queues.all`nxt, queues.all`prev
      ensures Refines() && Model.Placed(model) && ready == Fetched(old(model).info[f], now)
      ensures ready ==> model.wq == old(model).wq && model.info[f].state.Ready?
                        && Model.Awaken(model) == Model.Awaken(old(model))
      ensures !ready ==> model == old(model)
    {
      assert Tied(f) && Model.InPlace(model, f);
      assert !f.state.Running? && !f.state.Terminated?;
      if f.tp <= now || f.flag {
        ghost var s := model;
        Model.SetReadyPlaced(s, f);
        SetReady(f);
        AwakenAfterSetReady(s);
        assert Tied(f);
      }
      ready := f.state.Ready?;
    }

    /** `move_to` with `fetch_ready`: the sweep. */
    method Sweep(now: TimePoint)
      requires Refines() && Model.Placed(model)
      modifies this`model, queues.wq, queues.rq, queues.all
      ensures Refines() && model == Model.Sweep(old(model), now) && Model.Placed(model)
    {
      var f := queues.wq.head;
      while f != null
        invariant Refines() && Model.Placed(model) && queues.all == old(queues.all)
        invariant f == queues.wq.head
        invariant Model.Sweep(model, now) == Model.Sweep(old(model), now)
        decreases |queues.wq.q|
      {
        var ready := FetchReady(f, now);
        if !ready {
          break;
        }
        assert queues.wq.head == f;
        Model.AwakenPlaced(model);
        AwakenHead();
        f := queues.wq.head;  // the successor of the fiber that left
      }
    }

    /** Fields of `f` changed and the model is told so; the links are as they were. */
    ghost method Record(f: WorkerFiber)
      requires queues.Valid() && f in model.info
      requires model.info.Keys == queues.all && model.wq == queues.wq.q && model.rq == queues.rq.q
      requires forall g {:trigger TiedTo(g, model.info)} :: g in model.info && g != f ==> TiedTo(g, model.info)
      modifies `model
      ensures Refines() && model == Model.Update(old(model), f, f.Record())
    {
      model := Model.Update(model, f, f.Record());
      forall g | g in model.info ensures TiedTo(g, model.info) { assert g != f ==> old(Tied(g)); }
    }

    /** `push` on the waiting queue. */
    method Enqueue(f: WorkerFiber)
      requires Refines() && f in model.info && f !in model.wq && f !in model.rq && Keyed(model.wq, model.info)
      modifies this`model, queues.wq, queues.all`nxt, queues.all`prev, queues.all`queue
      ensures Refines() && model == old(model).(wq := Pushed(old(model).wq, old(model).info, f))
    {
      assert Tied(f);
      forall i | 0 <= i < |model.wq| ensures model.info[model.wq[i]] == model.wq[i].Record() {
        assert Tied(model.wq[i]);
      }
      queues.Enqueue(f, model.info);
      model := model.(wq := Pushed(model.wq, model.info, f));
    }

    /** The running fiber becomes an entry of the waiting queue and control returns to the main context. */
    method Park(f: WorkerFiber, st: FiberState, tp: TimePoint, ghost joining: Option<WorkerFiber>)
      requires Refines() && f in model.info && f !in model.wq && f !in model.rq && Keyed(model.wq, model.info)
      modifies this, queues.wq, f`state, f`tp, f`joining, queues.all`nxt, queues.all`prev, queues.all`queue
      ensures Refines() && active == null
      ensures model == Model.Park(old(model), f, old(model).info[f].(state := st, tp := tp, joining := joining))
    {
      SetState(f, st, tp, joining);
      Enqueue(f);
      SwitchTo(null);
    }

    method SetState(f: WorkerFiber, st: FiberState, tp: TimePoint, ghost joining: Option<WorkerFiber>)
      requires Refines() && f in model.info
      modifies this`model, f`state, f`tp, f`joining
      ensures Refines()
      ensures model == Model.Update(old(model), f, old(model).info[f].(state := st, tp := tp, joining := joining))
    {
      assert Tied(f);
      f.state, f.tp, f.joining := st, tp, joining;
      forall g | g in model.info && g != f ensures TiedTo(g, model.info) { assert old(Tied(g)); }
      Record(f);
    }

    /** Control passes to `f`, or to the main context. */
    method SwitchTo(f: WorkerFiber?)
      requires Refines()
      modifies `active, `model
      ensures Refines() && active == f && model == old(model).(active := if f == null then None else Some(f))
    {
      active := f;
      model := model.(active := if f == null then None else Some(f));
    }

    method PickNext() returns (f: WorkerFiber?)
      requires Refines()
      modifies this`model, queues.rq, queues.all`nxt, queues.all`prev
      ensures Refines()
      ensures if old(model).rq == [] then f == null && model == old(model)
              else f == old(model).rq[0] && model == old(model).(rq := old(model).rq[1..])
    {
      f := queues.PickNext();
      if f != null {
        model := model.(rq := model.rq[1..]);
      }
    }

    /** The head of the ready queue, if any, becomes the running fiber. */
    method Dispatch()
      requires Refines() && active == null && model.active == None && Keyed(model.rq, model.info)
      modifies this, queues.rq, queues.all`state, queues.all`tp, queues.all`joining, queues.all`nxt, queues.all`prev
      ensures Refines() && model == Model.Dispatch(old(model))
      ensures model.active == (if active == null then None else Some(active))
    {
      var f := PickNext();
      if f != null {
        assert Tied(f);
        SetState(f, Running, f.tp, f.joining);
        SwitchTo(f);
      }
    }

    /** The running fiber `a` waits for `t`. */
    method JoinFiber(a: WorkerFiber, t: WorkerFiber)
      requires Refines() && a in model.info && t in model.info && a != t
      requires a !in model.wq && a !in model.rq && Keyed(model.wq, model.info)
      modifies this, queues.wq, queues.all
      ensures Refines() && active == null && model == Model.JoinStep(old(model), a, t)
    {
      assert Tied(a) && Tied(t);
      Park(a, Waiting, a.tp, Some(t));
      assert Tied(t) && Tied(a);
      if t.state.Terminated? {
        SetReady(a);
      } else {
        Register(t, a);
      }
    }

    /** `worker_fiber::join` on a live fiber. */
    method Register(t: WorkerFiber, a: WorkerFiber)
      requires Refines() && t in model.info
      modifies this`model, t`waiting
      ensures Refines()
      ensures model == Model.Update(old(model), t, old(model).info[t].(joiners := old(model).info[t].joiners + [a]))
    {
      assert Tied(t);
      t.waiting := t.waiting + [a];
      forall g | g in model.info && g != t ensures TiedTo(g, model.info) { assert old(Tied(g)); }
      Record(t);
    }

    /** `set_terminated`, then `release`. */
    method Retire(a: WorkerFiber)
      requires Refines() && a in model.info && Keyed(model.info[a].joiners, model.info)
      requires forall j :: j in model.info[a].joiners ==> j != a && !model.info[j].state.Terminated?
      modifies this, queues.wq, queues.all
      ensures Refines() && active == null && model == Model.TerminateStep(old(model), a)
    {
      assert Tied(a);
      var waiting := a.waiting;
      a.state, a.waiting := Terminated, [];
      forall g | g in model.info && g != a ensures TiedTo(g, model.info) { assert old(Tied(g)); }
      Record(a);
      SwitchTo(null);
      Release(waiting);
    }

    /** The loop of `release`. */
    method Release(waiting: seq<WorkerFiber>)
      requires Refines() && Keyed(waiting, model.info)
      requires forall i :: 0 <= i < |waiting| ==> !model.info[waiting[i]].state.Terminated?
      modifies this`model, queues.wq, queues.all`state, queues.all`nxt, queues.all`prev
      ensures Refines() && model == Model.SetReadyAll(old(model), waiting)
    {
      for i := 0 to |waiting|
        invariant Refines() && Keyed(waiting, model.info) && model.info.Keys == old(model.info.Keys)
        invariant forall j :: 0 <= j < |waiting| ==> !model.info[waiting[j]].state.Terminated?
        invariant Model.SetReadyAll(model, waiting[i..]) == Model.SetReadyAll(old(model), waiting)
      {
        assert waiting[i..][0] == waiting[i] && waiting[i..][1..] == waiting[i + 1..];
        assert Tied(waiting[i]);
        SetReady(waiting[i]);
      }
    }

    method SetFlag(p: WorkerFiber, b: bool)
      requires Refines() && p in model.info
      modifies this`model, p`flag
      ensures Refines() && model == Model.Update(old(model), p, old(model).info[p].(flag := b))
    {
      assert Tied(p);
      p.flag := b;
      forall g | g in model.info && g != p ensures TiedTo(g, model.info) { assert old(Tied(g)); }
      Record(p);
    }

    /** `spawn`. */
    method Admit(f: WorkerFiber)
      requires Refines() && f !in model.info && f !in model.wq && f !in model.rq && f.Unlinked() && f.queue == null
      requires f.Record() == Info(Ready, TIME_MAX, false, [], None)
      modifies this`model, queues`all, queues.rq, queues.all`nxt, queues.all`prev, f`nxt, f`prev
      ensures Refines() && model == Model.Sched(old(model).info[f := f.Record()], old(model).wq, old(model).rq + [f],
                                                old(model).active)
    {
      queues.Adopt(f);
      queues.Awakened(f);
      model := Model.Sched(model.info[f := f.Record()], model.wq, model.rq + [f], model.active);
      forall g | g in model.info ensures TiedTo(g, model.info) { assert g != f ==> old(Tied(g)); }
    }

    // -------------------------------------------------------------- the calls

    /** `run`, which reads the clock at `now` for the sweep and, if there is nothing to resume, at `later` for the
        sleep. `sleep`: until when the thread sleeps. */
    method Run(now: TimePoint, later: TimePoint, interval: nat) returns (sleep: Option<int>)
      requires Valid() && Model.Enabled(model, Model.Run(now))
      modifies this, queues.wq, queues.rq, queues.all
      ensures Valid() && model == Model.Next(old(model), Model.Run(now))
      ensures sleep == if active == null then Some(Runs.NextWakeup(model, later, interval)) else None
    {
      Joins.NextInv(model, Model.Run(now));
      Sweep(now);
      assert model.rq != [] ==> Tied(model.rq[0]) && Model.InPlace(model, model.rq[0]);
      assert queues.rq.q != [] ==> queues.rq.q[0].state.Ready?;
      Dispatch();
      sleep := None;
      if active == null {
        var t := NextWakeup(later, interval);
        sleep := Some(t);
      }
    }

    method WaitUntil(tp: TimePoint)
      requires Valid() && Model.Enabled(model, Model.WaitUntil(tp))
      modifies this, queues.wq, queues.all
      ensures Valid() && model == Model.Next(old(model), Model.WaitUntil(tp))
    {
      assert Tied(active) && Model.InPlace(model, active);
      assert active.state.Running?;
      Joins.NextInv(model, Model.WaitUntil(tp));
      Park(active, Waiting, tp, active.joining);
    }

    method Yield()
      requires Valid() && Model.Enabled(model, Model.Yield)
      modifies this, queues.wq, queues.all
      ensures Valid() && model == Model.Next(old(model), Model.Yield)
    {
      assert Tied(active) && Model.InPlace(model, active);
      assert active.state.Running?;
      Joins.NextInv(model, Model.Yield);
      Park(active, Ready, active.tp, active.joining);
    }

    method Join(t: WorkerFiber)
      requires Valid() && Model.Enabled(model, Model.Join(t))
      modifies this, queues.wq, queues.all
      ensures Valid() && model == Model.Next(old(model), Model.Join(t))
    {
      assert Tied(active) && Model.InPlace(model, active);
      assert active.state.Running?;
      Joins.NextInv(model, Model.Join(t));
      JoinFiber(active, t);
    }

    /** The end of `join` in a fiber that was resumed there: the assertion that its target has terminated. If it holds,
        the call returns. */
    method JoinReturn(t: WorkerFiber) returns (holds: bool)
      requires Valid() && Model.Returning(model) && active.joining == Some(t)
      modifies this`model, queues.all
      ensures Valid() && (holds <==> !Model.JoinFails(old(model)))
      ensures model == if holds then Model.Next(old(model), Model.JoinReturn) else old(model)
    {
      assert Tied(active);
      assert Tied(t);
      holds := t.state.Terminated?;
      if holds {
        Joins.NextInv(model, Model.JoinReturn);
        SetState(active, active.state, active.tp, None);
      }
    }

    /** The running fiber ends. */
    method Terminate()
      requires Valid() && Model.Enabled(model, Model.Terminate)
      modifies this, queues.wq, queues.all
      ensures Valid() && model == Model.Next(old(model), Model.Terminate)
    {
      assert Tied(active) && Model.InPlace(model, active);
      assert active.state.Running?;
      Joins.NextInv(model, Model.Terminate);
      Model.ReleaseNeverFails(model);
      Retire(active);
    }

    /** `set_ready` by a primitive the fiber is registered with. */
    method Notify(p: WorkerFiber)
      requires Valid() && Model.Enabled(model, Model.Notify(p))
      modifies this`model, queues.wq, queues.all
      ensures Valid() && model == Model.Next(old(model), Model.Notify(p))
    {
      Joins.NextInv(model, Model.Notify(p));
      assert Tied(p);
      SetReady(p);
    }

    /** `request_interruption(true)` on a fiber that neither runs nor has terminated. */
    method Interrupt(p: WorkerFiber)
      requires Valid() && Model.Enabled(model, Model.Interrupt(p))
      modifies this`model, queues.wq, queues.all
      ensures Valid() && model == Model.Next(old(model), Model.Interrupt(p))
    {
      ghost var s := model;
      assert Tied(p);
      SetFlag(p, true);
      assert Tied(p);
      SetReady(p);
      assert model == Model.Next(s, Model.Interrupt(p));
      Joins.NextInv(s, Model.Interrupt(p));
    }

    /** `request_interruption(false)` by the running fiber. */
    method ClearInterrupt()
      requires Valid() && Model.Enabled(model, Model.ClearInterrupt)
      modifies this`model, queues.all
      ensures Valid() && model == Model.Next(old(model), Model.ClearInterrupt)
    {
      Joins.NextInv(model, Model.ClearInterrupt);
      SetFlag(active, false);
    }

    /** A new fiber is handed to the scheduler. */
    method Spawn() returns (f: WorkerFiber)
      requires Valid() && !Model.Returning(model)
      modifies this`model, queues`all, queues.rq, queues.all`nxt, queues.all`prev
      ensures fresh(f) && f !in old(model.info)
      ensures Valid() && model == Model.Next(old(model), Model.Spawn(f))
    {
      ghost var s := model;
      f := new WorkerFiber();
      Admit(f);
      assert model == Model.Next(s, Model.Spawn(f));
      Joins.NextInv(s, Model.Spawn(f));
    }

    /** `next_wakeup`. */
    method NextWakeup(now: TimePoint, interval: nat) returns (t: int)
      requires Valid()
      ensures t == Runs.NextWakeup(model, now, interval)
    {
      if queues.wq.head == null {
        return now + interval;
      }
      assert Tied(queues.wq.head);
      var wakeup := queues.wq.head.tp;
      if wakeup == TIME_MAX {
        return now + interval;
      }
      return wakeup;
    }
  }

  lemma AwakenAfterSetReady<F>(s: Model.Sched<F>)
    requires s.wq != [] && s.wq[0] in s.info
    ensures Model.SetReady(s, s.wq[0]).wq == s.wq
    ensures Model.Awaken(Model.SetReady(s, s.wq[0])) == Model.Awaken(s)
  {
    var r := Model.SetReady(s, s.wq[0]);
    assert IndexOf(s.wq, s.wq[0]) == 0;
    assert MovedToFront(s.wq, 0) == s.wq;
    assert Model.Awaken(r).info == Model.Awaken(s).info;
  }
}
