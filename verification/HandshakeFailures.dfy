/** A run from the start after which the assertion `head_ == f` of the sweep fails: while thread 0 is between testing a
    sleeper and unlinking it, another thread notifies a fiber of the same queue. */
module HandshakeFailures {
  import opened Seqs
  import opened WaitingOrder
  import opened Handshakes
  import opened HandshakeLaws

  /** Two fibers on thread 0, each with what the queue knows of it and how far it has got, and one notifier. */
  ghost function State(first: (Info<Fid>, Pc), second: (Info<Fid>, Pc), q: seq<Fid>, sweep: SweepPc, list: seq<Fid>,
                       spin: Option<Holder>, hand: NotifierPc, heldBy: map<Fid, Nid>): Sys {
    Sys(map[0 := first.0, 1 := second.0], map[0 := first.1, 1 := second.1], map[0 := 0, 1 := 0], map[0 := q],
        map[0 := sweep], list, spin, map[0 := hand], heldBy)
  }

  lemma StateTyped(first: (Info<Fid>, Pc), second: (Info<Fid>, Pc), q: seq<Fid>, sweep: SweepPc, list: seq<Fid>,
                   spin: Option<Holder>, hand: NotifierPc, heldBy: map<Fid, Nid>)
    requires forall i :: 0 <= i < |q| ==> q[i] == 0 || q[i] == 1
    ensures Typed(State(first, second, q, sweep, list, spin, hand, heldBy))
  {
  }

  ghost function Fresh(state: FiberState, tp: TimePoint): Info<Fid> {
    Info(state, tp, false, [], None)
  }

  ghost function Start(): Sys {
    State((Fresh(Running, TIME_MAX), Pc.Run), (Fresh(Running, TIME_MAX), Pc.Run), [], Out, [], None, Idle, map[])
  }

  lemma StartOk()
    ensures Init(Start())
  {
  }

  /** One step leads from `s` to `r`. */
  ghost predicate Leads(s: Sys, a: Action, r: Sys) {
    Typed(s) && Enabled(s, a) && Next(s, a) == r && Typed(r)
  }

  // The first fiber sleeps until 0.

  lemma Alone(m: Infos<Fid>, f: Fid)
    requires f in m
    ensures Pushed([], m, f) == [f]
  {
  }

  lemma Sleeps()
    ensures Leads(Start(), Sleep(0, 0), Waits(Running, Pc.Run, [], None))
  {
    StartOk();
    WaitsTyped(Running, Pc.Run, [], None);
    SleepsTo(Start(), Waits(Running, Pc.Run, [], None));
  }

  lemma SleepsTo(s: Sys, r: Sys)
    requires s == Start() && r == Waits(Running, Pc.Run, [], None) && Typed(s)
    ensures Enabled(s, Sleep(0, 0)) && Next(s, Sleep(0, 0)) == r
  {
    Alone(r.m, 0);
    assert s.m[0 := Fresh(Waiting, 0)] == r.m;
  }

  /** The second fiber on its way through `wait`. */
  ghost function Waits(state: FiberState, pc: Pc, list: seq<Fid>, spin: Option<Holder>): Sys {
    State((Fresh(Waiting, 0), Asleep), (Fresh(state, TIME_MAX), pc), [0], Out, list, spin, Idle, map[])
  }

  lemma WaitsTyped(state: FiberState, pc: Pc, list: seq<Fid>, spin: Option<Holder>)
    ensures Typed(Waits(state, pc, list, spin))
  {
  }

  lemma Locks()
    ensures Leads(Waits(Running, Pc.Run, [], None), Lock(1), Waits(Running, Locked, [], Some(Waiter(1))))
  {
  }

  lemma Registers()
    ensures Leads(Waits(Running, Locked, [], Some(Waiter(1))), Register(1),
                  Waits(Running, Registered, [1], Some(Waiter(1))))
  {
  }

  lemma BecomesWaiting()
    ensures Leads(Waits(Running, Registered, [1], Some(Waiter(1))), SetWaiting(1),
                  Waits(Waiting, Marked, [1], Some(Waiter(1))))
  {
  }

  lemma Unlocks()
    ensures Leads(Waits(Waiting, Marked, [1], Some(Waiter(1))), Unlock(1), Waits(Waiting, Unlocked, [1], None))
  {
  }

  lemma SetsDeadline()
    ensures Leads(Waits(Waiting, Unlocked, [1], None), SetDeadline(1), Waits(Waiting, Timed, [1], None))
  {
  }

  /** Both fibers are in the queue, and the notifier is on its way. */
  ghost function Queued(sweep: SweepPc, list: seq<Fid>, spin: Option<Holder>, hand: NotifierPc,
                        heldBy: map<Fid, Nid>): Sys {
    State((Fresh(Waiting, 0), Asleep), (Fresh(Waiting, TIME_MAX), Parked), [0, 1], sweep, list, spin, hand, heldBy)
  }

  lemma QueuedTyped(sweep: SweepPc, list: seq<Fid>, spin: Option<Holder>, hand: NotifierPc, heldBy: map<Fid, Nid>)
    ensures Typed(Queued(sweep, list, spin, hand, heldBy))
  {
  }

  lemma Behind(m: Infos<Fid>)
    requires 0 in m && 1 in m && m[0].state.Waiting? && m[1].state.Waiting? && m[0].tp < m[1].tp
    ensures Pushed([0], m, 1) == [0, 1]
  {
    assert ScanPos([0], m, m[1].tp) == 1;
  }

  lemma Pushes()
    ensures Leads(Waits(Waiting, Timed, [1], None), Push(1), Queued(Out, [1], None, Idle, map[]))
  {
    WaitsTyped(Waiting, Timed, [1], None);
    QueuedTyped(Out, [1], None, Idle, map[]);
    PushesTo(Waits(Waiting, Timed, [1], None), Queued(Out, [1], None, Idle, map[]));
  }

  lemma PushesTo(s: Sys, r: Sys)
    requires s == Waits(Waiting, Timed, [1], None) && r == Queued(Out, [1], None, Idle, map[]) && Typed(s)
    ensures Enabled(s, Push(1)) && Next(s, Push(1)) == r
  {
    Behind(s.m);
  }

  lemma NotifierLocks()
    ensures Leads(Queued(Out, [1], None, Idle, map[]), NotifierLock(0),
                  Queued(Out, [1], Some(Notifier(0)), Holding, map[]))
  {
  }

  lemma TakesOne()
    ensures Leads(Queued(Out, [1], Some(Notifier(0)), Holding, map[]), TakeOne(0),
                  Queued(Out, [], Some(Notifier(0)), Took([1]), map[1 := 0]))
  {
    QueuedTyped(Out, [1], Some(Notifier(0)), Holding, map[]);
    QueuedTyped(Out, [], Some(Notifier(0)), Took([1]), map[1 := 0]);
    TakesTo(Queued(Out, [1], Some(Notifier(0)), Holding, map[]),
            Queued(Out, [], Some(Notifier(0)), Took([1]), map[1 := 0]));
  }

  lemma TakesTo(s: Sys, r: Sys)
    requires s == Queued(Out, [1], Some(Notifier(0)), Holding, map[]) && Typed(s)
    requires r == Queued(Out, [], Some(Notifier(0)), Took([1]), map[1 := 0])
    ensures Enabled(s, TakeOne(0)) && Next(s, TakeOne(0)) == r
  {
    assert Next(s, TakeOne(0)) == Take(s, 0, 1);
    assert s.list[..1] == [1];
    assert s.heldBy + InHand([1], 0) == r.heldBy;
  }

  lemma NotifierUnlocks()
    ensures Leads(Queued(Out, [], Some(Notifier(0)), Took([1]), map[1 := 0]), NotifierUnlock(0),
                  Queued(Out, [], None, Carries([1]), map[1 := 0]))
  {
  }

  lemma Begins()
    ensures Leads(Queued(Out, [], None, Carries([1]), map[1 := 0]), Begin(0, 0),
                  Queued(Looking(0, 0), [], None, Carries([1]), map[1 := 0]))
  {
  }

  // While the first fiber is between its test and its unlinking, the second one is readied.

  ghost function Due(): Sys {
    Queued(Looking(0, 0), [], None, Carries([1]), map[1 := 0])
  }

  /** The run up to the test, and on from there. */
  lemma DueReached(rest: seq<Action>, e: Sys) returns (acts: seq<Action>)
    requires Reaches(Due(), rest, e)
    ensures Reaches(Start(), acts, e)
  {
    acts := NotifierArrives(rest, e);
    acts := FibersArrive(acts, e);
  }

  lemma NotifierArrives(rest: seq<Action>, e: Sys) returns (acts: seq<Action>)
    requires Reaches(Due(), rest, e)
    ensures Reaches(Queued(Out, [1], None, Idle, map[]), acts, e)
  {
    var s2 := Queued(Out, [], None, Carries([1]), map[1 := 0]);
    var s1 := Queued(Out, [], Some(Notifier(0)), Took([1]), map[1 := 0]);
    var s0 := Queued(Out, [1], Some(Notifier(0)), Holding, map[]);
    Begins();
    Prepend(s2, Begin(0, 0), Due(), rest, e);
    NotifierUnlocks();
    Prepend(s1, NotifierUnlock(0), s2, [Begin(0, 0)] + rest, e);
    TakesOne();
    acts := [NotifierUnlock(0)] + ([Begin(0, 0)] + rest);
    Prepend(s0, TakeOne(0), s1, acts, e);
    acts := [TakeOne(0)] + acts;
    NotifierLocks();
    Prepend(Queued(Out, [1], None, Idle, map[]), NotifierLock(0), s0, acts, e);
    acts := [NotifierLock(0)] + acts;
  }

  lemma FibersArrive(rest: seq<Action>, e: Sys) returns (acts: seq<Action>)
    requires Reaches(Queued(Out, [1], None, Idle, map[]), rest, e)
    ensures Reaches(Start(), acts, e)
  {
    acts := rest;
    Pushes();
    Prepend(Waits(Waiting, Timed, [1], None), Push(1), Queued(Out, [1], None, Idle, map[]), acts, e);
    acts := [Push(1)] + acts;
    SetsDeadline();
    Prepend(Waits(Waiting, Unlocked, [1], None), SetDeadline(1), Waits(Waiting, Timed, [1], None), acts, e);
    acts := [SetDeadline(1)] + acts;
    acts := Enters(acts, e);
    Sleeps();
    Prepend(Start(), Sleep(0, 0), Waits(Running, Pc.Run, [], None), acts, e);
    acts := [Sleep(0, 0)] + acts;
  }

  lemma Enters(rest: seq<Action>, e: Sys) returns (acts: seq<Action>)
    requires Reaches(Waits(Waiting, Unlocked, [1], None), rest, e)
    ensures Reaches(Waits(Running, Pc.Run, [], None), acts, e)
  {
    var s1 := Waits(Running, Locked, [], Some(Waiter(1)));
    var s2 := Waits(Running, Registered, [1], Some(Waiter(1)));
    var s3 := Waits(Waiting, Marked, [1], Some(Waiter(1)));
    Unlocks();
    Prepend(s3, Unlock(1), Waits(Waiting, Unlocked, [1], None), rest, e);
    BecomesWaiting();
    acts := [Unlock(1)] + rest;
    Prepend(s2, SetWaiting(1), s3, acts, e);
    acts := [SetWaiting(1)] + acts;
    Registers();
    Prepend(s1, Register(1), s2, acts, e);
    acts := [Register(1)] + acts;
    Locks();
    Prepend(Waits(Running, Pc.Run, [], None), Lock(1), s1, acts, e);
    acts := [Lock(1)] + acts;
  }

  lemma DueInv()
    ensures Inv(Due())
  {
    QueuedTyped(Looking(0, 0), [], None, Carries([1]), map[1 := 0]);
    var acts := DueReached([], Due());
    StartOk();
    InitInv(Start());
    RunInv(Start(), acts);
  }

  /** The sweep has found a fiber that is no longer the head of the queue. */
  ghost predicate Misplaced(s: Sys, t: Tid) {
    t in s.queues && t in s.sweep && s.sweep[t].Found? && !HeadIs(s, t, s.sweep[t].f)
  }

  lemma MisplacedFails(s: Sys, t: Tid)
    requires Misplaced(s, t)
    ensures !Enabled(s, Unlink(t))
  {
  }

  ghost predicate Untouched(s: Sys, r: Sys) {
    r.hand == s.hand && r.m.Keys == s.m.Keys && r.pc == s.pc && r.home == s.home
  }

  /** The test finds the first fiber due and leaves the notifier and the second fiber as they were. */
  lemma DueFound(s: Sys)
    requires s == Due() && Typed(s)
    ensures Enabled(s, Test(0))
    ensures var r := Next(s, Test(0)); 0 in r.queues && 0 in r.sweep && r.sweep[0].Found? && Untouched(s, r)
  {
  }

  lemma NotifiedNow(s: Sys, r: Sys)
    requires s == Due() && Inv(r) && Untouched(s, r)
    ensures Enabled(r, SetReady(0)) && ReadiesIn(r, SetReady(0), 0)
  {
    assert FiberOk(r, 1);
  }

  lemma Misplaces(r: Sys, n: Nid, t: Tid)
    requires Inv(r) && Sweeping(r, t) && r.sweep[t].Found? && Enabled(r, SetReady(n)) && ReadiesIn(r, SetReady(n), t)
    ensures Inv(Next(r, SetReady(n))) && Misplaced(Next(r, SetReady(n)), t)
  {
    FoundStays(r, SetReady(n), t);
    SetReadyInv(r, n);
  }

  lemma LastSteps(s: Sys, r: Sys, e: Sys)
    requires Leads(s, Test(0), r) && Leads(r, SetReady(0), e)
    ensures Reaches(s, [Test(0)] + [SetReady(0)], e)
  {
    assert Reaches(e, [], e);
    Prepend(r, SetReady(0), e, [], e);
    assert [SetReady(0)] + [] == [SetReady(0)];
    Prepend(s, Test(0), r, [SetReady(0)], e);
  }

  /** One `set_ready` by another thread between the test and the unlinking. */
  lemma DueFails(s: Sys) returns (r: Sys, e: Sys)
    requires s == Due() && Inv(s)
    ensures Leads(s, Test(0), r) && Leads(r, SetReady(0), e) && Misplaced(e, 0)
  {
    DueFound(s);
    r := Next(s, Test(0));
    TestInv(s, 0);
    NotifiedNow(s, r);
    Misplaces(r, 0, 0);
    e := Next(r, SetReady(0));
  }

  /** The assertion of the sweep can fail. */
  lemma UnlinkFailureReached() returns (s0: Sys, acts: seq<Action>, e: Sys)
    ensures Init(s0) && Reaches(s0, acts, e) && Misplaced(e, 0) && !Enabled(e, Unlink(0))
  {
    s0 := Start();
    StartOk();
    DueInv();
    var r;
    r, e := DueFails(Due());
    MisplacedFails(e, 0);
    LastSteps(Due(), r, e);
    acts := DueReached([Test(0)] + [SetReady(0)], e);
  }
}
