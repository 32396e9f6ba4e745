/** Runs, from the start of the scheduler, in which the code falls short of what it relies on. */
module SchedulerFailures {
  import opened Seqs
  import opened WaitingOrder
  import opened SchedulerModel
  import opened SchedulerJoins

  /** A run that goes on with one more step. */
  lemma {:induction false} Extend<F>(s: Sched<F>, acts: seq<Action<F>>, a: Action<F>)
    requires Inv(s) && IsRun(s, acts) && Enabled(After(s, acts), a)
    ensures IsRun(s, acts + [a]) && After(s, acts + [a]) == Next(After(s, acts), a)
    decreases |acts|
  {
    if acts == [] {
      NextInv(s, a);
      assert IsRun(Next(s, a), []);
      assert (acts + [a])[1..] == [];
    } else {
      NextInv(s, acts[0]);
      Extend(Next(s, acts[0]), acts[1..], a);
      assert (acts + [a])[1..] == acts[1..] + [a];
    }
  }

  /** `acts` leads from the start to `s`. */
  ghost predicate Reaches(acts: seq<Action<nat>>, s: Sched<nat>) {
    IsRun(Init<nat>(), acts) && After(Init<nat>(), acts) == s && Inv(s)
  }

  lemma Step(acts: seq<Action<nat>>, s: Sched<nat>, a: Action<nat>, r: Sched<nat>)
    requires Reaches(acts, s) && Enabled(s, a)
    requires Next(s, a).info == r.info && Next(s, a).wq == r.wq
    requires Next(s, a).rq == r.rq && Next(s, a).active == r.active
    ensures Reaches(acts + [a], r)
  {
    assert Inv(Init<nat>());
    Extend(Init<nat>(), acts, a);
    NextInv(s, a);
  }

  ghost function Fresh(state: FiberState, tp: TimePoint, flag: bool): Info<nat> {
    Info(state, tp, flag, [], None)
  }

  /** An interrupted fiber that the sweep misses: a fiber waits until 5; another, interrupted while it was READY, waits
      until 7 and is queued behind it. */
  lemma HiddenInterruptionReached() returns (acts: seq<Action<nat>>)
    ensures IsRun(Init<nat>(), acts)
    ensures var s := After(Init<nat>(), acts); HiddenInterruption(s.wq, s.info, 3, 1) && SweepLen(s.wq, s.info, 3) == 0
  {
    acts := OneFlagged();
    acts := FlaggedRuns(acts);
    var s7 := Sched(map[0 := Fresh(Waiting, 5, false), 1 := Fresh(Waiting, 7, true)], [0, 1], [], None);
    Step(acts, FlaggedActive(), WaitUntil(7), s7);
    acts := acts + [WaitUntil(7)];
    assert !Fetched(s7.info[s7.wq[0]], 3);
  }

  lemma OneFlagged() returns (acts: seq<Action<nat>>)
    ensures Reaches(acts, OneWaitsOneFlagged())
  {
    var s3 := Sched(map[0 := Fresh(Waiting, 5, false)], [0], [], None);
    OneWaits(s3);
    acts := [Spawn(0), Run(0), WaitUntil(5)];
    var s4 := Sched(s3.info[1 := Fresh(Ready, TIME_MAX, false)], [0], [1], None);
    Step(acts, s3, Spawn(1), s4);
    acts := acts + [Spawn(1)];
    Step(acts, s4, Interrupt(1), OneWaitsOneFlagged());
    acts := acts + [Interrupt(1)];
  }

  lemma OneWaits(s3: Sched<nat>)
    requires s3 == Sched(map[0 := Fresh(Waiting, 5, false)], [0], [], None)
    ensures Reaches([Spawn(0), Run(0), WaitUntil(5)], s3)
  {
    var s1 := Sched(map[0 := Fresh(Ready, TIME_MAX, false)], [], [0], None);
    var s2 := Sched(map[0 := Fresh(Running, TIME_MAX, false)], [], [], Some(0));
    assert Reaches([], Init<nat>());
    Step([], Init<nat>(), Spawn(0), s1);
    Step([Spawn(0)], s1, Run(0), s2);
    Step([Spawn(0), Run(0)], s2, WaitUntil(5), s3);
    assert [] + [Spawn(0)] + [Run(0)] + [WaitUntil(5)] == [Spawn(0), Run(0), WaitUntil(5)];
  }

  ghost function OneWaitsOneFlagged(): Sched<nat> {
    Sched(map[0 := Fresh(Waiting, 5, false), 1 := Fresh(Ready, TIME_MAX, true)], [0], [1], None)
  }

  ghost function FlaggedActive(): Sched<nat> {
    Sched(map[0 := Fresh(Waiting, 5, false), 1 := Fresh(Running, TIME_MAX, true)], [0], [], Some(1))
  }

  lemma FlaggedRuns(before: seq<Action<nat>>) returns (acts: seq<Action<nat>>)
    requires Reaches(before, OneWaitsOneFlagged())
    ensures Reaches(acts, FlaggedActive())
  {
    Step(before, OneWaitsOneFlagged(), Run(1), FlaggedActive());
    acts := before + [Run(1)];
  }

  // ---------------------------------------------------------------- a join that fails

  /** Fiber 0 joins fiber 1, is interrupted, and is resumed while 1 lives: the assertion that ends `join` fails, and
      there is no further step. */
  lemma JoinFailureReached() returns (acts: seq<Action<nat>>)
    ensures IsRun(Init<nat>(), acts) && JoinFails(After(Init<nat>(), acts))
    ensures forall a :: !Enabled(After(Init<nat>(), acts), a)
  {
    acts := JoinInterrupted();
    acts := TargetYields(acts);
    var s7 := TargetQueued();
    var s8 := Sched(s7.info[0 := s7.info[0].(state := Running)], [], [1], Some(0));
    assert Sweep(Awaken(s7), 0) == Awaken(s7);
    Step(acts, s7, Run(0), s8);
    acts := acts + [Run(0)];
  }

  /** 0 waits in its join of 1. */
  ghost function JoinStarted(): Sched<nat> {
    Sched(map[0 := Info(Waiting, TIME_MAX, false, [], Some(1)), 1 := Info(Ready, TIME_MAX, false, [0], None)],
          [0], [1], None)
  }

  lemma JoinBegins() returns (acts: seq<Action<nat>>)
    ensures Reaches(acts, JoinStarted())
  {
    acts := TwoSpawned();
    var s3 := Sched(map[0 := Fresh(Running, TIME_MAX, false), 1 := Fresh(Ready, TIME_MAX, false)], [], [1], Some(0));
    assert s3.info[1].joiners + [0] == [0];
    Step(acts, s3, Join(1), JoinStarted());
    acts := acts + [Join(1)];
  }

  /** 0 is READY inside its join. */
  ghost function JoinCut(): Sched<nat> {
    Sched(map[0 := Info(Ready, TIME_MAX, true, [], Some(1)), 1 := Info(Ready, TIME_MAX, false, [0], None)],
          [0], [1], None)
  }

  lemma JoinInterrupted() returns (acts: seq<Action<nat>>)
    ensures Reaches(acts, JoinCut())
  {
    acts := JoinBegins();
    Step(acts, JoinStarted(), Interrupt(0), JoinCut());
    acts := acts + [Interrupt(0)];
  }

  /** 1 has run and is back in the waiting queue; 0 is next. */
  ghost function TargetQueued(): Sched<nat> {
    JoinCut().(wq := [1], rq := [0])
  }

  lemma TargetYields(before: seq<Action<nat>>) returns (acts: seq<Action<nat>>)
    requires Reaches(before, JoinCut())
    ensures Reaches(acts, TargetQueued())
  {
    var s5 := JoinCut();
    var s6 := Sched(s5.info[1 := s5.info[1].(state := Running)], [], [0], Some(1));
    assert Sweep(Awaken(s5), 0) == Awaken(s5);
    Step(before, s5, Run(0), s6);
    acts := before + [Run(0)];
    Step(acts, s6, Yield, TargetQueued());
    acts := acts + [Yield];
  }

  lemma TwoSpawned() returns (acts: seq<Action<nat>>)
    ensures Reaches(acts, Sched(map[0 := Fresh(Running, TIME_MAX, false), 1 := Fresh(Ready, TIME_MAX, false)],
                                [], [1], Some(0)))
  {
    var i := Fresh(Ready, TIME_MAX, false);
    var s1, s2 := Sched(map[0 := i], [], [0], None), Sched(map[0 := i, 1 := i], [], [0, 1], None);
    assert Reaches([], Init<nat>());
    Step([], Init<nat>(), Spawn(0), s1);
    Step([] + [Spawn(0)], s1, Spawn(1), s2);
    acts := [] + [Spawn(0)] + [Spawn(1)];
    Step(acts, s2, Run(0), Sched(map[0 := Fresh(Running, TIME_MAX, false), 1 := i], [], [1], Some(0)));
    acts := acts + [Run(0)];
  }
}
