/** What holds over whole runs of the scheduler. */
module SchedulerRuns {
  import opened Seqs
  import opened WaitingOrder
  import opened SchedulerModel
  import opened SchedulerJoins

  ghost function Places<F>(s: Sched<F>): seq<F> {
    s.wq + s.rq + if s.active.Some? then [s.active.value] else []
  }

  /** Placement, in every reachable state: the two queues and the running fiber hold every live fiber exactly once, and
      no terminated one. */
  lemma LiveExactlyOnce<F>(acts: seq<Action<F>>)
    requires IsRun(Init<F>(), acts)
    ensures var s := After(Init<F>(), acts);
            && NoDup(Places(s))
            && (forall f :: f in Places(s) <==> f in s.info && !s.info[f].state.Terminated?)
            && Keyed(s.wq, s.info) && Ordered(s.wq, s.info)
  {
    RunInv(Init<F>(), acts);
    var s := After(Init<F>(), acts);
    PlacedOnce(s);
  }

  lemma PlacedOnce<F>(s: Sched<F>)
    requires Placed(s)
    ensures NoDup(Places(s))
    ensures forall f :: f in Places(s) <==> f in s.info && !s.info[f].state.Terminated?
  {
    var p := Places(s);
    forall f ensures f in p <==> f in s.info && !s.info[f].state.Terminated? {
      if f in s.info { assert InPlace(s, f); }
    }
    forall i, j | 0 <= i < j < |p| ensures p[i] != p[j] {
      assert p[i] in s.info && InPlace(s, p[i]);
    }
  }

  ghost predicate Conserves<F>(s: Sched<F>, a: Action<F>, r: Sched<F>) {
    && r.info.Keys == s.info.Keys + (if a.Spawn? then {a.f} else {})
    && forall f :: f in s.info ==>
         (r.info[f].state.Terminated? <==> s.info[f].state.Terminated? || (a.Terminate? && s.active == Some(f)))
  }

  /** No step loses or invents a fiber: only `Spawn` adds one, only `Terminate` retires one, and for ever. */
  lemma Conservation<F>(s: Sched<F>, a: Action<F>)
    requires Inv(s) && Enabled(s, a)
    ensures Conserves(s, a, Next(s, a))
  {
    forall f | f in s.info
      ensures f in Next(s, a).info && (Next(s, a).info[f].state.Terminated? <==>
                s.info[f].state.Terminated? || (a.Terminate? && s.active == Some(f)))
    {
      TerminatedStays(s, a, f);
    }
  }

  // ---------------------------------------------------------------- the sweep

  lemma SweepLenStep<F>(s: Sched<F>, now: TimePoint)
    requires Keyed(s.wq, s.info) && NoDup(s.wq) && s.wq != [] && Fetched(s.info[s.wq[0]], now)
    ensures SweepLen(s.wq, s.info, now) == 1 + SweepLen(Awaken(s).wq, Awaken(s).info, now)
  {
    var s', k := Awaken(s), SweepLen(s.wq, s.info, now);
    HeadAndTail(s.wq);
    assert forall i :: 0 <= i < |s'.wq| ==> s'.wq[i] == s.wq[i + 1] && s'.info[s'.wq[i]] == s.info[s'.wq[i]];
    SweepLenUnique(s'.wq, s'.info, now, k - 1);
  }

  lemma {:induction false} SweepQueues<F>(s: Sched<F>, now: TimePoint)
    requires Keyed(s.wq, s.info) && NoDup(s.wq)
    ensures var k, r := SweepLen(s.wq, s.info, now), Sweep(s, now);
            r.wq == s.wq[k..] && r.rq == s.rq + s.wq[..k]
    decreases |s.wq|
  {
    if s.wq != [] && Fetched(s.info[s.wq[0]], now) {
      var s', k := Awaken(s), SweepLen(s.wq, s.info, now);
      SweepLenStep(s, now);
      assert NoDup(s'.wq);
      SweepQueues(s', now);
      SplitStep(s.wq, k);
    }
  }

  lemma {:induction false} SweepInfo<F>(s: Sched<F>, now: TimePoint, f: F)
    requires Keyed(s.wq, s.info) && NoDup(s.wq) && f in s.info
    ensures var k := SweepLen(s.wq, s.info, now);
            Sweep(s, now).info[f] == if f in s.wq[..k] then s.info[f].(state := Ready, tp := TIME_MAX) else s.info[f]
    decreases |s.wq|
  {
    if s.wq != [] && Fetched(s.info[s.wq[0]], now) {
      var s', k := Awaken(s), SweepLen(s.wq, s.info, now);
      SweepLenStep(s, now);
      HeadAndTail(s.wq);
      SweepInfo(s', now, f);
      SplitStep(s.wq, k);
    }
  }

  /** The loop of `move_to` in one step: the longest prefix of fetched fibers is cut off and appended to the ready queue
      in order; each of these is READY without a deadline; every other fiber is untouched. */
  lemma SweepMovesPrefix<F>(s: Sched<F>, now: TimePoint)
    requires Keyed(s.wq, s.info) && NoDup(s.wq)
    ensures var k, r := SweepLen(s.wq, s.info, now), Sweep(s, now);
            && r.wq == s.wq[k..] && r.rq == s.rq + s.wq[..k]
            && forall f :: f in s.info ==>
                 r.info[f] == if f in s.wq[..k] then s.info[f].(state := Ready, tp := TIME_MAX) else s.info[f]
  {
    SweepQueues(s, now);
    forall f | f in s.info
      ensures Sweep(s, now).info[f] == if f in s.wq[..SweepLen(s.wq, s.info, now)]
                then s.info[f].(state := Ready, tp := TIME_MAX) else s.info[f]
    {
      SweepInfo(s, now, f);
    }
  }

  ghost predicate StillWaits<F>(s: Sched<F>, now: TimePoint, i: int)
    requires Keyed(s.wq, s.info) && 0 <= i < |s.wq|
  {
    s.info[s.wq[i]].state.Waiting? && s.info[s.wq[0]].tp <= s.info[s.wq[i]].tp && now < s.info[s.wq[i]].tp
  }

  /** What the sweep leaves behind is WAITING, not yet at its deadline, and its head has the earliest deadline. */
  lemma SweepLeavesWaiting<F>(s: Sched<F>, now: TimePoint)
    requires Placed(s)
    ensures var r := Sweep(s, now); Placed(r) && forall i :: 0 <= i < |r.wq| ==> StillWaits(r, now, i)
  {
    SweepPlaced(s, now);
    SweepMovesPrefix(s, now);
    var k, r := SweepLen(s.wq, s.info, now), Sweep(s, now);
    if k < |s.wq| {
      assert r.wq[0] == s.wq[k] && s.wq[k] !in s.wq[..k];
      assert r.info[s.wq[k]] == s.info[s.wq[k]];
      forall i | 0 <= i < |r.wq| ensures StillWaits(r, now, i) {
        assert InPlace(r, r.wq[i]);
      }
    }
  }

  /** Every fiber that is READY in the waiting queue is in the ready queue after the next sweep. */
  lemma ReadyReachesReadyQueue<F>(s: Sched<F>, now: TimePoint, f: F)
    requires Placed(s) && f in s.wq && s.info[f].state.Ready?
    ensures f in Sweep(s, now).rq
  {
    SweepLeavesWaiting(s, now);
    SweepFrame(s, now);
    var r := Sweep(s, now);
    assert InPlace(r, f) && InPlace(s, f);
    forall i | 0 <= i < |r.wq| ensures r.wq[i] != f { assert StillWaits(r, now, i); }
  }

  // ---------------------------------------------------------------- round robin

  ghost function RunCount<F>(acts: seq<Action<F>>): nat {
    if acts == [] then 0 else (if acts[0].Run? then 1 else 0) + RunCount(acts[1..])
  }

  /** No step but `run` takes a fiber out of the ready queue, and `run` takes its head. */
  lemma ReadyQueueGrows<F>(s: Sched<F>, a: Action<F>)
    requires Placed(s) && Enabled(s, a)
    ensures var r := Next(s, a);
            if a.Run? && s.rq != [] then r.active == Some(s.rq[0]) && s.rq[1..] <= r.rq
            else !a.Run? ==> s.rq <= r.rq
  {
    if a.Run? { SweepMovesPrefix(s, a.now); }
  }

  /** A fiber at index `k` of the ready queue is not resumed by the first `k` calls of `run` and advances by one place
      with each of them, whatever else happens in between ... */
  lemma {:induction false} RoundRobinAdvances<F>(s: Sched<F>, acts: seq<Action<F>>, k: nat)
    requires Inv(s) && IsRun(s, acts) && k < |s.rq| && RunCount(acts) <= k
    ensures var r := After(s, acts);
            && Inv(r) && k - RunCount(acts) < |r.rq| && r.rq[k - RunCount(acts)] == s.rq[k]
            && r.active != Some(s.rq[k])
    decreases |acts|
  {
    if acts == [] {
      assert InPlace(s, s.rq[k]);
    } else {
      var r := Next(s, acts[0]);
      NextInv(s, acts[0]);
      ReadyQueueGrows(s, acts[0]);
      var k' := if acts[0].Run? then k - 1 else k;
      assert acts[0].Run? ==> s.rq[1..][k'] == s.rq[k];
      assert r.rq[k'] == s.rq[k];
      RoundRobinAdvances(r, acts[1..], k');
    }
  }

  /** ... and it is resumed by the next call. */
  lemma RoundRobinBound<F>(s: Sched<F>, acts: seq<Action<F>>, now: TimePoint, k: nat)
    requires Inv(s) && IsRun(s, acts) && k < |s.rq| && RunCount(acts) == k
    requires Enabled(After(s, acts), Run(now))
    ensures Next(After(s, acts), Run(now)).active == Some(s.rq[k])
  {
    RoundRobinAdvances(s, acts, k);
    ReadyQueueGrows(After(s, acts), Run(now));
  }

  /** The wakeup bound: a READY fiber at index `i` of the waiting queue is resumed by exactly the (m + i + 1)-th call of
      `run`, this one included, if the ready queue has `m` entries now: not by an earlier one ... */
  lemma WakeupAdvances<F>(s: Sched<F>, now: TimePoint, acts: seq<Action<F>>, i: nat)
    requires Inv(s) && Enabled(s, Run(now)) && i < |s.wq| && s.info[s.wq[i]].state.Ready? && |s.rq| + i > 0
    requires IsRun(Next(s, Run(now)), acts) && RunCount(acts) < |s.rq| + i
    ensures var r, k := After(Next(s, Run(now)), acts), |s.rq| + i - 1 - RunCount(acts);
            Inv(r) && k < |r.rq| && r.rq[k] == s.wq[i] && r.active != Some(s.wq[i])
  {
    var r := Next(s, Run(now));
    NextInv(s, Run(now));
    ReadyPrefixSwept(s, now, i);
    RoundRobinAdvances(r, acts, |s.rq| + i - 1);
  }

  /** ... and by that one. */
  lemma WakeupBound<F>(s: Sched<F>, now: TimePoint, acts: seq<Action<F>>, later: TimePoint, i: nat)
    requires Inv(s) && Enabled(s, Run(now)) && i < |s.wq| && s.info[s.wq[i]].state.Ready?
    requires |s.rq| + i > 0 ==> IsRun(Next(s, Run(now)), acts) && RunCount(acts) == |s.rq| + i - 1
    requires |s.rq| + i > 0 ==> Enabled(After(Next(s, Run(now)), acts), Run(later))
    ensures var r := Next(s, Run(now));
            Some(s.wq[i]) == if |s.rq| + i == 0 then r.active else Next(After(r, acts), Run(later)).active
  {
    ReadyPrefixSwept(s, now, i);
    if |s.rq| + i > 0 {
      NextInv(s, Run(now));
      RoundRobinBound(Next(s, Run(now)), acts, later, |s.rq| + i - 1);
    }
  }

  /** `run` puts a READY fiber of the waiting queue behind the `m` entries of the ready queue and those before it, and
      takes the first of them all. */
  lemma ReadyPrefixSwept<F>(s: Sched<F>, now: TimePoint, i: nat)
    requires Inv(s) && Enabled(s, Run(now)) && i < |s.wq| && s.info[s.wq[i]].state.Ready?
    ensures var r, k := Next(s, Run(now)), |s.rq| + i;
            && r.active.Some? && k <= |r.rq|
            && s.wq[i] == if k == 0 then r.active.value else r.rq[k - 1]
  {
    SweepMovesPrefix(s, now);
    var k := SweepLen(s.wq, s.info, now);
    if k <= i { ReadyBefore(s, k, i); }
    var q := Sweep(s, now).rq;
    assert q == s.rq + s.wq[..k];
    assert q[|s.rq| + i] == s.wq[i];
  }

  lemma ReadyBefore<F>(s: Sched<F>, k: nat, i: nat)
    requires Placed(s) && k <= i < |s.wq| && s.info[s.wq[i]].state.Ready?
    ensures s.info[s.wq[k]].state.Ready?
  {
    assert InPlace(s, s.wq[k]);
  }

  // ---------------------------------------------------------------- interruption

  /** Every `WaitUntil` and `Join` of the run is called without a pending interruption. */
  ghost predicate WaitsUnflagged<F>(s: Sched<F>, acts: seq<Action<F>>)
    requires IsRun(s, acts)
    decreases |acts|
  {
    acts != [] ==>
      && (acts[0].WaitUntil? || acts[0].Join? ==> !s.info[s.active.value].flag)
      && WaitsUnflagged(Next(s, acts[0]), acts[1..])
  }

  /** No WAITING fiber is flagged. */
  ghost predicate FlaggedAreReady<F>(s: Sched<F>) {
    forall f {:trigger s.info[f].flag} :: f in s.info && s.info[f].flag ==> !s.info[f].state.Waiting?
  }

  lemma StepFlaggedAreReady<F>(s: Sched<F>, a: Action<F>)
    requires Inv(s) && Enabled(s, a) && FlaggedAreReady(s)
    requires a.WaitUntil? || a.Join? ==> !s.info[s.active.value].flag
    ensures FlaggedAreReady(Next(s, a))
  {
    match a
    case Run(now) => SweepFrame(s, now);
    case Terminate =>
      var f := s.active.value;
      SetReadyAllInfo(Update(s, f, s.info[f].(state := Terminated, joiners := [])).(active := None), s.info[f].joiners);
    case _ =>
  }

  /** In every run in which no fiber waits with an interruption pending, every sweep is the full filter: it takes
      exactly the READY fibers and those past their deadline, in order, and leaves exactly the others. */
  lemma {:induction false} SweepsAreFilters<F>(s: Sched<F>, acts: seq<Action<F>>, now: TimePoint)
    requires Inv(s) && FlaggedAreReady(s) && IsRun(s, acts) && WaitsUnflagged(s, acts)
    ensures var r := After(s, acts); var due := DueTest(r.info, now);
            Sweep(r, now).wq == FilterOut(r.wq, due) && Sweep(r, now).rq == r.rq + Filter(r.wq, due)
    decreases |acts|
  {
    if acts == [] {
      SweepMovesPrefix(s, now);
      forall i | 0 <= i < |s.wq| && s.info[s.wq[i]].flag ensures s.info[s.wq[i]].state.Ready? {
        assert InPlace(s, s.wq[i]);
      }
      EarlyExitByDeadline(s.wq, s.info, now);
    } else {
      NextInv(s, acts[0]);
      StepFlaggedAreReady(s, acts[0]);
      SweepsAreFilters(Next(s, acts[0]), acts[1..], now);
    }
  }

  // ---------------------------------------------------------------- sleeping

  /** `next_wakeup`: until when the thread sleeps when nothing is ready. */
  function NextWakeup<F(==)>(s: Sched<F>, now: TimePoint, interval: nat): int
    requires s.wq != [] ==> s.wq[0] in s.info
  {
    if s.wq == [] then now + interval
    else if s.info[s.wq[0]].tp == TIME_MAX then now + interval
    else s.info[s.wq[0]].tp
  }

  /** Does a thread that swept at `now` and asks at `later` how long to sleep wake at the earliest deadline, which was
      not due at the sweep, or after one interval if there is none? */
  ghost predicate WakesInTime<F>(s: Sched<F>, now: TimePoint, later: TimePoint, interval: nat)
    requires Keyed(s.wq, s.info)
  {
    var t := NextWakeup(s, later, interval);
    if forall i :: 0 <= i < |s.wq| ==> s.info[s.wq[i]].tp == TIME_MAX then t == later + interval
    else now < t && (forall i :: 0 <= i < |s.wq| ==> t <= s.info[s.wq[i]].tp)
         && exists i :: 0 <= i < |s.wq| && t == s.info[s.wq[i]].tp
  }

  lemma HeadWakesInTime<F>(s: Sched<F>, now: TimePoint, later: TimePoint, interval: nat)
    requires Keyed(s.wq, s.info)
    requires forall i :: 0 <= i < |s.wq| ==> StillWaits(s, now, i)
    ensures WakesInTime(s, now, later, interval)
  {
    forall i | 0 <= i < |s.wq| ensures now < s.info[s.wq[0]].tp <= s.info[s.wq[i]].tp {
      assert StillWaits(s, now, i) && StillWaits(s, now, 0);
    }
  }

  /** When `run` resumes nothing, nothing is ready and the thread does not sleep past any queued deadline, however much
      later `next_wakeup` reads the clock. */
  lemma NoOversleep<F>(s: Sched<F>, now: TimePoint, later: TimePoint, interval: nat)
    requires Inv(s) && Enabled(s, Run(now)) && Next(s, Run(now)).active.None?
    ensures var r := Next(s, Run(now)); Keyed(r.wq, r.info) && r.rq == [] && WakesInTime(r, now, later, interval)
  {
    SweepLeavesWaiting(s, now);
    HeadWakesInTime(Sweep(s, now), now, later, interval);
  }
}
