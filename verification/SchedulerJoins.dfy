/** Joining: the registrations kept in the fibers' `waiting_` vectors, over every step of the scheduler. */
module SchedulerJoins {
  import opened Seqs
  import opened WaitingOrder
  import opened SchedulerModel

  /** What the registrations of `f` depend on besides its own record: counts and terminations. */
  ghost predicate SameFor<F>(s: Sched<F>, r: Sched<F>, f: F) {
    && s.info.Keys <= r.info.Keys
    && forall t {:trigger Regs(r, t, f)} {:trigger r.info[t].state} :: t in r.info ==>
         && Regs(r, t, f) == (if t in s.info then Regs(s, t, f) else 0)
         && (t in s.info ==> r.info[t].state.Terminated? == s.info[t].state.Terminated?)
  }

  lemma Unaffected<F>(s: Sched<F>, r: Sched<F>, f: F, i: Info<F>)
    requires JoinsAs(s, f, i) && SameFor(s, r, f)
    requires TargetKnown(i, s.info)
    ensures JoinsAs(r, f, i)
  {
  }

  /** A step that changes neither a `waiting_` vector nor the set of terminated fibers, and only the record of `p`. */
  lemma OneChanged<F>(s: Sched<F>, r: Sched<F>, p: F, i: Info<F>)
    requires WellTyped(s) && Joined(s) && p in s.info && r.info == s.info[p := i]
    requires i.joiners == s.info[p].joiners && i.state.Terminated? == s.info[p].state.Terminated?
    requires JoinsAs(s, p, i) && TargetKnown(i, s.info)
    ensures Joined(r)
  {
    forall f | f in r.info ensures JoinsWell(r, f) {
      assert JoinsWell(s, f);
      assert SameFor(s, r, f);
      Unaffected(s, r, f, r.info[f]);
    }
  }

  lemma AwakenJoined<F>(s: Sched<F>, now: TimePoint)
    requires Placed(s) && Joined(s) && s.wq != [] && Fetched(s.info[s.wq[0]], now) && now < TIME_MAX
    ensures Joined(Awaken(s))
  {
    var h := s.wq[0];
    assert InPlace(s, h) && JoinsWell(s, h);
    OneChanged(s, Awaken(s), h, s.info[h].(state := Ready, tp := TIME_MAX));
  }

  lemma {:induction false} SweepJoined<F>(s: Sched<F>, now: TimePoint)
    requires Placed(s) && Joined(s) && now < TIME_MAX
    ensures Joined(Sweep(s, now))
    decreases |s.wq|
  {
    if s.wq != [] && Fetched(s.info[s.wq[0]], now) {
      AwakenPlaced(s);
      AwakenJoined(s, now);
      SweepJoined(Awaken(s), now);
    }
  }

  lemma DispatchJoined<F>(s: Sched<F>)
    requires Placed(s) && Joined(s)
    ensures Joined(Dispatch(s))
  {
    if s.rq != [] {
      var h := s.rq[0];
      assert InPlace(s, h) && JoinsWell(s, h);
      OneChanged(s, Dispatch(s), h, s.info[h].(state := Running));
    }
  }

  lemma ParkJoined<F>(s: Sched<F>, f: F, i: Info<F>)
    requires Placed(s) && Joined(s) && s.active == Some(f) && s.info[f].joining.None?
    requires i == s.info[f].(state := i.state, tp := i.tp) && (i.state.Waiting? || i.state.Ready?)
    ensures Joined(Park(s, f, i))
  {
    assert InPlace(s, f) && JoinsWell(s, f);
    OneChanged(s, Park(s, f, i), f, i);
  }

  lemma AppendCounts<F>(s: seq<F>, f: F, g: F)
    ensures multiset(s + [f])[g] == multiset(s)[g] + if f == g then 1 else 0
  {
  }

  /** `f` has registered with `t`. */
  ghost predicate RegisteredWith<F>(s: Sched<F>, r: Sched<F>, f: F, t: F) {
    && f in s.info && t in s.info && f != t && !s.info[t].state.Terminated?
    && r.info == s.info[f := Joining(s.info[f], t)][t := s.info[t].(joiners := s.info[t].joiners + [f])]
  }

  /** The registrations of `g` afterwards. */
  lemma Registered<F>(s: Sched<F>, r: Sched<F>, f: F, t: F, g: F)
    requires WellTyped(s) && RegisteredWith(s, r, f, t) && g in s.info && JoinsWell(s, g)
    requires s.info[f].state.Running? && s.info[f].tp == TIME_MAX && s.info[f].joining.None?
    ensures JoinsWell(r, g)
  {
    forall x {:trigger Regs(r, x, g)} | x in r.info
      ensures Regs(r, x, g) == Regs(s, x, g) + if x == t && g == f then 1 else 0
    {
      if x == t { AppendCounts(s.info[t].joiners, f, g); }
    }
  }

  lemma JoinJoined<F>(s: Sched<F>, f: F, t: F)
    requires Placed(s) && Joined(s) && s.active == Some(f) && s.info[f].joining.None? && t in s.info && f != t
    ensures Joined(JoinStep(s, f, t))
  {
    assert InPlace(s, f) && JoinsWell(s, f);
    if s.info[t].state.Terminated? {
      OneChanged(s, JoinStep(s, f, t), f, Joining(s.info[f], t).(state := Ready));
    } else {
      RegisterJoined(s, JoinStep(s, f, t), f, t);
    }
  }

  lemma RegisterJoined<F>(s: Sched<F>, r: Sched<F>, f: F, t: F)
    requires WellTyped(s) && Joined(s) && RegisteredWith(s, r, f, t)
    requires s.info[f].state.Running? && s.info[f].tp == TIME_MAX && s.info[f].joining.None?
    ensures Joined(r)
  {
    forall g | g in r.info ensures JoinsWell(r, g) {
      assert JoinsWell(s, g);
      Registered(s, r, f, t, g);
    }
  }

  lemma {:induction false} SetReadyAllInfo<F>(s: Sched<F>, ps: seq<F>)
    requires Keyed(ps, s.info)
    ensures forall f :: f in s.info ==>
      SetReadyAll(s, ps).info[f] == if f in ps then s.info[f].(state := Ready) else s.info[f]
    decreases |ps|
  {
    if ps != [] {
      SetReadyAllInfo(SetReady(s, ps[0]), ps[1..]);
      assert forall f :: f in ps <==> f == ps[0] || f in ps[1..];
    }
  }

  lemma CountsMembers<F>(s: seq<F>, f: F)
    ensures multiset(s)[f] == 0 <==> f !in s
  {
    assert f in s <==> f in multiset(s);
  }

  /** `f` terminates and readies its joiners; the registrations of `g` afterwards. */
  lemma Released<F>(s: Sched<F>, r: Sched<F>, f: F, g: F)
    requires WellTyped(s) && f in s.info && g in s.info && s.info[f].state.Running?
    requires JoinsWell(s, f) && JoinsWell(s, g) && (g != f ==> !s.info[g].state.Running?) && s.info[f].joining.None?
    requires r.info.Keys == s.info.Keys && f !in s.info[f].joiners
    requires r.info[f] == s.info[f].(state := Terminated, joiners := [])
    requires forall x :: x in s.info && x != f ==>
      r.info[x] == if x in s.info[f].joiners then s.info[x].(state := Ready) else s.info[x]
    requires forall x :: x in s.info[f].joiners ==> x in s.info && !s.info[x].state.Terminated?
    ensures JoinsWell(r, g)
  {
    CountsMembers(s.info[f].joiners, g);
    assert Regs(s, f, g) == 0 <==> g !in s.info[f].joiners;
    forall t {:trigger Regs(r, t, g)} | t in r.info
      ensures Regs(r, t, g) == if t == f then 0 else Regs(s, t, g)
    {}
  }

  lemma TerminateJoined<F>(s: Sched<F>)
    requires Inv(s) && Enabled(s, Terminate)
    ensures Joined(TerminateStep(s, s.active.value))
  {
    var f := s.active.value;
    var js := s.info[f].joiners;
    var s1 := Update(s, f, s.info[f].(state := Terminated, joiners := [])).(active := None);
    var r := TerminateStep(s, f);
    SetReadyAllInfo(s1, js);
    assert InPlace(s, f) && JoinsWell(s, f);
    ReleaseNeverFails(s);
    assert forall x :: x in js ==> ReadyTarget(s, x);
    forall g | g in r.info ensures JoinsWell(r, g) {
      assert JoinsWell(s, g) && InPlace(s, g);
      Released(s, r, f, g);
    }
    forall t | t in r.info && r.info[t].state.Terminated? ensures r.info[t].joiners == [] {
      assert t != f ==> r.info[t] == s.info[t];
    }
  }

  lemma SpawnJoined<F>(s: Sched<F>, f: F)
    requires WellTyped(s) && Joined(s) && Enabled(s, Spawn(f))
    ensures Joined(Next(s, Spawn(f)))
  {
    var r := Next(s, Spawn(f));
    forall t {:trigger Regs(r, t, f)} | t in r.info ensures Regs(r, t, f) == 0 {
      CountsMembers(r.info[t].joiners, f);
    }
    forall g | g in r.info ensures JoinsWell(r, g) {
      if g != f { assert JoinsWell(s, g); Unaffected(s, r, g, s.info[g]); }
    }
  }

  lemma NextJoined<F>(s: Sched<F>, a: Action<F>)
    requires Inv(s) && Enabled(s, a)
    ensures Joined(Next(s, a))
  {
    match a
    case Spawn(f) => SpawnJoined(s, f);
    case Run(now) => SweepPlaced(s, now); SweepJoined(s, now); DispatchJoined(Sweep(s, now));
    case WaitUntil(tp) => ParkJoined(s, s.active.value, s.info[s.active.value].(state := Waiting, tp := tp));
    case Yield => ParkJoined(s, s.active.value, s.info[s.active.value].(state := Ready));
    case Join(t) => JoinJoined(s, s.active.value, t);
    case Terminate => TerminateJoined(s);
    case JoinReturn =>
      assert JoinsWell(s, s.active.value);
      OneChanged(s, Next(s, a), s.active.value, s.info[s.active.value].(joining := None));
    case Notify(p) =>
      assert JoinsWell(s, p);
      OneChanged(s, Next(s, a), p, s.info[p].(state := Ready));
    case Interrupt(p) =>
      assert JoinsWell(s, p);
      OneChanged(s, Next(s, a), p, s.info[p].(state := Ready, flag := true));
    case ClearInterrupt =>
      assert JoinsWell(s, s.active.value);
      OneChanged(s, Next(s, a), s.active.value, s.info[s.active.value].(flag := false));
  }

  /** Every step keeps the whole invariant. */
  lemma NextInv<F>(s: Sched<F>, a: Action<F>)
    requires Inv(s) && Enabled(s, a)
    ensures Inv(Next(s, a))
  {
    NextPlaced(s, a);
    NextJoined(s, a);
  }

  /** Every state of every run satisfies the invariant. */
  lemma {:induction false} RunInv<F>(s: Sched<F>, acts: seq<Action<F>>)
    requires Inv(s) && IsRun(s, acts)
    ensures Inv(After(s, acts))
    decreases |acts|
  {
    if acts != [] {
      NextInv(s, acts[0]);
      RunInv(Next(s, acts[0]), acts[1..]);
    }
  }

  // ---------------------------------------------------------------- leaving a join

  lemma {:induction false} SweepFrame<F>(s: Sched<F>, now: TimePoint)
    requires Keyed(s.wq, s.info)
    ensures forall f :: f in s.info ==>
      var i, j := s.info[f], Sweep(s, now).info[f];
      && j.joining == i.joining && j.flag == i.flag && j.joiners == i.joiners
      && (j == i || (f in s.wq && j.state.Ready?))
    decreases |s.wq|
  {
    if s.wq != [] && Fetched(s.info[s.wq[0]], now) {
      SweepFrame(Awaken(s), now);
    }
  }

  lemma {:induction false} SweepReadies<F>(s: Sched<F>, now: TimePoint, f: F)
    requires Keyed(s.wq, s.info) && NoDup(s.wq) && f in s.info && s.info[f].state.Waiting?
    ensures Sweep(s, now).info[f].state.Waiting? <==> f !in s.wq[..SweepLen(s.wq, s.info, now)]
    decreases |s.wq|
  {
    if s.wq != [] && Fetched(s.info[s.wq[0]], now) {
      var r, k := Awaken(s), SweepLen(s.wq, s.info, now);
      HeadAndTail(s.wq);
      SweepLenUnique(r.wq, r.info, now, k - 1);
      SplitStep(s.wq, k);
      if f == s.wq[0] { SweepFrame(r, now); } else { SweepReadies(r, now, f); }
    }
  }

  lemma RunTerminates<F>(s: Sched<F>, now: TimePoint, t: F)
    requires Inv(s) && Enabled(s, Run(now)) && t in s.info
    ensures var r := Next(s, Run(now));
            t in r.info && (r.info[t].state.Terminated? <==> s.info[t].state.Terminated?)
  {
    assert InPlace(s, t);
    SweepFrame(s, now);
    SweepPlaced(s, now);
    var s1 := Sweep(s, now);
    if s1.rq != [] { assert InPlace(s1, s1.rq[0]); }
  }

  lemma EndTerminates<F>(s: Sched<F>, t: F)
    requires Inv(s) && Enabled(s, Terminate) && t in s.info
    ensures var r := Next(s, Terminate);
            t in r.info && (r.info[t].state.Terminated? <==> s.info[t].state.Terminated? || s.active == Some(t))
  {
    var f := s.active.value;
    ReleaseNeverFails(s);
    SetReadyAllInfo(Update(s, f, s.info[f].(state := Terminated, joiners := [])).(active := None), s.info[f].joiners);
  }

  lemma TerminatedStays<F>(s: Sched<F>, a: Action<F>, t: F)
    requires Inv(s) && Enabled(s, a) && t in s.info
    ensures var r := Next(s, a);
            t in r.info &&
            (r.info[t].state.Terminated? <==> s.info[t].state.Terminated? || (a.Terminate? && s.active == Some(t)))
  {
    match a
    case Run(now) => RunTerminates(s, now, t);
    case Terminate => EndTerminates(s, t);
    case _ => if s.active.Some? { assert InPlace(s, s.active.value); }
  }

  lemma {:induction false} TerminatedForEver<F>(s: Sched<F>, acts: seq<Action<F>>, t: F)
    requires Inv(s) && IsRun(s, acts) && t in s.info && s.info[t].state.Terminated?
    ensures t in After(s, acts).info && After(s, acts).info[t].state.Terminated?
    decreases |acts|
  {
    if acts != [] {
      NextInv(s, acts[0]);
      TerminatedStays(s, acts[0], t);
      TerminatedForEver(Next(s, acts[0]), acts[1..], t);
    }
  }

  /** The steps that ready a fiber waiting in `join` although its target lives: a notification, an interruption, or a
      sweep that reaches it. */
  ghost predicate Disturbs<F>(s: Sched<F>, a: Action<F>, j: F)
    requires WellTyped(s)
  {
    a == Notify(j) || a == Interrupt(j) || (a.Run? && j in s.wq[..SweepLen(s.wq, s.info, a.now)])
  }

  lemma StaysJoining<F>(s: Sched<F>, a: Action<F>, j: F)
    requires Inv(s) && Enabled(s, a) && j in s.info && s.info[j].joining.Some?
    requires a.JoinReturn? ==> s.active != Some(j)
    ensures j in Next(s, a).info && Next(s, a).info[j].joining == s.info[j].joining
  {
    match a
    case Run(now) => SweepFrame(s, now);
    case Terminate =>
      var f := s.active.value;
      SetReadyAllInfo(Update(s, f, s.info[f].(state := Terminated, joiners := [])).(active := None), s.info[f].joiners);
    case _ =>
  }

  /** What one step does to a fiber `j` that waits in a join of the live fiber `t`. It leaves the waiting state while
      `t` lives exactly by a notification of it, an interruption of it, or a sweep that reaches it; a sweep does so only
      if an interruption was pending when the join began. And the end of `t` readies it. */
  lemma LeavesJoinExactly<F>(s: Sched<F>, a: Action<F>, j: F)
    requires Inv(s) && Enabled(s, a) && Unfinished(s, j) && s.info[j].state.Waiting?
    ensures var r, t := Next(s, a), s.info[j].joining.value;
            && j in r.info && t in r.info && r.info[j].joining == Some(t)
            && (!r.info[j].state.Waiting? && !r.info[t].state.Terminated? <==> Disturbs(s, a, j))
            && (r.info[t].state.Terminated? <==> a.Terminate? && s.active == Some(t))
            && (r.info[t].state.Terminated? ==> r.info[j].state.Ready?)
            && (a.Run? && Disturbs(s, a, j) ==> s.info[j].flag)
  {
    var t := s.info[j].joining.value;
    StaysJoining(s, a, j);
    TerminatedStays(s, a, t);
    assert InPlace(s, j) && InPlace(s, t) && JoinsWell(s, j);
    match a
    case Run(now) => RunLeavesJoin(s, now, j);
    case Terminate => EndReadies(s, j);
    case _ =>
  }

  lemma RunLeavesJoin<F>(s: Sched<F>, now: TimePoint, j: F)
    requires Inv(s) && Enabled(s, Run(now)) && Unfinished(s, j) && s.info[j].state.Waiting?
    ensures Next(s, Run(now)).info[j].state.Waiting? <==> !Disturbs(s, Run(now), j)
    ensures Disturbs(s, Run(now), j) ==> s.info[j].flag
  {
    SweepReadies(s, now, j);
    SweepPlaced(s, now);
    assert JoinsWell(s, j);
    var s1 := Sweep(s, now);
    if s1.rq != [] { assert InPlace(s1, s1.rq[0]); }
  }

  lemma EndReadies<F>(s: Sched<F>, j: F)
    requires Inv(s) && Enabled(s, Terminate) && Unfinished(s, j) && s.info[j].state.Waiting?
    ensures var r := Next(s, Terminate).info[j].state;
            if s.info[j].joining == s.active then r.Ready? else r.Waiting?
  {
    var f := s.active.value;
    assert JoinsWell(s, j) && InPlace(s, j) && InPlace(s, f);
    CountsMembers(s.info[f].joiners, j);
    assert Regs(s, f, j) == 0 <==> j !in s.info[f].joiners;
    SetReadyAllInfo(Update(s, f, s.info[f].(state := Terminated, joiners := [])).(active := None), s.info[f].joiners);
  }

  // ---------------------------------------------------------------- whole joins

  ghost predicate NeverDisturbed<F>(s: Sched<F>, acts: seq<Action<F>>, j: F)
    requires IsRun(s, acts)
    decreases |acts|
  {
    acts != [] ==> !Disturbs(s, acts[0], j) && NeverDisturbed(Next(s, acts[0]), acts[1..], j)
  }

  /** A fiber that was readied inside a join of a live fiber never waits again while that lives: it stays READY, or is
      resumed and stops at the failed assertion. */
  lemma {:induction false} ReadiedJoiner<F>(s: Sched<F>, acts: seq<Action<F>>, j: F)
    requires Inv(s) && IsRun(s, acts) && Unfinished(s, j) && !s.info[j].state.Waiting?
    requires var t := s.info[j].joining.value; t in After(s, acts).info && !After(s, acts).info[t].state.Terminated?
    ensures var r := After(s, acts);
            j in r.info && r.info[j].joining == s.info[j].joining && !r.info[j].state.Waiting?
    decreases |acts|
  {
    if acts != [] {
      var a, r, t := acts[0], Next(s, acts[0]), s.info[j].joining.value;
      NextInv(s, a);
      TerminatedStays(s, a, t);
      if r.info[t].state.Terminated? { TerminatedForEver(r, acts[1..], t); }
      StaysJoining(s, a, j);
      StaysReadied(s, a, j);
      ReadiedJoiner(r, acts[1..], j);
    }
  }

  lemma StaysReadied<F>(s: Sched<F>, a: Action<F>, j: F)
    requires Inv(s) && Enabled(s, a) && Unfinished(s, j) && !s.info[j].state.Waiting?
    ensures j in Next(s, a).info && !Next(s, a).info[j].state.Waiting?
  {
    assert InPlace(s, j) && JoinsWell(s, j);
    match a
    case Run(now) => SweepFrame(s, now);
    case Terminate =>
      var f := s.active.value;
      SetReadyAllInfo(Update(s, f, s.info[f].(state := Terminated, joiners := [])).(active := None), s.info[f].joiners);
    case _ =>
  }

  /** A join over whole runs: as long as the target lives, the joiner waits if and only if nothing has disturbed it. */
  lemma {:induction false} JoinWaitsExactly<F>(s: Sched<F>, acts: seq<Action<F>>, j: F)
    requires Inv(s) && IsRun(s, acts) && Unfinished(s, j) && s.info[j].state.Waiting?
    requires var t := s.info[j].joining.value; t in After(s, acts).info && !After(s, acts).info[t].state.Terminated?
    ensures var r := After(s, acts);
            && j in r.info && r.info[j].joining == s.info[j].joining
            && (r.info[j].state.Waiting? <==> NeverDisturbed(s, acts, j))
    decreases |acts|
  {
    if acts != [] {
      var a, r, t := acts[0], Next(s, acts[0]), s.info[j].joining.value;
      NextInv(s, a);
      LeavesJoinExactly(s, a, j);
      if r.info[t].state.Terminated? { TerminatedForEver(r, acts[1..], t); }
      if Disturbs(s, a, j) {
        ReadiedJoiner(r, acts[1..], j);
      } else {
        JoinWaitsExactly(r, acts[1..], j);
      }
    }
  }

  lemma {:induction false} SplitRun<F>(s: Sched<F>, acts: seq<Action<F>>, k: nat)
    requires IsRun(s, acts) && k <= |acts|
    ensures IsRun(s, acts[..k]) && IsRun(After(s, acts[..k]), acts[k..])
    ensures After(After(s, acts[..k]), acts[k..]) == After(s, acts)
    decreases k
  {
    if k > 0 {
      SplitRun(Next(s, acts[0]), acts[1..], k - 1);
      assert acts[..k][1..] == acts[1..][..k - 1] && acts[1..][k - 1..] == acts[k..];
    } else {
      assert acts[0..] == acts;
    }
  }

  lemma LastStep<F>(s: Sched<F>, acts: seq<Action<F>>)
    requires Inv(s) && IsRun(s, acts) && acts != []
    ensures var n := |acts| - 1;
            && IsRun(s, acts[..n]) && Inv(After(s, acts[..n])) && Enabled(After(s, acts[..n]), acts[n])
            && After(s, acts) == Next(After(s, acts[..n]), acts[n])
  {
    var n := |acts| - 1;
    SplitRun(s, acts, n);
    RunInv(s, acts[..n]);
    var m, a := After(s, acts[..n]), acts[n];
    assert acts[n..] == [a] && After(m, [a]) == Next(m, a);
  }

  /** Step `k` of the run is the one with which `j` began to join `t`, and from then on waits for it. */
  ghost predicate Began<F>(s: Sched<F>, acts: seq<Action<F>>, k: nat, j: F, t: F) {
    && k < |acts| && acts[k] == Join(t) && IsRun(s, acts[..k + 1])
    && var m := After(s, acts[..k + 1]);
       Unfinished(m, j) && m.info[j].joining == Some(t) && m.info[j].state.Waiting?
  }

  lemma BeganBefore<F>(s: Sched<F>, acts: seq<Action<F>>, n: nat, k: nat, j: F, t: F)
    requires n <= |acts| && Began(s, acts[..n], k, j, t)
    ensures Began(s, acts, k, j, t)
  {
    assert acts[..n][..k + 1] == acts[..k + 1];
  }

  lemma {:induction false} JoinBegan<F>(s: Sched<F>, acts: seq<Action<F>>, j: F, t: F) returns (k: nat)
    requires Inv(s) && IsRun(s, acts) && (j in s.info ==> s.info[j].joining.None?)
    requires Unfinished(After(s, acts), j) && After(s, acts).info[j].joining == Some(t)
    ensures Began(s, acts, k, j, t)
    decreases |acts|
  {
    assert acts != [];
    var n := |acts| - 1;
    LastStep(s, acts);
    var m, a := After(s, acts[..n]), acts[n];
    if j in m.info && m.info[j].joining.Some? {
      KeepsTarget(m, a, j);
      k := JoinBegan(s, acts[..n], j, t);
      BeganBefore(s, acts, n, k, j, t);
    } else {
      BeginsJoin(m, a, j);
      k := n;
      assert acts[..n + 1] == acts;
    }
  }

  lemma KeepsTarget<F>(s: Sched<F>, a: Action<F>, j: F)
    requires Inv(s) && Enabled(s, a) && j in s.info && s.info[j].joining.Some? && Unfinished(Next(s, a), j)
    ensures Unfinished(s, j) && s.info[j].joining == Next(s, a).info[j].joining
  {
    assert !(a.JoinReturn? && s.active == Some(j));
    StaysJoining(s, a, j);
    TerminatedStays(s, a, s.info[j].joining.value);
  }

  lemma BeginsJoin<F>(s: Sched<F>, a: Action<F>, j: F)
    requires Inv(s) && Enabled(s, a) && (j in s.info ==> s.info[j].joining.None?) && Unfinished(Next(s, a), j)
    ensures a == Join(Next(s, a).info[j].joining.value) && Next(s, a).info[j].state.Waiting?
  {
    match a
    case Run(now) => SweepFrame(s, now);
    case Terminate =>
      var f := s.active.value;
      SetReadyAllInfo(Update(s, f, s.info[f].(state := Terminated, joiners := [])).(active := None), s.info[f].joiners);
    case _ =>
  }

  /** The assertion that ends `join`, in every run from the start. When it fails, the join began at some step of the run
      and was disturbed after it: the joiner was notified or interrupted, or an interruption was pending and the sweep
      came to it. */
  lemma JoinFailsOnlyDisturbed<F>(acts: seq<Action<F>>) returns (k: nat)
    requires IsRun(Init<F>(), acts) && JoinFails(After(Init<F>(), acts))
    ensures k < |acts| && IsRun(Init<F>(), acts[..k + 1]) && IsRun(After(Init<F>(), acts[..k + 1]), acts[k + 1..])
    ensures var r, m := After(Init<F>(), acts), After(Init<F>(), acts[..k + 1]);
            && acts[k] == Join(r.info[r.active.value].joining.value)
            && !NeverDisturbed(m, acts[k + 1..], r.active.value)
  {
    var r := After(Init<F>(), acts);
    RunInv(Init<F>(), acts);
    k := JoinBegan(Init<F>(), acts, r.active.value, r.info[r.active.value].joining.value);
    SplitRun(Init<F>(), acts, k + 1);
    RunInv(Init<F>(), acts[..k + 1]);
    assert InPlace(r, r.active.value);
    JoinWaitsExactly(After(Init<F>(), acts[..k + 1]), acts[k + 1..], r.active.value);
  }

  /** And conversely: a joiner that was disturbed and is resumed while its target lives fails it; one that was not is
      not resumed before its target has terminated. */
  lemma DisturbedJoinFails<F>(s: Sched<F>, acts: seq<Action<F>>, j: F)
    requires Inv(s) && IsRun(s, acts) && Unfinished(s, j) && s.info[j].state.Waiting?
    requires var t := s.info[j].joining.value; t in After(s, acts).info && !After(s, acts).info[t].state.Terminated?
    ensures var r := After(s, acts);
            && (r.active == Some(j) ==> JoinFails(r))
            && (NeverDisturbed(s, acts, j) ==> r.active != Some(j))
  {
    RunInv(s, acts);
    JoinWaitsExactly(s, acts, j);
    assert InPlace(After(s, acts), j);
  }

  /** A terminating fiber readies each of the fibers that wait for it exactly once, and all of them. */
  lemma TerminationReadiesJoiners<F>(s: Sched<F>, j: F)
    requires Inv(s) && Enabled(s, Terminate)
    requires j in s.info && s.info[j].joining == s.active && s.info[j].state.Waiting?
    ensures Regs(s, s.active.value, j) == 1
    ensures forall t :: t in s.info && t != s.active.value ==> Regs(s, t, j) == 0
    ensures Next(s, Terminate).info[j].state.Ready? && j in Next(s, Terminate).wq
  {
    var f := s.active.value;
    assert JoinsWell(s, j) && InPlace(s, f) && InPlace(s, j);
    EndReadies(s, j);
    TerminatePlaced(s);
    var r := Next(s, Terminate);
    assert InPlace(r, j);
    assert r.rq == s.rq;
  }
}
