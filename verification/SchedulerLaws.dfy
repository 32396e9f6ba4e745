/** What each call does to a fiber, field by field, and what follows for a fiber that sleeps, yields or is notified. */
module SchedulerLaws {
  import opened Seqs
  import opened WaitingOrder
  import opened SchedulerModel
  import opened SchedulerJoins
  import opened SchedulerRuns

  // ---------------------------------------------------------------- one step, one fiber

  /** `f` is the running fiber and makes this call. */
  ghost predicate Calls<F>(s: Sched<F>, f: F) {
    s.active == Some(f)
  }

  /** The sweep of this `run` takes `f` out of the waiting queue. */
  ghost predicate Taken<F>(s: Sched<F>, a: Action<F>, f: F)
    requires Keyed(s.wq, s.info)
  {
    a.Run? && f in s.wq[..SweepLen(s.wq, s.info, a.now)]
  }

  /** What `run` and the end of a fiber do to the record of `f`. */
  lemma RunRecord<F>(s: Sched<F>, now: TimePoint, f: F)
    requires Inv(s) && Enabled(s, Run(now)) && f in s.info
    ensures var r := Next(s, Run(now));
            && f in r.info
            && r.info[f].(state := Ready) ==
               s.info[f].(state := Ready, tp := if Taken(s, Run(now), f) then TIME_MAX else s.info[f].tp)
            && (!Taken(s, Run(now), f) && r.active != Some(f) ==> r.info[f] == s.info[f])
            && (Taken(s, Run(now), f) && r.active != Some(f) ==> r.info[f].state.Ready?)
            && (r.active == Some(f) ==> r.info[f].state.Running?)
  {
    SweepMovesPrefix(s, now);
  }

  lemma EndRecord<F>(s: Sched<F>, f: F)
    requires Inv(s) && Enabled(s, Terminate) && f in s.info
    ensures var r, e := Next(s, Terminate), s.active.value;
            && f in r.info
            && r.info[f] == if f == e then s.info[f].(state := Terminated, joiners := [])
                            else if s.info[f].joining == s.active then s.info[f].(state := Ready)
                            else s.info[f]
  {
    var e := s.active.value;
    assert JoinsWell(s, f) && InPlace(s, e);
    CountsMembers(s.info[e].joiners, f);
    assert Regs(s, e, f) == 0 <==> f !in s.info[e].joiners;
    SetReadyAllInfo(Update(s, e, s.info[e].(state := Terminated, joiners := [])).(active := None), s.info[e].joiners);
  }

  /** The interruption flag is set exactly by `Interrupt` and cleared exactly by the fiber itself. */
  lemma FlagExactly<F>(s: Sched<F>, a: Action<F>, f: F)
    requires Inv(s) && Enabled(s, a) && f in s.info
    ensures f in Next(s, a).info
    ensures Next(s, a).info[f].flag ==
            if a == Interrupt(f) then true else if a.ClearInterrupt? && Calls(s, f) then false else s.info[f].flag
  {
    match a
    case Run(now) => RunRecord(s, now, f);
    case Terminate => EndRecord(s, f);
    case _ =>
  }

  /** The deadline is what the fiber asks for, until a sweep takes it. */
  lemma DeadlineExactly<F>(s: Sched<F>, a: Action<F>, f: F)
    requires Inv(s) && Enabled(s, a) && f in s.info
    ensures f in Next(s, a).info
    ensures Next(s, a).info[f].tp ==
            if a.WaitUntil? && Calls(s, f) then a.tp else if Taken(s, a, f) then TIME_MAX else s.info[f].tp
  {
    match a
    case Run(now) => RunRecord(s, now, f);
    case Terminate => EndRecord(s, f);
    case _ =>
  }

  /** A fiber is inside `join` from the call to its return. */
  lemma JoiningExactly<F>(s: Sched<F>, a: Action<F>, f: F)
    requires Inv(s) && Enabled(s, a) && f in s.info
    ensures f in Next(s, a).info
    ensures Next(s, a).info[f].joining ==
            if a.Join? && Calls(s, f) then Some(a.target)
            else if a.JoinReturn? && Calls(s, f) then None else s.info[f].joining
  {
    match a
    case Run(now) => RunRecord(s, now, f);
    case Terminate => EndRecord(s, f);
    case _ =>
  }

  /** What readies a fiber. */
  ghost predicate Readies<F>(s: Sched<F>, a: Action<F>, f: F)
    requires f in s.info && Keyed(s.wq, s.info)
  {
    || a == Notify(f) || a == Interrupt(f) || Taken(s, a, f)
    || (a.Terminate? && s.active.Some? && s.info[f].joining == s.active)
  }

  lemma RunWaiting<F>(s: Sched<F>, now: TimePoint, f: F)
    requires Inv(s) && Enabled(s, Run(now)) && f in s.info
    ensures f in Next(s, Run(now)).info
    ensures Next(s, Run(now)).info[f].state.Waiting? <==> s.info[f].state.Waiting? && !Taken(s, Run(now), f)
  {
    assert InPlace(s, f);
    RunRecord(s, now, f);
    RunTakesReady(s, now);
  }

  lemma OtherWaiting<F>(s: Sched<F>, a: Action<F>, f: F)
    requires Inv(s) && Enabled(s, a) && f in s.info && !Calls(s, f)
    ensures f in Next(s, a).info
    ensures Next(s, a).info[f].state.Waiting? <==> s.info[f].state.Waiting? && !Readies(s, a, f)
  {
    match a
    case Run(now) => RunWaiting(s, now, f);
    case Terminate => EndRecord(s, f);
    case _ =>
  }

  /** A fiber begins to wait exactly by `wait_until` or by a `join` of a live fiber, and ceases exactly by a
      notification, an interruption, a sweep that takes it, or the end of the fiber it joins. */
  lemma WaitingExactly<F>(s: Sched<F>, a: Action<F>, f: F)
    requires Inv(s) && Enabled(s, a) && f in s.info
    ensures f in Next(s, a).info
    ensures Next(s, a).info[f].state.Waiting? <==>
            if Calls(s, f) then a.WaitUntil? || (a.Join? && !s.info[a.target].state.Terminated?)
            else s.info[f].state.Waiting? && !Readies(s, a, f)
  {
    if Calls(s, f) {
      assert InPlace(s, f);
      if a.Terminate? { EndRecord(s, f); }
    } else {
      OtherWaiting(s, a, f);
    }
  }

  /** `run` resumes only what the sweep has taken or what was in the ready queue. */
  lemma RunTakesReady<F>(s: Sched<F>, now: TimePoint)
    requires Inv(s) && Enabled(s, Run(now))
    ensures var ready := s.rq + s.wq[..SweepLen(s.wq, s.info, now)];
            var r := Next(s, Run(now));
            if ready == [] then r.active == None && r.rq == []
            else r.active == Some(ready[0]) && r.rq == ready[1..]
    ensures var r := Next(s, Run(now)); r.active.Some? ==> r.active.value in s.rq || Taken(s, Run(now), r.active.value)
  {
    SweepMovesPrefix(s, now);
  }

  /** Who runs after a step: nobody after a suspension or an end, the first of the ready ones after `run`, and otherwise
      who ran before. */
  lemma ActiveExactly<F>(s: Sched<F>, a: Action<F>)
    requires Inv(s) && Enabled(s, a)
    ensures var r := Next(s, a).active;
            match a
            case Run(now) =>
              var ready := s.rq + s.wq[..SweepLen(s.wq, s.info, now)];
              r == if ready == [] then None else Some(ready[0])
            case WaitUntil(_) => r == None
            case Yield => r == None
            case Join(_) => r == None
            case Terminate => r == None
            case _ => r == s.active
  {
    if a.Run? { RunTakesReady(s, a.now); }
  }

  /** The sweep takes a waiting fiber exactly if its deadline has come, or if it is flagged and every fiber before it in
      the queue is READY, due or flagged. */
  lemma TakenExactly<F>(s: Sched<F>, now: TimePoint, f: F)
    requires Inv(s) && f in s.info && s.info[f].state.Waiting?
    ensures f in s.wq
    ensures Taken(s, Run(now), f) <==>
            || s.info[f].tp <= now
            || (s.info[f].flag && forall i :: 0 <= i < IndexOf(s.wq, f) ==>
                  var g := s.info[s.wq[i]]; g.state.Ready? || g.tp <= now || g.flag)
  {
    assert InPlace(s, f);
    var k, n := IndexOf(s.wq, f), SweepLen(s.wq, s.info, now);
    assert f in s.wq[..n] <==> k < n by {
      if k < n { assert s.wq[..n][k] == f; }
    }
  }

  /** A new fiber is READY, unflagged and last in the ready queue; nobody else is concerned. */
  lemma SpawnExactly<F>(s: Sched<F>, f: F)
    requires Inv(s) && Enabled(s, Spawn(f))
    ensures var r := Next(s, Spawn(f));
            && f in r.info && r.info[f].state.Ready? && !r.info[f].flag
            && r.info[f].joining.None? && r.info[f].joiners == []
            && r.rq == s.rq + [f] && r.wq == s.wq && r.active == s.active
            && forall g :: g in s.info ==> g in r.info && r.info[g] == s.info[g]
  {
  }

  /** Fibers that a step does not name keep their records: only the caller, the target of the call, the fibers that
      `run` takes or resumes, and the joiners of an ending fiber change. */
  lemma OthersUntouched<F>(s: Sched<F>, a: Action<F>, g: F)
    requires Inv(s) && Enabled(s, a) && g in s.info && !Calls(s, g) && !Readies(s, a, g)
    requires a.Run? ==> Next(s, a).active != Some(g)
    requires a.Join? ==> a.target != g
    ensures g in Next(s, a).info && Next(s, a).info[g] == s.info[g]
  {
    match a
    case Run(now) => RunRecord(s, now, g);
    case Terminate => EndRecord(s, g);
    case _ =>
  }

  /** A joiner registers last with a live target, and changes nothing of a terminated one. */
  lemma RegistersLast<F>(s: Sched<F>, t: F)
    requires Inv(s) && Enabled(s, Join(t))
    ensures var r := Next(s, Join(t));
            t in r.info && r.info[t] == if s.info[t].state.Terminated? then s.info[t]
                                        else s.info[t].(joiners := s.info[t].joiners + [s.active.value])
  {
  }

  // ---------------------------------------------------------------- sleeping

  /** `f` sleeps until `tp`. */
  ghost predicate SleepsTill<F>(s: Sched<F>, f: F, tp: TimePoint) {
    && f in s.info && s.info[f].state.Waiting? && s.info[f].tp == tp
    && !s.info[f].flag && s.info[f].joining.None?
  }

  /** Nobody disturbs `f`, and no `run` comes as late as `tp`. */
  ghost predicate Undisturbed<F>(a: Action<F>, f: F, tp: TimePoint) {
    a != Notify(f) && a != Interrupt(f) && (a.Run? ==> a.now < tp)
  }

  lemma SleepStep<F>(s: Sched<F>, a: Action<F>, f: F, tp: TimePoint)
    requires Inv(s) && Enabled(s, a) && SleepsTill(s, f, tp) && Undisturbed(a, f, tp)
    ensures SleepsTill(Next(s, a), f, tp)
  {
    assert InPlace(s, f);
    if a.Run? { TakenExactly(s, a.now, f); }
    WaitingExactly(s, a, f);
    FlagExactly(s, a, f);
    DeadlineExactly(s, a, f);
    JoiningExactly(s, a, f);
  }

  lemma FallsAsleep<F>(s: Sched<F>, tp: TimePoint)
    requires Inv(s) && Enabled(s, WaitUntil(tp)) && !s.info[s.active.value].flag
    ensures SleepsTill(Next(s, WaitUntil(tp)), s.active.value, tp)
  {
    var f := s.active.value;
    WaitingExactly(s, WaitUntil(tp), f);
    FlagExactly(s, WaitUntil(tp), f);
    DeadlineExactly(s, WaitUntil(tp), f);
    JoiningExactly(s, WaitUntil(tp), f);
  }

  lemma {:induction false} StaysAsleep<F>(s: Sched<F>, acts: seq<Action<F>>, f: F, tp: TimePoint)
    requires Inv(s) && IsRun(s, acts) && SleepsTill(s, f, tp)
    requires forall i :: 0 <= i < |acts| ==> Undisturbed(acts[i], f, tp)
    ensures Inv(After(s, acts)) && SleepsTill(After(s, acts), f, tp)
    decreases |acts|
  {
    if acts != [] {
      NextInv(s, acts[0]);
      SleepStep(s, acts[0], f, tp);
      StaysAsleep(Next(s, acts[0]), acts[1..], f, tp);
    }
  }

  /** `wait_until`, over whole runs: a fiber that nobody notifies or interrupts is WAITING with the deadline it asked
      for, whatever the other fibers do, as long as every `run` comes before that time ... */
  lemma WaitsUntilDeadline<F>(s: Sched<F>, tp: TimePoint, acts: seq<Action<F>>)
    requires Inv(s) && Enabled(s, WaitUntil(tp)) && !s.info[s.active.value].flag
    requires IsRun(Next(s, WaitUntil(tp)), acts)
    requires forall i :: 0 <= i < |acts| ==> Undisturbed(acts[i], s.active.value, tp)
    ensures var r, f := After(Next(s, WaitUntil(tp)), acts), s.active.value;
            && Inv(r) && f in r.info && r.info[f].state.Waiting? && r.info[f].tp == tp && f in r.wq
            && r.active != Some(f)
  {
    var t, f := Next(s, WaitUntil(tp)), s.active.value;
    NextInv(s, WaitUntil(tp));
    FallsAsleep(s, tp);
    StaysAsleep(t, acts, f, tp);
    assert InPlace(After(t, acts), f);
  }

  /** ... and the first `run` at or after it gets the fiber up: it is in the ready queue, or runs. */
  lemma WakesAtDeadline<F>(s: Sched<F>, tp: TimePoint, acts: seq<Action<F>>, now: TimePoint)
    requires Inv(s) && Enabled(s, WaitUntil(tp)) && !s.info[s.active.value].flag
    requires IsRun(Next(s, WaitUntil(tp)), acts) && Enabled(After(Next(s, WaitUntil(tp)), acts), Run(now)) && tp <= now
    requires forall i :: 0 <= i < |acts| ==> Undisturbed(acts[i], s.active.value, tp)
    ensures var r, f := Next(After(Next(s, WaitUntil(tp)), acts), Run(now)), s.active.value;
            f in r.info && (f in r.rq || r.active == Some(f)) && r.info[f].tp == TIME_MAX && f !in r.wq
  {
    var q, f := After(Next(s, WaitUntil(tp)), acts), s.active.value;
    WaitsUntilDeadline(s, tp, acts);
    TakenExactly(q, now, f);
    RunTakesReady(q, now);
    DeadlineExactly(q, Run(now), f);
    WaitingExactly(q, Run(now), f);
    NextInv(q, Run(now));
    var r := Next(q, Run(now));
    assert InPlace(r, f) && InPlace(q, f);
    TakenQueued(q, now, f);
  }

  /** What the sweep takes is in the ready queue after `run`, or runs. */
  lemma TakenQueued<F>(s: Sched<F>, now: TimePoint, f: F)
    requires Inv(s) && Enabled(s, Run(now)) && Taken(s, Run(now), f)
    ensures var r := Next(s, Run(now)); f in r.rq || r.active == Some(f)
  {
    RunTakesReady(s, now);
    var ready := s.rq + s.wq[..SweepLen(s.wq, s.info, now)];
    assert f in ready && ready == [ready[0]] + ready[1..];
  }

  // ---------------------------------------------------------------- coming first

  /** `f` is READY and the first of the waiting queue. */
  ghost predicate FirstReady<F>(s: Sched<F>, f: F) {
    s.wq != [] && s.wq[0] == f && f in s.info && s.info[f].state.Ready?
  }

  /** The calls that put a fiber there: its own `yield`, its own `join` of a terminated fiber, and a notification or an
      interruption of it while it is in the waiting queue. */
  ghost predicate PutsFirst<F>(s: Sched<F>, a: Action<F>, f: F) {
    || (Calls(s, f) && (a.Yield? || (a.Join? && a.target in s.info && s.info[a.target].state.Terminated?)))
    || ((a == Notify(f) || a == Interrupt(f)) && f in s.wq)
  }

  /** It comes first and the others keep their order. */
  lemma ComesFirst<F>(s: Sched<F>, a: Action<F>, f: F)
    requires Inv(s) && Enabled(s, a) && PutsFirst(s, a, f)
    ensures FirstReady(Next(s, a), f)
    ensures Next(s, a).wq[1..] == (if f in s.wq then Without(s.wq, IndexOf(s.wq, f)) else s.wq) && Next(s, a).rq == s.rq
  {
    if Calls(s, f) {
      assert InPlace(s, f);
      if a.Join? { JoinedLast(s, f, a.target); }
    }
  }

  lemma JoinedLast<F>(s: Sched<F>, f: F, t: F)
    requires Inv(s) && s.active == Some(f) && Enabled(s, Join(t)) && s.info[t].state.Terminated?
    ensures Next(s, Join(t)).wq == [f] + s.wq && Next(s, Join(t)).info[f].state.Ready?
  {
    assert InPlace(s, f);
    var q := s.wq + [f];
    assert Park(s, f, Joining(s.info[f], t)).wq == q;
    assert IndexOf(q, f) == |s.wq|;
    assert Without(q, |s.wq|) == s.wq;
  }

  /** Such a fiber is resumed by exactly the (m + 1)-th following call of `run`, with `m` fibers in the ready queue. */
  lemma FirstResumed<F>(s: Sched<F>, f: F, now: TimePoint, acts: seq<Action<F>>, later: TimePoint)
    requires Inv(s) && FirstReady(s, f) && Enabled(s, Run(now))
    requires s.rq != [] ==> IsRun(Next(s, Run(now)), acts) && RunCount(acts) == |s.rq| - 1
    requires s.rq != [] ==> Enabled(After(Next(s, Run(now)), acts), Run(later))
    ensures var r := Next(s, Run(now));
            Some(f) == if s.rq == [] then r.active else Next(After(r, acts), Run(later)).active
  {
    WakeupBound(s, now, acts, later, 0);
  }

  /** A `join` of a terminated fiber never fails: whenever its caller runs again inside it, it may return. */
  lemma JoinOfTerminated<F>(s: Sched<F>, t: F, acts: seq<Action<F>>)
    requires Inv(s) && Enabled(s, Join(t)) && s.info[t].state.Terminated? && IsRun(Next(s, Join(t)), acts)
    ensures var r, f := After(Next(s, Join(t)), acts), s.active.value;
            Calls(r, f) && f in r.info && r.info[f].joining == Some(t) ==> Enabled(r, JoinReturn)
  {
    NextInv(s, Join(t));
    TerminatedStays(s, Join(t), t);
    TerminatedForEver(Next(s, Join(t)), acts, t);
  }

  /** A fiber that calls `join` on a live one waits inside it. */
  lemma JoinOfLive<F>(s: Sched<F>, t: F)
    requires Inv(s) && Enabled(s, Join(t)) && !s.info[t].state.Terminated?
    ensures var r, f := Next(s, Join(t)), s.active.value;
            Unfinished(r, f) && r.info[f].joining == Some(t) && r.info[f].state.Waiting?
  {
    WaitingExactly(s, Join(t), s.active.value);
    JoiningExactly(s, Join(t), s.active.value);
    TerminatedStays(s, Join(t), t);
  }

  // ---------------------------------------------------------------- the order of release

  /** `y` comes before `x` in `q`. */
  ghost predicate Ahead<F>(q: seq<F>, y: F, x: F)
    requires x in q && y in q
  {
    IndexOf(q, y) < IndexOf(q, x)
  }

  lemma IndexIs<F>(q: seq<F>, k: nat)
    requires NoDup(q) && k < |q|
    ensures IndexOf(q, q[k]) == k
  {
  }

  /** Where the entry at `i` is after the one at `k` has moved to the front. */
  ghost function Shifted(i: nat, k: nat): nat {
    if i < k then i + 1 else if i == k then 0 else i
  }

  lemma MovedAt<F>(q: seq<F>, k: nat, i: nat)
    requires k < |q| && i < |q|
    ensures MovedToFront(q, k)[Shifted(i, k)] == q[i]
  {
    var w := Without(q, k);
    assert i < k ==> w[i] == q[i];
    assert i > k ==> w[i - 1] == q[i];
  }

  lemma MovedNoDup<F>(q: seq<F>, k: nat)
    requires NoDup(q) && k < |q|
    ensures NoDup(MovedToFront(q, k))
  {
    WithoutMembers(q, k);
  }

  lemma MovedIndex<F>(q: seq<F>, k: nat, z: F)
    requires NoDup(q) && k < |q| && z in q
    ensures z in MovedToFront(q, k) && IndexOf(MovedToFront(q, k), z) == Shifted(IndexOf(q, z), k)
  {
    var r, i := MovedToFront(q, k), IndexOf(q, z);
    MovedNoDup(q, k);
    MovedAt(q, k, i);
    IndexIs(r, Shifted(i, k));
  }

  /** Moving an entry to the front puts it ahead of all others and leaves their order alone. */
  lemma AheadMoved<F>(q: seq<F>, p: F, y: F, x: F)
    requires NoDup(q) && p in q && x in q && y in q && x != y
    ensures var r := MovedToFront(q, IndexOf(q, p));
            x in r && y in r && (Ahead(r, y, x) <==> x != p && (y == p || Ahead(q, y, x)))
  {
    MovedIndex(q, IndexOf(q, p), x);
    MovedIndex(q, IndexOf(q, p), y);
  }

  /** Who of two fibers comes first after `ps` were readied one after the other: the one readied later; a readied one
      before one that was not; and otherwise as before. */
  ghost predicate AheadAfter<F>(q: seq<F>, ps: seq<F>, y: F, x: F)
    requires x in q && y in q
  {
    if y in ps then x !in ps || IndexOf(ps, x) < IndexOf(ps, y) else x !in ps && Ahead(q, y, x)
  }

  ghost function ToFront<F>(q: seq<F>, p: F): seq<F> {
    if p in q then MovedToFront(q, IndexOf(q, p)) else q
  }

  ghost function AllToFront<F>(q: seq<F>, ps: seq<F>): seq<F>
    decreases |ps|
  {
    if ps == [] then q else AllToFront(ToFront(q, ps[0]), ps[1..])
  }

  lemma ToFrontMembers<F>(q: seq<F>, p: F)
    requires NoDup(q)
    ensures NoDup(ToFront(q, p)) && forall x :: x in ToFront(q, p) <==> x in q
  {
    if p in q { WithoutMembers(q, IndexOf(q, p)); }
  }

  lemma AheadStep<F>(q: seq<F>, ps: seq<F>, y: F, x: F)
    requires NoDup(q) && NoDup(ps) && ps != [] && x in q && y in q && x != y
    ensures var r := ToFront(q, ps[0]); x in r && y in r && (AheadAfter(r, ps[1..], y, x) <==> AheadAfter(q, ps, y, x))
  {
    ToFrontMembers(q, ps[0]);
    HeadAndTail(ps);
    if ps[0] in q { AheadMoved(q, ps[0], y, x); }
  }

  lemma {:induction false} FrontOrder<F>(q: seq<F>, ps: seq<F>, y: F, x: F)
    requires NoDup(q) && NoDup(ps) && x in q && y in q && x != y
    ensures var r := AllToFront(q, ps); x in r && y in r && (Ahead(r, y, x) <==> AheadAfter(q, ps, y, x))
    decreases |ps|
  {
    if ps != [] {
      AheadStep(q, ps, y, x);
      ToFrontMembers(q, ps[0]);
      HeadAndTail(ps);
      FrontOrder(ToFront(q, ps[0]), ps[1..], y, x);
    }
  }

  lemma {:induction false} ReadiedQueue<F>(s: Sched<F>, ps: seq<F>)
    requires Keyed(ps, s.info)
    ensures SetReadyAll(s, ps).wq == AllToFront(s.wq, ps)
    decreases |ps|
  {
    if ps != [] { ReadiedQueue(SetReady(s, ps[0]), ps[1..]); }
  }

  lemma OnceEach<F>(s: Sched<F>, t: F)
    requires Inv(s) && t in s.info
    ensures NoDup(s.info[t].joiners)
  {
    var js := s.info[t].joiners;
    forall i, j | 0 <= i < j < |js| ensures js[i] != js[j] {
      assert JoinsWell(s, js[i]);
      assert Regs(s, t, js[i]) <= 1;
      assert js == js[..j] + [js[j]] + js[j + 1..];
      assert js[i] in js[..j];
    }
  }

  /** The end of a fiber brings its joiners to the front of the waiting queue, the last one to register first, and
      leaves the order of all others alone. */
  lemma ReleaseOrder<F>(s: Sched<F>, y: F, x: F)
    requires Inv(s) && Enabled(s, Terminate) && x in s.wq && y in s.wq && x != y
    ensures var r, js := Next(s, Terminate), s.info[s.active.value].joiners;
            && x in r.wq && y in r.wq && r.rq == s.rq
            && (Ahead(r.wq, y, x) <==> AheadAfter(s.wq, js, y, x))
  {
    var e := s.active.value;
    OnceEach(s, e);
    ReadiedQueue(Update(s, e, s.info[e].(state := Terminated, joiners := [])).(active := None), s.info[e].joiners);
    FrontOrder(s.wq, s.info[e].joiners, y, x);
  }
}
