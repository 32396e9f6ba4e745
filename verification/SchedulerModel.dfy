/** The scheduler of one thread as a state machine, on values.

    One step is what the code does between two suspension points, or one call made by the running fiber (or, when no
    fiber runs, by the main context). `F` is the identity of a fiber.
 */
module SchedulerModel {
  import opened Seqs
  import opened WaitingOrder

  datatype Sched<F> = Sched(info: Infos<F>, wq: seq<F>, rq: seq<F>, active: Option<F>)

  datatype Action<F> =
    | Spawn(f: F)
    | Run(now: TimePoint)
    | WaitUntil(tp: TimePoint)
    | Yield
    | Join(target: F)
    | JoinReturn
    | Terminate
    | Notify(p: F)
    | Interrupt(p: F)
    | ClearInterrupt

  // ---------------------------------------------------------------- states

  ghost predicate WellTyped<F>(s: Sched<F>) {
    && Keyed(s.wq, s.info) && Keyed(s.rq, s.info)
    && (s.active.Some? ==> s.active.value in s.info)
    && (forall f {:trigger s.info[f].joiners} :: f in s.info ==> Keyed(s.info[f].joiners, s.info))
    && (forall f {:trigger s.info[f].joining} ::
          f in s.info && s.info[f].joining.Some? ==> s.info[f].joining.value in s.info)
  }

  ghost predicate TargetKnown<F>(i: Info<F>, m: Infos<F>) {
    i.joining.Some? ==> i.joining.value in m
  }

  /** Where a fiber is, by its state. A fiber outside the waiting queue has no deadline. */
  ghost predicate InPlace<F>(s: Sched<F>, f: F)
    requires f in s.info
  {
    && (match s.info[f].state
        case Running => s.active == Some(f) && f !in s.wq && f !in s.rq
        case Waiting => s.active != Some(f) && f in s.wq && f !in s.rq
        case Ready => s.active != Some(f) && (f in s.wq <==> f !in s.rq)
        case Terminated => s.active != Some(f) && f !in s.wq && f !in s.rq)
    && (f !in s.wq ==> s.info[f].tp == TIME_MAX)
  }

  /** Every live fiber is in exactly one place and once there; the waiting queue is ordered. */
  ghost predicate Placed<F>(s: Sched<F>) {
    && WellTyped(s)
    && NoDup(s.wq) && NoDup(s.rq) && Ordered(s.wq, s.info)
    && forall f {:trigger InPlace(s, f)} :: f in s.info ==> InPlace(s, f)
  }

  /** How often `f` is registered in the `waiting_` vector of `t`. */
  ghost function Regs<F>(s: Sched<F>, t: F, f: F): nat
    requires t in s.info
  {
    multiset(s.info[t].joiners)[f]
  }

  /** Is `f` in a join of a fiber that has not terminated? */
  ghost predicate Unfinished<F>(s: Sched<F>, f: F) {
    && f in s.info && s.info[f].joining.Some? && s.info[f].joining.value in s.info
    && !s.info[s.info[f].joining.value].state.Terminated?
  }

  /** What holds of the registrations of `f`, if its record is `i`: it is registered once with the target of its join,
      as long as that lives, and nowhere else. A fiber that waits in a join has no deadline and a live target. */
  ghost predicate JoinsAs<F>(s: Sched<F>, f: F, i: Info<F>) {
    && (forall t {:trigger Regs(s, t, f)} :: t in s.info ==>
          Regs(s, t, f) == if i.joining == Some(t) && !s.info[t].state.Terminated? then 1 else 0)
    && i.joining != Some(f)
    && (i.state.Terminated? ==> i.joining.None?)
    && (i.state.Waiting? && i.joining.Some? && i.joining.value in s.info ==>
          i.tp == TIME_MAX && !s.info[i.joining.value].state.Terminated?)
  }

  ghost predicate JoinsWell<F>(s: Sched<F>, f: F)
    requires f in s.info
  {
    JoinsAs(s, f, s.info[f])
  }

  ghost predicate Joined<F>(s: Sched<F>) {
    && (forall f {:trigger JoinsWell(s, f)} :: f in s.info ==> JoinsWell(s, f))
    && (forall t {:trigger s.info[t].joiners} :: t in s.info && s.info[t].state.Terminated? ==> s.info[t].joiners == [])
  }

  ghost predicate Inv<F>(s: Sched<F>) {
    Placed(s) && Joined(s)
  }

  function Init<F>(): (s: Sched<F>) {
    Sched(map[], [], [], None)
  }

  // ---------------------------------------------------------------- operations

  ghost function Update<F>(s: Sched<F>, f: F, i: Info<F>): Sched<F> {
    s.(info := s.info[f := i])
  }

  /** `set_ready`: READY, and to the front of the waiting queue if the fiber is in it. */
  ghost function SetReady<F>(s: Sched<F>, p: F): (r: Sched<F>)
    requires p in s.info
    ensures r.info == s.info[p := s.info[p].(state := Ready)] && r.rq == s.rq && r.active == s.active
  {
    Update(s, p, s.info[p].(state := Ready)).(
      wq := if p in s.wq then MovedToFront(s.wq, IndexOf(s.wq, p)) else s.wq)
  }

  ghost function SetReadyAll<F>(s: Sched<F>, ps: seq<F>): (r: Sched<F>)
    requires Keyed(ps, s.info)
    ensures r.info.Keys == s.info.Keys && r.rq == s.rq && r.active == s.active
    decreases |ps|
  {
    if ps == [] then s else SetReadyAll(SetReady(s, ps[0]), ps[1..])
  }

  /** The running fiber `f` becomes an entry of the waiting queue with data `i`; control returns to the main context. */
  ghost function Park<F>(s: Sched<F>, f: F, i: Info<F>): (r: Sched<F>)
    requires f in s.info && Keyed(s.wq, s.info)
    ensures r.info == s.info[f := i] && r.rq == s.rq && r.active == None
  {
    var m := s.info[f := i];
    Sched(m, Pushed(s.wq, m, f), s.rq, None)
  }

  /** One turn of the sweep: the head of the waiting queue goes to the end of the ready queue. */
  ghost function Awaken<F>(s: Sched<F>): (r: Sched<F>)
    requires s.wq != [] && s.wq[0] in s.info
    ensures r.info == s.info[s.wq[0] := s.info[s.wq[0]].(state := Ready, tp := TIME_MAX)]
    ensures r.wq == s.wq[1..] && r.rq == s.rq + [s.wq[0]] && r.active == s.active
  {
    Sched(s.info[s.wq[0] := s.info[s.wq[0]].(state := Ready, tp := TIME_MAX)], s.wq[1..], s.rq + [s.wq[0]], s.active)
  }

  ghost function Sweep<F>(s: Sched<F>, now: TimePoint): (r: Sched<F>)
    requires Keyed(s.wq, s.info)
    ensures r.info.Keys == s.info.Keys && r.active == s.active && Keyed(r.wq, r.info)
    ensures Keyed(s.rq, s.info) ==> Keyed(r.rq, r.info)
    decreases |s.wq|
  {
    if s.wq == [] || !Fetched(s.info[s.wq[0]], now) then s else Sweep(Awaken(s), now)
  }

  /** `run` after its sweep: the head of the ready queue, if any, becomes the running fiber. */
  ghost function Dispatch<F>(s: Sched<F>): Sched<F>
    requires Keyed(s.rq, s.info)
  {
    if s.rq == [] then s else
    var f := s.rq[0];
    Sched(s.info[f := s.info[f].(state := Running)], s.wq, s.rq[1..], Some(f))
  }

  /** The running fiber was resumed inside `join` and is about to return from it. */
  ghost predicate Returning<F>(s: Sched<F>) {
    s.active.Some? && s.active.value in s.info && s.info[s.active.value].joining.Some?
  }

  /** The assertion that ends `join` fails: its target has not terminated. */
  ghost predicate JoinFails<F>(s: Sched<F>) {
    Returning(s) && Unfinished(s, s.active.value)
  }

  /** May this call be made here? A fiber that was resumed inside `join` first returns from it, which asks that its
      target has terminated. `set_ready` asks that its target neither runs nor has terminated. */
  ghost predicate Enabled<F>(s: Sched<F>, a: Action<F>) {
    && (Returning(s) ==> a.JoinReturn?)
    && match a
       case Spawn(f) => f !in s.info
       case Run(now) => s.active.None? && now < TIME_MAX
       case WaitUntil(_) => s.active.Some?
       case Yield => s.active.Some?
       case Join(t) => s.active.Some? && t in s.info && s.active != Some(t)
       case JoinReturn => Returning(s) && !JoinFails(s)
       case Terminate => s.active.Some?
       case Notify(p) => ReadyTarget(s, p)
       case Interrupt(p) => ReadyTarget(s, p)
       case ClearInterrupt => s.active.Some?
  }

  ghost predicate ReadyTarget<F>(s: Sched<F>, p: F) {
    p in s.info && s.active != Some(p) && !s.info[p].state.Terminated?
  }

  ghost function Next<F>(s: Sched<F>, a: Action<F>): Sched<F>
    requires WellTyped(s) && Enabled(s, a)
  {
    match a
    case Spawn(f) =>
      Sched(s.info[f := Info(Ready, TIME_MAX, false, [], None)], s.wq, s.rq + [f], s.active)
    case Run(now) => Dispatch(Sweep(s, now))
    case WaitUntil(tp) => Park(s, s.active.value, s.info[s.active.value].(state := Waiting, tp := tp))
    case Yield => Park(s, s.active.value, s.info[s.active.value].(state := Ready))
    case Join(t) => JoinStep(s, s.active.value, t)
    case JoinReturn => Update(s, s.active.value, s.info[s.active.value].(joining := None))
    case Terminate => TerminateStep(s, s.active.value)
    case Notify(p) => SetReady(s, p)
    case Interrupt(p) => SetReady(Update(s, p, s.info[p].(flag := true)), p)
    case ClearInterrupt => Update(s, s.active.value, s.info[s.active.value].(flag := false))
  }

  /** A fiber that begins to join `t`. */
  ghost function Joining<F>(i: Info<F>, t: F): Info<F> {
    i.(state := Waiting, joining := Some(t))
  }

  ghost function JoinStep<F>(s: Sched<F>, f: F, t: F): Sched<F>
    requires f in s.info && t in s.info && f != t && Keyed(s.wq, s.info)
  {
    var s1 := Park(s, f, Joining(s.info[f], t));
    if s.info[t].state.Terminated? then SetReady(s1, f)
    else Update(s1, t, s.info[t].(joiners := s.info[t].joiners + [f]))
  }

  ghost function TerminateStep<F>(s: Sched<F>, f: F): Sched<F>
    requires f in s.info && Keyed(s.info[f].joiners, s.info)
  {
    var js := s.info[f].joiners;
    SetReadyAll(Update(s, f, s.info[f].(state := Terminated, joiners := [])).(active := None), js)
  }

  // ---------------------------------------------------------------- runs

  ghost predicate IsRun<F>(s: Sched<F>, acts: seq<Action<F>>)
    decreases |acts|
  {
    WellTyped(s) && (acts != [] ==> Enabled(s, acts[0]) && IsRun(Next(s, acts[0]), acts[1..]))
  }

  ghost function After<F>(s: Sched<F>, acts: seq<Action<F>>): (r: Sched<F>)
    requires IsRun(s, acts)
    ensures WellTyped(r)
    decreases |acts|
  {
    if acts == [] then s else After(Next(s, acts[0]), acts[1..])
  }

  // ---------------------------------------------------------------- placement and order are kept

  lemma SetReadyPlaced<F>(s: Sched<F>, p: F)
    requires Placed(s) && ReadyTarget(s, p)
    ensures Placed(SetReady(s, p))
    ensures forall x :: x in SetReady(s, p).wq <==> x in s.wq
  {
    if p in s.wq {
      MoveToFrontKeepsOrder(s.wq, s.info, IndexOf(s.wq, p), s.info[p].(state := Ready));
    }
    var r := SetReady(s, p);
    assert WellTyped(r);
    forall f | f in r.info ensures InPlace(r, f) { assert InPlace(s, f); }
  }

  /** The target `set_ready` asks for is the right one: readying a running or a terminated fiber leaves it READY in no
      queue, readying any other keeps placement. */
  lemma SetReadyExact<F>(s: Sched<F>, p: F)
    requires Placed(s) && p in s.info
    ensures Placed(SetReady(s, p)) <==> ReadyTarget(s, p)
  {
    assert InPlace(s, p);
    if ReadyTarget(s, p) {
      SetReadyPlaced(s, p);
    } else {
      assert !InPlace(SetReady(s, p), p);
    }
  }

  lemma ParkPlaced<F>(s: Sched<F>, f: F, i: Info<F>)
    requires Placed(s) && s.active == Some(f) && (i.state.Waiting? || i.state.Ready?)
    requires Keyed(i.joiners, s.info) && TargetKnown(i, s.info)
    ensures Placed(Park(s, f, i))
  {
    var r := Park(s, f, i);
    assert InPlace(s, f);
    assert Ordered(s.wq, r.info);
    PushKeepsOrder(s.wq, r.info, f);
    InsertMembers(s.wq, PushPos(s.wq, r.info, i), f);
    assert WellTyped(r);
    forall g | g in r.info ensures InPlace(r, g) { assert InPlace(s, g); }
  }

  lemma AwakenPlaced<F>(s: Sched<F>)
    requires Placed(s) && s.wq != []
    ensures Placed(Awaken(s))
  {
    var r, h := Awaken(s), s.wq[0];
    HeadAndTail(s.wq);
    assert InPlace(s, h);
    assert NoDup(r.rq);
    assert WellTyped(r);
    assert Ordered(r.wq, r.info);
    forall f | f in r.info ensures InPlace(r, f) { assert InPlace(s, f); }
  }

  lemma {:induction false} SweepPlaced<F>(s: Sched<F>, now: TimePoint)
    requires Placed(s)
    ensures Placed(Sweep(s, now))
    decreases |s.wq|
  {
    if s.wq != [] && Fetched(s.info[s.wq[0]], now) {
      AwakenPlaced(s);
      SweepPlaced(Awaken(s), now);
    }
  }

  lemma DispatchPlaced<F>(s: Sched<F>)
    requires Placed(s) && s.active == None
    ensures Placed(Dispatch(s))
  {
    if s.rq != [] {
      var r, h := Dispatch(s), s.rq[0];
      HeadAndTail(s.rq);
      assert InPlace(s, h);
      assert WellTyped(r);
      forall f | f in r.info ensures InPlace(r, f) { assert InPlace(s, f); }
    }
  }

  lemma {:induction false} SetReadyAllPlaced<F>(s: Sched<F>, ps: seq<F>)
    requires Placed(s) && s.active == None && Keyed(ps, s.info)
    requires forall i :: 0 <= i < |ps| ==> ReadyTarget(s, ps[i])
    ensures Placed(SetReadyAll(s, ps))
    decreases |ps|
  {
    if ps != [] {
      SetReadyPlaced(s, ps[0]);
      SetReadyAllPlaced(SetReady(s, ps[0]), ps[1..]);
    }
  }

  lemma UpdatePlaced<F>(s: Sched<F>, f: F, i: Info<F>)
    requires Placed(s) && f in s.info
    requires i.state == s.info[f].state && i.tp == s.info[f].tp
    requires Keyed(i.joiners, s.info) && TargetKnown(i, s.info)
    ensures Placed(Update(s, f, i))
  {
    var r := Update(s, f, i);
    assert WellTyped(r);
    forall g | g in r.info ensures InPlace(r, g) { assert InPlace(s, g); }
  }

  lemma JoinPlaced<F>(s: Sched<F>, f: F, t: F)
    requires Placed(s) && s.active == Some(f) && t in s.info && f != t
    ensures Placed(JoinStep(s, f, t))
  {
    var i := Joining(s.info[f], t);
    var s1 := Park(s, f, i);
    ParkPlaced(s, f, i);
    if s.info[t].state.Terminated? {
      SetReadyPlaced(s1, f);
    } else {
      UpdatePlaced(s1, t, s.info[t].(joiners := s.info[t].joiners + [f]));
    }
  }

  /** No fiber that is registered with the running one runs or has terminated: when that ends, `release` readies only
      fibers that `set_ready` accepts. */
  lemma ReleaseNeverFails<F>(s: Sched<F>)
    requires Inv(s) && s.active.Some?
    ensures forall i :: 0 <= i < |s.info[s.active.value].joiners| ==>
      ReadyTarget(s, s.info[s.active.value].joiners[i])
  {
    var f := s.active.value;
    forall i | 0 <= i < |s.info[f].joiners| ensures ReadyTarget(s, s.info[f].joiners[i]) {
      var j := s.info[f].joiners[i];
      assert JoinsWell(s, j);
      assert j in multiset(s.info[f].joiners);
      assert Regs(s, f, j) > 0;
    }
  }

  lemma TerminatePlaced<F>(s: Sched<F>)
    requires Inv(s) && Enabled(s, Terminate)
    ensures Placed(TerminateStep(s, s.active.value))
  {
    var f := s.active.value;
    var s1 := Update(s, f, s.info[f].(state := Terminated, joiners := [])).(active := None);
    assert InPlace(s, f);
    assert WellTyped(s1);
    forall g | g in s1.info ensures InPlace(s1, g) { assert InPlace(s, g); }
    assert Placed(s1);
    ReleaseNeverFails(s);
    SetReadyAllPlaced(s1, s.info[f].joiners);
  }

  lemma SpawnPlaced<F>(s: Sched<F>, f: F)
    requires Placed(s) && Enabled(s, Spawn(f))
    ensures Placed(Next(s, Spawn(f)))
  {
    var r := Next(s, Spawn(f));
    assert WellTyped(r);
    forall g | g in r.info ensures InPlace(r, g) { if g != f { assert InPlace(s, g); } }
  }

  lemma NextPlaced<F>(s: Sched<F>, a: Action<F>)
    requires Inv(s) && Enabled(s, a)
    ensures Placed(Next(s, a))
  {
    match a
    case Spawn(f) => SpawnPlaced(s, f);
    case Run(now) => SweepPlaced(s, now); DispatchPlaced(Sweep(s, now));
    case WaitUntil(tp) => ParkPlaced(s, s.active.value, s.info[s.active.value].(state := Waiting, tp := tp));
    case Yield => ParkPlaced(s, s.active.value, s.info[s.active.value].(state := Ready));
    case Join(t) => JoinPlaced(s, s.active.value, t);
    case JoinReturn => UpdatePlaced(s, s.active.value, s.info[s.active.value].(joining := None));
    case Terminate => TerminatePlaced(s);
    case Notify(p) => SetReadyPlaced(s, p);
    case Interrupt(p) =>
      UpdatePlaced(s, p, s.info[p].(flag := true));
      SetReadyPlaced(Update(s, p, s.info[p].(flag := true)), p);
    case ClearInterrupt => UpdatePlaced(s, s.active.value, s.info[s.active.value].(flag := false));
  }
}
