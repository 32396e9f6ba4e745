/** Suspending and notifying across threads.

    Any number of waiters and notifiers share one primitive: a spinlock and a list of waiters. Each thread has its own
    waiting queue, which only its own fibers push to but which any notifier may edit, also while the thread sweeps it. A
    step is one access to shared state; `set_ready`, the push into a waiting queue, the test of a fiber by the sweep and
    its unlinking are one step each.
 */
module Handshakes {
  import opened Seqs
  import opened WaitingOrder

  type Fid = nat
  type Tid = nat
  type Nid = nat

  /** Where a fiber is in `wait`: holding the spinlock, registered, WAITING but still locked, unlocked, with its
      deadline set, and then in the waiting queue of its thread. `Asleep`: in that queue without having registered.
      `Awake`: taken out of it. */
  datatype Pc = Run | Locked | Registered | Marked | Unlocked | Timed | Parked | Asleep | Awake

  /** A notifier: idle, holding the spinlock, having taken waiters off the list, and then readying them one by one. */
  datatype NotifierPc = Idle | Holding | Took(fs: seq<Fid>) | Carries(fs: seq<Fid>)

  datatype Holder = Waiter(f: Fid) | Notifier(n: Nid)

  /** The sweep of a thread: none, about to test fiber `f`, or having found `f` READY, with the successor it read. */
  datatype SweepPc = Out | Looking(now: TimePoint, f: Fid) | Found(now: TimePoint, f: Fid, nxt: Option<Fid>)

  /** `heldBy` is history: the notifier that took a fiber off the list and has not readied it yet. */
  datatype Sys = Sys(m: Infos<Fid>, pc: map<Fid, Pc>, home: map<Fid, Tid>, queues: map<Tid, seq<Fid>>,
                     sweep: map<Tid, SweepPc>, list: seq<Fid>, spin: Option<Holder>, hand: map<Nid, NotifierPc>,
                     heldBy: map<Fid, Nid>)

  datatype Action =
    | Lock(f: Fid) | GiveUp(f: Fid) | Register(f: Fid) | SetWaiting(f: Fid) | Unlock(f: Fid) | SetDeadline(f: Fid)
    | Push(f: Fid) | Sleep(f: Fid, tp: TimePoint)
    | Begin(t: Tid, now: TimePoint) | Test(t: Tid) | Unlink(t: Tid) | Resume(f: Fid)
    | NotifierLock(n: Nid) | TakeOne(n: Nid) | TakeAll(n: Nid) | NotifierUnlock(n: Nid) | SetReady(n: Nid)

  // ---------------------------------------------------------------- steps

  ghost predicate Typed(s: Sys) {
    && s.pc.Keys == s.m.Keys == s.home.Keys && s.sweep.Keys == s.queues.Keys
    && (forall f {:trigger s.home[f]} :: f in s.home ==> s.home[f] in s.queues)
    && (forall t {:trigger s.queues[t]} :: t in s.queues ==> Keyed(s.queues[t], s.m))
  }

  ghost function Carried(s: Sys, n: Nid): seq<Fid>
    requires n in s.hand
  {
    match s.hand[n]
    case Took(fs) => fs
    case Carries(fs) => fs
    case _ => []
  }

  /** Is the thread of `f` free to run it? */
  ghost predicate Free(s: Sys, f: Fid) {
    f in s.pc && f in s.home && s.home[f] in s.sweep && s.sweep[s.home[f]].Out?
  }

  /** The sweep asserts, when it unlinks the fiber it has found, that this is the head of the queue. */
  ghost predicate Enabled(s: Sys, a: Action) {
    match a
    case Lock(f) => Free(s, f) && s.pc[f].Run? && s.spin.None?
    case GiveUp(f) => Free(s, f) && s.pc[f].Locked?
    case Register(f) => Free(s, f) && s.pc[f].Locked?
    case SetWaiting(f) => Free(s, f) && s.pc[f].Registered?
    case Unlock(f) => Free(s, f) && s.pc[f].Marked?
    case SetDeadline(f) => Free(s, f) && s.pc[f].Unlocked?
    case Push(f) => Free(s, f) && s.pc[f].Timed?
    case Sleep(f, tp) => Free(s, f) && s.pc[f].Run?
    case Begin(t, now) => t in s.sweep && s.sweep[t].Out? && now < TIME_MAX
    case Test(t) => t in s.sweep && s.sweep[t].Looking? && t in s.queues && s.sweep[t].f in s.queues[t]
    case Unlink(t) => t in s.sweep && s.sweep[t].Found? && t in s.queues && HeadIs(s, t, s.sweep[t].f)
    case Resume(f) => Free(s, f) && s.pc[f].Awake?
    case NotifierLock(n) => n in s.hand && s.hand[n].Idle? && s.spin.None?
    case TakeOne(n) => n in s.hand && s.hand[n].Holding? && s.list != []
    case TakeAll(n) => n in s.hand && s.hand[n].Holding?
    case NotifierUnlock(n) => n in s.hand && (s.hand[n].Holding? || s.hand[n].Took?)
    case SetReady(n) => n in s.hand && s.hand[n].Carries? && s.hand[n].fs != [] && s.hand[n].fs[0] in s.m
  }

  ghost predicate HeadIs(s: Sys, t: Tid, f: Fid)
    requires t in s.queues
  {
    s.queues[t] != [] && s.queues[t][0] == f
  }

  ghost predicate BySweep(a: Action) {
    a.Begin? || a.Test? || a.Unlink?
  }

  ghost predicate ByNotifier(a: Action) {
    a.NotifierLock? || a.TakeOne? || a.TakeAll? || a.NotifierUnlock? || a.SetReady?
  }

  ghost function At(s: Sys, f: Fid, pc: Pc): Sys {
    s.(pc := s.pc[f := pc])
  }

  ghost function Next(s: Sys, a: Action): Sys
    requires Typed(s) && Enabled(s, a)
  {
    if ByNotifier(a) then NotifierNext(s, a) else if BySweep(a) then SweepNext(s, a) else FiberNext(s, a)
  }

  ghost function FiberNext(s: Sys, a: Action): (r: Sys)
    requires Typed(s) && Enabled(s, a) && !ByNotifier(a) && !BySweep(a)
    ensures r.sweep == s.sweep && r.queues.Keys == s.queues.Keys
  {
    match a
    case Lock(f) => At(s, f, Locked).(spin := Some(Waiter(f)))
    case GiveUp(f) => At(s, f, Run).(spin := None)
    case Register(f) => At(s, f, Registered).(list := s.list + [f])
    case SetWaiting(f) => At(s, f, Marked).(m := s.m[f := s.m[f].(state := Waiting)])
    case Unlock(f) => At(s, f, Unlocked).(spin := None)
    case SetDeadline(f) => At(s, f, Timed).(m := s.m[f := s.m[f].(tp := TIME_MAX)])
    case Push(f) => At(s, f, Parked).(queues := s.queues[s.home[f] := Pushed(s.queues[s.home[f]], s.m, f)])
    case Sleep(f, tp) =>
      var m := s.m[f := s.m[f].(state := Waiting, tp := tp)];
      At(s, f, Asleep).(m := m, queues := s.queues[s.home[f] := Pushed(s.queues[s.home[f]], m, f)])
    case Resume(f) => At(s, f, Run).(m := s.m[f := s.m[f].(state := Running)])
  }

  ghost function SweepNext(s: Sys, a: Action): Sys
    requires Typed(s) && Enabled(s, a) && BySweep(a)
  {
    match a
    case Begin(t, now) =>
      if s.queues[t] == [] then s else s.(sweep := s.sweep[t := Looking(now, s.queues[t][0])])
    case Test(t) => TestStep(s, t, s.sweep[t].now, s.sweep[t].f)
    case Unlink(t) =>
      var l := s.sweep[t];
      At(s, l.f, Awake).(m := s.m[l.f := s.m[l.f].(state := Ready, tp := TIME_MAX)],
                         queues := s.queues[t := s.queues[t][1..]],
                         sweep := s.sweep[t := if l.nxt.None? then Out else Looking(l.now, l.nxt.value)])
  }

  ghost function NotifierNext(s: Sys, a: Action): (r: Sys)
    requires Typed(s) && Enabled(s, a) && ByNotifier(a)
    ensures r.sweep == s.sweep && r.queues.Keys == s.queues.Keys && r.pc == s.pc && (!a.SetReady? ==> r.m == s.m)
  {
    match a
    case NotifierLock(n) => s.(spin := Some(Notifier(n)), hand := s.hand[n := Holding])
    case TakeOne(n) => Take(s, n, 1)
    case TakeAll(n) => Take(s, n, |s.list|)
    case NotifierUnlock(n) => s.(spin := None, hand := s.hand[n := CarriesOn(Carried(s, n))])
    case SetReady(n) =>
      var f := s.hand[n].fs[0];
      var rest := s.hand[n].fs[1..];
      var t := s.home[f];
      s.(m := s.m[f := s.m[f].(state := FiberState.Ready)],
         queues := if f in s.queues[t]
                   then s.queues[t := MovedToFront(s.queues[t], IndexOf(s.queues[t], f))] else s.queues,
         hand := s.hand[n := CarriesOn(rest)], heldBy := s.heldBy - {f})
  }

  /** The successor of `f` is read, then `fetch_ready` is called: a fiber past its deadline, or flagged, is made READY
      and goes to the front of the queue; one that is READY is found too; at any other the sweep ends. */
  ghost function TestStep(s: Sys, t: Tid, now: TimePoint, f: Fid): Sys
    requires Typed(s) && t in s.queues && f in s.queues[t]
  {
    var q, k := s.queues[t], IndexOf(s.queues[t], f);
    var found := s.(sweep := s.sweep[t := Found(now, f, if k + 1 < |q| then Some(q[k + 1]) else None)]);
    if !Fetched(s.m[f], now) then s.(sweep := s.sweep[t := Out])
    else if s.m[f].tp <= now || s.m[f].flag
    then found.(m := s.m[f := s.m[f].(state := FiberState.Ready)], queues := s.queues[t := MovedToFront(q, k)])
    else found
  }

  ghost function CarriesOn(fs: seq<Fid>): NotifierPc {
    if fs == [] then Idle else Carries(fs)
  }

  /** The first `k` waiters leave the list. */
  ghost function Take(s: Sys, n: Nid, k: nat): Sys
    requires k <= |s.list|
  {
    s.(list := s.list[k..], hand := s.hand[n := Took(s.list[..k])],
       heldBy := s.heldBy + InHand(s.list[..k], n))
  }

  ghost function InHand(fs: seq<Fid>, n: Nid): map<Fid, Nid> {
    map f | f in fs :: n
  }

  // ---------------------------------------------------------------- invariant

  /** State and place of a fiber, by where it is in its call. */
  ghost predicate FiberOk(s: Sys, f: Fid)
    requires f in s.m && f in s.pc && f in s.home && s.home[f] in s.queues
  {
    var i, q := s.m[f], s.queues[s.home[f]];
    && !i.flag
    && (f in q <==> s.pc[f].Parked? || s.pc[f].Asleep?)
    && (s.pc[f].Parked? || s.pc[f].Timed? ==> i.tp == TIME_MAX)
    && (match s.pc[f]
        case Run => i.state.Running? && f !in s.list
        case Locked => i.state.Running? && f !in s.list
        case Registered => i.state.Running? && f in s.list
        case Marked => i.state.Waiting? && f in s.list
        // from here on another thread may ready the fiber
        case Unlocked => Pending(s, f)
        case Timed => Pending(s, f)
        case Parked => Pending(s, f)
        case Asleep => (i.state.Waiting? || i.state.Ready?) && f !in s.list
        case Awake => i.state.Ready? && f !in s.list)
    && (s.spin == Some(Waiter(f)) <==> s.pc[f].Locked? || s.pc[f].Registered? || s.pc[f].Marked?)
    && (f in s.heldBy ==> s.pc[f].Unlocked? || s.pc[f].Timed? || s.pc[f].Parked?)
  }

  /** WAITING exactly as long as some notifier can still find it: on the list or in a notifier's hands. Otherwise
      READY. */
  ghost predicate Pending(s: Sys, f: Fid)
    requires f in s.m
  {
    if s.m[f].state.Waiting? then f in s.list || f in s.heldBy
    else s.m[f].state.Ready? && f !in s.list && f !in s.heldBy
  }

  ghost predicate NotifierOk(s: Sys, n: Nid)
    requires n in s.hand
  {
    && (s.spin == Some(Notifier(n)) <==> s.hand[n].Holding? || s.hand[n].Took?)
    && NoDup(Carried(s, n))
    && (forall f :: f in Carried(s, n) ==> f in s.heldBy && s.heldBy[f] == n)
  }

  ghost predicate QueueOk(s: Sys, t: Tid)
    requires t in s.queues
  {
    && NoDup(s.queues[t]) && Keyed(s.queues[t], s.m) && Ordered(s.queues[t], s.m)
    && forall f :: f in s.queues[t] ==> f in s.home && s.home[f] == t
  }

  /** What the sweep is looking at is in the queue, and what it has found is READY. */
  ghost predicate SweepOk(s: Sys, t: Tid)
    requires t in s.queues && t in s.sweep
  {
    match s.sweep[t]
    case Out => true
    case Looking(now, f) => now < TIME_MAX && f in s.queues[t]
    case Found(now, f, nxt) =>
      && now < TIME_MAX && f in s.queues[t] && f in s.m && s.m[f].state.Ready?
      && (nxt.Some? ==> nxt.value in s.queues[t] && nxt.value != f)
  }

  ghost predicate HeldOk(s: Sys, f: Fid)
    requires f in s.heldBy
  {
    f in s.m && f !in s.list && s.heldBy[f] in s.hand && f in Carried(s, s.heldBy[f]) && s.m[f].state.Waiting?
  }

  ghost predicate FibersOk(s: Sys) {
    && Typed(s)
    && NoDup(s.list) && (forall f :: f in s.list ==> f in s.m)
    && (forall f {:trigger FiberOk(s, f)} :: f in s.m ==> FiberOk(s, f))
    && (s.spin.Some? ==> match s.spin.value
                         case Waiter(f) => f in s.m
                         case Notifier(n) => n in s.hand)
  }

  ghost predicate PlacesOk(s: Sys) {
    && (forall n {:trigger NotifierOk(s, n)} :: n in s.hand ==> NotifierOk(s, n))
    && (forall f {:trigger HeldOk(s, f)} :: f in s.heldBy ==> HeldOk(s, f))
    && (forall t {:trigger QueueOk(s, t)} :: t in s.queues ==> QueueOk(s, t))
    && (forall t {:trigger SweepOk(s, t)} :: t in s.queues && t in s.sweep ==> SweepOk(s, t))
  }

  ghost predicate Inv(s: Sys) {
    FibersOk(s) && PlacesOk(s)
  }

  // ---------------------------------------------------------------- every step keeps it

  /** Nothing that concerns `g` has changed. */
  ghost predicate SameFor(s: Sys, r: Sys, g: Fid) {
    && g in s.m && g in r.m && r.m[g] == s.m[g]
    && g in s.pc && g in r.pc && r.pc[g] == s.pc[g]
    && g in s.home && g in r.home && r.home[g] == s.home[g]
    && s.home[g] in s.queues && s.home[g] in r.queues
    && (g in r.queues[s.home[g]] <==> g in s.queues[s.home[g]])
    && (g in r.list <==> g in s.list) && (g in r.heldBy <==> g in s.heldBy)
    && (r.spin == Some(Waiter(g)) <==> s.spin == Some(Waiter(g)))
  }

  lemma Unaffected(s: Sys, r: Sys, g: Fid)
    requires SameFor(s, r, g) && FiberOk(s, g)
    ensures FiberOk(r, g)
  {
  }

  /** A fiber that is in no waiting queue may change without disturbing one. */
  lemma QueuesUndisturbed(s: Sys, r: Sys, f: Fid)
    requires Inv(s) && f in s.m && !s.pc[f].Parked? && !s.pc[f].Asleep?
    requires r.queues == s.queues && r.home == s.home && r.m.Keys == s.m.Keys
    requires forall g :: g in s.m && g != f ==> r.m[g] == s.m[g]
    ensures forall t {:trigger QueueOk(r, t)} :: t in r.queues ==> QueueOk(r, t)
  {
    forall t | t in r.queues ensures QueueOk(r, t) {
      assert QueueOk(s, t) && FiberOk(s, f);
      assert f !in s.queues[t];
    }
  }

  /** A step that leaves the notifiers' hands alone leaves them in order. */
  lemma NotifiersUndisturbed(s: Sys, r: Sys)
    requires Inv(s) && r.hand == s.hand && r.heldBy == s.heldBy && r.m.Keys == s.m.Keys
    requires forall n :: n in s.hand ==> (r.spin == Some(Notifier(n)) <==> s.spin == Some(Notifier(n)))
    requires forall g :: g in s.heldBy && g in s.m ==> (g in r.list ==> g in s.list) && r.m[g].state == s.m[g].state
    ensures forall g {:trigger HeldOk(r, g)} :: g in r.heldBy ==> HeldOk(r, g)
    ensures forall n {:trigger NotifierOk(r, n)} :: n in r.hand ==> NotifierOk(r, n)
  {
    forall g | g in r.heldBy ensures HeldOk(r, g) { assert HeldOk(s, g); }
    forall n | n in r.hand ensures NotifierOk(r, n) { assert NotifierOk(s, n); }
  }

  /** A step takes no fiber out of a queue and leaves READY fibers READY. */
  ghost predicate KeepsQueued(s: Sys, r: Sys)
    requires Typed(s)
  {
    && r.queues.Keys == s.queues.Keys && r.m.Keys == s.m.Keys
    && (forall t, g :: t in s.queues && g in s.queues[t] ==> g in r.queues[t])
    && (forall g :: g in s.m && s.m[g].state.Ready? && (s.pc[g].Parked? || s.pc[g].Asleep?) ==> r.m[g].state.Ready?)
  }

  /** Such a step leaves a sweep that it does not move in order. */
  lemma SweepUndisturbed(s: Sys, r: Sys, t: Tid)
    requires Inv(s) && KeepsQueued(s, r) && t in r.queues && t in r.sweep && t in s.sweep && r.sweep[t] == s.sweep[t]
    ensures SweepOk(r, t)
  {
    assert SweepOk(s, t) && QueueOk(s, t);
    if s.sweep[t].Found? { assert FiberOk(s, s.sweep[t].f); }
  }

  lemma SweepsUndisturbed(s: Sys, r: Sys)
    requires Inv(s) && KeepsQueued(s, r) && r.sweep == s.sweep
    ensures forall t {:trigger SweepOk(r, t)} :: t in r.queues && t in r.sweep ==> SweepOk(r, t)
  {
    forall t | t in r.queues && t in r.sweep ensures SweepOk(r, t) { SweepUndisturbed(s, r, t); }
  }

  lemma OtherSweepsUndisturbed(s: Sys, r: Sys, t: Tid)
    requires Inv(s) && KeepsQueued(s, r) && t in r.queues && t in r.sweep && SweepOk(r, t)
    requires r.sweep == s.sweep[t := r.sweep[t]]
    ensures forall u {:trigger SweepOk(r, u)} :: u in r.queues && u in r.sweep ==> SweepOk(r, u)
  {
    forall u | u in r.queues && u in r.sweep && u != t ensures SweepOk(r, u) { SweepUndisturbed(s, r, u); }
  }

  /** A step that touches only `f`, which is in no waiting queue, and perhaps the spinlock and the end of the list. */
  ghost predicate OnlyTouches(s: Sys, r: Sys, f: Fid) {
    && f in s.m && f in s.pc && !s.pc[f].Parked? && !s.pc[f].Asleep? && f in r.m && f in r.pc
    && r == s.(m := s.m[f := r.m[f]], pc := s.pc[f := r.pc[f]], list := r.list, spin := r.spin)
    && (r.list == s.list || (r.list == s.list + [f] && f !in s.list && f !in s.heldBy))
    && (|| r.spin == s.spin
        || (r.spin == None && s.spin == Some(Waiter(f)))
        || (s.spin == None && r.spin == Some(Waiter(f))))
    && (f in s.heldBy ==> r.m[f].state == s.m[f].state)
  }

  lemma OwnStepFibers(s: Sys, r: Sys, f: Fid)
    requires Inv(s) && OnlyTouches(s, r, f) && f in r.home && r.home[f] in r.queues && FiberOk(r, f)
    ensures FibersOk(r)
  {
    forall g | g in r.m ensures FiberOk(r, g) {
      if g != f {
        assert FiberOk(s, g);
        Unaffected(s, r, g);
      }
    }
  }

  lemma OwnStepPlaces(s: Sys, r: Sys, f: Fid)
    requires Inv(s) && OnlyTouches(s, r, f)
    ensures PlacesOk(r)
  {
    QueuesUndisturbed(s, r, f);
    SweepsUndisturbed(s, r);
    NotifiersUndisturbed(s, r);
  }

  lemma OwnStep(s: Sys, r: Sys, f: Fid)
    requires Inv(s) && OnlyTouches(s, r, f) && f in r.home && r.home[f] in r.queues && FiberOk(r, f)
    ensures Inv(r)
  {
    OwnStepFibers(s, r, f);
    OwnStepPlaces(s, r, f);
  }

  // What a fiber does outside the waiting queue of its thread.

  lemma LockInv(s: Sys, f: Fid)
    requires Inv(s) && Enabled(s, Lock(f))
    ensures Inv(Next(s, Lock(f)))
  {
    assert FiberOk(s, f);
    OwnStep(s, Next(s, Lock(f)), f);
  }

  lemma GiveUpInv(s: Sys, f: Fid)
    requires Inv(s) && Enabled(s, GiveUp(f))
    ensures Inv(Next(s, GiveUp(f)))
  {
    assert FiberOk(s, f);
    OwnStep(s, Next(s, GiveUp(f)), f);
  }

  lemma RegisterInv(s: Sys, f: Fid)
    requires Inv(s) && Enabled(s, Register(f))
    ensures Inv(Next(s, Register(f)))
  {
    assert FiberOk(s, f);
    OwnStep(s, Next(s, Register(f)), f);
  }

  lemma SetWaitingInv(s: Sys, f: Fid)
    requires Inv(s) && Enabled(s, SetWaiting(f))
    ensures Inv(Next(s, SetWaiting(f)))
  {
    assert FiberOk(s, f);
    OwnStep(s, Next(s, SetWaiting(f)), f);
  }

  lemma UnlockInv(s: Sys, f: Fid)
    requires Inv(s) && Enabled(s, Unlock(f))
    ensures Inv(Next(s, Unlock(f)))
  {
    assert FiberOk(s, f);
    OwnStep(s, Next(s, Unlock(f)), f);
  }

  lemma SetDeadlineInv(s: Sys, f: Fid)
    requires Inv(s) && Enabled(s, SetDeadline(f))
    ensures Inv(Next(s, SetDeadline(f)))
  {
    assert FiberOk(s, f);
    OwnStep(s, Next(s, SetDeadline(f)), f);
  }

  lemma ResumeInv(s: Sys, f: Fid)
    requires Inv(s) && Enabled(s, Resume(f))
    ensures Inv(Next(s, Resume(f)))
  {
    assert FiberOk(s, f);
    OwnStep(s, Next(s, Resume(f)), f);
  }

  /** The waiting queue of thread `t` becomes `q`; every other queue is as it was. */
  lemma OneQueue(s: Sys, r: Sys, t: Tid, q: seq<Fid>)
    requires Inv(s) && t in s.queues && r.queues == s.queues[t := q] && r.home == s.home && r.m.Keys == s.m.Keys
    requires Keyed(q, r.m) && NoDup(q) && Ordered(q, r.m) && forall f :: f in q ==> f in s.home && s.home[f] == t
    requires forall g :: g in s.m && s.home[g] != t ==> r.m[g] == s.m[g]
    ensures forall u {:trigger QueueOk(r, u)} :: u in r.queues ==> QueueOk(r, u)
  {
    forall u | u in r.queues ensures QueueOk(r, u) {
      assert QueueOk(s, u);
    }
  }

  /** The waiting queue of the thread of `f` changes, but only the place of `f` in it, and perhaps `f` itself. */
  ghost predicate OnlyMoves(s: Sys, r: Sys, f: Fid, q: seq<Fid>)
    requires Typed(s)
  {
    && f in s.m && f in r.m && f in r.pc
    && r == s.(m := s.m[f := r.m[f]], pc := s.pc[f := r.pc[f]], queues := s.queues[s.home[f] := q], sweep := r.sweep)
    && r.sweep.Keys == s.sweep.Keys
    && Keyed(q, r.m) && NoDup(q) && Ordered(q, r.m)
    && (forall g :: g != f ==> (g in q <==> g in s.queues[s.home[f]]))
    && (f in s.heldBy ==> r.m[f].state == s.m[f].state)
  }

  lemma QueueStepFibers(s: Sys, r: Sys, f: Fid, q: seq<Fid>)
    requires Inv(s) && OnlyMoves(s, r, f, q) && f in r.home && r.home[f] in r.queues && FiberOk(r, f)
    ensures FibersOk(r)
  {
    forall g | g in r.m ensures FiberOk(r, g) {
      if g != f {
        assert FiberOk(s, g);
        Unaffected(s, r, g);
      }
    }
  }

  lemma QueueStepPlaces(s: Sys, r: Sys, f: Fid, q: seq<Fid>)
    requires Inv(s) && OnlyMoves(s, r, f, q)
    requires forall t {:trigger SweepOk(r, t)} :: t in r.queues && t in r.sweep ==> SweepOk(r, t)
    ensures PlacesOk(r)
  {
    assert QueueOk(s, s.home[f]);
    OneQueue(s, r, s.home[f], q);
    NotifiersUndisturbed(s, r);
  }

  lemma QueueStep(s: Sys, r: Sys, f: Fid, q: seq<Fid>)
    requires Inv(s) && OnlyMoves(s, r, f, q) && f in r.home && r.home[f] in r.queues && FiberOk(r, f)
    requires forall t {:trigger SweepOk(r, t)} :: t in r.queues && t in r.sweep ==> SweepOk(r, t)
    ensures Inv(r)
  {
    QueueStepFibers(s, r, f, q);
    QueueStepPlaces(s, r, f, q);
  }

  /** The push: a fiber readied in the meantime goes to the front, any other behind all deadlines. */
  lemma EnterQueueInv(s: Sys, r: Sys, f: Fid, i: Info<Fid>, pc: Pc)
    requires Inv(s) && f in s.m && !s.pc[f].Parked? && !s.pc[f].Asleep? && (pc.Parked? || pc.Asleep?)
    requires var m := s.m[f := i];
             r == s.(m := m, pc := s.pc[f := pc], queues := s.queues[s.home[f] := Pushed(s.queues[s.home[f]], m, f)])
    requires f in s.heldBy ==> i.state == s.m[f].state
    requires f in r.queues[s.home[f]] ==> FiberOk(r, f)
    ensures Inv(r)
  {
    var t := s.home[f];
    var q := s.queues[t];
    assert QueueOk(s, t) && FiberOk(s, f);
    assert Ordered(q, r.m);
    PushKeepsOrder(q, r.m, f);
    InsertMembers(q, PushPos(q, r.m, i), f);
    SweepsUndisturbed(s, r);
    QueueStep(s, r, f, r.queues[t]);
  }

  lemma PushInv(s: Sys, f: Fid)
    requires Inv(s) && Enabled(s, Push(f))
    ensures Inv(Next(s, Push(f)))
    ensures s.m[f].state.Ready? ==> Next(s, Push(f)).queues[s.home[f]] == [f] + s.queues[s.home[f]]
  {
    assert FiberOk(s, f);
    assert s.m[f := s.m[f]] == s.m;
    EnterQueueInv(s, Next(s, Push(f)), f, s.m[f], Parked);
  }

  lemma SleepInv(s: Sys, f: Fid, tp: TimePoint)
    requires Inv(s) && Enabled(s, Sleep(f, tp))
    ensures Inv(Next(s, Sleep(f, tp)))
  {
    assert FiberOk(s, f);
    EnterQueueInv(s, Next(s, Sleep(f, tp)), f, s.m[f].(state := Waiting, tp := tp), Asleep);
  }

  // ---------------------------------------------------------------- the sweep

  lemma BeginInv(s: Sys, t: Tid, now: TimePoint)
    requires Inv(s) && Enabled(s, Begin(t, now))
    ensures Inv(Next(s, Begin(t, now)))
  {
    SweepMoved(s, Next(s, Begin(t, now)), t);
  }

  /** Only the place of the sweep of thread `t` changes. */
  lemma SweepMoved(s: Sys, r: Sys, t: Tid)
    requires Inv(s) && t in s.queues && t in r.sweep && r == s.(sweep := s.sweep[t := r.sweep[t]]) && SweepOk(r, t)
    ensures Inv(r)
  {
    forall u | u in r.queues ensures SweepOk(r, u) && QueueOk(r, u) { assert SweepOk(s, u) && QueueOk(s, u); }
    forall g | g in r.m ensures FiberOk(r, g) { assert FiberOk(s, g); Unaffected(s, r, g); }
    NotifiersUndisturbed(s, r);
  }

  /** Fiber `f` of the queue of thread `t` is made READY and goes to the front; perhaps the sweep of `t` goes on. */
  ghost predicate Advances(s: Sys, r: Sys, t: Tid, f: Fid)
    requires Typed(s)
  {
    && t in s.queues && f in s.queues[t] && t in r.sweep
    && r == s.(m := s.m[f := s.m[f].(state := FiberState.Ready)], sweep := s.sweep[t := r.sweep[t]],
               queues := s.queues[t := MovedToFront(s.queues[t], IndexOf(s.queues[t], f))])
  }

  /** The sweep never readies a fiber that a notifier can still find: only sleepers have deadlines. */
  lemma AdvanceMoves(s: Sys, r: Sys, t: Tid, f: Fid)
    requires Inv(s) && Advances(s, r, t, f) && s.m[f].tp < TIME_MAX
    ensures OnlyMoves(s, r, f, r.queues[t]) && s.home[f] == t && FiberOk(r, f)
  {
    var q := s.queues[t];
    assert QueueOk(s, t) && FiberOk(s, f);
    MoveToFrontKeepsOrder(q, s.m, IndexOf(q, f), r.m[f]);
    assert s.pc[f := s.pc[f]] == s.pc;
  }

  lemma AdvanceKeeps(s: Sys, r: Sys, t: Tid, f: Fid)
    requires Inv(s) && Advances(s, r, t, f)
    ensures KeepsQueued(s, r)
  {
    var q := s.queues[t];
    assert QueueOk(s, t);
    MoveToFrontKeepsOrder(q, s.m, IndexOf(q, f), r.m[f]);
  }

  lemma AdvanceInv(s: Sys, r: Sys, t: Tid, f: Fid)
    requires Inv(s) && Advances(s, r, t, f) && s.m[f].tp < TIME_MAX && SweepOk(r, t)
    ensures Inv(r)
  {
    AdvanceMoves(s, r, t, f);
    AdvanceKeeps(s, r, t, f);
    OtherSweepsUndisturbed(s, r, t);
    QueueStep(s, r, f, r.queues[t]);
  }

  lemma TestDue(s: Sys, t: Tid)
    requires Inv(s) && Enabled(s, Test(t)) && s.m[s.sweep[t].f].tp <= s.sweep[t].now
    ensures Inv(Next(s, Test(t)))
  {
    var r, f := Next(s, Test(t)), s.sweep[t].f;
    assert QueueOk(s, t) && SweepOk(s, t);
    AdvanceKeeps(s, r, t, f);
    AdvanceInv(s, r, t, f);
  }

  lemma TestInv(s: Sys, t: Tid)
    requires Inv(s) && Enabled(s, Test(t))
    ensures Inv(Next(s, Test(t)))
  {
    assert QueueOk(s, t) && SweepOk(s, t) && FiberOk(s, s.sweep[t].f);
    if s.m[s.sweep[t].f].tp <= s.sweep[t].now {
      TestDue(s, t);
    } else {
      SweepMoved(s, Next(s, Test(t)), t);
    }
  }

  lemma UnlinkSweeps(s: Sys, t: Tid)
    requires Inv(s) && Enabled(s, Unlink(t))
    ensures var r := Next(s, Unlink(t));
            forall u {:trigger SweepOk(r, u)} :: u in r.queues && u in r.sweep ==> SweepOk(r, u)
  {
    var r := Next(s, Unlink(t));
    assert QueueOk(s, t) && SweepOk(s, t);
    HeadAndTail(s.queues[t]);
    forall u | u in r.queues ensures SweepOk(r, u) { assert SweepOk(s, u) && QueueOk(s, u); }
  }

  lemma UnlinkInv(s: Sys, t: Tid)
    requires Inv(s) && Enabled(s, Unlink(t))
    ensures Inv(Next(s, Unlink(t)))
  {
    var r, q, f := Next(s, Unlink(t)), s.queues[t], s.sweep[t].f;
    assert QueueOk(s, t) && SweepOk(s, t);
    HeadAndTail(q);
    assert FiberOk(s, f);
    assert f in s.heldBy ==> HeldOk(s, f);
    assert Ordered(q[1..], r.m) && FiberOk(r, f);
    UnlinkSweeps(s, t);
    QueueStep(s, r, f, q[1..]);
  }

  // ---------------------------------------------------------------- notifiers

  lemma NotifierLockInv(s: Sys, n: Nid)
    requires Inv(s) && Enabled(s, NotifierLock(n))
    ensures Inv(Next(s, NotifierLock(n)))
  {
    var r := Next(s, NotifierLock(n));
    forall g | g in r.m ensures FiberOk(r, g) { assert FiberOk(s, g); Unaffected(s, r, g); }
    forall g | g in r.heldBy ensures HeldOk(r, g) {
      assert HeldOk(s, g);
      assert Carried(s, n) == [];
    }
    forall k | k in r.hand ensures NotifierOk(r, k) { assert NotifierOk(s, k); }
    forall t | t in r.queues ensures QueueOk(r, t) && SweepOk(r, t) { assert QueueOk(s, t) && SweepOk(s, t); }
  }

  lemma NotifierUnlockInv(s: Sys, n: Nid)
    requires Inv(s) && Enabled(s, NotifierUnlock(n))
    ensures Inv(Next(s, NotifierUnlock(n)))
  {
    var r := Next(s, NotifierUnlock(n));
    assert NotifierOk(s, n);
    assert Carried(r, n) == Carried(s, n);
    forall g | g in r.m ensures FiberOk(r, g) { assert FiberOk(s, g); Unaffected(s, r, g); }
    forall g | g in r.heldBy ensures HeldOk(r, g) { assert HeldOk(s, g); }
    forall k | k in r.hand ensures NotifierOk(r, k) { assert NotifierOk(s, k); }
    forall t | t in r.queues ensures QueueOk(r, t) && SweepOk(r, t) { assert QueueOk(s, t) && SweepOk(s, t); }
  }

  /** With the spinlock in a notifier's hands every fiber on the list has left its critical section: it is WAITING. */
  lemma ListedAreWaiting(s: Sys, n: Nid, f: Fid)
    requires Inv(s) && n in s.hand && s.hand[n].Holding? && f in s.list
    ensures s.m[f].state.Waiting? && f !in s.heldBy
    ensures s.pc[f].Unlocked? || s.pc[f].Timed? || s.pc[f].Parked?
  {
    assert NotifierOk(s, n) && FiberOk(s, f);
    assert f in s.heldBy ==> HeldOk(s, f);
  }

  lemma TakeFibers(s: Sys, n: Nid, k: nat)
    requires Inv(s) && n in s.hand && s.hand[n].Holding? && k <= |s.list|
    ensures var r := Take(s, n, k); forall g {:trigger FiberOk(r, g)} :: g in r.m ==> FiberOk(r, g)
  {
    var r := Take(s, n, k);
    assert s.list == s.list[..k] + s.list[k..];
    forall g | g in r.m ensures FiberOk(r, g) {
      assert FiberOk(s, g);
      if g in s.list[..k] {
        ListedAreWaiting(s, n, g);
      } else {
        Unaffected(s, r, g);
      }
    }
  }

  lemma TakeHands(s: Sys, n: Nid, k: nat)
    requires Inv(s) && n in s.hand && s.hand[n].Holding? && k <= |s.list|
    ensures var r := Take(s, n, k);
            && (forall g {:trigger HeldOk(r, g)} :: g in r.heldBy ==> HeldOk(r, g))
            && (forall j {:trigger NotifierOk(r, j)} :: j in r.hand ==> NotifierOk(r, j))
  {
    var r := Take(s, n, k);
    assert Carried(s, n) == [] && Carried(r, n) == s.list[..k];
    forall g | g in r.heldBy ensures HeldOk(r, g) {
      if g in s.list[..k] { ListedAreWaiting(s, n, g); } else { assert HeldOk(s, g); }
    }
    forall j | j in r.hand ensures NotifierOk(r, j) {
      assert NotifierOk(s, j);
      forall f | f in Carried(r, j) ensures f in r.heldBy && r.heldBy[f] == j {
        if j != n {
          assert f in Carried(s, j) && HeldOk(s, f);
        }
      }
    }
  }

  lemma TakeInv(s: Sys, n: Nid, k: nat)
    requires Inv(s) && n in s.hand && s.hand[n].Holding? && k <= |s.list|
    ensures Inv(Take(s, n, k))
  {
    TakeFibers(s, n, k);
    TakeHands(s, n, k);
    forall t | t in s.queues ensures QueueOk(Take(s, n, k), t) && SweepOk(Take(s, n, k), t) {
      assert QueueOk(s, t) && SweepOk(s, t);
    }
  }

  /** `set_ready` finds the fiber WAITING, wherever the waiter has got to. */
  lemma SetReadyFindsWaiting(s: Sys, n: Nid)
    requires Inv(s) && Enabled(s, SetReady(n))
    ensures var f := s.hand[n].fs[0];
            f in s.heldBy && s.heldBy[f] == n && s.m[f].state.Waiting? && f !in s.list && f !in s.hand[n].fs[1..]
    ensures var f := s.hand[n].fs[0]; s.pc[f].Unlocked? || s.pc[f].Timed? || s.pc[f].Parked?
  {
    var f := s.hand[n].fs[0];
    assert NotifierOk(s, n);
    assert f in Carried(s, n);
    assert HeldOk(s, f) && FiberOk(s, f);
    HeadAndTail(s.hand[n].fs);
  }

  lemma SetReadyHands(s: Sys, n: Nid)
    requires Inv(s) && Enabled(s, SetReady(n))
    ensures var r := Next(s, SetReady(n));
            && (forall g {:trigger HeldOk(r, g)} :: g in r.heldBy ==> HeldOk(r, g))
            && (forall j {:trigger NotifierOk(r, j)} :: j in r.hand ==> NotifierOk(r, j))
  {
    var fs, r := s.hand[n].fs, Next(s, SetReady(n));
    SetReadyFindsWaiting(s, n);
    assert NotifierOk(s, n);
    assert Carried(s, n) == fs;
    HeadAndTail(fs);
    assert Carried(r, n) == fs[1..];
    forall g | g in r.heldBy ensures HeldOk(r, g) { assert HeldOk(s, g); }
    forall j | j in r.hand ensures NotifierOk(r, j) {
      assert NotifierOk(s, j);
      assert j == n ==> NoDup(fs);
    }
  }

  lemma SetReadyQueues(s: Sys, n: Nid)
    requires Inv(s) && Enabled(s, SetReady(n))
    ensures var r := Next(s, SetReady(n));
            && (forall t {:trigger QueueOk(r, t)} :: t in r.queues ==> QueueOk(r, t))
            && r.queues.Keys == s.queues.Keys
            && forall t, g :: t in s.queues ==> (g in r.queues[t] <==> g in s.queues[t])
  {
    var f, r := s.hand[n].fs[0], Next(s, SetReady(n));
    var t := s.home[f];
    var q := s.queues[t];
    assert QueueOk(s, t);
    if f in q {
      MoveToFrontKeepsOrder(q, s.m, IndexOf(q, f), r.m[f]);
    }
    OneQueue(s, r, t, r.queues[t]);
  }

  lemma SetReadyFibers(s: Sys, n: Nid)
    requires Inv(s) && Enabled(s, SetReady(n))
    ensures var r := Next(s, SetReady(n)); forall g {:trigger FiberOk(r, g)} :: g in r.m ==> FiberOk(r, g)
  {
    var f, r := s.hand[n].fs[0], Next(s, SetReady(n));
    SetReadyFindsWaiting(s, n);
    SetReadyQueues(s, n);
    forall g | g in r.m ensures FiberOk(r, g) {
      assert FiberOk(s, g);
      if g != f { Unaffected(s, r, g); }
    }
  }

  lemma SetReadySweeps(s: Sys, n: Nid)
    requires Inv(s) && Enabled(s, SetReady(n))
    ensures var r := Next(s, SetReady(n));
            forall t {:trigger SweepOk(r, t)} :: t in r.queues && t in r.sweep ==> SweepOk(r, t)
  {
    SetReadyQueues(s, n);
    SweepsUndisturbed(s, Next(s, SetReady(n)));
  }

  lemma SetReadyInv(s: Sys, n: Nid)
    requires Inv(s) && Enabled(s, SetReady(n))
    ensures Inv(Next(s, SetReady(n)))
  {
    SetReadyFindsWaiting(s, n);
    SetReadyFibers(s, n);
    SetReadyHands(s, n);
    SetReadyQueues(s, n);
    SetReadySweeps(s, n);
  }

  lemma SweepActionInv(s: Sys, a: Action)
    requires Inv(s) && Enabled(s, a) && BySweep(a)
    ensures Inv(Next(s, a))
  {
    match a
    case Begin(t, now) => BeginInv(s, t, now);
    case Test(t) => TestInv(s, t);
    case Unlink(t) => UnlinkInv(s, t);
  }

  lemma NotifierActionInv(s: Sys, a: Action)
    requires Inv(s) && Enabled(s, a) && ByNotifier(a)
    ensures Inv(Next(s, a))
  {
    match a
    case NotifierLock(n) => NotifierLockInv(s, n);
    case TakeOne(n) => TakeInv(s, n, 1);
    case TakeAll(n) => TakeInv(s, n, |s.list|);
    case NotifierUnlock(n) => NotifierUnlockInv(s, n);
    case SetReady(n) => SetReadyInv(s, n);
  }

  lemma FiberActionInv(s: Sys, a: Action)
    requires Inv(s) && Enabled(s, a) && !ByNotifier(a) && !BySweep(a)
    ensures Inv(Next(s, a))
  {
    match a
    case Lock(f) => LockInv(s, f);
    case GiveUp(f) => GiveUpInv(s, f);
    case Register(f) => RegisterInv(s, f);
    case SetWaiting(f) => SetWaitingInv(s, f);
    case Unlock(f) => UnlockInv(s, f);
    case SetDeadline(f) => SetDeadlineInv(s, f);
    case Push(f) => PushInv(s, f);
    case Sleep(f, tp) => SleepInv(s, f, tp);
    case Resume(f) => ResumeInv(s, f);
  }

  lemma NextInv(s: Sys, a: Action)
    requires Inv(s) && Enabled(s, a)
    ensures Inv(Next(s, a))
  {
    if ByNotifier(a) {
      NotifierActionInv(s, a);
    } else if BySweep(a) {
      SweepActionInv(s, a);
    } else {
      FiberActionInv(s, a);
    }
  }

  // ---------------------------------------------------------------- runs

  ghost predicate IsRun(s: Sys, acts: seq<Action>)
    decreases |acts|
  {
    Typed(s) && (acts != [] ==> Enabled(s, acts[0]) && IsRun(Next(s, acts[0]), acts[1..]))
  }

  ghost function After(s: Sys, acts: seq<Action>): (r: Sys)
    requires IsRun(s, acts)
    ensures Typed(r)
    decreases |acts|
  {
    if acts == [] then s else After(Next(s, acts[0]), acts[1..])
  }

  /** Every fiber runs, nobody holds the spinlock, every queue and the list are empty. */
  ghost predicate Init(s: Sys) {
    && Typed(s) && s.list == [] && s.spin == None && s.heldBy == map[]
    && (forall f :: f in s.pc ==> s.pc[f].Run? && s.m[f].state.Running? && !s.m[f].flag)
    && (forall t :: t in s.queues ==> s.queues[t] == [] && s.sweep[t].Out?)
    && (forall n :: n in s.hand ==> s.hand[n].Idle?)
  }

  lemma {:induction false} RunInv(s: Sys, acts: seq<Action>)
    requires Inv(s) && IsRun(s, acts)
    ensures Inv(After(s, acts))
    decreases |acts|
  {
    if acts != [] {
      NextInv(s, acts[0]);
      RunInv(Next(s, acts[0]), acts[1..]);
    }
  }

  lemma InitInv(s: Sys)
    requires Init(s)
    ensures Inv(s)
  {
  }

  /** After every interleaving: `set_ready` finds its target WAITING, `set_waiting` finds its fiber RUNNING (it
      overwrites no wakeup), and no notifier takes a fiber between its registration and its becoming WAITING. */
  lemma HandshakeSafe(s0: Sys, acts: seq<Action>, a: Action)
    requires Init(s0) && IsRun(s0, acts) && Enabled(After(s0, acts), a)
    ensures var s := After(s0, acts);
            && (a.SetReady? ==> s.m[s.hand[a.n].fs[0]].state.Waiting?)
            && (a.SetWaiting? ==> s.m[a.f].state.Running?)
            && (a.TakeOne? || a.TakeAll? ==> forall f :: f in s.pc ==> !s.pc[f].Registered? && !s.pc[f].Marked?)
  {
    InitInv(s0);
    RunInv(s0, acts);
    var s := After(s0, acts);
    match a
    case SetReady(n) => SetReadyFindsWaiting(s, n);
    case SetWaiting(f) => assert FiberOk(s, f);
    case TakeOne(n) =>
      assert NotifierOk(s, n);
      forall f | f in s.pc ensures !s.pc[f].Registered? && !s.pc[f].Marked? { assert FiberOk(s, f); }
    case TakeAll(n) =>
      assert NotifierOk(s, n);
      forall f | f in s.pc ensures !s.pc[f].Registered? && !s.pc[f].Marked? { assert FiberOk(s, f); }
    case _ =>
  }

  ghost predicate BeforeWaiting(q: seq<Fid>, m: Infos<Fid>, f: Fid)
    requires Keyed(q, m) && f in q
  {
    forall i :: 0 <= i < |q| && !m[q[i]].state.Ready? ==> IndexOf(q, f) < i
  }

  /** A fiber that was notified while inside `wait`: READY, and once it is in the waiting queue of its thread, in the
      READY prefix, that is, before every entry that is not READY. */
  ghost predicate Notified(s: Sys, f: Fid) {
    && f in s.m && f in s.pc && f in s.home && s.home[f] in s.queues && Keyed(s.queues[s.home[f]], s.m)
    && s.m[f].state.Ready? && (s.pc[f].Unlocked? || s.pc[f].Timed? || s.pc[f].Parked?)
    && (s.pc[f].Parked? ==> f in s.queues[s.home[f]] && BeforeWaiting(s.queues[s.home[f]], s.m, f))
  }

  lemma ReadyPrefix(s: Sys, f: Fid)
    requires Inv(s) && f in s.m && s.m[f].state.Ready? && (s.pc[f].Unlocked? || s.pc[f].Timed? || s.pc[f].Parked?)
    ensures Notified(s, f)
  {
    assert FiberOk(s, f) && QueueOk(s, s.home[f]);
  }

  /** The sweep of some thread takes `f` out of its queue. */
  ghost predicate Takes(s: Sys, a: Action, f: Fid) {
    a.Unlink? && a.t in s.sweep && s.sweep[a.t].Found? && s.sweep[a.t].f == f
  }

  ghost predicate Signalled(s: Sys, f: Fid) {
    f in s.m && f in s.pc && s.m[f].state.Ready? && (s.pc[f].Unlocked? || s.pc[f].Timed? || s.pc[f].Parked?)
  }

  lemma SetReadyKeepsSignal(s: Sys, n: Nid, f: Fid)
    requires Typed(s) && Enabled(s, SetReady(n)) && Signalled(s, f)
    ensures Signalled(Next(s, SetReady(n)), f)
  {
  }

  lemma TestKeepsSignal(s: Sys, t: Tid, f: Fid)
    requires Typed(s) && Enabled(s, Test(t)) && Signalled(s, f)
    ensures Signalled(Next(s, Test(t)), f)
  {
  }

  lemma UnlinkKeepsSignal(s: Sys, t: Tid, f: Fid)
    requires Typed(s) && Enabled(s, Unlink(t)) && Signalled(s, f) && s.sweep[t].f != f
    ensures Signalled(Next(s, Unlink(t)), f)
  {
  }

  lemma NotifierKeepsSignal(s: Sys, a: Action, f: Fid)
    requires Typed(s) && Enabled(s, a) && Signalled(s, f) && ByNotifier(a)
    ensures Signalled(Next(s, a), f)
  {
    if a.SetReady? {
      SetReadyKeepsSignal(s, a.n, f);
    }
  }

  lemma SweepKeepsSignal(s: Sys, a: Action, f: Fid)
    requires Typed(s) && Enabled(s, a) && Signalled(s, f) && BySweep(a) && !Takes(s, a, f)
    ensures Signalled(Next(s, a), f)
  {
    match a
    case Begin(t, now) =>
    case Test(t) => TestKeepsSignal(s, t, f);
    case Unlink(t) => UnlinkKeepsSignal(s, t, f);
  }

  lemma StaysSignalled(s: Sys, a: Action, f: Fid)
    requires Typed(s) && Enabled(s, a) && Signalled(s, f) && !Takes(s, a, f)
    ensures Signalled(Next(s, a), f)
  {
    if ByNotifier(a) {
      NotifierKeepsSignal(s, a, f);
    } else if BySweep(a) {
      SweepKeepsSignal(s, a, f);
    }
  }

  lemma BecomesSignalled(s: Sys, n: Nid)
    requires Inv(s) && Enabled(s, SetReady(n))
    ensures Signalled(Next(s, SetReady(n)), s.hand[n].fs[0])
  {
    SetReadyFindsWaiting(s, n);
  }

  /** No wakeup is lost, in any interleaving: `set_ready` makes its target notified, and a notified fiber stays so
      until the sweep of its own thread takes it out of the waiting queue. */
  lemma NoLostWakeup(s: Sys, a: Action, f: Fid)
    requires Inv(s) && Enabled(s, a) && f in s.m
    requires Notified(s, f) || (a.SetReady? && s.hand[a.n].fs[0] == f)
    ensures var r := Next(s, a);
            Notified(r, f) || (Takes(s, a, f) && r.pc[f].Awake?)
  {
    if a.SetReady? && s.hand[a.n].fs[0] == f {
      BecomesSignalled(s, a.n);
    } else if !Takes(s, a, f) {
      StaysSignalled(s, a, f);
    }
    NextInv(s, a);
    if Signalled(Next(s, a), f) {
      ReadyPrefix(Next(s, a), f);
    }
  }

  /** No step of the run is the sweep taking `f`. */
  ghost predicate NotSwept(s: Sys, acts: seq<Action>, f: Fid)
    requires IsRun(s, acts)
    decreases |acts|
  {
    acts != [] ==>
      && !Takes(s, acts[0], f)
      && NotSwept(Next(s, acts[0]), acts[1..], f)
  }

  /** The handshake over whole runs: however the threads interleave before and after it, a `set_ready` leaves its target
      READY and, once queued, in the READY prefix, for as long as the sweep has not taken it. */
  lemma {:induction false} NotifiedUntilSwept(s: Sys, acts: seq<Action>, f: Fid)
    requires Inv(s) && IsRun(s, acts) && NotSwept(s, acts, f) && f in s.m
    requires Notified(s, f) || (acts != [] && acts[0].SetReady? && s.hand[acts[0].n].fs[0] == f)
    ensures Notified(After(s, acts), f)
    decreases |acts|
  {
    if acts != [] {
      NoLostWakeup(s, acts[0], f);
      NextInv(s, acts[0]);
      NotifiedUntilSwept(Next(s, acts[0]), acts[1..], f);
    }
  }

  // ---------------------------------------------------------------- the head under the sweep

  ghost predicate Sweeping(s: Sys, t: Tid) {
    t in s.queues && t in s.sweep && !s.sweep[t].Out?
  }

  /** A notifier readies a fiber that is in the waiting queue of thread `t`. */
  ghost predicate ReadiesIn(s: Sys, a: Action, t: Tid) {
    && a.SetReady? && a.n in s.hand && s.hand[a.n].Carries? && s.hand[a.n].fs != []
    && t in s.queues && s.hand[a.n].fs[0] in s.queues[t]
  }

  ghost predicate OfSweep(a: Action, t: Tid) {
    BySweep(a) && a.t == t
  }

  lemma SetReadyMoves(s: Sys, n: Nid, t: Tid)
    requires Inv(s) && t in s.queues && Enabled(s, SetReady(n))
    ensures Next(s, SetReady(n)).sweep == s.sweep
    ensures !ReadiesIn(s, SetReady(n), t) ==> Next(s, SetReady(n)).queues[t] == s.queues[t]
    ensures ReadiesIn(s, SetReady(n), t) ==> HeadIs(Next(s, SetReady(n)), t, s.hand[n].fs[0])
  {
    var f := s.hand[n].fs[0];
    assert QueueOk(s, t) && QueueOk(s, s.home[f]);
  }

  /** Neither the queue of thread `t` nor the place of its sweep has changed. */
  ghost predicate SameQueue(s: Sys, r: Sys, t: Tid) {
    && t in s.queues && t in r.queues && t in s.sweep && t in r.sweep
    && r.queues[t] == s.queues[t] && r.sweep[t] == s.sweep[t]
  }

  lemma FibersKeepQueue(s: Sys, a: Action, t: Tid)
    requires Typed(s) && Enabled(s, a) && Sweeping(s, t) && !ByNotifier(a) && !BySweep(a)
    ensures SameQueue(s, Next(s, a), t)
  {
    if a.Push? || a.Sleep? {
      assert s.home[a.f] != t;
    }
  }

  lemma TestKeepsQueue(s: Sys, u: Tid, t: Tid)
    requires Typed(s) && Enabled(s, Test(u)) && t in s.sweep && u != t
    ensures SameQueue(s, Next(s, Test(u)), t)
  {
  }

  lemma SweepsKeepQueue(s: Sys, a: Action, t: Tid)
    requires Typed(s) && Enabled(s, a) && t in s.sweep && BySweep(a) && a.t != t
    ensures SameQueue(s, Next(s, a), t)
  {
    match a
    case Begin(u, now) =>
    case Test(u) => TestKeepsQueue(s, u, t);
    case Unlink(u) =>
  }

  lemma NotifiersKeepQueue(s: Sys, a: Action, t: Tid)
    requires Inv(s) && Enabled(s, a) && Sweeping(s, t) && ByNotifier(a) && !ReadiesIn(s, a, t)
    ensures SameQueue(s, Next(s, a), t)
  {
    if a.SetReady? {
      SetReadyMoves(s, a.n, t);
    }
  }

  /** While a thread sweeps its waiting queue, only its sweep and notifiers of fibers in that queue change it. */
  lemma OthersKeepQueue(s: Sys, a: Action, t: Tid)
    requires Inv(s) && Enabled(s, a) && Sweeping(s, t) && !OfSweep(a, t) && !ReadiesIn(s, a, t)
    ensures SameQueue(s, Next(s, a), t)
  {
    if ByNotifier(a) {
      NotifiersKeepQueue(s, a, t);
    } else if BySweep(a) {
      SweepsKeepQueue(s, a, t);
    } else {
      FibersKeepQueue(s, a, t);
    }
  }

  /** A fiber that the sweep has found READY is at the head until a notifier readies another one of the same queue. */
  lemma FoundStays(s: Sys, a: Action, t: Tid)
    requires Inv(s) && Enabled(s, a) && Sweeping(s, t) && s.sweep[t].Found? && a != Unlink(t)
    ensures var r := Next(s, a);
            && t in r.queues && t in r.sweep && r.sweep[t] == s.sweep[t]
            && (HeadIs(r, t, s.sweep[t].f) <==> HeadIs(s, t, s.sweep[t].f) && !ReadiesIn(s, a, t))
  {
    if ReadiesIn(s, a, t) {
      SetReadyMoves(s, a.n, t);
      SetReadyFindsWaiting(s, a.n);
      assert SweepOk(s, t);
    } else {
      OthersKeepQueue(s, a, t);
    }
  }

  /** No step of the run readies a fiber that is then in the waiting queue of thread `t`. */
  ghost predicate NoneReadied(s: Sys, acts: seq<Action>, t: Tid)
    requires IsRun(s, acts)
    decreases |acts|
  {
    acts != [] ==> !ReadiesIn(s, acts[0], t) && NoneReadied(Next(s, acts[0]), acts[1..], t)
  }

  lemma {:induction false} RunFoundStays(s: Sys, acts: seq<Action>, t: Tid)
    requires Inv(s) && IsRun(s, acts) && Sweeping(s, t) && s.sweep[t].Found? && Unlink(t) !in acts
    ensures Enabled(After(s, acts), Unlink(t)) <==> HeadIs(s, t, s.sweep[t].f) && NoneReadied(s, acts, t)
    decreases |acts|
  {
    if acts != [] {
      FoundStays(s, acts[0], t);
      NextInv(s, acts[0]);
      RunFoundStays(Next(s, acts[0]), acts[1..], t);
    }
  }

  /** The test leaves the fiber it finds at the head if it readied the fiber itself; otherwise it moves nothing. */
  lemma TestHead(s: Sys, t: Tid)
    requires Typed(s) && Enabled(s, Test(t)) && Next(s, Test(t)).sweep[t].Found? && !s.m[s.sweep[t].f].flag
    ensures Next(s, Test(t)).sweep[t].f == s.sweep[t].f
    ensures HeadIs(Next(s, Test(t)), t, s.sweep[t].f) <==>
            s.m[s.sweep[t].f].tp <= s.sweep[t].now || HeadIs(s, t, s.sweep[t].f)
  {
  }

  /** The assertion `head_ == f` of the sweep, for a fiber that passes the test, in every interleaving of what other
      threads do before the fiber is unlinked: it holds if and only if the fiber was due, or was the head when it was
      tested, and no fiber of the queue has been notified since. */
  lemma UnlinkExactly(s: Sys, acts: seq<Action>, t: Tid)
    requires Inv(s) && Enabled(s, Test(t)) && Next(s, Test(t)).sweep[t].Found?
    requires IsRun(Next(s, Test(t)), acts) && Unlink(t) !in acts
    ensures Enabled(After(Next(s, Test(t)), acts), Unlink(t)) <==>
            && (s.m[s.sweep[t].f].tp <= s.sweep[t].now || HeadIs(s, t, s.sweep[t].f))
            && NoneReadied(Next(s, Test(t)), acts, t)
  {
    assert FiberOk(s, s.sweep[t].f);
    TestHead(s, t);
    TestInv(s, t);
    RunFoundStays(Next(s, Test(t)), acts, t);
  }

  /** The sweep is where a sweep alone would be: at the head, and about to go on with the second entry. */
  ghost predicate InPlace(s: Sys, t: Tid) {
    && t in s.queues && t in s.sweep
    && (!s.sweep[t].Out? ==> HeadIs(s, t, s.sweep[t].f))
    && (s.sweep[t].Found? ==> s.sweep[t].nxt == Second(s.queues[t]))
  }

  ghost function Second(q: seq<Fid>): Option<Fid> {
    if |q| > 1 then Some(q[1]) else None
  }

  lemma TestInPlace(s: Sys, t: Tid)
    requires Typed(s) && Enabled(s, Test(t)) && InPlace(s, t)
    ensures InPlace(Next(s, Test(t)), t)
  {
    HeadStays(s.queues[t]);
  }

  lemma UnlinkInPlace(s: Sys, t: Tid)
    requires Typed(s) && Enabled(s, Unlink(t)) && InPlace(s, t)
    ensures InPlace(Next(s, Unlink(t)), t)
  {
    var q := s.queues[t];
    assert |q| > 1 ==> q[1..][0] == q[1];
  }

  lemma BeginInPlace(s: Sys, t: Tid, now: TimePoint)
    requires Typed(s) && Enabled(s, Begin(t, now)) && InPlace(s, t)
    ensures InPlace(Next(s, Begin(t, now)), t)
  {
  }

  lemma SweepInPlace(s: Sys, a: Action)
    requires Typed(s) && Enabled(s, a) && BySweep(a) && InPlace(s, a.t)
    ensures InPlace(Next(s, a), a.t)
  {
    match a
    case Begin(t, now) => BeginInPlace(s, t, now);
    case Test(t) => TestInPlace(s, t);
    case Unlink(t) => UnlinkInPlace(s, t);
  }

  /** No step of the run readies a fiber of the waiting queue of thread `t` while the thread sweeps it. */
  ghost predicate SweepsAlone(s: Sys, acts: seq<Action>, t: Tid)
    requires IsRun(s, acts)
    decreases |acts|
  {
    acts != [] ==> !(Sweeping(s, t) && ReadiesIn(s, acts[0], t)) && SweepsAlone(Next(s, acts[0]), acts[1..], t)
  }

  lemma OthersKeepSweep(s: Sys, a: Action, t: Tid)
    requires Typed(s) && Enabled(s, a) && t in s.sweep && !OfSweep(a, t)
    ensures t in Next(s, a).sweep && t in Next(s, a).queues && Next(s, a).sweep[t] == s.sweep[t]
  {
    if BySweep(a) {
      SweepsKeepQueue(s, a, t);
    }
  }

  lemma StaysInPlace(s: Sys, a: Action, t: Tid)
    requires Inv(s) && Enabled(s, a) && InPlace(s, t) && !(Sweeping(s, t) && ReadiesIn(s, a, t))
    ensures InPlace(Next(s, a), t)
  {
    if OfSweep(a, t) {
      SweepInPlace(s, a);
    } else if Sweeping(s, t) {
      OthersKeepQueue(s, a, t);
    } else {
      OthersKeepSweep(s, a, t);
    }
  }

  lemma {:induction false} RunStaysInPlace(s: Sys, acts: seq<Action>, t: Tid)
    requires Inv(s) && IsRun(s, acts) && InPlace(s, t) && SweepsAlone(s, acts, t)
    ensures InPlace(After(s, acts), t)
    decreases |acts|
  {
    if acts != [] {
      StaysInPlace(s, acts[0], t);
      NextInv(s, acts[0]);
      RunStaysInPlace(Next(s, acts[0]), acts[1..], t);
    }
  }

  /** In a run in which no notification reaches a queue while it is swept, every sweep works on the head throughout and
      the assertion `head_ == f` never fails. */
  lemma SweepSafe(s0: Sys, acts: seq<Action>, t: Tid)
    requires Init(s0) && t in s0.queues && IsRun(s0, acts) && SweepsAlone(s0, acts, t)
    ensures var s := After(s0, acts); InPlace(s, t) && (s.sweep[t].Found? ==> Enabled(s, Unlink(t)))
  {
    InitInv(s0);
    RunStaysInPlace(s0, acts, t);
  }
}
