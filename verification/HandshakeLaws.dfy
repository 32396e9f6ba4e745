/** What the steps of the handshake do for a waiter: from its registration to its notification, and through the sweep.
    */
module HandshakeLaws {
  import opened Seqs
  import opened WaitingOrder
  import opened Handshakes

  ghost predicate Reaches(s: Sys, acts: seq<Action>, r: Sys) {
    IsRun(s, acts) && After(s, acts) == r
  }

  lemma Stay(s: Sys)
    requires Typed(s)
    ensures Reaches(s, [], s)
  {
  }

  lemma Prepend(s: Sys, a: Action, r: Sys, acts: seq<Action>, e: Sys)
    requires Typed(s) && Enabled(s, a) && r == Next(s, a) && Reaches(r, acts, e)
    ensures Reaches(s, [a] + acts, e)
  {
    assert ([a] + acts)[0] == a && ([a] + acts)[1..] == acts;
  }

  // ---------------------------------------------------------------- waiting

  /** What the steps of `wait` do to their fiber: the spinlock is taken, the fiber is the last one on the list, it is
      WAITING, the spinlock is given back, it has no deadline, and it is queued. */
  ghost predicate WaitStep(s: Sys, a: Action, r: Sys)
    requires !ByNotifier(a) && !BySweep(a) && a.f in r.m && a.f in r.pc
  {
    match a
    case Lock(f) => r.spin == Some(Waiter(f)) && r.pc[f].Locked?
    case GiveUp(f) => r.spin == None && r.pc[f].Run?
    case Register(f) => r.list == s.list + [f] && r.pc[f].Registered?
    case SetWaiting(f) => r.m[f].state.Waiting? && r.pc[f].Marked?
    case Unlock(f) => r.spin == None && r.pc[f].Unlocked?
    case SetDeadline(f) => r.m[f].tp == TIME_MAX && r.pc[f].Timed?
    case Push(f) => r.pc[f].Parked?
    case Sleep(f, tp) => r.m[f].state.Waiting? && r.m[f].tp == tp && r.pc[f].Asleep?
    case Resume(f) => r.m[f].state.Running? && r.pc[f].Run?
  }

  lemma FiberSteps(s: Sys, a: Action)
    requires Typed(s) && Enabled(s, a) && !ByNotifier(a) && !BySweep(a)
    ensures var r := Next(s, a);
            a.f in s.m && a.f in r.m && a.f in r.pc && WaitStep(s, a, r)
  {
  }

  /** And nothing else changes but what the step is there for. */
  ghost predicate WaitFrame(s: Sys, a: Action, r: Sys)
    requires !ByNotifier(a) && !BySweep(a)
  {
    && (!a.Lock? && !a.GiveUp? && !a.Unlock? ==> r.spin == s.spin)
    && (!a.Register? ==> r.list == s.list)
    && r.hand == s.hand && r.heldBy == s.heldBy && r.sweep == s.sweep && r.home == s.home
  }

  lemma FiberFrame(s: Sys, a: Action)
    requires Typed(s) && Enabled(s, a) && !ByNotifier(a) && !BySweep(a)
    ensures WaitFrame(s, a, Next(s, a))
  {
  }

  /** Other fibers are not concerned ... */
  lemma OtherRecords(s: Sys, a: Action)
    requires Typed(s) && Enabled(s, a) && !ByNotifier(a) && !BySweep(a)
    ensures a.SetWaiting? || a.SetDeadline? || a.Sleep? || a.Resume? || Next(s, a).m == s.m
  {
  }

  lemma OtherRecordsToo(s: Sys, a: Action, g: Fid)
    requires Typed(s) && Enabled(s, a) && (a.SetWaiting? || a.SetDeadline? || a.Resume?) && g in s.m && g != a.f
    ensures g in Next(s, a).m && Next(s, a).m[g] == s.m[g]
  {
    match a
    case SetWaiting(f) =>
    case SetDeadline(f) =>
    case Resume(f) =>
  }

  lemma OthersWhileSleeping(s: Sys, f: Fid, tp: TimePoint, g: Fid)
    requires Typed(s) && Enabled(s, Sleep(f, tp)) && g in s.m && g != f
    ensures g in Next(s, Sleep(f, tp)).m && Next(s, Sleep(f, tp)).m[g] == s.m[g]
  {
  }

  lemma OtherPlaces(s: Sys, a: Action)
    requires Typed(s) && Enabled(s, a) && !ByNotifier(a) && !BySweep(a)
    ensures a.f in Next(s, a).pc && Next(s, a).pc == s.pc[a.f := Next(s, a).pc[a.f]]
  {
  }

  /** ... and the state and the deadline of the fiber change only where the step says so. */
  lemma OwnRecord(s: Sys, a: Action)
    requires Typed(s) && Enabled(s, a) && !ByNotifier(a) && !BySweep(a)
    ensures a.f in s.m && a.f in Next(s, a).m
    ensures !a.SetWaiting? && !a.Sleep? && !a.Resume? ==> Next(s, a).m[a.f].state == s.m[a.f].state
    ensures !a.SetDeadline? && !a.Sleep? ==> Next(s, a).m[a.f].tp == s.m[a.f].tp
  {
  }

  lemma Own(s: Sys, a: Action) returns (r: Sys)
    requires Inv(s) && Enabled(s, a) && !ByNotifier(a) && !BySweep(a)
    ensures r == Next(s, a) && Inv(r) && WaitFrame(s, a, r)
    ensures a.f in s.m && a.f in r.m && a.f in r.pc && WaitStep(s, a, r)
    ensures Free(r, a.f)
    ensures !a.SetWaiting? && !a.Sleep? && !a.Resume? ==> r.m[a.f].state == s.m[a.f].state
  {
    r := Next(s, a);
    NextInv(s, a);
    FiberSteps(s, a);
    FiberFrame(s, a);
    OwnRecord(s, a);
  }

  /** `f` is WAITING in the queue of its thread and the spinlock is free. */
  ghost predicate Suspended(r: Sys, f: Fid, list: seq<Fid>, hand: map<Nid, NotifierPc>) {
    && Inv(r) && f in r.pc && r.pc[f].Parked? && f in r.m && r.m[f].state.Waiting?
    && r.list == list && r.spin == None && r.hand == hand
  }

  // A call of `wait`, if nobody interferes, from its last step to its first.

  lemma PushSuspends(s: Sys, f: Fid) returns (acts: seq<Action>, r: Sys)
    requires Inv(s) && Free(s, f) && s.pc[f].Timed? && s.m[f].state.Waiting? && s.spin == None
    ensures Reaches(s, acts, r) && Suspended(r, f, s.list, s.hand)
  {
    r := Own(s, Push(f));
    acts := [Push(f)] + [];
    Stay(r);
    Prepend(s, Push(f), r, [], r);
  }

  lemma DeadlineSuspends(s: Sys, f: Fid) returns (acts: seq<Action>, r: Sys)
    requires Inv(s) && Free(s, f) && s.pc[f].Unlocked? && s.m[f].state.Waiting? && s.spin == None
    ensures Reaches(s, acts, r) && Suspended(r, f, s.list, s.hand)
  {
    var t := Own(s, SetDeadline(f));
    var rest;
    rest, r := PushSuspends(t, f);
    acts := [SetDeadline(f)] + rest;
    Prepend(s, SetDeadline(f), t, rest, r);
  }

  lemma UnlockSuspends(s: Sys, f: Fid) returns (acts: seq<Action>, r: Sys)
    requires Inv(s) && Free(s, f) && s.pc[f].Marked? && s.m[f].state.Waiting?
    ensures Reaches(s, acts, r) && Suspended(r, f, s.list, s.hand)
  {
    var t := Own(s, Unlock(f));
    var rest;
    rest, r := DeadlineSuspends(t, f);
    acts := [Unlock(f)] + rest;
    Prepend(s, Unlock(f), t, rest, r);
  }

  lemma MarkSuspends(s: Sys, f: Fid) returns (acts: seq<Action>, r: Sys)
    requires Inv(s) && Free(s, f) && s.pc[f].Registered?
    ensures Reaches(s, acts, r) && Suspended(r, f, s.list, s.hand)
  {
    var t := Own(s, SetWaiting(f));
    var rest;
    rest, r := UnlockSuspends(t, f);
    acts := [SetWaiting(f)] + rest;
    Prepend(s, SetWaiting(f), t, rest, r);
  }

  lemma RegisterSuspends(s: Sys, f: Fid) returns (acts: seq<Action>, r: Sys)
    requires Inv(s) && Free(s, f) && s.pc[f].Locked?
    ensures Reaches(s, acts, r) && Suspended(r, f, s.list + [f], s.hand)
  {
    var t := Own(s, Register(f));
    var rest;
    rest, r := MarkSuspends(t, f);
    acts := [Register(f)] + rest;
    Prepend(s, Register(f), t, rest, r);
  }

  /** A fiber that calls `wait` on a free primitive ends up WAITING in the queue of its thread, the last one on the
      list, and the spinlock is free again. */
  lemma WaitSuspends(s: Sys, f: Fid) returns (acts: seq<Action>, r: Sys)
    requires Inv(s) && Enabled(s, Lock(f))
    ensures Reaches(s, acts, r) && Suspended(r, f, s.list + [f], s.hand)
  {
    var t := Own(s, Lock(f));
    var rest;
    rest, r := RegisterSuspends(t, f);
    acts := [Lock(f)] + rest;
    Prepend(s, Lock(f), t, rest, r);
  }

  // ---------------------------------------------------------------- notifying

  /** `notify_one` takes the first waiter, `notify_all` takes them all, in order. */
  lemma TakesExactly(s: Sys, n: Nid)
    requires Typed(s) && n in s.hand && s.hand[n].Holding?
    ensures s.list != [] ==> var r := Next(s, TakeOne(n)); r.hand[n] == Took([s.list[0]]) && r.list == s.list[1..]
    ensures var r := Next(s, TakeAll(n)); r.hand[n] == Took(s.list) && r.list == []
  {
    assert s.list[..|s.list|] == s.list;
  }

  /** `set_ready` readies the fiber that the notifier took first, and goes on with the next one. */
  lemma ReadiesFirst(s: Sys, n: Nid)
    requires Typed(s) && Enabled(s, SetReady(n))
    ensures var r, fs := Next(s, SetReady(n)), s.hand[n].fs;
            n in r.hand && Carried(r, n) == fs[1..] && r.hand[n] == CarriesOn(fs[1..]) && r.list == s.list
  {
  }

  /** Everybody in `fs` has been notified, and whoever was before still is. */
  ghost predicate AllSignalled(s: Sys, fs: seq<Fid>, r: Sys) {
    (forall f :: f in fs ==> Signalled(r, f)) && (forall f :: Signalled(s, f) ==> Signalled(r, f))
  }

  lemma {:induction false} CarriedReadied(s: Sys, n: Nid, fs: seq<Fid>) returns (acts: seq<Action>, r: Sys)
    requires Inv(s) && n in s.hand && s.hand[n] == CarriesOn(fs)
    ensures Reaches(s, acts, r) && Inv(r) && r.list == s.list && AllSignalled(s, fs, r)
    decreases |fs|
  {
    if fs == [] {
      acts, r := [], s;
      Stay(s);
    } else {
      CarriedEnabled(s, n, fs);
      var t := Next(s, SetReady(n));
      SetReadyInv(s, n);
      ReadiesFirst(s, n);
      var rest;
      rest, r := CarriedReadied(t, n, fs[1..]);
      acts := [SetReady(n)] + rest;
      Prepend(s, SetReady(n), t, rest, r);
      FirstSignalled(s, n, fs, r);
    }
  }

  lemma CarriedEnabled(s: Sys, n: Nid, fs: seq<Fid>)
    requires Inv(s) && n in s.hand && s.hand[n] == Carries(fs) && fs != []
    ensures Enabled(s, SetReady(n))
  {
    assert NotifierOk(s, n);
    assert fs[0] in Carried(s, n);
    assert HeldOk(s, fs[0]);
  }

  lemma FirstSignalled(s: Sys, n: Nid, fs: seq<Fid>, r: Sys)
    requires Inv(s) && Enabled(s, SetReady(n)) && s.hand[n].fs == fs && AllSignalled(Next(s, SetReady(n)), fs[1..], r)
    ensures AllSignalled(s, fs, r)
  {
    BecomesSignalled(s, n);
    forall f | Signalled(s, f) ensures Signalled(r, f) { SetReadyKeepsSignal(s, n, f); }
    assert fs == [fs[0]] + fs[1..];
  }

  lemma UnlockReadies(s: Sys, n: Nid, fs: seq<Fid>) returns (acts: seq<Action>, r: Sys)
    requires Inv(s) && n in s.hand && s.hand[n] == Took(fs)
    ensures Reaches(s, acts, r) && Inv(r) && r.list == s.list && forall f :: f in fs ==> Signalled(r, f)
  {
    var t := Next(s, NotifierUnlock(n));
    NotifierUnlockInv(s, n);
    var rest;
    rest, r := CarriedReadied(t, n, fs);
    acts := [NotifierUnlock(n)] + rest;
    Prepend(s, NotifierUnlock(n), t, rest, r);
  }

  /** The step takes `fs`, which is the first waiter or all of them. */
  ghost predicate TakesOff(s: Sys, n: Nid, a: Action, fs: seq<Fid>) {
    (a == TakeAll(n) && fs == s.list) || (a == TakeOne(n) && s.list != [] && fs == [s.list[0]])
  }

  lemma TakeReadies(s: Sys, n: Nid, a: Action, fs: seq<Fid>) returns (acts: seq<Action>, r: Sys)
    requires Inv(s) && n in s.hand && s.hand[n].Holding? && TakesOff(s, n, a, fs)
    ensures Reaches(s, acts, r) && Inv(r) && r.list == s.list[|fs|..] && forall f :: f in fs ==> Signalled(r, f)
  {
    var t := Next(s, a);
    NextInv(s, a);
    TakesExactly(s, n);
    var rest;
    rest, r := UnlockReadies(t, n, fs);
    acts := [a] + rest;
    Prepend(s, a, t, rest, r);
  }

  lemma LockReadies(s: Sys, n: Nid, a: Action, fs: seq<Fid>) returns (acts: seq<Action>, r: Sys)
    requires Inv(s) && Enabled(s, NotifierLock(n)) && TakesOff(s, n, a, fs)
    ensures Reaches(s, acts, r) && Inv(r) && r.list == s.list[|fs|..] && forall f :: f in fs ==> Signalled(r, f)
  {
    var t := Next(s, NotifierLock(n));
    NotifierLockInv(s, n);
    var rest;
    rest, r := TakeReadies(t, n, a, fs);
    acts := [NotifierLock(n)] + rest;
    Prepend(s, NotifierLock(n), t, rest, r);
  }

  /** A call of `notify_one`, if nobody interferes, wakes the first waiter: it is READY and, once queued, in the READY
      prefix, whatever step of `wait` it has got to. The others stay on the list, in order. */
  lemma NotifyOneWakes(s: Sys, n: Nid) returns (acts: seq<Action>, r: Sys)
    requires Inv(s) && Enabled(s, NotifierLock(n)) && s.list != []
    ensures Reaches(s, acts, r) && Inv(r) && r.list == s.list[1..] && Notified(r, s.list[0])
  {
    var fs := [s.list[0]];
    acts, r := LockReadies(s, n, TakeOne(n), fs);
    assert fs[0] in fs;
    ReadyPrefix(r, s.list[0]);
  }

  /** And `notify_all` wakes every waiter. */
  lemma NotifyAllWakes(s: Sys, n: Nid) returns (acts: seq<Action>, r: Sys)
    requires Inv(s) && Enabled(s, NotifierLock(n))
    ensures Reaches(s, acts, r) && Inv(r) && r.list == [] && forall f :: f in s.list ==> Notified(r, f)
  {
    acts, r := LockReadies(s, n, TakeAll(n), s.list);
    forall f | f in s.list ensures Notified(r, f) { ReadyPrefix(r, f); }
  }

  // ---------------------------------------------------------------- the sweep

  /** The sweep of a thread starts at the head of its queue, if there is one. */
  lemma BeginExactly(s: Sys, t: Tid, now: TimePoint)
    requires Typed(s) && Enabled(s, Begin(t, now))
    ensures var r, q := Next(s, Begin(t, now)), s.queues[t];
            r == s.(sweep := s.sweep[t := if q == [] then Out else Looking(now, q[0])])
  {
  }

  /** The test finds a fiber exactly if it is READY, due or flagged, and then leaves it READY; otherwise the sweep ends
      with everything as it was. */
  lemma TestExactly(s: Sys, t: Tid)
    requires Typed(s) && Enabled(s, Test(t))
    ensures var r, f, now := Next(s, Test(t)), s.sweep[t].f, s.sweep[t].now;
            if s.m[f].state.Ready? || s.m[f].tp <= now || s.m[f].flag
            then r.sweep[t].Found? && r.sweep[t].f == f && r.sweep[t].now == now
                 && r.m == s.m[f := s.m[f].(state := FiberState.Ready)]
            else r == s.(sweep := s.sweep[t := Out])
  {
    assert s.m == s.m[s.sweep[t].f := s.m[s.sweep[t].f]];
  }

  /** Unlinking takes the found fiber, and it alone, out of the queue; it is READY, has no deadline, and may be
      resumed. */
  lemma UnlinkTakes(s: Sys, t: Tid)
    requires Typed(s) && Enabled(s, Unlink(t))
    ensures var r, f := Next(s, Unlink(t)), s.sweep[t].f;
            && s.queues[t] == [f] + r.queues[t] && f in r.pc && r.pc == s.pc[f := Awake]
            && f in s.m && r.m == s.m[f := s.m[f].(state := FiberState.Ready, tp := TIME_MAX)]
            && r.sweep[t] == (if s.sweep[t].nxt.None? then Out else Looking(s.sweep[t].now, s.sweep[t].nxt.value))
  {
  }

  /** The sweep is about to test the head of the queue of thread `t`, which is `q`. */
  ghost predicate AtHead(s: Sys, t: Tid, now: TimePoint, q: seq<Fid>) {
    && t in s.queues && t in s.sweep && s.queues[t] == q && Keyed(q, s.m)
    && s.sweep[t] == if q == [] then Out else Looking(now, q[0])
  }

  /** The sweep has found that head READY. */
  ghost predicate FoundHead(s: Sys, t: Tid, now: TimePoint, q: seq<Fid>) {
    && t in s.queues && t in s.sweep && s.queues[t] == q && q != [] && Keyed(q, s.m)
    && s.sweep[t] == Found(now, q[0], Second(q))
  }

  lemma TestKeeps(s: Sys, t: Tid)
    requires Typed(s) && Enabled(s, Test(t)) && HeadIs(s, t, s.sweep[t].f)
    ensures Next(s, Test(t)).pc == s.pc && t in Next(s, Test(t)).queues && Next(s, Test(t)).queues[t] == s.queues[t]
  {
    HeadStays(s.queues[t]);
  }

  lemma TestFinds(s: Sys, t: Tid, now: TimePoint, q: seq<Fid>) returns (u: Sys)
    requires Typed(s) && AtHead(s, t, now, q) && q != [] && Fetched(s.m[q[0]], now)
    ensures Enabled(s, Test(t)) && u == Next(s, Test(t)) && FoundHead(u, t, now, q)
    ensures u.pc == s.pc && u.m == s.m[q[0] := s.m[q[0]].(state := FiberState.Ready)]
  {
    u := Next(s, Test(t));
    TestExactly(s, t);
    TestInPlace(s, t);
    TestKeeps(s, t);
  }

  lemma UnlinkGoesOn(u: Sys, t: Tid, now: TimePoint, q: seq<Fid>) returns (v: Sys)
    requires Typed(u) && FoundHead(u, t, now, q)
    ensures Enabled(u, Unlink(t)) && v == Next(u, Unlink(t)) && AtHead(v, t, now, q[1..])
    ensures q[0] in v.pc && v.pc == u.pc[q[0] := Awake]
    ensures v.m == u.m[q[0] := u.m[q[0]].(state := FiberState.Ready, tp := TIME_MAX)]
  {
    v := Next(u, Unlink(t));
    UnlinkTakes(u, t);
  }

  lemma Twice(m: Infos<Fid>, f: Fid, i: Info<Fid>, j: Info<Fid>)
    ensures m[f := i][f := j] == m[f := j]
  {
  }

  /** A turn of the sweep that nobody interferes with takes the head. */
  lemma TurnTakes(s: Sys, t: Tid, now: TimePoint, q: seq<Fid>) returns (u: Sys, v: Sys)
    requires Typed(s) && AtHead(s, t, now, q) && q != [] && Fetched(s.m[q[0]], now)
    requires Enabled(s, Test(t)) ==> Typed(Next(s, Test(t)))
    ensures Enabled(s, Test(t)) && u == Next(s, Test(t)) && Enabled(u, Unlink(t)) && v == Next(u, Unlink(t))
    ensures AtHead(v, t, now, q[1..]) && q[0] in v.m && q[0] in v.pc && v.pc == s.pc[q[0] := Awake]
    ensures v.m == s.m[q[0] := v.m[q[0]]]
  {
    u := TestFinds(s, t, now, q);
    v := UnlinkGoesOn(u, t, now, q);
    Twice(s.m, q[0], u.m[q[0]], v.m[q[0]]);
  }

  /** What follows a turn. */
  lemma PrependTurn(s: Sys, t: Tid, u: Sys, v: Sys, rest: seq<Action>, r: Sys)
    requires Typed(s) && Enabled(s, Test(t)) && u == Next(s, Test(t))
    requires Typed(u) && Enabled(u, Unlink(t)) && v == Next(u, Unlink(t)) && Reaches(v, rest, r)
    ensures Reaches(s, [Test(t)] + ([Unlink(t)] + rest), r)
  {
    Prepend(u, Unlink(t), v, rest, r);
    Prepend(s, Test(t), u, [Unlink(t)] + rest, r);
  }

  /** The length of the prefix that is left to take. */
  lemma PrefixShrinks(q: seq<Fid>, m: Infos<Fid>, l: Infos<Fid>, now: TimePoint)
    requires q != [] && NoDup(q) && Keyed(q, m) && Fetched(m[q[0]], now) && q[0] in l && l == m[q[0] := l[q[0]]]
    ensures Keyed(q[1..], l) && SweepLen(q, m, now) == 1 + SweepLen(q[1..], l, now)
  {
    HeadAndTail(q);
    assert forall i :: 0 <= i < |q[1..]| ==> q[1..][i] == q[i + 1] && l[q[i + 1]] == m[q[i + 1]];
    SweepLenUnique(q[1..], l, now, SweepLen(q, m, now) - 1);
  }

  /** The sweep is over: the first `k` of `q` have left the queue and may be resumed, the others are where they were. */
  ghost predicate Swept(s: Sys, r: Sys, t: Tid, q: seq<Fid>, k: nat) {
    && t in r.queues && t in r.sweep && r.sweep[t].Out? && k <= |q| && r.queues[t] == q[k..]
    && r.pc.Keys == s.pc.Keys
    && forall f :: f in s.pc ==> r.pc[f] == if f in q[..k] then Awake else s.pc[f]
  }

  lemma SweptMore(s: Sys, v: Sys, r: Sys, t: Tid, q: seq<Fid>, k: nat)
    requires 0 < k <= |q| && NoDup(q) && Swept(v, r, t, q[1..], k - 1) && q[0] in v.pc && v.pc == s.pc[q[0] := Awake]
    requires q[0] in s.pc
    ensures Swept(s, r, t, q, k)
  {
    SplitStep(q, k);
    HeadAndTail(q);
    forall f | f in s.pc ensures r.pc[f] == if f in q[..k] then Awake else s.pc[f] {
      assert f in q[..k] <==> f == q[0] || f in q[1..][..k - 1];
    }
  }

  lemma EndsHere(s: Sys, t: Tid, now: TimePoint, q: seq<Fid>) returns (acts: seq<Action>, r: Sys)
    requires Inv(s) && AtHead(s, t, now, q) && q != [] && !Fetched(s.m[q[0]], now)
    ensures Reaches(s, acts, r) && Swept(s, r, t, q, 0) && SweepLen(q, s.m, now) == 0
  {
    r := Next(s, Test(t));
    TestInv(s, t);
    TestExactly(s, t);
    Stay(r);
    Prepend(s, Test(t), r, [], r);
    acts := [Test(t)] + [];
    SweepLenUnique(q, s.m, now, 0);
  }

  lemma Distinct(s: Sys, t: Tid)
    requires Inv(s) && t in s.queues
    ensures NoDup(s.queues[t]) && forall f :: f in s.queues[t] ==> f in s.pc
  {
    assert QueueOk(s, t);
  }

  /** Step by step, the sweep that nobody interferes with takes exactly the longest prefix of fibers that are READY,
      due or flagged: it refines the sweep that happens at once. */
  lemma {:induction false} SweepRefines(s: Sys, t: Tid, now: TimePoint, q: seq<Fid>) returns (acts: seq<Action>, r: Sys)
    requires Inv(s) && AtHead(s, t, now, q)
    ensures Reaches(s, acts, r) && Swept(s, r, t, q, SweepLen(q, s.m, now))
    decreases |q|
  {
    if q == [] {
      acts, r := [], s;
      Stay(s);
    } else if !Fetched(s.m[q[0]], now) {
      acts, r := EndsHere(s, t, now, q);
    } else {
      TestInv(s, t);
      var u, v := TurnTakes(s, t, now, q);
      UnlinkInv(u, t);
      Distinct(s, t);
      PrefixShrinks(q, s.m, v.m, now);
      var rest;
      rest, r := SweepRefines(v, t, now, q[1..]);
      acts := [Test(t)] + ([Unlink(t)] + rest);
      PrependTurn(s, t, u, v, rest, r);
      SweptMore(s, v, r, t, q, SweepLen(q, s.m, now));
    }
  }
}
