/** The mutex: its critical sections, and what holds over every run of them. */
module Mutexes {
  import opened Seqs

  type Fid = nat

  /** The fields of a mutex; `locked` is `state_ == LOCKED`. */
  datatype Mutex = Mutex(locked: bool, owner: Option<Fid>, waiting: seq<Fid>)

  // ---------------------------------------------------------------- critical sections

  /** One turn of the loop of `lock` by a worker fiber: acquire, or register and suspend. */
  function LockTurn(m: Mutex, f: Fid): (r: (Mutex, bool)) {
    if !m.locked then (m.(locked := true, owner := Some(f)), true)
    else (m.(waiting := m.waiting + [f]), false)
  }

  function TryLockTurn(m: Mutex, f: Fid): (r: (Mutex, bool)) {
    if !m.locked then (m.(locked := true, owner := Some(f)), true) else (m, false)
  }

  /** `unlock`, and the fiber it readies. */
  function UnlockTurn(m: Mutex): (r: (Mutex, Option<Fid>)) {
    (Mutex(false, None, if m.waiting == [] then [] else m.waiting[1..]),
     if m.waiting == [] then None else Some(m.waiting[0]))
  }

  class MutexObject {
    var locked: bool
    var owner: Option<Fid>
    var waiting: seq<Fid>

    ghost function View(): Mutex
      reads this
    {
      Mutex(locked, owner, waiting)
    }

    constructor ()
      ensures View() == Mutex(false, None, [])
    {
      locked, owner, waiting := false, None, [];
    }

    /** The code's assertions: an unlocked mutex has no owner, and a fiber registers only once. */
    method LockTurnOf(n: Fid) returns (acquired: bool)
      requires !locked ==> owner == None
      requires locked ==> n !in waiting
      modifies this
      ensures (View(), acquired) == LockTurn(old(View()), n)
    {
      if !locked {
        locked := true;
        assert owner == None;
        owner := Some(n);
        return true;
      }
      waiting := waiting + [n];
      return false;
    }

    method TryLock(n: Fid) returns (acquired: bool)
      requires !locked ==> owner == None
      modifies this
      ensures (View(), acquired) == TryLockTurn(old(View()), n)
    {
      if !locked {
        locked := true;
        assert owner == None;
        owner := Some(n);
        return true;
      }
      return false;
    }

    method Unlock(n: Fid) returns (woken: Option<Fid>)
      requires locked && owner == Some(n)
      modifies this
      ensures (View(), woken) == UnlockTurn(old(View()))
    {
      woken := None;
      if waiting != [] {
        woken := Some(waiting[0]);
        waiting := waiting[1..];
      }
      owner := None;
      locked := false;
    }
  }

  // ---------------------------------------------------------------- runs

  /** A mutex and its users. `holders`: fibers whose last successful lock or try_lock was not undone yet. `inLock`:
      fibers whose call of `lock` did not return yet. `woken`: those of them that were readied and have still to
      retry. */
  datatype Mx = Mx(m: Mutex, holders: set<Fid>, inLock: set<Fid>, woken: set<Fid>)

  datatype Action = Lock(f: Fid) | TryLock(f: Fid) | Unlock(f: Fid)

  const MX_INIT := Mx(Mutex(false, None, []), {}, {}, {})

  /** A fiber inside `lock` is suspended and does nothing until it is readied; then it continues its loop. Only the
      owner may unlock. */
  predicate Enabled(s: Mx, a: Action) {
    match a
    case Lock(f) => f !in s.inLock || f in s.woken
    case TryLock(f) => f !in s.inLock
    case Unlock(f) => f !in s.inLock && f in s.holders
  }

  function Next(s: Mx, a: Action): Mx
    requires Enabled(s, a)
  {
    match a
    case Lock(f) =>
      var (m, ok) := LockTurn(s.m, f);
      if ok then Mx(m, s.holders + {f}, s.inLock - {f}, s.woken - {f})
      else Mx(m, s.holders, s.inLock + {f}, s.woken - {f})
    case TryLock(f) =>
      var (m, ok) := TryLockTurn(s.m, f);
      if ok then s.(m := m, holders := s.holders + {f}) else s
    case Unlock(f) =>
      var (m, n) := UnlockTurn(s.m);
      Mx(m, s.holders - {f}, s.inLock, s.woken + if n.Some? then {n.value} else {})
  }

  ghost predicate Inv(s: Mx) {
    // LOCKED iff there is a holder, and then exactly one, the owner
    && s.holders == (if s.m.owner.Some? then {s.m.owner.value} else {})
    && s.m.locked == s.m.owner.Some?
    // the fibers blocked in `lock` are the registered ones, once each, and the readied ones
    && NoDup(s.m.waiting)
    && (forall f :: f in s.inLock <==> f in s.m.waiting || f in s.woken)
    && (forall f :: f in s.m.waiting ==> f !in s.woken)
    // no lost wakeup
    && (!s.m.locked && s.m.waiting != [] ==> s.woken != {})
  }

  lemma NextInv(s: Mx, a: Action)
    requires Inv(s) && Enabled(s, a)
    ensures Inv(Next(s, a))
  {
    var r := Next(s, a);
    match a
    case Lock(f) =>
    case TryLock(f) =>
    case Unlock(f) =>
      if s.m.waiting != [] {
        HeadAndTail(s.m.waiting);
        assert s.m.waiting[0] in r.woken;
      }
  }

  ghost predicate IsRun(s: Mx, acts: seq<Action>)
    decreases |acts|
  {
    acts != [] ==> Enabled(s, acts[0]) && IsRun(Next(s, acts[0]), acts[1..])
  }

  ghost function After(s: Mx, acts: seq<Action>): Mx
    requires IsRun(s, acts)
    decreases |acts|
  {
    if acts == [] then s else After(Next(s, acts[0]), acts[1..])
  }

  /** Exclusion, exact registration and the baton, after every run, whoever barges in. */
  lemma {:induction false} RunInv(s: Mx, acts: seq<Action>)
    requires Inv(s) && IsRun(s, acts)
    ensures Inv(After(s, acts))
    decreases |acts|
  {
    if acts != [] {
      NextInv(s, acts[0]);
      RunInv(Next(s, acts[0]), acts[1..]);
    }
  }

  /** The steps keep the assertions of the code: `lock` never finds an owner on an unlocked mutex, never registers a
      fiber twice, and `unlock` is called on a locked mutex by its owner. */
  lemma AssertionsHold(acts: seq<Action>, a: Action)
    requires IsRun(MX_INIT, acts) && Enabled(After(MX_INIT, acts), a)
    ensures var s := After(MX_INIT, acts);
            && (!s.m.locked ==> s.m.owner == None)
            && (a.Lock? ==> a.f !in s.m.waiting)
            && (a.Unlock? ==> s.m.locked && s.m.owner == Some(a.f))
  {
    RunInv(MX_INIT, acts);
  }

  ghost function Unlocks(acts: seq<Action>): nat {
    if acts == [] then 0 else (if acts[0].Unlock? then 1 else 0) + Unlocks(acts[1..])
  }

  /** A fiber at index `k` of the waiting list is not overtaken there, whatever locks and try_locks happen: each unlock
      brings it one place forward ... */
  lemma {:induction false} WaitersAdvance(s: Mx, acts: seq<Action>, k: nat)
    requires Inv(s) && IsRun(s, acts) && k < |s.m.waiting| && Unlocks(acts) <= k
    ensures var r := After(s, acts);
            Inv(r) && k - Unlocks(acts) < |r.m.waiting| && r.m.waiting[k - Unlocks(acts)] == s.m.waiting[k]
    decreases |acts|
  {
    if acts != [] {
      var r, k' := Next(s, acts[0]), if acts[0].Unlock? then k - 1 else k;
      NextInv(s, acts[0]);
      assert r.m.waiting[k'] == s.m.waiting[k];
      WaitersAdvance(r, acts[1..], k');
    }
  }

  /** ... and the unlock after `k` others readies it. */
  lemma WakesInOrder(s: Mx, acts: seq<Action>, k: nat, owner: Fid)
    requires Inv(s) && IsRun(s, acts) && k < |s.m.waiting| && Unlocks(acts) == k
    requires Enabled(After(s, acts), Unlock(owner))
    ensures var r := Next(After(s, acts), Unlock(owner));
            s.m.waiting[k] in r.woken && s.m.waiting[k] !in r.m.waiting
  {
    WaitersAdvance(s, acts, k);
    HeadAndTail(After(s, acts).m.waiting);
  }

  // ---------------------------------------------------------------- what the calls answer

  /** A call of `lock`, or its continuation, returns if and only if nobody holds the mutex, and then its caller is the
      only holder; otherwise the caller is the last one registered and sleeps. Nobody else is concerned. */
  lemma LockExactly(s: Mx, f: Fid)
    requires Inv(s) && Enabled(s, Lock(f))
    ensures var r := Next(s, Lock(f));
            && (f !in r.inLock <==> s.holders == {}) && (LockTurn(s.m, f).1 <==> s.holders == {})
            && r.holders == (if s.holders == {} then {f} else s.holders)
            && r.m.waiting == (if s.holders == {} then s.m.waiting else s.m.waiting + [f])
            && r.woken == s.woken - {f} && r.inLock - {f} == s.inLock - {f}
  {
  }

  /** `try_lock` acquires if and only if nobody holds the mutex; otherwise it leaves no trace. */
  lemma TryLockExactly(s: Mx, f: Fid)
    requires Inv(s) && Enabled(s, TryLock(f))
    ensures var r := Next(s, TryLock(f));
            && (TryLockTurn(s.m, f).1 <==> s.holders == {})
            && (if s.holders == {} then r.holders == {f} && r.m.owner == Some(f) && r.m.waiting == s.m.waiting
                                        && r.inLock == s.inLock && r.woken == s.woken
                else r == s)
  {
  }

  /** `unlock` leaves nobody inside and readies exactly the first registered fiber. */
  lemma UnlockExactly(s: Mx, f: Fid)
    requires Inv(s) && Enabled(s, Unlock(f))
    ensures var r := Next(s, Unlock(f));
            && r.holders == {} && r.inLock == s.inLock
            && (if s.m.waiting == [] then r.m.waiting == [] && r.woken == s.woken
                else s.m.waiting == [s.m.waiting[0]] + r.m.waiting && r.woken == s.woken + {s.m.waiting[0]})
  {
  }

  /** Who holds the mutex after the unlocks and retries that hand it down the list. */
  ghost function Handover(g: Fid, fs: seq<Fid>): seq<Action>
    decreases |fs|
  {
    if fs == [] then [] else [Unlock(g), Lock(fs[0])] + Handover(fs[0], fs[1..])
  }

  lemma HandOne(s: Mx, g: Fid)
    requires Inv(s) && s.holders == {g} && g !in s.inLock && s.m.waiting != []
    ensures var t, f := Next(s, Unlock(g)), s.m.waiting[0];
            && Enabled(t, Lock(f))
            && var u := Next(t, Lock(f));
               Inv(u) && u.holders == {f} && f !in u.inLock && u.m.waiting == s.m.waiting[1..]
  {
    var t, f := Next(s, Unlock(g)), s.m.waiting[0];
    NextInv(s, Unlock(g));
    LockExactly(t, f);
    NextInv(t, Lock(f));
  }

  lemma TwoSteps(s: Mx, a: Action, b: Action, rest: seq<Action>)
    requires Enabled(s, a) && Enabled(Next(s, a), b) && IsRun(Next(Next(s, a), b), rest)
    ensures IsRun(s, [a, b] + rest) && After(s, [a, b] + rest) == After(Next(Next(s, a), b), rest)
  {
    var acts := [a, b] + rest;
    assert acts[1..] == [b] + rest && acts[1..][1..] == rest;
    assert IsRun(Next(s, a), acts[1..]);
  }

  /** If nobody barges in, the mutex goes from its holder to the registered fibers one after the other, in the order of
      registration, to every place of the list. */
  lemma {:induction false} ServedInOrder(s: Mx, g: Fid, k: nat)
    requires Inv(s) && s.holders == {g} && g !in s.inLock && k <= |s.m.waiting|
    ensures var acts := Handover(g, s.m.waiting[..k]);
            && IsRun(s, acts)
            && After(s, acts).holders == {if k == 0 then g else s.m.waiting[k - 1]}
            && After(s, acts).m.waiting == s.m.waiting[k..]
    decreases k
  {
    if k > 0 {
      var f, fs := s.m.waiting[0], s.m.waiting[..k];
      var u := Next(Next(s, Unlock(g)), Lock(f));
      HandOne(s, g);
      assert fs[1..] == u.m.waiting[..k - 1];
      ServedInOrder(u, f, k - 1);
      TwoSteps(s, Unlock(g), Lock(f), Handover(f, fs[1..]));
    }
  }

  /** The same after every run of a new mutex: an attempt succeeds exactly if nobody is inside, and whoever gets in is
      alone there until its unlock. */
  lemma MutexCalls(acts: seq<Action>, a: Action)
    requires IsRun(MX_INIT, acts) && Enabled(After(MX_INIT, acts), a)
    ensures var s := After(MX_INIT, acts); var r := Next(s, a);
            && r.holders == (if a.Unlock? then {} else if s.holders == {} then {a.f} else s.holders)
            && (a.Unlock? ==> s.holders == {a.f})
            && (a.Lock? ==> (a.f in r.inLock <==> s.holders != {}))
            && (a.Lock? && s.holders != {} ==> r.m.waiting == s.m.waiting + [a.f])
            && (a.TryLock? && s.holders != {} ==> r == s)
  {
    RunInv(MX_INIT, acts);
    var s := After(MX_INIT, acts);
    match a
    case Lock(f) => LockExactly(s, f);
    case TryLock(f) => TryLockExactly(s, f);
    case Unlock(f) => UnlockExactly(s, f);
  }
}
