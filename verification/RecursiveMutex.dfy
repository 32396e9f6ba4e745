/** The recursive mutex: its critical sections, and what holds over every run of them. */
module RecursiveMutexes {
  import opened Seqs
  import opened Mutexes

  /** The fields of a recursive mutex. */
  datatype RecMutex = RecMutex(locked: bool, owner: Option<Fid>, count: nat, waiting: seq<Fid>)

  // ---------------------------------------------------------------- critical sections

  /** The test that `lock` and `try_lock` share: free, or already mine. */
  function Enter(m: RecMutex, f: Fid): (r: Option<RecMutex>) {
    if !m.locked then Some(m.(locked := true, owner := Some(f), count := m.count + 1))
    else if m.owner == Some(f) then Some(m.(count := m.count + 1))
    else None
  }

  /** `unlock`, and the fiber it readies. */
  function Leave(m: RecMutex): (r: (RecMutex, Option<Fid>))
    requires m.count > 0
  {
    if m.count > 1 then (m.(count := m.count - 1), None)
    else (RecMutex(false, None, 0, if m.waiting == [] then [] else m.waiting[1..]),
          if m.waiting == [] then None else Some(m.waiting[0]))
  }

  class RecursiveMutexObject {
    var locked: bool
    var owner: Option<Fid>
    var count: nat
    var waiting: seq<Fid>

    ghost function View(): RecMutex
      reads this
    {
      RecMutex(locked, owner, count, waiting)
    }

    constructor ()
      ensures View() == RecMutex(false, None, 0, [])
    {
      locked, owner, count, waiting := false, None, 0, [];
    }

    method TryEnter(n: Fid) returns (acquired: bool)
      requires !locked ==> owner == None
      modifies this
      ensures acquired == Enter(old(View()), n).Some?
      ensures View() == if acquired then Enter(old(View()), n).value else old(View())
    {
      if !locked {
        locked := true;
        assert owner == None;
        owner := Some(n);
        count := count + 1;
        return true;
      } else if owner == Some(n) {
        count := count + 1;
        return true;
      }
      return false;
    }

    /** One turn of the loop of `lock` by a worker fiber. */
    method LockTurn(n: Fid) returns (acquired: bool)
      requires !locked ==> owner == None
      requires n !in waiting
      modifies this
      ensures acquired == Enter(old(View()), n).Some?
      ensures View() == if acquired then Enter(old(View()), n).value else old(View()).(waiting := old(waiting) + [n])
    {
      acquired := TryEnter(n);
      if !acquired {
        waiting := waiting + [n];
      }
    }

    method Unlock(n: Fid) returns (woken: Option<Fid>)
      requires locked && owner == Some(n) && count > 0
      modifies this
      ensures (View(), woken) == Leave(old(View()))
    {
      woken := None;
      count := count - 1;
      if count == 0 {
        if waiting != [] {
          woken := Some(waiting[0]);
          waiting := waiting[1..];
        }
        owner := None;
        locked := false;
      }
    }
  }

  // ---------------------------------------------------------------- runs

  /** A recursive mutex and its users: `depth[f]` is the number of successful lock and try_lock calls of `f` minus its
      unlocks, for every fiber that ever acquired; `inLock` and `woken` are as for the plain mutex. */
  datatype Rx = Rx(m: RecMutex, depth: map<Fid, nat>, inLock: set<Fid>, woken: set<Fid>)

  const RX_INIT := Rx(RecMutex(false, None, 0, []), map[], {}, {})

  function Depth(s: Rx, f: Fid): nat {
    if f in s.depth then s.depth[f] else 0
  }

  predicate Enabled(s: Rx, a: Action) {
    match a
    case Lock(f) => f !in s.inLock || f in s.woken
    case TryLock(f) => f !in s.inLock
    case Unlock(f) => f !in s.inLock && Depth(s, f) > 0 && s.m.count > 0
  }

  function Next(s: Rx, a: Action): Rx
    requires Enabled(s, a)
  {
    match a
    case Lock(f) =>
      var e := Enter(s.m, f);
      if e.Some? then Rx(e.value, s.depth[f := Depth(s, f) + 1], s.inLock - {f}, s.woken - {f})
      else Rx(s.m.(waiting := s.m.waiting + [f]), s.depth, s.inLock + {f}, s.woken - {f})
    case TryLock(f) =>
      var e := Enter(s.m, f);
      if e.Some? then s.(m := e.value, depth := s.depth[f := Depth(s, f) + 1]) else s
    case Unlock(f) =>
      var (m, n) := Leave(s.m);
      Rx(m, s.depth[f := Depth(s, f) - 1], s.inLock, s.woken + if n.Some? then {n.value} else {})
  }

  ghost predicate Inv(s: Rx) {
    // only the owner is inside, as deep as `count_` says; UNLOCKED iff `count_` is 0
    && s.m.locked == s.m.owner.Some?
    && (s.m.locked <==> s.m.count > 0)
    && (forall f: Fid {:trigger Depth(s, f)} :: Depth(s, f) == if s.m.owner == Some(f) then s.m.count else 0)
    // registrations, as for the plain mutex; the owner is never blocked
    && NoDup(s.m.waiting)
    && (forall f :: f in s.inLock <==> f in s.m.waiting || f in s.woken)
    && (forall f :: f in s.m.waiting ==> f !in s.woken)
    && (s.m.owner.Some? ==> s.m.owner.value !in s.inLock)
    // no lost wakeup
    && (!s.m.locked && s.m.waiting != [] ==> s.woken != {})
  }

  lemma NextInv(s: Rx, a: Action)
    requires Inv(s) && Enabled(s, a)
    ensures Inv(Next(s, a))
  {
    var r := Next(s, a);
    forall g: Fid {:trigger Depth(r, g)} ensures Depth(r, g) == if r.m.owner == Some(g) then r.m.count else 0 {
      assert Depth(s, g) == if s.m.owner == Some(g) then s.m.count else 0;
      assert Depth(s, a.f) == if s.m.owner == Some(a.f) then s.m.count else 0;
    }
    if a.Unlock? && s.m.waiting != [] {
      HeadAndTail(s.m.waiting);
    }
  }

  ghost predicate IsRun(s: Rx, acts: seq<Action>)
    decreases |acts|
  {
    acts != [] ==> Enabled(s, acts[0]) && IsRun(Next(s, acts[0]), acts[1..])
  }

  ghost function After(s: Rx, acts: seq<Action>): Rx
    requires IsRun(s, acts)
    decreases |acts|
  {
    if acts == [] then s else After(Next(s, acts[0]), acts[1..])
  }

  lemma {:induction false} RunInv(s: Rx, acts: seq<Action>)
    requires Inv(s) && IsRun(s, acts)
    ensures Inv(After(s, acts))
    decreases |acts|
  {
    if acts != [] {
      NextInv(s, acts[0]);
      RunInv(Next(s, acts[0]), acts[1..]);
    }
  }

  /** In a reachable state the calls of one fiber do not reach the others: while `g` is inside, no other fiber enters;
      only the unlock that brings the count to 0 readies a fiber, and then the first registered one. */
  lemma OnlyLastUnlockWakes(acts: seq<Action>, a: Action, g: Fid)
    requires IsRun(RX_INIT, acts) && Enabled(After(RX_INIT, acts), a)
    ensures var s := After(RX_INIT, acts); var r := Next(s, a);
            && (Depth(s, g) > 0 && a.f != g ==>
                  Depth(r, g) == Depth(s, g) && forall f: Fid :: f != g ==> Depth(r, f) == 0)
            && r.woken - s.woken == (if a.Unlock? && Depth(s, a.f) == 1 && s.m.waiting != []
                                     then {s.m.waiting[0]} else {})
            && (a.Lock? ==> a.f !in s.m.waiting)
            && (a.Unlock? ==> s.m.owner == Some(a.f) && r.m.locked == (Depth(s, a.f) > 1))
  {
    RunInv(RX_INIT, acts);
    var s := After(RX_INIT, acts);
    var r := Next(s, a);
    NextInv(s, a);
    assert Depth(s, a.f) == if s.m.owner == Some(a.f) then s.m.count else 0;
    assert Depth(s, g) == if s.m.owner == Some(g) then s.m.count else 0;
    if a.Unlock? && s.m.waiting != [] {
      assert s.m.waiting[0] in s.m.waiting;
    }
    forall f: Fid | f != g && Depth(s, g) > 0 && a.f != g ensures Depth(r, f) == 0 {
      assert Depth(r, f) == if r.m.owner == Some(f) then r.m.count else 0;
      assert Depth(r, g) == if r.m.owner == Some(g) then r.m.count else 0;
    }
  }

  /** Is some fiber other than `f` inside? */
  ghost predicate OtherInside(s: Rx, f: Fid) {
    exists g: Fid :: g != f && Depth(s, g) > 0
  }

  lemma OtherOwns(s: Rx, f: Fid)
    requires Inv(s)
    ensures OtherInside(s, f) <==> s.m.locked && s.m.owner != Some(f)
  {
    if s.m.locked && s.m.owner != Some(f) {
      var g := s.m.owner.value;
      assert Depth(s, g) == s.m.count;
    }
  }

  /** A fiber gets one level deeper by `lock` or `try_lock` if and only if nobody else is inside, however deep it is
      itself; otherwise `try_lock` leaves no trace and `lock` registers the fiber last. */
  lemma EnterExactly(s: Rx, a: Action)
    requires Inv(s) && Enabled(s, a) && !a.Unlock?
    ensures var r := Next(s, a);
            && (forall g: Fid {:trigger Depth(r, g)} ::
                  Depth(r, g) == Depth(s, g) + if g == a.f && !OtherInside(s, a.f) then 1 else 0)
            && (a.TryLock? && OtherInside(s, a.f) ==> r == s)
            && (a.Lock? ==> (a.f in r.inLock <==> OtherInside(s, a.f)) && r.inLock - {a.f} == s.inLock - {a.f})
            && r.m.waiting == s.m.waiting + (if a.Lock? && OtherInside(s, a.f) then [a.f] else [])
            && r.woken == if a.Lock? then s.woken - {a.f} else s.woken
  {
    OtherOwns(s, a.f);
    NextInv(s, a);
  }

  /** `unlock` takes its caller one level up, nobody else, and from the last level readies exactly the first registered
      fiber. */
  lemma LeaveExactly(s: Rx, f: Fid)
    requires Inv(s) && Enabled(s, Unlock(f))
    ensures var r := Next(s, Unlock(f));
            && (forall g: Fid {:trigger Depth(r, g)} :: Depth(r, g) == Depth(s, g) - if g == f then 1 else 0)
            && r.inLock == s.inLock
            && (if Depth(s, f) == 1 && s.m.waiting != []
                then s.m.waiting == [s.m.waiting[0]] + r.m.waiting && r.woken == s.woken + {s.m.waiting[0]}
                else r.m.waiting == s.m.waiting && r.woken == s.woken)
  {
    assert Depth(s, f) == if s.m.owner == Some(f) then s.m.count else 0;
    NextInv(s, Unlock(f));
  }
}
