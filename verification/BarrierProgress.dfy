/** What each call of a barrier's `wait` does, and that the participants never block each other for good. */
module BarrierProgress {
  import opened Seqs
  import opened Mutexes
  import opened Conditions
  import opened Barriers

  // ---------------------------------------------------------------- what the steps do

  /** Taking the mutex, or queueing for it, changes nothing else; it is how a call of `wait` begins. */
  lemma TakeExactly(s: Barrier, f: Fid)
    requires BarrierInv(s) && BarrierEnabled(s, Take(f))
    ensures var r := BarrierNext(s, Take(f));
            && r.mon.mx.holders == (if s.mon.mx.holders == {} then {f} else s.mon.mx.holders)
            && (f in r.mon.mx.inLock <==> s.mon.mx.holders != {})
            && r.phase == (if s.phase[f].Idle? then s.phase[f := Entering] else s.phase)
            && r.mon.cond == s.mon.cond && r.gen == s.gen && r.current == s.current && r.cycle == s.cycle
            && r.leaders == s.leaders && r.left == s.left && r.arrived == s.arrived
  {
    LockExactly(s.mon.mx, f);
  }

  /** The arrival that `initial_` - 1 others have preceded in this generation completes it: its caller returns true and
      nobody sleeps any more ... */
  lemma CompleteExactly(s: Barrier, f: Fid)
    requires BarrierInv(s) && BarrierEnabled(s, Body(f)) && s.arrived[s.gen] == s.initial - 1
    ensures var r := BarrierNext(s, Body(f));
            && r.mon.mx.holders == {} && r.mon.mx.inLock == s.mon.mx.inLock
            && r.arrived == s.arrived + multiset{s.gen} && r.left == s.left
            && r.gen == s.gen + 1 && r.leaders == s.leaders + [f] && r.mon.cond == [] && r.phase == s.phase[f := Idle]
            && forall g :: g in s.mon.cond ==> g in r.mon.relocking
  {
    assert Arrivals(s, s.gen);
    UnlockExactly(s.mon.mx, f);
  }

  /** ... and any other caller sleeps, the last one to do so. Either way it leaves the mutex. */
  lemma SleepExactly(s: Barrier, f: Fid)
    requires BarrierInv(s) && BarrierEnabled(s, Body(f)) && s.arrived[s.gen] != s.initial - 1
    ensures var r := BarrierNext(s, Body(f));
            && r.mon.mx.holders == {} && r.mon.mx.inLock == s.mon.mx.inLock
            && r.arrived == s.arrived + multiset{s.gen} && r.left == s.left
            && r.gen == s.gen && r.leaders == s.leaders && r.mon.cond == s.mon.cond + [f]
            && r.phase == s.phase[f := Inside(s.cycle, s.gen)]
  {
    assert Arrivals(s, s.gen);
    UnlockExactly(s.mon.mx, f);
  }

  /** A waiter that was readied and has the mutex again finds its generation completed, and returns false. */
  lemma LeaveExactly(s: Barrier, f: Fid)
    requires BarrierInv(s) && BarrierEnabled(s, Recheck(f))
    ensures s.phase[f].gen < s.gen
    ensures var r := BarrierNext(s, Recheck(f));
            && r.mon.mx.holders == {} && r.phase == s.phase[f := Idle] && r.left == s.left + multiset{s.phase[f].gen}
            && r.mon.cond == s.mon.cond && r.gen == s.gen && r.current == s.current && r.cycle == s.cycle
            && r.leaders == s.leaders && r.arrived == s.arrived
  {
    RecheckPhases(s, f);
  }

  // ---------------------------------------------------------------- nobody is stuck

  /** Only participants use the mutex, and the holder does not queue for it. */
  ghost predicate Users(s: Barrier) {
    && s.mon.mx.holders <= s.phase.Keys && s.mon.mx.inLock <= s.phase.Keys
    && s.mon.mx.holders !! s.mon.mx.inLock
  }

  lemma UsersStay(s: Barrier, a: BarrierAction)
    requires BarrierInv(s) && Users(s) && BarrierEnabled(s, a)
    ensures Users(BarrierNext(s, a))
  {
    assert BarrierNext(s, a).phase.Keys == s.phase.Keys;
    match a
    case Take(f) => LockExactly(s.mon.mx, f);
    case Body(f) => if s.arrived[s.gen] == s.initial - 1 { CompleteExactly(s, f); } else { SleepExactly(s, f); }
    case Recheck(f) => LeaveExactly(s, f);
  }

  lemma {:induction false} RunUsers(s: Barrier, acts: seq<BarrierAction>)
    requires BarrierInv(s) && Users(s) && BarrierRun(s, acts)
    ensures BarrierInv(BarrierAfter(s, acts)) && Users(BarrierAfter(s, acts))
    ensures BarrierAfter(s, acts).phase.Keys == s.phase.Keys && BarrierAfter(s, acts).initial == s.initial
    decreases |acts|
  {
    if acts != [] {
      BarrierNextInv(s, acts[0]);
      UsersStay(s, acts[0]);
      assert BarrierNext(s, acts[0]).phase.Keys == s.phase.Keys;
      RunUsers(BarrierNext(s, acts[0]), acts[1..]);
    }
  }

  ghost predicate Stuck(s: Barrier) {
    forall a :: !BarrierEnabled(s, a)
  }

  lemma HolderGoesOn(s: Barrier, h: Fid)
    requires BarrierInv(s) && Users(s) && h in s.mon.mx.holders
    ensures BarrierEnabled(s, if s.phase[h].Entering? then Body(h) else Recheck(h))
  {
  }

  lemma AwakeTakes(s: Barrier, f: Fid)
    requires BarrierInv(s) && Users(s) && s.mon.mx.holders == {} && f in s.phase && f !in s.mon.cond
    ensures exists g :: BarrierEnabled(s, Take(g))
  {
    var mx := s.mon.mx;
    var g := f;
    if f in mx.inLock && f !in mx.woken {
      assert f in mx.m.waiting;
      g :| g in mx.woken;
    }
    assert BarrierEnabled(s, Take(g));
  }

  lemma AsleepIsStuck(s: Barrier)
    requires BarrierInv(s) && forall f :: f in s.phase ==> f in s.mon.cond
    ensures Stuck(s)
  {
  }

  /** No step is left exactly when every participant sleeps. */
  lemma StuckExactly(s: Barrier)
    requires BarrierInv(s) && Users(s)
    ensures Stuck(s) <==> forall f :: f in s.phase ==> f in s.mon.cond
  {
    if f :| f in s.phase && f !in s.mon.cond {
      if s.mon.mx.holders == {} {
        AwakeTakes(s, f);
      } else {
        var h :| h in s.mon.mx.holders;
        HolderGoesOn(s, h);
      }
    } else {
      AsleepIsStuck(s);
    }
  }

  /** While a generation is open, it lacks an arrival. */
  lemma SomeoneAwake(s: Barrier) returns (f: Fid)
    requires BarrierInv(s) && |s.phase.Keys| == s.initial
    ensures f in s.phase && f !in s.mon.cond
  {
    var w := Waiters(s, s.gen);
    assert w <= s.phase.Keys && w != s.phase.Keys;
    f :| f in s.phase.Keys && f !in w;
    assert Faithful(s, f);
  }

  /** With as many participants as the barrier was made for, some participant can always go on, after every run. */
  lemma NeverStuck(initial: nat, fibers: set<Fid>, acts: seq<BarrierAction>)
    requires 0 < initial == |fibers| && BarrierRun(BarrierInit(initial, fibers), acts)
    ensures !Stuck(BarrierAfter(BarrierInit(initial, fibers), acts))
  {
    var s0 := BarrierInit(initial, fibers);
    InitInv(initial, fibers);
    assert s0.phase.Keys == fibers;
    RunUsers(s0, acts);
    StuckExactly(BarrierAfter(s0, acts));
    var f := SomeoneAwake(BarrierAfter(s0, acts));
  }
}
