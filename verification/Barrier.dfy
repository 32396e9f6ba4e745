/** The barrier: `wait` over the mutex and the condition, for at most as many fibers as the barrier was made for. */
module Barriers {
  import opened Seqs
  import opened Mutexes
  import opened Conditions

  // ---------------------------------------------------------------- the object

  /** An arrival: the new count, the new cycle, and whether it completes the generation. */
  function ArriveTurn(initial: nat, current: nat, cycle: bool): (r: (nat, bool, bool))
    requires 0 < current
  {
    if current == 1 then (initial, !cycle, true) else (current - 1, cycle, false)
  }

  class BarrierObject {
    const initial: nat
    var current: nat
    var cycle: bool

    constructor (initial: nat)
      ensures this.initial == initial && current == initial && cycle
    {
      this.initial := initial;
      current := initial;
      cycle := true;
    }

    /** The constructor of the code throws when the count is zero. */
    static method Create(initial: nat) returns (b: BarrierObject?)
      ensures b == null <==> initial == 0
      ensures b != null ==> fresh(b) && b.initial == initial && b.current == initial && b.cycle
    {
      b := null;
      if initial != 0 {
        b := new BarrierObject(initial);
      }
    }

    /** `wait` from taking the mutex to leaving it or sleeping: does the caller complete the generation, and which cycle
        did it see? */
    method Arrive() returns (last: bool, saved: bool)
      requires 0 < current <= initial
      modifies this
      ensures 0 < current <= initial && saved == old(cycle)
      ensures (current, cycle, last) == ArriveTurn(initial, old(current), old(cycle))
    {
      saved := cycle;
      current := current - 1;
      if current == 0 {
        cycle := !cycle;
        current := initial;
        return true, saved;
      }
      return false, saved;
    }
  }

  // ---------------------------------------------------------------- runs

  /** Where a participant is in its call of `wait`. `Inside`: it arrived, saw `saved`, and waits for generation `gen`;
      the generation is history, the code keeps only the boolean. */
  datatype Phase = Idle | Entering | Inside(saved: bool, gen: nat)

  /** `gen` counts the completed generations. `leaders[g]` is the fiber whose `wait` returned true in generation `g`;
      `left[g]` counts the calls that returned false in it, `arrived[g]` the arrivals. */
  datatype Barrier = Barrier(initial: nat, mon: Monitor, current: nat, cycle: bool, phase: map<Fid, Phase>,
                             gen: nat, leaders: seq<Fid>, left: multiset<nat>, arrived: multiset<nat>)

  datatype BarrierAction = Take(f: Fid) | Body(f: Fid) | Recheck(f: Fid)

  function BarrierInit(initial: nat, fibers: set<Fid>): Barrier {
    Barrier(initial, MONITOR_INIT, initial, true, map f | f in fibers :: Idle, 0, [], multiset{}, multiset{})
  }

  /** `Take` is a turn of `lock` on `mtx_`, at the start of `wait` or after a notification. The other two steps are
      taken by the fiber that holds the mutex. */
  predicate BarrierEnabled(s: Barrier, a: BarrierAction) {
    && a.f in s.phase
    && match a
       case Take(f) => f !in s.mon.mx.holders && MonitorEnabled(s.mon, External(Lock(f)))
       case Body(f) => s.phase[f].Entering? && MonitorEnabled(s.mon, Wait(f)) && s.current > 0
       case Recheck(f) => s.phase[f].Inside? && MonitorEnabled(s.mon, Wait(f))
  }

  /** The last arrival: notify everyone, return true. */
  function Complete(s: Barrier, f: Fid): Barrier
    requires MonitorEnabled(s.mon, Wait(f)) && s.current > 0
  {
    var (current, cycle, _) := ArriveTurn(s.initial, s.current, s.cycle);
    s.(mon := MonitorNext(MonitorNext(s.mon, NotifyAll), External(Unlock(f))),
       current := current, cycle := cycle, phase := s.phase[f := Idle],
       gen := s.gen + 1, leaders := s.leaders + [f], arrived := s.arrived + multiset{s.gen})
  }

  /** Any other arrival: remember the cycle, sleep. */
  function Sleep(s: Barrier, f: Fid): Barrier
    requires MonitorEnabled(s.mon, Wait(f)) && s.current > 0
  {
    var (current, cycle, _) := ArriveTurn(s.initial, s.current, s.cycle);
    s.(mon := MonitorNext(s.mon, Wait(f)), current := current, cycle := cycle,
       phase := s.phase[f := Inside(s.cycle, s.gen)], arrived := s.arrived + multiset{s.gen})
  }

  function BarrierNext(s: Barrier, a: BarrierAction): Barrier
    requires BarrierEnabled(s, a)
  {
    match a
    case Take(f) =>
      s.(mon := MonitorNext(s.mon, External(Lock(f))),
         phase := if s.phase[f].Idle? then s.phase[f := Entering] else s.phase)
    case Body(f) => if ArriveTurn(s.initial, s.current, s.cycle).2 then Complete(s, f) else Sleep(s, f)
    case Recheck(f) =>
      if s.phase[f].saved == s.cycle then s.(mon := MonitorNext(s.mon, Wait(f)))
      else s.(mon := MonitorNext(s.mon, External(Unlock(f))), phase := s.phase[f := Idle],
              left := s.left + multiset{s.phase[f].gen})
  }

  /** The participants that wait for generation `g`. */
  ghost function Waiters(s: Barrier, g: nat): set<Fid> {
    set f | f in s.phase && s.phase[f].Inside? && s.phase[f].gen == g
  }

  /** The boolean stands for the generation: a waiter's saved cycle equals `cycle_` iff its generation is still open;
      and it sleeps iff its generation is open. */
  ghost predicate Faithful(s: Barrier, f: Fid)
    requires f in s.phase
  {
    s.phase[f].Inside? ==>
      && s.phase[f].gen <= s.gen <= s.phase[f].gen + 1
      && (s.phase[f].saved == s.cycle <==> s.phase[f].gen == s.gen)
      && (f in s.mon.cond <==> s.phase[f].gen == s.gen)
  }

  ghost predicate Phases(s: Barrier) {
    && MonitorInv(s.mon)
    && (forall f :: f in s.phase ==> Faithful(s, f))
    && (forall f :: f in s.mon.cond ==> f in s.phase && s.phase[f].Inside?)
    && (forall f :: f in s.phase && s.phase[f].Idle? ==> f !in s.mon.mx.holders)
  }

  /** Arrivals and returns, generation by generation. */
  ghost predicate Tallies(s: Barrier) {
    && |s.phase.Keys| <= s.initial && 0 < s.current <= s.initial
    && |s.leaders| == s.gen
    && |Waiters(s, s.gen)| == s.initial - s.current
    && (forall g: nat {:trigger Arrivals(s, g)} :: Arrivals(s, g))
    && (forall g: nat {:trigger Returns(s, g)} :: Returns(s, g))
  }

  /** A completed generation had exactly `initial_` arrivals; the open one had those that are counted down. */
  ghost predicate Arrivals(s: Barrier, g: nat) {
    s.arrived[g] == if g < s.gen then s.initial else if g == s.gen then s.initial - s.current else 0
  }

  /** All but the leader of a completed generation returned false or are about to; nobody left an open one. */
  ghost predicate Returns(s: Barrier, g: nat) {
    s.left[g] == if g < s.gen then s.initial - 1 - |Waiters(s, g)| else 0
  }

  ghost predicate BarrierInv(s: Barrier) {
    Phases(s) && Tallies(s)
  }

  /** The last arrival finds every other participant waiting for the open generation. */
  lemma EveryoneWaits(s: Barrier, f: Fid)
    requires Tallies(s) && f in s.phase && !s.phase[f].Inside? && s.current == 1
    ensures s.phase.Keys == Waiters(s, s.gen) + {f}
  {
    var w := Waiters(s, s.gen);
    forall x | x in s.phase.Keys ensures x in w + {f} {
      if x !in w + {f} {
        SubsetCardinality(w + {f} + {x}, s.phase.Keys);
        assert false;
      }
    }
  }

  // What each step does to the two halves of the invariant.

  lemma CompletePhases(s: Barrier, f: Fid)
    requires Phases(s) && BarrierEnabled(s, Body(f)) && s.current == 1 && s.phase.Keys == Waiters(s, s.gen) + {f}
    ensures Phases(Complete(s, f))
  {
    var r := Complete(s, f);
    MonitorNextInv(s.mon, NotifyAll);
    MonitorNextInv(MonitorNext(s.mon, NotifyAll), External(Unlock(f)));
    assert r.mon.cond == [] && r.mon.mx.holders == {};
    forall x | x in r.phase ensures Faithful(r, x) { assert Faithful(s, x); }
  }

  lemma CompleteTallies(s: Barrier, f: Fid)
    requires Tallies(s) && BarrierEnabled(s, Body(f)) && s.current == 1
    requires s.phase.Keys == Waiters(s, s.gen) + {f}
    ensures Tallies(Complete(s, f))
  {
    var r := Complete(s, f);
    assert r.phase.Keys == s.phase.Keys;
    assert Waiters(r, r.gen) == {};
    forall g: nat ensures Arrivals(r, g) { assert Arrivals(s, g); }
    forall g: nat ensures Returns(r, g) {
      assert Returns(s, g);
      assert Waiters(r, g) == Waiters(s, g);
    }
  }

  lemma SleepPhases(s: Barrier, f: Fid)
    requires Phases(s) && BarrierEnabled(s, Body(f)) && s.current != 1
    ensures Phases(Sleep(s, f))
  {
    var r := Sleep(s, f);
    MonitorNextInv(s.mon, Wait(f));
    assert r.mon.cond == s.mon.cond + [f] && r.mon.mx.holders == {};
    forall x | x in r.phase ensures Faithful(r, x) { assert Faithful(s, x); }
  }

  lemma SleepTallies(s: Barrier, f: Fid)
    requires Tallies(s) && BarrierEnabled(s, Body(f)) && s.current != 1
    ensures Tallies(Sleep(s, f))
  {
    var r := Sleep(s, f);
    assert r.phase.Keys == s.phase.Keys;
    assert Waiters(r, r.gen) == Waiters(s, s.gen) + {f};
    forall g: nat ensures Arrivals(r, g) { assert Arrivals(s, g); }
    forall g: nat ensures Returns(r, g) {
      assert Returns(s, g);
      assert g != r.gen ==> Waiters(r, g) == Waiters(s, g);
    }
  }

  lemma RecheckPhases(s: Barrier, f: Fid)
    requires Phases(s) && BarrierEnabled(s, Recheck(f))
    ensures s.phase[f].saved != s.cycle && s.phase[f].gen < s.gen
    ensures Phases(BarrierNext(s, Recheck(f)))
  {
    assert Faithful(s, f);
    var r := BarrierNext(s, Recheck(f));
    MonitorNextInv(s.mon, External(Unlock(f)));
    assert r.mon.cond == s.mon.cond && r.mon.mx.holders == {};
    forall x | x in r.phase ensures Faithful(r, x) { assert Faithful(s, x); }
  }

  lemma RecheckTallies(s: Barrier, f: Fid)
    requires Tallies(s) && BarrierEnabled(s, Recheck(f)) && s.phase[f].saved != s.cycle && s.phase[f].gen < s.gen
    ensures Tallies(BarrierNext(s, Recheck(f)))
  {
    var r, g0 := BarrierNext(s, Recheck(f)), s.phase[f].gen;
    assert r.phase.Keys == s.phase.Keys;
    assert Waiters(s, g0) == Waiters(r, g0) + {f};
    assert Waiters(r, r.gen) == Waiters(s, s.gen);
    forall g: nat ensures Arrivals(r, g) { assert Arrivals(s, g); }
    forall g: nat ensures Returns(r, g) {
      assert Returns(s, g);
      assert g != g0 ==> Waiters(r, g) == Waiters(s, g);
    }
  }

  lemma TakePhases(s: Barrier, f: Fid)
    requires Phases(s) && BarrierEnabled(s, Take(f))
    ensures Phases(BarrierNext(s, Take(f)))
  {
    var r := BarrierNext(s, Take(f));
    MonitorNextInv(s.mon, External(Lock(f)));
    assert r.mon.cond == s.mon.cond;
    forall x | x in r.phase ensures Faithful(r, x) { assert Faithful(s, x); }
  }

  lemma TakeTallies(s: Barrier, f: Fid)
    requires Tallies(s) && BarrierEnabled(s, Take(f))
    ensures Tallies(BarrierNext(s, Take(f)))
  {
    var r := BarrierNext(s, Take(f));
    assert r.phase.Keys == s.phase.Keys;
    forall g: nat ensures Waiters(r, g) == Waiters(s, g) {}
    forall g: nat ensures Arrivals(r, g) { assert Arrivals(s, g); }
    forall g: nat ensures Returns(r, g) { assert Returns(s, g); }
  }

  lemma BarrierNextInv(s: Barrier, a: BarrierAction)
    requires BarrierInv(s) && BarrierEnabled(s, a)
    ensures BarrierInv(BarrierNext(s, a))
  {
    match a
    case Take(f) =>
      TakePhases(s, f);
      TakeTallies(s, f);
    case Body(f) =>
      if s.current == 1 {
        EveryoneWaits(s, f);
        CompletePhases(s, f);
        CompleteTallies(s, f);
      } else {
        SleepPhases(s, f);
        SleepTallies(s, f);
      }
    case Recheck(f) =>
      RecheckPhases(s, f);
      RecheckTallies(s, f);
  }

  ghost predicate BarrierRun(s: Barrier, acts: seq<BarrierAction>)
    decreases |acts|
  {
    acts != [] ==> BarrierEnabled(s, acts[0]) && BarrierRun(BarrierNext(s, acts[0]), acts[1..])
  }

  ghost function BarrierAfter(s: Barrier, acts: seq<BarrierAction>): Barrier
    requires BarrierRun(s, acts)
    decreases |acts|
  {
    if acts == [] then s else BarrierAfter(BarrierNext(s, acts[0]), acts[1..])
  }

  lemma {:induction false} BarrierRunInv(s: Barrier, acts: seq<BarrierAction>)
    requires BarrierInv(s) && BarrierRun(s, acts)
    ensures BarrierInv(BarrierAfter(s, acts)) && BarrierAfter(s, acts).initial == s.initial
    decreases |acts|
  {
    if acts != [] {
      BarrierNextInv(s, acts[0]);
      BarrierRunInv(BarrierNext(s, acts[0]), acts[1..]);
    }
  }

  lemma InitInv(initial: nat, fibers: set<Fid>)
    requires 0 < initial && |fibers| <= initial
    ensures BarrierInv(BarrierInit(initial, fibers))
  {
    var s := BarrierInit(initial, fibers);
    assert s.phase.Keys == fibers;
    forall g: nat ensures Waiters(s, g) == {} {}
    assert forall g: nat :: Arrivals(s, g) && Returns(s, g);
  }

  /** After every run of at most `initial` fibers the boolean stands for the generation count: a waiter's saved cycle
      equals `cycle_` iff its generation is still open, and iff it is asleep. */
  lemma CycleRefinesGeneration(initial: nat, fibers: set<Fid>, acts: seq<BarrierAction>, f: Fid)
    requires 0 < initial && |fibers| <= initial && BarrierRun(BarrierInit(initial, fibers), acts)
    ensures var s := BarrierAfter(BarrierInit(initial, fibers), acts);
            f in s.phase && s.phase[f].Inside? ==>
              && (s.phase[f].saved == s.cycle <==> s.phase[f].gen == s.gen)
              && (f in s.mon.cond <==> s.phase[f].gen == s.gen)
  {
    InitInv(initial, fibers);
    BarrierRunInv(BarrierInit(initial, fibers), acts);
    var s := BarrierAfter(BarrierInit(initial, fibers), acts);
    assert f in s.phase ==> Faithful(s, f);
  }

  /** After every run: every completed generation had `initial` arrivals and exactly one true return, and all its other
      calls returned false or, in the last one, are on their way out; nobody left the open generation. */
  lemma OneLeaderPerGeneration(initial: nat, fibers: set<Fid>, acts: seq<BarrierAction>, g: nat)
    requires 0 < initial && |fibers| <= initial && BarrierRun(BarrierInit(initial, fibers), acts)
    ensures var s := BarrierAfter(BarrierInit(initial, fibers), acts);
            && |s.leaders| == s.gen
            && (g < s.gen ==> s.arrived[g] == initial && s.left[g] + |Waiters(s, g)| == initial - 1)
            && (g + 1 < s.gen ==> s.left[g] == initial - 1)
            && (g >= s.gen ==> s.left[g] == 0 && s.arrived[g] < initial)
  {
    InitInv(initial, fibers);
    BarrierRunInv(BarrierInit(initial, fibers), acts);
    var s := BarrierAfter(BarrierInit(initial, fibers), acts);
    assert Arrivals(s, g) && Returns(s, g);
    if g + 1 < s.gen {
      forall f | f in s.phase ensures f !in Waiters(s, g) { assert Faithful(s, f); }
      assert Waiters(s, g) == {};
    }
  }
}
