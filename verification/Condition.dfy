/** The condition variable together with the external mutex its waiters use. */
module Conditions {
  import opened Seqs
  import opened Mutexes

  class ConditionObject {
    var waiting: seq<Fid>

    constructor ()
      ensures waiting == []
    {
      waiting := [];
    }

    /** The registration in `wait`; the code asserts that the fiber is not registered yet. */
    method Register(n: Fid)
      requires n !in waiting
      modifies this
      ensures waiting == old(waiting) + [n]
    {
      waiting := waiting + [n];
    }

    /** `notify_one`: the fiber it readies. */
    method NotifyOne() returns (n: Option<Fid>)
      modifies this
      ensures if old(waiting) == [] then n == None && waiting == []
              else n == Some(old(waiting)[0]) && waiting == old(waiting)[1..]
    {
      n := None;
      if waiting != [] {
        n := Some(waiting[0]);
        waiting := waiting[1..];
      }
    }

    /** `notify_all`: the fibers it readies, in order. */
    method NotifyAll() returns (readied: seq<Fid>)
      modifies this
      ensures readied == old(waiting) && waiting == []
    {
      var taken := waiting;
      waiting := [];
      readied := [];
      while taken != []
        invariant readied + taken == old(waiting) && waiting == []
        decreases |taken|
      {
        readied := readied + [taken[0]];
        taken := taken[1..];
      }
    }
  }

  // ---------------------------------------------------------------- runs

  /** A condition and the external mutex. `relocking`: fibers removed by a notification whose `wait` did not return yet.
      `regs`, `removed`, `returned`: the histories of registrations, removals and returns from `wait`. */
  datatype Monitor = Monitor(mx: Mx, cond: seq<Fid>, relocking: set<Fid>,
                             regs: seq<Fid>, removed: seq<Fid>, returned: seq<Fid>)

  datatype MonitorAction = External(a: Action) | Wait(f: Fid) | NotifyOne | NotifyAll

  const MONITOR_INIT := Monitor(MX_INIT, [], {}, [], [], [])

  /** A fiber inside `wait` only retakes the mutex. `wait` asks for the mutex to be held by its caller. */
  predicate MonitorEnabled(s: Monitor, a: MonitorAction) {
    match a
    case External(b) => Enabled(s.mx, b) && b.f !in s.cond && (b.f in s.relocking ==> b.Lock?)
    case Wait(f) => f !in s.cond && f !in s.relocking && Enabled(s.mx, Unlock(f))
    case NotifyOne => true
    case NotifyAll => true
  }

  function MonitorNext(s: Monitor, a: MonitorAction): Monitor
    requires MonitorEnabled(s, a)
  {
    match a
    case External(b) =>
      var mx := Next(s.mx, b);
      if b.f in s.relocking && b.f in mx.holders
      then s.(mx := mx, relocking := s.relocking - {b.f}, returned := s.returned + [b.f])
      else s.(mx := mx)
    case Wait(f) => s.(mx := Next(s.mx, Unlock(f)), cond := s.cond + [f], regs := s.regs + [f])
    case NotifyOne =>
      if s.cond == [] then s
      else s.(cond := s.cond[1..], relocking := s.relocking + {s.cond[0]}, removed := s.removed + [s.cond[0]])
    case NotifyAll =>
      s.(cond := [], relocking := s.relocking + (set f | f in s.cond), removed := s.removed + s.cond)
  }

  ghost predicate MonitorInv(s: Monitor) {
    && Inv(s.mx)
    && NoDup(s.cond)
    // removals follow the order of registration
    && s.regs == s.removed + s.cond
    // a fiber inside `wait` does not hold the mutex; a sleeping one is not even trying
    && (forall f :: f in s.cond ==> f !in s.relocking && f !in s.mx.holders && f !in s.mx.inLock)
    && (forall f :: f in s.relocking ==> f !in s.mx.holders)
    // returns answer removals one to one, up to the fibers still on their way
    && (forall f :: multiset(s.removed)[f] == multiset(s.returned)[f] + if f in s.relocking then 1 else 0)
  }

  lemma ExternalInv(s: Monitor, b: Action)
    requires MonitorInv(s) && MonitorEnabled(s, External(b))
    ensures MonitorInv(MonitorNext(s, External(b)))
  {
    NextInv(s.mx, b);
    var r := MonitorNext(s, External(b));
    forall f ensures multiset(r.removed)[f] == multiset(r.returned)[f] + if f in r.relocking then 1 else 0 {}
  }

  lemma NotifyOneInv(s: Monitor)
    requires MonitorInv(s)
    ensures MonitorInv(MonitorNext(s, NotifyOne))
  {
    if s.cond != [] {
      var r := MonitorNext(s, NotifyOne);
      HeadAndTail(s.cond);
      assert s.cond == [s.cond[0]] + s.cond[1..];
      assert r.regs == r.removed + r.cond;
      forall f ensures multiset(r.removed)[f] == multiset(r.returned)[f] + if f in r.relocking then 1 else 0 {}
    }
  }

  lemma NotifyAllInv(s: Monitor)
    requires MonitorInv(s)
    ensures MonitorInv(MonitorNext(s, NotifyAll))
  {
    var r := MonitorNext(s, NotifyAll);
    forall f ensures multiset(r.removed)[f] == multiset(r.returned)[f] + if f in r.relocking then 1 else 0 {
      CountOnce(s.cond, f);
    }
  }

  lemma MonitorNextInv(s: Monitor, a: MonitorAction)
    requires MonitorInv(s) && MonitorEnabled(s, a)
    ensures MonitorInv(MonitorNext(s, a))
  {
    match a
    case External(b) => ExternalInv(s, b);
    case Wait(f) =>
      NextInv(s.mx, Unlock(f));
      assert MonitorNext(s, a).regs == s.removed + (s.cond + [f]);
    case NotifyOne => NotifyOneInv(s);
    case NotifyAll => NotifyAllInv(s);
  }

  lemma {:induction false} CountOnce(s: seq<Fid>, f: Fid)
    requires NoDup(s)
    ensures multiset(s)[f] == if f in s then 1 else 0
  {
    if s != [] {
      HeadAndTail(s);
      assert s == [s[0]] + s[1..];
      CountOnce(s[1..], f);
    }
  }

  ghost predicate MonitorRun(s: Monitor, acts: seq<MonitorAction>)
    decreases |acts|
  {
    acts != [] ==> MonitorEnabled(s, acts[0]) && MonitorRun(MonitorNext(s, acts[0]), acts[1..])
  }

  ghost function MonitorAfter(s: Monitor, acts: seq<MonitorAction>): Monitor
    requires MonitorRun(s, acts)
    decreases |acts|
  {
    if acts == [] then s else MonitorAfter(MonitorNext(s, acts[0]), acts[1..])
  }

  lemma {:induction false} MonitorRunInv(s: Monitor, acts: seq<MonitorAction>)
    requires MonitorInv(s) && MonitorRun(s, acts)
    ensures MonitorInv(MonitorAfter(s, acts))
    decreases |acts|
  {
    if acts != [] {
      MonitorNextInv(s, acts[0]);
      MonitorRunInv(MonitorNext(s, acts[0]), acts[1..]);
    }
  }

  /** A step in which `wait` returns to `f` answers a removal of `f`, and leaves `f` the only holder of the mutex. */
  ghost predicate ReturnsTo(s: Monitor, a: MonitorAction, r: Monitor, f: Fid) {
    && r.returned == s.returned + [f] && a == External(Lock(f)) && r.mx.holders == {f}
    && multiset(s.removed)[f] == multiset(s.returned)[f] + 1
  }

  lemma ReturnStep(s: Monitor, a: MonitorAction)
    requires MonitorInv(s) && MonitorEnabled(s, a) && MonitorNext(s, a).returned != s.returned
    ensures a.External? && ReturnsTo(s, a, MonitorNext(s, a), a.a.f)
  {
    NextInv(s.mx, a.a);
  }

  /** After every run: removals are a prefix of the registrations; a step in which `wait` returns to `f` was preceded
      by a removal of `f` that no earlier return answers, and leaves `f` the only holder of the mutex. */
  lemma WaitReturnsNotifiedAndHolding(acts: seq<MonitorAction>, a: MonitorAction)
    requires MonitorRun(MONITOR_INIT, acts) && MonitorEnabled(MonitorAfter(MONITOR_INIT, acts), a)
    ensures var s := MonitorAfter(MONITOR_INIT, acts); var r := MonitorNext(s, a);
            && s.removed <= s.regs
            && (r.returned != s.returned ==> exists f :: ReturnsTo(s, a, r, f))
  {
    MonitorRunInv(MONITOR_INIT, acts);
    var s := MonitorAfter(MONITOR_INIT, acts);
    if MonitorNext(s, a).returned != s.returned { ReturnStep(s, a); }
  }

  // ---------------------------------------------------------------- notifications

  /** `wait` gives the mutex up and is the last one to sleep; `notify_one` gets exactly the longest sleeper up, and
      `notify_all` everybody. */
  lemma NotifyExactly(s: Monitor, a: MonitorAction)
    requires MonitorInv(s) && MonitorEnabled(s, a)
    ensures var r := MonitorNext(s, a);
            match a
            case External(b) => r.mx == Next(s.mx, b) && r.cond == s.cond && r.relocking <= s.relocking
            case Wait(f) =>
              && r.mx == Next(s.mx, Unlock(f)) && r.mx.holders == {}
              && r.cond == s.cond + [f] && r.relocking == s.relocking
            case NotifyOne =>
              && r.mx == s.mx
              && (if s.cond == [] then r == s
                  else s.cond == [s.cond[0]] + r.cond && r.relocking == s.relocking + {s.cond[0]})
            case NotifyAll => r.mx == s.mx && r.cond == [] && r.relocking == s.relocking + Members(s.cond)
  {
  }

  ghost function NotifyCount(acts: seq<MonitorAction>): nat {
    if acts == [] then 0 else (if acts[0].NotifyOne? then 1 else 0) + NotifyCount(acts[1..])
  }

  lemma SleeperStep(s: Monitor, a: MonitorAction, k: nat)
    requires MonitorInv(s) && MonitorEnabled(s, a) && k < |s.cond| && a != NotifyAll && (a == NotifyOne ==> k > 0)
    ensures var r, k' := MonitorNext(s, a), if a == NotifyOne then k - 1 else k;
            MonitorInv(r) && k' < |r.cond| && r.cond[k'] == s.cond[k]
  {
    MonitorNextInv(s, a);
    NotifyExactly(s, a);
  }

  /** Whatever else happens, a fiber at index `k` of the sleepers sleeps through the first `k` calls of `notify_one` and
      gets one place nearer with each ... */
  lemma {:induction false} SleepersAdvance(s: Monitor, acts: seq<MonitorAction>, k: nat)
    requires MonitorInv(s) && MonitorRun(s, acts) && k < |s.cond| && NotifyCount(acts) <= k && NotifyAll !in acts
    ensures var r := MonitorAfter(s, acts);
            MonitorInv(r) && k - NotifyCount(acts) < |r.cond| && r.cond[k - NotifyCount(acts)] == s.cond[k]
    decreases |acts|
  {
    if acts != [] {
      SleeperStep(s, acts[0], k);
      SleepersAdvance(MonitorNext(s, acts[0]), acts[1..], if acts[0] == NotifyOne then k - 1 else k);
    }
  }

  /** ... and the next one gets it up; when it then finds the mutex free, its `wait` returns. */
  lemma NotifiedReturns(s: Monitor, acts: seq<MonitorAction>, k: nat)
    requires MonitorInv(s) && MonitorRun(s, acts) && k < |s.cond| && NotifyCount(acts) == k && NotifyAll !in acts
    ensures var f, r := s.cond[k], MonitorNext(MonitorAfter(s, acts), NotifyOne);
            && f in r.relocking && f !in r.cond && MonitorEnabled(r, External(Lock(f)))
            && (r.mx.holders == {} ==>
                  var t := MonitorNext(r, External(Lock(f)));
                  t.returned == r.returned + [f] && t.mx.holders == {f} && f !in t.relocking)
  {
    SleepersAdvance(s, acts, k);
    var q := MonitorAfter(s, acts);
    MonitorNextInv(q, NotifyOne);
    HeadAndTail(q.cond);
    var r := MonitorNext(q, NotifyOne);
    if r.mx.holders == {} { LockExactly(r.mx, s.cond[k]); }
  }
}
