/** Why a barrier serves no more fibers than it was made for: with one more, two completed generations look to a slow
    waiter like none, and it goes back to sleep. */
module BarrierLimits {
  import opened Seqs
  import opened Mutexes
  import opened Conditions
  import opened Barriers

  // ---------------------------------------------------------------- calls of `wait` without contention

  /** Nobody holds the mutex or waits for it. */
  ghost predicate Quiet(s: Barrier) {
    s.mon.mx == MX_INIT
  }

  ghost predicate Outside(s: Barrier, f: Fid) {
    f in s.phase && s.phase[f].Idle? && f !in s.mon.cond && f !in s.mon.relocking
  }

  /** On its way out of a completed generation, and the cycle tells. */
  ghost predicate Leaving(s: Barrier, f: Fid) {
    && f in s.phase && s.phase[f].Inside? && s.phase[f].saved != s.cycle
    && f in s.mon.relocking && f !in s.mon.cond
  }

  ghost function Calls(f: Fid, second: BarrierAction): seq<BarrierAction> {
    [Take(f), second]
  }

  lemma TwoSteps(s: Barrier, f: Fid, second: BarrierAction)
    requires BarrierEnabled(s, Take(f)) && BarrierEnabled(BarrierNext(s, Take(f)), second)
    ensures BarrierRun(s, Calls(f, second))
    ensures BarrierAfter(s, Calls(f, second)) == BarrierNext(BarrierNext(s, Take(f)), second)
  {
    var acts, t := Calls(f, second), BarrierNext(s, Take(f));
    assert acts[1..] == [second];
    assert BarrierRun(BarrierNext(t, second), []);
    assert BarrierRun(t, [second]) && BarrierAfter(t, [second]) == BarrierNext(t, second);
  }

  /** An arrival that has to wait. */
  lemma Arrive(s: Barrier, f: Fid)
    requires Quiet(s) && Outside(s, f) && s.current > 1
    ensures BarrierRun(s, Calls(f, Body(f)))
    ensures var r := BarrierAfter(s, Calls(f, Body(f)));
            && Quiet(r) && r.initial == s.initial && r.current == s.current - 1 && r.cycle == s.cycle && r.gen == s.gen
            && r.phase == s.phase[f := Inside(s.cycle, s.gen)]
            && r.mon.cond == s.mon.cond + [f] && r.mon.relocking == s.mon.relocking
  {
    TwoSteps(s, f, Body(f));
  }

  /** The arrival that completes the generation. */
  lemma Finish(s: Barrier, f: Fid)
    requires Quiet(s) && Outside(s, f) && s.current == 1
    ensures BarrierRun(s, Calls(f, Body(f)))
    ensures var r := BarrierAfter(s, Calls(f, Body(f)));
            && Quiet(r) && r.initial == s.initial && r.current == s.initial && r.cycle == !s.cycle && r.gen == s.gen + 1
            && r.phase == s.phase && r.mon.cond == [] && r.mon.relocking == s.mon.relocking + Members(s.mon.cond)
  {
    TwoSteps(s, f, Body(f));
    assert s.phase[f := Idle] == s.phase;
  }

  /** A readied waiter that sees the other cycle returns. */
  lemma Return(s: Barrier, f: Fid)
    requires Quiet(s) && Leaving(s, f)
    ensures BarrierRun(s, Calls(f, Recheck(f)))
    ensures var r := BarrierAfter(s, Calls(f, Recheck(f)));
            && Quiet(r) && r.initial == s.initial && r.current == s.current && r.cycle == s.cycle && r.gen == s.gen
            && r.phase == s.phase[f := Idle] && r.mon.cond == s.mon.cond && r.mon.relocking == s.mon.relocking - {f}
  {
    TwoSteps(s, f, Recheck(f));
  }

  /** A readied waiter that sees its own cycle sleeps again. */
  lemma SleepAgain(s: Barrier, f: Fid)
    requires Quiet(s) && f in s.phase && s.phase[f].Inside? && s.phase[f].saved == s.cycle
    requires f in s.mon.relocking && f !in s.mon.cond
    ensures BarrierRun(s, Calls(f, Recheck(f)))
    ensures var r := BarrierAfter(s, Calls(f, Recheck(f)));
            r.phase == s.phase && r.gen == s.gen && f in r.mon.cond
  {
    TwoSteps(s, f, Recheck(f));
  }

  // ---------------------------------------------------------------- many calls

  lemma {:induction false} Append(s: Barrier, a: seq<BarrierAction>, b: seq<BarrierAction>)
    requires BarrierRun(s, a) && BarrierRun(BarrierAfter(s, a), b)
    ensures BarrierRun(s, a + b) && BarrierAfter(s, a + b) == BarrierAfter(BarrierAfter(s, a), b)
    decreases |a|
  {
    if a == [] {
      assert a + b == b;
    } else {
      assert (a + b)[1..] == a[1..] + b;
      Append(BarrierNext(s, a[0]), a[1..], b);
    }
  }

  /** `bs` arrived one after the other and all of them sleep. */
  ghost predicate AllArrived(s: Barrier, r: Barrier, bs: seq<Fid>) {
    && Quiet(r) && r.initial == s.initial && r.current == s.current - |bs| && r.cycle == s.cycle && r.gen == s.gen
    && r.phase.Keys == s.phase.Keys
    && (forall f :: f in s.phase ==> r.phase[f] == if f in bs then Inside(s.cycle, s.gen) else s.phase[f])
    && r.mon.cond == s.mon.cond + bs && r.mon.relocking == s.mon.relocking
  }

  lemma {:induction false} ArriveAll(s: Barrier, bs: seq<Fid>) returns (acts: seq<BarrierAction>)
    requires Quiet(s) && NoDup(bs) && |bs| < s.current && forall f :: f in bs ==> Outside(s, f)
    ensures BarrierRun(s, acts) && AllArrived(s, BarrierAfter(s, acts), bs)
    decreases |bs|
  {
    if bs == [] {
      acts := [];
    } else {
      var first := Calls(bs[0], Body(bs[0]));
      Arrive(s, bs[0]);
      HeadAndTail(bs);
      var t := BarrierAfter(s, first);
      var rest := ArriveAll(t, bs[1..]);
      Append(s, first, rest);
      acts := first + rest;
      Assoc(s.mon.cond, [bs[0]], bs[1..]);
      assert bs == [bs[0]] + bs[1..];
    }
  }

  /** `bs` returned one after the other. */
  ghost predicate AllReturned(s: Barrier, r: Barrier, bs: seq<Fid>) {
    && Quiet(r) && r.initial == s.initial && r.current == s.current && r.cycle == s.cycle && r.gen == s.gen
    && r.phase.Keys == s.phase.Keys
    && (forall f :: f in s.phase ==> r.phase[f] == if f in bs then Idle else s.phase[f])
    && r.mon.cond == s.mon.cond && r.mon.relocking == s.mon.relocking - Members(bs)
  }

  lemma {:induction false} ReturnAll(s: Barrier, bs: seq<Fid>) returns (acts: seq<BarrierAction>)
    requires Quiet(s) && NoDup(bs) && forall f :: f in bs ==> Leaving(s, f)
    ensures BarrierRun(s, acts) && AllReturned(s, BarrierAfter(s, acts), bs)
    decreases |bs|
  {
    if bs == [] {
      acts := [];
    } else {
      var first := Calls(bs[0], Recheck(bs[0]));
      Return(s, bs[0]);
      HeadAndTail(bs);
      var rest := ReturnAll(BarrierAfter(s, first), bs[1..]);
      Append(s, first, rest);
      acts := first + rest;
    }
  }

  // ---------------------------------------------------------------- the run that goes wrong

  /** `bs` sleep, the generation is completed, they are readied. */
  ghost predicate Completed(s: Barrier, r: Barrier, bs: seq<Fid>) {
    && Quiet(r) && r.initial == s.initial && r.current == s.initial && r.cycle == !s.cycle && r.gen == s.gen + 1
    && r.phase.Keys == s.phase.Keys
    && (forall f :: f in s.phase ==> r.phase[f] == if f in bs then Inside(s.cycle, s.gen) else s.phase[f])
    && r.mon.cond == [] && r.mon.relocking == s.mon.relocking + Members(bs)
  }

  /** A generation of `bs` and, at the end, `last`. */
  lemma Generation(s: Barrier, bs: seq<Fid>, last: Fid) returns (acts: seq<BarrierAction>)
    requires Quiet(s) && NoDup(bs) && last !in bs && Outside(s, last) && forall f :: f in bs ==> Outside(s, f)
    requires s.current == |bs| + 1 && s.mon.cond == []
    ensures BarrierRun(s, acts) && Completed(s, BarrierAfter(s, acts), bs)
  {
    var a := ArriveAll(s, bs);
    var t := BarrierAfter(s, a);
    assert t.mon.cond == bs;
    Finish(t, last);
    Append(s, a, Calls(last, Body(last)));
    acts := a + Calls(last, Body(last));
  }

  /** A generation after which all but `slow` return. */
  lemma LeaveOneBehind(s: Barrier, slow: Fid, bs: seq<Fid>, last: Fid) returns (acts: seq<BarrierAction>)
    requires Quiet(s) && NoDup([slow] + bs) && last !in [slow] + bs && Outside(s, last)
    requires forall f :: f in [slow] + bs ==> Outside(s, f)
    requires s.current == |bs| + 2 && s.mon.cond == [] && s.mon.relocking == {}
    ensures BarrierRun(s, acts) && Completed(s, BarrierAfter(s, acts), [slow])
  {
    var all := [slow] + bs;
    HeadAndTail(all);
    assert all[1..] == bs;
    var a := Generation(s, all, last);
    var t := BarrierAfter(s, a);
    forall f | f in bs ensures Leaving(t, f) {
      assert f in Members(all) && Outside(s, f);
    }
    var b := ReturnAll(t, bs);
    Append(s, a, b);
    acts := a + b;
    assert Members(all) - Members(bs) == Members([slow]);
    forall f | f in s.phase && f in bs ensures s.phase[f] == Idle { assert Outside(s, f); }
  }

  lemma {:induction false} Enumerate(fibers: set<Fid>) returns (xs: seq<Fid>)
    ensures NoDup(xs) && Members(xs) == fibers && |xs| == |fibers|
  {
    if fibers == {} {
      xs := [];
    } else {
      var f :| f in fibers;
      var ys := Enumerate(fibers - {f});
      assert f !in Members(ys);
      xs := [f] + ys;
      assert Members(xs) == Members(ys) + {f};
    }
  }

  /** One fiber too many, on any barrier for two or more: some run puts a waiter to sleep for a generation that has long
      been completed. */
  lemma TooManyFibers(initial: nat, fibers: set<Fid>) returns (acts: seq<BarrierAction>, slow: Fid)
    requires 2 <= initial < |fibers|
    ensures BarrierRun(BarrierInit(initial, fibers), acts)
    ensures var s := BarrierAfter(BarrierInit(initial, fibers), acts);
            slow in s.phase && s.phase[slow].Inside? && s.phase[slow].gen < s.gen && slow in s.mon.cond
  {
    var s := BarrierInit(initial, fibers);
    var xs := Enumerate(fibers);
    slow := xs[0];
    forall f | f in xs ensures Outside(s, f) { assert f in Members(xs); }
    var bs := xs[1..initial - 1];
    assert [slow] + bs == xs[..initial - 1];
    var a := LeaveOneBehind(s, slow, bs, xs[initial - 1]);
    var t := BarrierAfter(s, a);
    assert Members([slow]) == {slow};
    forall f | f in xs[1..initial + 1] ensures Outside(t, f) { assert f != slow && Outside(s, f); }
    var b := Generation(t, xs[1..initial], xs[initial]);
    var u := BarrierAfter(t, b);
    SleepAgain(u, slow);
    var c := Calls(slow, Recheck(slow));
    Append(t, b, c);
    Append(s, a, b + c);
    acts := a + (b + c);
  }

  /** As many fibers as the barrier was made for, of any number, can meet once and all return. */
  lemma EveryoneReturns(initial: nat, fibers: set<Fid>) returns (acts: seq<BarrierAction>)
    requires 0 < initial == |fibers|
    ensures BarrierRun(BarrierInit(initial, fibers), acts)
    ensures var s := BarrierAfter(BarrierInit(initial, fibers), acts);
            s.gen == 1 && s.mon.cond == [] && s.mon.relocking == {} && forall f :: f in s.phase ==> s.phase[f].Idle?
  {
    var s := BarrierInit(initial, fibers);
    var xs := Enumerate(fibers);
    forall f | f in xs ensures Outside(s, f) { assert f in Members(xs); }
    var bs := xs[..initial - 1];
    var a := Generation(s, bs, xs[initial - 1]);
    var t := BarrierAfter(s, a);
    forall f | f in bs ensures Leaving(t, f) { assert f in Members(bs) && Outside(s, f); }
    var b := ReturnAll(t, bs);
    Append(s, a, b);
    acts := a + b;
  }

  // ---------------------------------------------------------------- exactly when it works

  ghost predicate AlwaysFaithful(initial: nat, fibers: set<Fid>) {
    var s := BarrierInit(initial, fibers);
    forall acts :: BarrierRun(s, acts) ==> AllFaithful(BarrierAfter(s, acts))
  }

  ghost predicate AllFaithful(s: Barrier) {
    forall f :: f in s.phase ==> Faithful(s, f)
  }

  /** On a barrier for one fiber nobody ever waits. */
  lemma {:induction false} AloneNobodyWaits(s: Barrier, acts: seq<BarrierAction>)
    requires s.initial == s.current == 1 && (forall f :: f in s.phase ==> !s.phase[f].Inside?) && BarrierRun(s, acts)
    ensures AllFaithful(BarrierAfter(s, acts))
    decreases |acts|
  {
    if acts != [] {
      AloneNobodyWaits(BarrierNext(s, acts[0]), acts[1..]);
    }
  }

  /** In all runs the boolean stands for the generation exactly when no more fibers take part than the barrier was
      made for, or it was made for one. */
  lemma FaithfulExactly(initial: nat, fibers: set<Fid>)
    requires initial > 0
    ensures AlwaysFaithful(initial, fibers) <==> |fibers| <= initial || initial == 1
  {
    var s := BarrierInit(initial, fibers);
    if initial == 1 {
      forall acts | BarrierRun(s, acts) ensures AllFaithful(BarrierAfter(s, acts)) { AloneNobodyWaits(s, acts); }
    } else if |fibers| <= initial {
      InitInv(initial, fibers);
      forall acts | BarrierRun(s, acts) ensures AllFaithful(BarrierAfter(s, acts)) { BarrierRunInv(s, acts); }
    } else {
      var acts, slow := TooManyFibers(initial, fibers);
      assert !Faithful(BarrierAfter(s, acts), slow);
    }
  }
}
