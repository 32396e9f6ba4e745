/** What each operation on promises and futures does to the handles, to the states and to the fibers that wait. */
module FutureLaws {
  import opened Seqs
  import Mutexes
  import opened SharedStates
  import opened Futures
  import opened FutureRuns

  type Fid = Mutexes.Fid

  // ---------------------------------------------------------------- handles

  /** Only the handles in `hs` may differ. */
  ghost predicate OnlyHandles<R>(w: World<R>, r: World<R>, hs: set<Hid>) {
    && (forall i :: i in w.handles && i !in hs ==> i in r.handles && r.handles[i] == w.handles[i])
    && (forall i :: i in r.handles && i !in hs ==> i in w.handles)
  }

  ghost predicate Holds<R>(r: World<R>, h: Hid, x: Handle<Sid>) {
    h in r.handles && r.handles[h] == x
  }

  /** The handle is of the same kind as before, and refers to nothing. */
  ghost predicate Vacated<R>(w: World<R>, r: World<R>, h: Hid) {
    && h in w.handles && h in r.handles && r.handles[h].st == None
    && (w.handles[h].Promise? <==> r.handles[h].Promise?) && (w.handles[h].Future? <==> r.handles[h].Future?)
    && (w.handles[h].Shared? <==> r.handles[h].Shared?)
    && (r.handles[h].Promise? ==> !r.handles[h].obtained)
  }

  /** Construction: the new handle and no other. Moving and sharing leave the old one without a state, copying leaves
      it as it is; `get_future` gives one future, to a promise that was not asked before. */
  lemma ConstructsExactly<R>(w: World<R>, a: Action<R>)
    requires Inv(w) && Enabled(w, a)
    ensures var r := Next(w, a);
            match a
            case NewPromise(h, s) =>
              && Holds(r, h, Promise(false, Some(s))) && OnlyHandles(w, r, {h})
              && s in r.states && Given(r.states[s]) == None
            case NewEmpty(h, shared) =>
              Holds(r, h, if shared then Shared(None) else Future(None)) && OnlyHandles(w, r, {h})
            case MoveNew(h, g) => Holds(r, h, w.handles[g]) && Vacated(w, r, g) && OnlyHandles(w, r, {h, g})
            case CopyNew(h, g) => Holds(r, h, w.handles[g]) && OnlyHandles(w, r, {h})
            case Share(h, g) =>
              if w.handles[g].st == None then r == w
              else Holds(r, h, Shared(w.handles[g].st)) && Vacated(w, r, g) && OnlyHandles(w, r, {h, g})
            case GetFuture(p, h) =>
              if w.handles[p].obtained || w.handles[p].st == None then r == w
              else Holds(r, h, Future(w.handles[p].st)) && Holds(r, p, Promise(true, w.handles[p].st))
                   && OnlyHandles(w, r, {h, p})
            case _ => true
  {
    match a
    case GetFuture(p, h) => assert HandleOk(w, p);
    case _ =>
  }

  /** Assigning by moving gives the target what the source had and leaves the source without a state; a handle assigned
      to itself keeps what it has. */
  lemma MoveAssignExactly<R>(w: World<R>, h: Hid, g: Hid)
    requires Inv(w) && Enabled(w, MoveAssign(h, g))
    ensures var r := Next(w, MoveAssign(h, g));
            if h == g then OnlyHandles(w, r, {})
            else Holds(r, h, w.handles[g]) && Vacated(w, r, g) && OnlyHandles(w, r, {h, g})
  {
  }

  /** Swapping trades two contents, assigning by copying gives the target what the source has, and the end of a handle
      removes it. A fiber inside `get` has taken the reference with it. */
  lemma AssignsExactly<R>(w: World<R>, a: Action<R>)
    requires Inv(w) && Enabled(w, a)
    ensures var r := Next(w, a);
            match a
            case Swap(h, g) => Holds(r, h, w.handles[g]) && Holds(r, g, w.handles[h]) && OnlyHandles(w, r, {h, g})
            case CopyAssign(h, g) => Holds(r, h, w.handles[g]) && OnlyHandles(w, r, {h})
            case Destroy(h) => h !in r.handles && OnlyHandles(w, r, {h})
            case SetOutcome(_, _) => r.handles == w.handles
            case Wait(_, _) => r.handles == w.handles
            case Get(f, h, t) => Vacated(w, r, h) && OnlyHandles(w, r, {h, t})
            case _ => true
  {
    match a
    case Get(f, h, t) =>
      assert HandleOk(w, h);
    case _ =>
  }

  // ---------------------------------------------------------------- outcomes

  ghost predicate PromiseOf<R>(w: World<R>, p: Hid, s: Sid) {
    p in w.handles && w.handles[p].Promise? && w.handles[p].st == Some(s)
  }

  /** The promise of `s` ends: by its destructor, or because another one is assigned to it. */
  ghost predicate EndsPromise<R>(w: World<R>, a: Action<R>, s: Sid) {
    (a.Destroy? && PromiseOf(w, a.h, s)) || (a.MoveAssign? && a.h != a.g && PromiseOf(w, a.h, s))
  }

  ghost predicate Completes<R>(w: World<R>, a: Action<R>, s: Sid) {
    (a.SetOutcome? && PromiseOf(w, a.p, s)) || EndsPromise(w, a, s)
  }

  lemma EndReady<R>(w: World<R>, h: Hid, s: Sid)
    requires h in w.handles && s in w.states
    ensures s in EndStep(w, h).states && (EndStep(w, h).states[s].ready <==> w.states[s].ready || PromiseOf(w, h, s))
  {
  }

  lemma AssignReady<R>(w: World<R>, a: Action<R>, s: Sid)
    requires Inv(w) && Enabled(w, a) && s in w.states && (a.MoveAssign? || a.CopyAssign?)
    ensures s in Next(w, a).states && (Next(w, a).states[s].ready <==> w.states[s].ready || Completes(w, a, s))
  {
    var t := w.next;
    var v := if a.MoveAssign? then MoveInto(w, t, a.g, w.handles[a.g]) else CopyStep(w, t, a.g);
    var u := SwapStep(v, a.h, t);
    EndReady(u, t, s);
    assert u.handles[t] == v.handles[a.h];
  }

  lemma ReadyExactly<R>(w: World<R>, a: Action<R>, s: Sid)
    requires Inv(w) && Enabled(w, a) && s in w.states
    ensures s in Next(w, a).states && (Next(w, a).states[s].ready <==> w.states[s].ready || Completes(w, a, s))
  {
    match a
    case Wait(f, h) => if w.handles[h].st.Some? { TurnSettles(w, f, Call(w.handles[h].st.value, None), s); }
    case Get(f, h, t) =>
      var st := w.handles[h].st;
      if st.Some? { TurnSettles(MoveInto(w, t, h, Getting(f, st)), f, Call(st.value, Some(t)), s); }
    case Retry(f) =>
      assert BlockedOk(w, f);
      TurnSettles(w, f, w.blocked[f], s);
    case Destroy(h) => EndReady(w, h, s);
    case MoveAssign(h, g) => AssignReady(w, a, s);
    case CopyAssign(h, g) => AssignReady(w, a, s);
    case _ =>
  }

  /** What there is to read in a state after a step: what was there before; else what `set_value` or `set_exception` on
      its promise has stored; else, if its promise has ended, the broken promise; else nothing yet. */
  lemma GivenExactly<R>(w: World<R>, a: Action<R>, s: Sid)
    requires Inv(w) && Enabled(w, a) && s in w.states
    ensures s in Next(w, a).states
    ensures Given(Next(w, a).states[s]) ==
            if w.states[s].ready then Some(OutcomeOf(w.states[s]))
            else if a.SetOutcome? && PromiseOf(w, a.p, s) then Some(a.o)
            else if EndsPromise(w, a, s) then Some(Throws(BrokenPromise)) else None
  {
    ReadyExactly(w, a, s);
    if w.states[s].ready { OutcomeStays(w, a, s); } else { CompletionDecides(w, a, s); }
  }

  /** `set_value` and `set_exception` on a promise that has a state: afterwards there is an outcome, the one asked for
      unless there was one before; every fiber that waits for it may go on; and no other state is concerned. The error
      tells the cases apart. */
  lemma SetOutcomeExactly<R>(w: World<R>, p: Hid, o: Outcome<R>, s: Sid)
    requires Inv(w) && Enabled(w, SetOutcome(p, o)) && PromiseOf(w, p, s)
    ensures s in w.states && (Set(w.states[s], o).1 == if w.states[s].ready then Some(AlreadySatisfied) else None)
    ensures var r := Next(w, SetOutcome(p, o));
            && s in r.states && Given(r.states[s]) == Some(if w.states[s].ready then OutcomeOf(w.states[s]) else o)
            && (forall f :: f in w.blocked && w.blocked[f].s == s ==> Enabled(r, Retry(f)))
            && r.states.Keys == w.states.Keys && (forall t :: t in w.states && t != s ==> r.states[t] == w.states[t])
            && r.handles == w.handles && r.blocked == w.blocked && r.issued == w.issued
  {
    assert HandleOk(w, p);
    var r := Next(w, SetOutcome(p, o));
    GivenExactly(w, SetOutcome(p, o), s);
    SetOutcomeInv(w, p, o);
    forall f | f in w.blocked && w.blocked[f].s == s ensures Enabled(r, Retry(f)) { assert BlockedOk(r, f); }
  }

  // ---------------------------------------------------------------- waiting

  /** `f` is suspended on `s`, the last one registered there. */
  ghost predicate Suspends<R>(w: World<R>, r: World<R>, f: Fid, s: Sid) {
    && f in r.blocked && r.blocked[f].s == s
    && (forall g :: g in w.blocked ==> g in r.blocked && (g != f ==> r.blocked[g] == w.blocked[g]))
    && s in w.states && s in r.states && r.states[s].waiters == w.states[s].waiters + [f]
  }

  /** A call of `wait` returns at once, and leaves no trace, exactly if there is an outcome; otherwise its fiber is
      suspended. */
  lemma WaitExactly<R>(w: World<R>, f: Fid, h: Hid)
    requires Inv(w) && Enabled(w, Wait(f, h))
    ensures var r, st := Next(w, Wait(f, h)), w.handles[h].st;
            if st == None then r == w
            else st.value in w.states && if w.states[st.value].ready then r == w else Suspends(w, r, f, st.value)
  {
    assert HandleOk(w, h);
  }

  /** So does `get`, which takes the reference from its future in any case. */
  lemma GetExactly<R>(w: World<R>, f: Fid, h: Hid, t: Hid)
    requires Inv(w) && Enabled(w, Get(f, h, t))
    ensures var r, st := Next(w, Get(f, h, t)), w.handles[h].st;
            if st == None then r == w
            else && Vacated(w, r, h) && st.value in w.states
                 && if w.states[st.value].ready then r.blocked == w.blocked && t !in r.handles
                    else Suspends(w, r, f, st.value) && r.blocked[f].tmp == Some(t) && Holds(r, t, Getting(f, st))
  {
    assert HandleOk(w, h);
    assert w.blocked - {f} == w.blocked;
  }

  /** A suspended call that goes on is over: it finds the outcome, its local pointer ends, and no other call is
      concerned. */
  lemma RetryExactly<R>(w: World<R>, f: Fid)
    requires Inv(w) && Enabled(w, Retry(f))
    ensures var r, c := Next(w, Retry(f)), w.blocked[f];
            && w.states[c.s].ready && r.blocked == w.blocked - {f}
            && (c.tmp.Some? ==> c.tmp.value !in r.handles)
  {
    RetryInv(w, f);
    assert BlockedOk(w, f);
  }

  // ---------------------------------------------------------------- whole programs

  /** Reading a state that has the outcome `o`: nobody waits for it, whoever asks is answered at once, and whoever
      waited goes on and is answered. */
  ghost predicate Answers<R(!new)>(w: World<R>, s: Sid, o: Outcome<R>) {
    && s in w.states && Given(w.states[s]) == Some(o)
    && (forall f, h :: Enabled(w, Wait(f, h)) && w.handles[h].st == Some(s) ==> f !in Next(w, Wait(f, h)).blocked)
    && (forall f, h, t ::
          Enabled(w, Get(f, h, t)) && w.handles[h].st == Some(s) ==> f !in Next(w, Get(f, h, t)).blocked)
    && (forall f :: f in w.blocked && w.blocked[f].s == s ==>
          Enabled(w, Retry(f)) && f !in Next(w, Retry(f)).blocked)
  }

  lemma ReadyAnswers<R(!new)>(w: World<R>, s: Sid)
    requires Inv(w) && s in w.states && w.states[s].ready
    ensures Answers(w, s, OutcomeOf(w.states[s]))
  {
    forall f, h | Enabled(w, Wait(f, h)) && w.handles[h].st == Some(s) ensures f !in Next(w, Wait(f, h)).blocked {
      WaitExactly(w, f, h);
    }
    forall f, h, t | Enabled(w, Get(f, h, t)) && w.handles[h].st == Some(s)
      ensures f !in Next(w, Get(f, h, t)).blocked
    {
      GetExactly(w, f, h, t);
    }
    forall f | f in w.blocked && w.blocked[f].s == s ensures Enabled(w, Retry(f)) && f !in Next(w, Retry(f)).blocked {
      assert BlockedOk(w, f);
      RetryExactly(w, f);
    }
  }

  /** After the first `set_value` or `set_exception` on a promise, whatever the program does with its handles, every
      call of `wait` or `get` on that state, begun before or later, gives what was set. */
  lemma SetOutcomeServes<R(!new)>(w: World<R>, p: Hid, o: Outcome<R>, s: Sid, acts: seq<Action<R>>)
    requires Inv(w) && Enabled(w, SetOutcome(p, o)) && PromiseOf(w, p, s) && s in w.states && !w.states[s].ready
    requires IsRun(Next(w, SetOutcome(p, o)), acts)
    ensures Answers(After(Next(w, SetOutcome(p, o)), acts), s, o)
  {
    var r := Next(w, SetOutcome(p, o));
    SetOutcomeExactly(w, p, o, s);
    SetOutcomeInv(w, p, o);
    RunInv(r, acts);
    OutcomeFixed(r, acts, s);
    ReadyAnswers(After(r, acts), s);
  }
}
