/** Every program that uses promises and futures: a table of handles and a table of shared states. */
module FutureRuns {
  import opened Seqs
  import opened Mutexes
  import opened SharedStates
  import opened Futures

  type Hid = nat
  type Sid = nat

  /** A fiber inside `wait` or `get` on state `s`. `tmp`: the handle that keeps the state alive inside `future::get`. */
  datatype Call = Call(s: Sid, tmp: Option<Hid>)

  /** New handles are numbered from `next` on. `issued` is history: how many futures `get_future` has returned for a
      state. */
  datatype World<R> = World(handles: map<Hid, Handle<Sid>>, next: Hid, states: map<Sid, State<R>>,
                            issued: map<Sid, nat>, blocked: map<Fid, Call>)

  datatype Action<R> =
    | NewPromise(h: Hid, s: Sid) | NewEmpty(h: Hid, shared: bool)
    | MoveNew(h: Hid, g: Hid) | MoveAssign(h: Hid, g: Hid) | Swap(h: Hid, g: Hid)
    | CopyNew(h: Hid, g: Hid) | CopyAssign(h: Hid, g: Hid) | Share(h: Hid, g: Hid)
    | GetFuture(p: Hid, h: Hid) | SetOutcome(p: Hid, o: Outcome<R>)
    | Wait(f: Fid, h: Hid) | Get(f: Fid, h: Hid, t: Hid) | Retry(f: Fid)
    | Destroy(h: Hid)

  // ---------------------------------------------------------------- steps

  /** A handle that the program can name. */
  ghost predicate User<R>(w: World<R>, h: Hid) {
    h in w.handles && !w.handles[h].Getting?
  }

  ghost predicate SameKind<R>(w: World<R>, h: Hid, g: Hid) {
    && User(w, h) && User(w, g)
    && (w.handles[h].Promise? <==> w.handles[g].Promise?) && (w.handles[h].Future? <==> w.handles[g].Future?)
  }

  ghost predicate Enabled<R>(w: World<R>, a: Action<R>) {
    match a
    case NewPromise(h, s) => h == w.next && s !in w.states
    case NewEmpty(h, _) => h == w.next
    case MoveNew(h, g) => h == w.next && User(w, g)
    case MoveAssign(h, g) => SameKind(w, h, g)
    case Swap(h, g) => SameKind(w, h, g)
    case CopyNew(h, g) => h == w.next && g in w.handles && w.handles[g].Shared?
    case CopyAssign(h, g) => h in w.handles && w.handles[h].Shared? && g in w.handles && w.handles[g].Shared?
    case Share(h, g) => h == w.next && g in w.handles && w.handles[g].Future?
    case GetFuture(p, h) => p in w.handles && w.handles[p].Promise? && h == w.next
    case SetOutcome(p, _) => p in w.handles && w.handles[p].Promise?
    case Wait(f, h) => f !in w.blocked && User(w, h) && !w.handles[h].Promise?
    case Get(f, h, t) => f !in w.blocked && h in w.handles && w.handles[h].Future? && t == w.next
    case Retry(f) => f in w.blocked && w.blocked[f].s in w.states && f !in w.states[w.blocked[f].s].waiters
    case Destroy(h) => User(w, h)
  }

  ghost function Put<R>(w: World<R>, h: Hid, x: Handle<Sid>): World<R> {
    w.(handles := w.handles[h := x], next := if h < w.next then w.next else h + 1)
  }

  /** One more reference to the state of `x`. */
  ghost function AddRef<R>(w: World<R>, x: Handle<Sid>): World<R> {
    if x.st.None? || x.st.value !in w.states then w
    else var u := w.states[x.st.value]; w.(states := w.states[x.st.value := u.(uses := u.uses + 1)])
  }

  /** A handle that has left the table ends. */
  ghost function Drop<R>(w: World<R>, x: Handle<Sid>): World<R> {
    if x.st.None? || x.st.value !in w.states then w
    else w.(states := w.states[x.st.value := Dropped(x.Promise?, w.states[x.st.value])])
  }

  /** Construct `h` from the contents of `g`, seen as `x`. */
  ghost function MoveInto<R>(w: World<R>, h: Hid, g: Hid, x: Handle<Sid>): World<R>
    requires g in w.handles
  {
    Put(Put(w, g, Emptied(w.handles[g])), h, x)
  }

  ghost function SwapStep<R>(w: World<R>, h: Hid, g: Hid): World<R>
    requires h in w.handles && g in w.handles
  {
    Put(Put(w, h, w.handles[g]), g, w.handles[h])
  }

  ghost function CopyStep<R>(w: World<R>, h: Hid, g: Hid): World<R>
    requires g in w.handles
  {
    AddRef(Put(w, h, w.handles[g]), w.handles[g])
  }

  ghost function EndStep<R>(w: World<R>, h: Hid): World<R>
    requires h in w.handles
  {
    Drop(w.(handles := w.handles - {h}), w.handles[h])
  }

  /** One turn of the loop of `wait` by fiber `f`. When it ends, the call returns, and its local pointer goes. */
  ghost function Turn<R>(w: World<R>, f: Fid, c: Call): World<R> {
    if c.s !in w.states then w
    else
      var (u, done) := WaitTurn(w.states[c.s], f);
      if !done then w.(states := w.states[c.s := u], blocked := w.blocked[f := c])
      else
        var v := w.(blocked := w.blocked - {f});
        if c.tmp.None? || c.tmp.value !in w.handles then v
        else Drop(v.(handles := v.handles - {c.tmp.value}), w.handles[c.tmp.value])
  }

  /** A call that throws changes nothing. */
  ghost function Next<R>(w: World<R>, a: Action<R>): World<R>
    requires Enabled(w, a)
  {
    match a
    case NewPromise(h, s) =>
      Put(w, h, Promise(false, Some(s))).(states := w.states[s := State(1, false, None, None, [])],
                                          issued := w.issued[s := 0])
    case NewEmpty(h, shared) => Put(w, h, if shared then Shared(None) else Future(None))
    case MoveNew(h, g) => MoveInto(w, h, g, w.handles[g])
    // assignment: a temporary is constructed, swapped with the target, and ends
    case MoveAssign(h, g) => EndStep(SwapStep(MoveInto(w, w.next, g, w.handles[g]), h, w.next), w.next)
    case CopyAssign(h, g) => EndStep(SwapStep(CopyStep(w, w.next, g), h, w.next), w.next)
    case Swap(h, g) => SwapStep(w, h, g)
    case CopyNew(h, g) => CopyStep(w, h, g)
    case Share(h, g) => if w.handles[g].st.None? then w else MoveInto(w, h, g, Shared(w.handles[g].st))
    case GetFuture(p, h) =>
      var (x, r) := GetFutureCall(w.handles[p]);
      if r.Err? || x.st.value !in w.issued then w
      else AddRef(Put(Put(w, p, x), h, r.value), r.value).(issued := w.issued[x.st.value := w.issued[x.st.value] + 1])
    case SetOutcome(p, o) =>
      var x := w.handles[p];
      if x.st.None? || x.st.value !in w.states then w
      else w.(states := w.states[x.st.value := Set(w.states[x.st.value], o).0])
    case Wait(f, h) => if w.handles[h].st.None? then w else Turn(w, f, Call(w.handles[h].st.value, None))
    case Get(f, h, t) =>
      var st := w.handles[h].st;
      if st.None? then w else Turn(MoveInto(w, t, h, Getting(f, st)), f, Call(st.value, Some(t)))
    case Retry(f) => Turn(w, f, w.blocked[f])
    case Destroy(h) => EndStep(w, h)
  }

  // ---------------------------------------------------------------- counting handles

  /** A promise not yet asked for its future, one that was, a future (in the program or inside `get`), a shared
      future. */
  datatype Kind = Unasked | Asked | Single | Multi

  ghost function KindOf(x: Handle<Sid>): Kind {
    match x
    case Promise(obtained, _) => if obtained then Asked else Unasked
    case Shared(_) => Multi
    case _ => Single
  }

  ghost function Is(x: Handle<Sid>, s: Sid, k: Kind): nat {
    if x.st == Some(s) && KindOf(x) == k then 1 else 0
  }

  ghost function IsAt(m: map<Hid, Handle<Sid>>, h: Hid, s: Sid, k: Kind): nat {
    if h in m then Is(m[h], s, k) else 0
  }

  /** How many handles numbered below `n` are of kind `k` and refer to `s`. */
  ghost function CountBelow(m: map<Hid, Handle<Sid>>, s: Sid, k: Kind, n: nat): nat {
    if n == 0 then 0 else CountBelow(m, s, k, n - 1) + IsAt(m, n - 1, s, k)
  }

  ghost function Count<R>(w: World<R>, s: Sid, k: Kind): nat {
    CountBelow(w.handles, s, k, w.next)
  }

  /** Changing handle `h`, which is there before or after or both. */
  lemma {:induction false} CountChange(m: map<Hid, Handle<Sid>>, l: map<Hid, Handle<Sid>>, h: Hid, s: Sid, k: Kind,
                                       n: nat)
    requires m - {h} == l - {h}
    ensures h < n ==> CountBelow(l, s, k, n) + IsAt(m, h, s, k) == CountBelow(m, s, k, n) + IsAt(l, h, s, k)
    ensures h >= n ==> CountBelow(l, s, k, n) == CountBelow(m, s, k, n)
  {
    if n > 0 {
      CountChange(m, l, h, s, k, n - 1);
      var i := n - 1;
      if i != h {
        assert i in m <==> i in m - {h};
        assert i in l <==> i in l - {h};
        assert i in m ==> m[i] == (m - {h})[i] == l[i];
      }
    }
  }

  lemma CountPut<R>(w: World<R>, h: Hid, x: Handle<Sid>, s: Sid)
    requires h <= w.next && w.next !in w.handles
    ensures forall k {:trigger Count(Put(w, h, x), s, k)} ::
              Count(Put(w, h, x), s, k) + IsAt(w.handles, h, s, k) == Count(w, s, k) + Is(x, s, k)
  {
    forall k ensures Count(Put(w, h, x), s, k) + IsAt(w.handles, h, s, k) == Count(w, s, k) + Is(x, s, k) {
      var l := w.handles[h := x];
      assert w.handles - {h} == l - {h};
      CountChange(w.handles, l, h, s, k, w.next);
    }
  }

  lemma CountWithout<R>(w: World<R>, h: Hid, s: Sid)
    requires h < w.next
    ensures var r := w.(handles := w.handles - {h});
            forall k {:trigger Count(r, s, k)} :: Count(r, s, k) + IsAt(w.handles, h, s, k) == Count(w, s, k)
  {
    var r := w.(handles := w.handles - {h});
    forall k ensures Count(r, s, k) + IsAt(w.handles, h, s, k) == Count(w, s, k) {
      assert w.handles - {h} == r.handles - {h};
      CountChange(w.handles, r.handles, h, s, k, w.next);
    }
  }

  // ---------------------------------------------------------------- invariant

  /** The handles in the table and one more, `x`, a local of the operation under way. */
  ghost function Total<R>(w: World<R>, x: Handle<Sid>, s: Sid, k: Kind): nat {
    Count(w, s, k) + Is(x, s, k)
  }

  ghost predicate StateOk<R>(w: World<R>, x: Handle<Sid>, s: Sid)
    requires s in w.states && s in w.issued
  {
    var unasked, asked := Total(w, x, s, Unasked), Total(w, x, s, Asked);
    var single, multi := Total(w, x, s, Single), Total(w, x, s, Multi);
    var u, n := w.states[s], w.issued[s];
    // `use_count_` is the number of handles
    && u.uses == unasked + asked + single + multi
    // at most one promise, at most one future ever, never a future beside shared futures
    && unasked + asked <= 1 && asked <= n && unasked + n <= 1
    && single <= n && (multi > 0 ==> n == 1 && single == 0)
    // a state that lost its promise is ready
    && (unasked + asked == 0 ==> u.ready)
    && Sound(u)
  }

  ghost predicate Refers<R>(w: World<R>, x: Handle<Sid>) {
    && (x.st.Some? ==> x.st.value in w.states && x.st.value in w.issued)
    && (x.Promise? && x.st.None? ==> !x.obtained)
  }

  ghost predicate HandleOk<R>(w: World<R>, h: Hid)
    requires h in w.handles
  {
    var x := w.handles[h];
    && Refers(w, x)
    && (x.Getting? ==> x.st.Some? && x.f in w.blocked && w.blocked[x.f] == Call(x.st.value, Some(h)))
  }

  /** A fiber inside `wait` or `get` is registered exactly while there is no outcome. */
  ghost predicate BlockedOk<R>(w: World<R>, f: Fid)
    requires f in w.blocked
  {
    var c := w.blocked[f];
    && c.s in w.states && (f in w.states[c.s].waiters <==> !w.states[c.s].ready)
    && (c.tmp.Some? ==> c.tmp.value in w.handles && w.handles[c.tmp.value] == Getting(f, Some(c.s)))
  }

  ghost predicate WaitersOk<R>(w: World<R>, s: Sid)
    requires s in w.states
  {
    && NoDup(w.states[s].waiters)
    && forall f :: f in w.states[s].waiters ==> f in w.blocked && w.blocked[f].s == s
  }

  ghost predicate InvWith<R>(w: World<R>, x: Handle<Sid>) {
    && w.issued.Keys == w.states.Keys && (forall h :: h in w.handles ==> h < w.next)
    && Refers(w, x) && !x.Getting?
    && (forall s {:trigger StateOk(w, x, s)} :: s in w.states ==> StateOk(w, x, s))
    && (forall h {:trigger HandleOk(w, h)} :: h in w.handles ==> HandleOk(w, h))
    && (forall f {:trigger BlockedOk(w, f)} :: f in w.blocked ==> BlockedOk(w, f))
    && (forall s {:trigger WaitersOk(w, s)} :: s in w.states ==> WaitersOk(w, s))
  }

  ghost predicate Inv<R>(w: World<R>) {
    InvWith(w, Future(None))
  }

  // ---------------------------------------------------------------- every step keeps it

  /** Steps that leave the blocked fibers, their local pointers and every waiting list alone, or empty a list by an
      outcome. */
  ghost predicate Calm<R>(w: World<R>, r: World<R>) {
    && r.blocked == w.blocked
    && w.states.Keys <= r.states.Keys
    && (forall s :: s in w.states ==>
          || (r.states[s].waiters == w.states[s].waiters && r.states[s].ready == w.states[s].ready)
          || (r.states[s].waiters == [] && r.states[s].ready))
    && (forall s :: s in r.states && s !in w.states ==> r.states[s].waiters == [])
    && (forall h :: h in w.handles && w.handles[h].Getting? ==> h in r.handles && r.handles[h] == w.handles[h])
    && r.issued.Keys == r.states.Keys && (forall h :: h in r.handles ==> h < r.next)
    && (forall h :: h in r.handles ==>
          || (h in w.handles && r.handles[h] == w.handles[h])
          || (!r.handles[h].Getting? && Refers(r, r.handles[h])))
  }

  lemma CalmKeeps<R>(w: World<R>, r: World<R>, x: Handle<Sid>, y: Handle<Sid>)
    requires InvWith(w, x) && Calm(w, r) && Refers(r, y) && !y.Getting?
    requires forall s {:trigger StateOk(r, y, s)} :: s in r.states ==> StateOk(r, y, s)
    ensures InvWith(r, y)
  {
    forall h | h in r.handles ensures HandleOk(r, h) { if h in w.handles { assert HandleOk(w, h); } }
    forall f | f in r.blocked ensures BlockedOk(r, f) { assert BlockedOk(w, f); }
    forall s | s in r.states ensures WaitersOk(r, s) { if s in w.states { assert WaitersOk(w, s); } }
  }

  /** The local handle and the handle `h` of the table trade places. */
  lemma Exchange<R>(w: World<R>, x: Handle<Sid>, h: Hid)
    requires InvWith(w, x) && User(w, h)
    ensures InvWith(Put(w, h, x), w.handles[h])
  {
    var r, y := Put(w, h, x), w.handles[h];
    assert HandleOk(w, h);
    forall s | s in r.states ensures StateOk(r, y, s) {
      assert StateOk(w, x, s);
      CountPut(w, h, x, s);
      assert forall k {:trigger Total(r, y, s, k)} :: Total(r, y, s, k) == Total(w, x, s, k);
    }
    CalmKeeps(w, r, x, y);
  }

  /** The local handle enters the table. */
  lemma Place<R>(w: World<R>, x: Handle<Sid>)
    requires InvWith(w, x)
    ensures Inv(Put(w, w.next, x))
  {
    var r := Put(w, w.next, x);
    forall s | s in r.states ensures StateOk(r, Future(None), s) {
      assert StateOk(w, x, s);
      CountPut(w, w.next, x, s);
      assert forall k {:trigger Total(r, Future(None), s, k)} :: Total(r, Future(None), s, k) == Total(w, x, s, k);
    }
    CalmKeeps(w, r, x, Future(None));
  }

  /** A handle leaves the table and becomes the local one. */
  lemma Lift<R>(w: World<R>, h: Hid)
    requires Inv(w) && User(w, h)
    ensures InvWith(w.(handles := w.handles - {h}), w.handles[h])
  {
    var r, y := w.(handles := w.handles - {h}), w.handles[h];
    forall s | s in r.states ensures StateOk(r, y, s) {
      assert StateOk(w, Future(None), s);
      CountWithout(w, h, s);
      assert forall k {:trigger Total(r, y, s, k)} :: Total(r, y, s, k) == Total(w, Future(None), s, k);
    }
    assert HandleOk(w, h);
    CalmKeeps(w, r, Future(None), y);
  }

  /** The local handle changes while its books stay balanced. */
  lemma Recast<R>(w: World<R>, x: Handle<Sid>, y: Handle<Sid>)
    requires InvWith(w, x) && x.st == y.st && !y.Getting? && Refers(w, y)
    requires x.st.None? || (x.Future? && y.Shared?)
    ensures InvWith(w, y)
  {
    forall s | s in w.states ensures StateOk(w, y, s) { assert StateOk(w, x, s); }
  }

  lemma DropCounts<R>(w: World<R>, x: Handle<Sid>, s: Sid, k: Kind)
    ensures Total(Drop(w, x), Future(None), s, k) + Is(x, s, k) == Total(w, x, s, k)
  {
  }

  lemma DropState<R>(w: World<R>, x: Handle<Sid>, s: Sid)
    requires s in w.states && s in w.issued && StateOk(w, x, s)
    ensures StateOk(Drop(w, x), Future(None), s)
  {
    DropCounts(w, x, s, Unasked);
    DropCounts(w, x, s, Asked);
    DropCounts(w, x, s, Single);
    DropCounts(w, x, s, Multi);
  }

  lemma DropCalm<R>(w: World<R>, x: Handle<Sid>)
    requires InvWith(w, x)
    ensures Calm(w, Drop(w, x))
  {
    if x.st.Some? { assert StateOk(w, x, x.st.value); }
  }

  /** The local handle ends. */
  lemma DropInv<R>(w: World<R>, x: Handle<Sid>)
    requires InvWith(w, x)
    ensures Inv(Drop(w, x))
  {
    DropCalm(w, x);
    forall s | s in w.states ensures StateOk(Drop(w, x), Future(None), s) {
      assert StateOk(w, x, s);
      DropState(w, x, s);
    }
    CalmKeeps(w, Drop(w, x), x, Future(None));
  }

  lemma CopyState<R>(w: World<R>, g: Hid, s: Sid)
    requires s in w.states && s in w.issued && StateOk(w, Future(None), s)
    requires g in w.handles && g < w.next && w.handles[g].Shared?
    ensures StateOk(AddRef(w, w.handles[g]), w.handles[g], s)
  {
    CountWithout(w, g, s);
    assert Count(w.(handles := w.handles - {g}), s, Multi) + Is(w.handles[g], s, Multi) == Count(w, s, Multi);
  }

  /** A local copy of a shared future. */
  lemma CopyInv<R>(w: World<R>, g: Hid)
    requires Inv(w) && g in w.handles && w.handles[g].Shared?
    ensures InvWith(AddRef(w, w.handles[g]), w.handles[g])
  {
    var x := w.handles[g];
    var r := AddRef(w, x);
    assert HandleOk(w, g);
    forall s | s in r.states ensures StateOk(r, x, s) {
      assert StateOk(w, Future(None), s);
      CopyState(w, g, s);
    }
    CalmKeeps(w, r, Future(None), x);
  }

  /** The contents of `g` move to a new local handle. */
  lemma TakeInv<R>(w: World<R>, g: Hid)
    requires Inv(w) && User(w, g)
    ensures InvWith(Put(w, g, Emptied(w.handles[g])), w.handles[g])
  {
    Recast(w, Future(None), Emptied(w.handles[g]));
    Exchange(w, Emptied(w.handles[g]), g);
  }

  lemma NewEmptyInv<R>(w: World<R>, shared: bool)
    requires Inv(w)
    ensures Inv(Put(w, w.next, if shared then Shared(None) else Future(None)))
  {
    var x: Handle<Sid> := if shared then Shared(None) else Future(None);
    Recast(w, Future(None), x);
    Place(w, x);
  }

  lemma MoveNewInv<R>(w: World<R>, g: Hid)
    requires Inv(w) && User(w, g)
    ensures Inv(MoveInto(w, w.next, g, w.handles[g]))
  {
    TakeInv(w, g);
    Place(Put(w, g, Emptied(w.handles[g])), w.handles[g]);
  }

  lemma CopyNewInv<R>(w: World<R>, g: Hid)
    requires Inv(w) && g in w.handles && w.handles[g].Shared?
    ensures Inv(CopyStep(w, w.next, g))
  {
    CopyInv(w, g);
    Place(AddRef(w, w.handles[g]), w.handles[g]);
  }

  lemma SwapIsThree<R>(w: World<R>, h: Hid, g: Hid)
    requires h in w.handles && g in w.handles && h < w.next && g < w.next
    ensures h == g ==> SwapStep(w, h, g) == w
    ensures h != g ==> Put(Put(Put(w, h, Emptied(w.handles[h])), g, w.handles[h]), h, w.handles[g]) == SwapStep(w, h, g)
  {
    var r, x, y := SwapStep(w, h, g), w.handles[h], w.handles[g];
    if h == g {
      assert r.handles == w.handles;
    } else {
      assert Put(Put(Put(w, h, Emptied(x)), g, x), h, y).handles == r.handles;
    }
  }

  lemma SwapInv<R>(w: World<R>, h: Hid, g: Hid)
    requires Inv(w) && User(w, h) && User(w, g)
    ensures Inv(SwapStep(w, h, g))
  {
    var r, v := SwapStep(w, h, g), Put(w, h, Emptied(w.handles[h]));
    SwapIsThree(w, h, g);
    if h != g {
      TakeInv(w, h);
      Exchange(v, w.handles[h], g);
      Exchange(Put(v, g, w.handles[h]), w.handles[g], h);
      Recast(r, Emptied(w.handles[h]), Future(None));
    }
  }

  lemma EndInv<R>(w: World<R>, h: Hid)
    requires Inv(w) && User(w, h)
    ensures Inv(EndStep(w, h))
  {
    Lift(w, h);
    DropInv(w.(handles := w.handles - {h}), w.handles[h]);
  }

  /** Assignments, also of a handle to itself. */
  lemma AssignInv<R>(w: World<R>, a: Action<R>)
    requires Inv(w) && Enabled(w, a) && (a.MoveAssign? || a.CopyAssign?)
    ensures Inv(Next(w, a))
  {
    var t := w.next;
    var v := if a.MoveAssign? then MoveInto(w, t, a.g, w.handles[a.g]) else CopyStep(w, t, a.g);
    if a.MoveAssign? { MoveNewInv(w, a.g); } else { CopyNewInv(w, a.g); }
    SwapInv(v, a.h, t);
    EndInv(SwapStep(v, a.h, t), t);
  }

  lemma ShareInv<R>(w: World<R>, h: Hid, g: Hid)
    requires Inv(w) && Enabled(w, Share(h, g))
    ensures Inv(Next(w, Share(h, g)))
  {
    var v, st := Put(w, g, Emptied(w.handles[g])), w.handles[g].st;
    if st.Some? {
      TakeInv(w, g);
      Recast(v, w.handles[g], Shared(st));
      Place(v, Shared(st));
    }
  }

  // ---------------------------------------------------------------- promises

  lemma {:induction false} NoHandles(m: map<Hid, Handle<Sid>>, s: Sid, k: Kind, n: nat)
    requires forall h :: h in m ==> m[h].st != Some(s)
    ensures CountBelow(m, s, k, n) == 0
  {
    if n > 0 { NoHandles(m, s, k, n - 1); }
  }

  lemma NewPromiseState<R>(w: World<R>, h: Hid, s: Sid, t: Sid)
    requires Inv(w) && Enabled(w, NewPromise(h, s)) && (t == s || t in w.states)
    ensures StateOk(Next(w, NewPromise(h, s)), Future(None), t)
  {
    var r, x := Next(w, NewPromise(h, s)), Promise(false, Some(s));
    CountPut(w, h, x, t);
    assert forall k {:trigger Count(r, t, k)} :: Count(r, t, k) == Count(Put(w, h, x), t, k);
    if t == s {
      forall g | g in w.handles ensures w.handles[g].st != Some(s) { assert HandleOk(w, g); }
      forall k ensures Count(w, s, k) == 0 { NoHandles(w.handles, s, k, w.next); }
    } else {
      assert StateOk(w, Future(None), t);
    }
  }

  lemma NewPromiseCalm<R>(w: World<R>, h: Hid, s: Sid)
    requires Inv(w) && Enabled(w, NewPromise(h, s))
    ensures Calm(w, Next(w, NewPromise(h, s)))
  {
  }

  lemma NewPromiseInv<R>(w: World<R>, h: Hid, s: Sid)
    requires Inv(w) && Enabled(w, NewPromise(h, s))
    ensures Inv(Next(w, NewPromise(h, s)))
  {
    var r := Next(w, NewPromise(h, s));
    NewPromiseCalm(w, h, s);
    forall t | t in r.states ensures StateOk(r, Future(None), t) { NewPromiseState(w, h, s, t); }
    CalmKeeps(w, r, Future(None), Future(None));
  }

  /** A state that changes in nothing but its outcome and its waiters keeps its books. */
  lemma StateChange<R>(w: World<R>, r: World<R>, s: Sid)
    requires Inv(w) && s in w.states && r.handles == w.handles && r.next == w.next && r.issued == w.issued
    requires s in r.states && r.states[s].uses == w.states[s].uses && Sound(r.states[s])
    requires w.states[s].ready ==> r.states[s].ready
    ensures StateOk(r, Future(None), s)
  {
    assert StateOk(w, Future(None), s);
    assert forall k {:trigger Count(r, s, k)} :: Count(r, s, k) == Count(w, s, k);
  }

  lemma SetOutcomeCalm<R>(w: World<R>, p: Hid, o: Outcome<R>)
    requires Inv(w) && Enabled(w, SetOutcome(p, o))
    ensures Calm(w, Next(w, SetOutcome(p, o)))
  {
  }

  lemma SetOutcomeInv<R>(w: World<R>, p: Hid, o: Outcome<R>)
    requires Inv(w) && Enabled(w, SetOutcome(p, o))
    ensures Inv(Next(w, SetOutcome(p, o)))
  {
    var r := Next(w, SetOutcome(p, o));
    forall s | s in r.states ensures StateOk(r, Future(None), s) {
      assert Sound(w.states[s]) by { assert StateOk(w, Future(None), s); }
      StateChange(w, r, s);
    }
    SetOutcomeCalm(w, p, o);
    CalmKeeps(w, r, Future(None), Future(None));
  }

  lemma GetFutureCounts<R>(w: World<R>, p: Hid, h: Hid, s: Sid)
    requires Inv(w) && Enabled(w, GetFuture(p, h)) && w.handles[p] == Promise(false, Some(s))
    ensures var r := Next(w, GetFuture(p, h));
            && (forall t, k {:trigger Count(r, t, k)} :: t != s ==> Count(r, t, k) == Count(w, t, k))
            && Count(r, s, Unasked) == Count(w, s, Unasked) - 1 && Count(r, s, Asked) == Count(w, s, Asked) + 1
            && Count(r, s, Single) == Count(w, s, Single) + 1 && Count(r, s, Multi) == Count(w, s, Multi)
  {
    assert HandleOk(w, p);
    var r, x, y := Next(w, GetFuture(p, h)), Promise(true, Some(s)), Future(Some(s));
    var v := Put(w, p, x);
    forall t, k ensures Count(r, t, k) + Is(w.handles[p], t, k) == Count(w, t, k) + Is(x, t, k) + Is(y, t, k) {
      CountPut(w, p, x, t);
      CountPut(v, h, y, t);
      assert Count(r, t, k) == Count(Put(v, h, y), t, k);
    }
  }

  lemma GetFutureState<R>(w: World<R>, p: Hid, h: Hid, s: Sid, t: Sid)
    requires Inv(w) && Enabled(w, GetFuture(p, h)) && w.handles[p] == Promise(false, Some(s)) && t in w.states
    ensures StateOk(Next(w, GetFuture(p, h)), Future(None), t)
  {
    assert StateOk(w, Future(None), t);
    GetFutureCounts(w, p, h, s);
  }

  lemma GetFutureCalm<R>(w: World<R>, p: Hid, h: Hid, s: Sid)
    requires Inv(w) && Enabled(w, GetFuture(p, h)) && w.handles[p] == Promise(false, Some(s))
    ensures Calm(w, Next(w, GetFuture(p, h)))
  {
    var r := Next(w, GetFuture(p, h));
    assert HandleOk(w, p);
    var u := w.states[s];
    assert r.handles == w.handles[p := Promise(true, Some(s))][h := Future(Some(s))];
    assert r.states == w.states[s := u.(uses := u.uses + 1)];
  }

  lemma GetFutureInv<R>(w: World<R>, p: Hid, h: Hid)
    requires Inv(w) && Enabled(w, GetFuture(p, h))
    ensures Inv(Next(w, GetFuture(p, h)))
  {
    var r, x := Next(w, GetFuture(p, h)), w.handles[p];
    if x.obtained || x.st.None? {
      assert r == w;
    } else {
      GetFutureCalm(w, p, h, x.st.value);
      forall s | s in r.states ensures StateOk(r, Future(None), s) { GetFutureState(w, p, h, x.st.value, s); }
      CalmKeeps(w, r, Future(None), Future(None));
    }
  }

  // ---------------------------------------------------------------- waiting

  /** Fiber `f` registers on state `s`, inside `wait` or, with a handle of its own, inside `get`. */
  ghost function Registered<R>(w: World<R>, f: Fid, c: Call): World<R>
    requires c.s in w.states
  {
    var u := w.states[c.s];
    w.(states := w.states[c.s := u.(waiters := u.waiters + [f])], blocked := w.blocked[f := c])
  }

  lemma WaitersGrow<R>(w: World<R>, x: Handle<Sid>, f: Fid, c: Call)
    requires InvWith(w, x) && c.s in w.states && f !in w.blocked
    ensures var r := Registered(w, f, c);
            && (forall s {:trigger WaitersOk(r, s)} :: s in r.states ==> WaitersOk(r, s))
            && (!w.states[c.s].ready ==> forall g {:trigger BlockedOk(r, g)} :: g in w.blocked ==> BlockedOk(r, g))
  {
    var r := Registered(w, f, c);
    forall s | s in r.states ensures WaitersOk(r, s) { assert WaitersOk(w, s); }
    if !w.states[c.s].ready {
      forall g | g in w.blocked ensures BlockedOk(r, g) { assert BlockedOk(w, g); }
    }
  }

  lemma RegisterWaitHandles<R>(w: World<R>, f: Fid, s: Sid)
    requires Inv(w) && f !in w.blocked && s in w.states
    ensures var r := Registered(w, f, Call(s, None));
            forall g {:trigger HandleOk(r, g)} :: g in r.handles ==> HandleOk(r, g)
  {
    var r := Registered(w, f, Call(s, None));
    forall g | g in r.handles ensures HandleOk(r, g) { assert HandleOk(w, g); }
  }

  lemma RegisterWait<R>(w: World<R>, f: Fid, s: Sid)
    requires Inv(w) && f !in w.blocked && s in w.states && !w.states[s].ready
    ensures Inv(Registered(w, f, Call(s, None)))
  {
    var r := Registered(w, f, Call(s, None));
    WaitersGrow(w, Future(None), f, Call(s, None));
    forall t | t in r.states ensures StateOk(r, Future(None), t) {
      assert Sound(w.states[t]) by { assert StateOk(w, Future(None), t); }
      StateChange(w, r, t);
    }
    RegisterWaitHandles(w, f, s);
  }

  lemma WaitInv<R>(w: World<R>, f: Fid, h: Hid)
    requires Inv(w) && Enabled(w, Wait(f, h))
    ensures Inv(Next(w, Wait(f, h)))
  {
    var r := Next(w, Wait(f, h));
    assert HandleOk(w, h);
    if w.handles[h].st.None? || w.states[w.handles[h].st.value].ready {
      assert r == w;
    } else {
      RegisterWait(w, f, w.handles[h].st.value);
    }
  }

  /** A number that is never used. */
  lemma SkipId<R>(w: World<R>)
    requires Inv(w)
    ensures Inv(w.(next := w.next + 1))
  {
    var r := w.(next := w.next + 1);
    forall s | s in r.states ensures StateOk(r, Future(None), s) {
      assert StateOk(w, Future(None), s);
      assert forall k {:trigger Count(r, s, k)} :: Count(r, s, k) == Count(w, s, k);
    }
    CalmKeeps(w, r, Future(None), Future(None));
  }

  lemma RegisterGetState<R>(v: World<R>, f: Fid, s: Sid, t: Sid)
    requires InvWith(v, Future(Some(s))) && t in v.states && !v.states[s].ready
    ensures var r := Registered(Put(v, v.next, Getting(f, Some(s))), f, Call(s, Some(v.next)));
            StateOk(r, Future(None), t)
  {
    var x, y := Getting(f, Some(s)), Future(Some(s));
    var r := Registered(Put(v, v.next, x), f, Call(s, Some(v.next)));
    assert StateOk(v, y, t);
    CountPut(v, v.next, x, t);
    forall k ensures Count(r, t, k) == Total(v, y, t, k) {
      assert Count(r, t, k) == Count(Put(v, v.next, x), t, k);
      assert Is(x, t, k) == Is(y, t, k);
    }
  }

  lemma RegisterGetHandles<R>(v: World<R>, f: Fid, s: Sid)
    requires InvWith(v, Future(Some(s))) && f !in v.blocked
    ensures var r := Registered(Put(v, v.next, Getting(f, Some(s))), f, Call(s, Some(v.next)));
            forall g {:trigger HandleOk(r, g)} :: g in r.handles ==> HandleOk(r, g)
  {
    var r := Registered(Put(v, v.next, Getting(f, Some(s))), f, Call(s, Some(v.next)));
    forall g | g in r.handles ensures HandleOk(r, g) { if g in v.handles { assert HandleOk(v, g); } }
  }

  lemma RegisterGetCalls<R>(v: World<R>, f: Fid, s: Sid)
    requires InvWith(v, Future(Some(s))) && f !in v.blocked && !v.states[s].ready
    ensures var r := Registered(Put(v, v.next, Getting(f, Some(s))), f, Call(s, Some(v.next)));
            && (forall t {:trigger WaitersOk(r, t)} :: t in r.states ==> WaitersOk(r, t))
            && (forall g {:trigger BlockedOk(r, g)} :: g in r.blocked ==> BlockedOk(r, g))
  {
    var w, c := Put(v, v.next, Getting(f, Some(s))), Call(s, Some(v.next));
    var r, q := Registered(w, f, c), Registered(v, f, c);
    WaitersGrow(v, Future(Some(s)), f, c);
    forall t | t in r.states ensures WaitersOk(r, t) { assert WaitersOk(q, t); }
    forall g | g in r.blocked ensures BlockedOk(r, g) { if g in v.blocked { assert BlockedOk(q, g); } }
  }

  /** `get` on a state without outcome: the local pointer of the fiber enters the table with it. */
  lemma RegisterGet<R>(v: World<R>, f: Fid, s: Sid)
    requires InvWith(v, Future(Some(s))) && f !in v.blocked && !v.states[s].ready
    ensures Inv(Registered(Put(v, v.next, Getting(f, Some(s))), f, Call(s, Some(v.next))))
  {
    var w, c := Put(v, v.next, Getting(f, Some(s))), Call(s, Some(v.next));
    var r := Registered(w, f, c);
    forall t | t in r.states ensures StateOk(r, Future(None), t) { RegisterGetState(v, f, s, t); }
    RegisterGetHandles(v, f, s);
    RegisterGetCalls(v, f, s);
  }

  /** `get` on a state with an outcome: the local pointer comes and goes. */
  lemma GetAtOnce<R>(w: World<R>, f: Fid, h: Hid, t: Hid, s: Sid)
    requires Inv(w) && Enabled(w, Get(f, h, t)) && w.handles[h].st == Some(s) && s in w.states && w.states[s].ready
    ensures Inv(Next(w, Get(f, h, t)))
  {
    var v, st := Put(w, h, Emptied(w.handles[h])), Some(s);
    TakeInv(w, h);
    DropInv(v, Future(st));
    SkipId(Drop(v, Future(st)));
    assert Put(v, t, Getting(f, st)).handles - {t} == v.handles;
    assert w.blocked - {f} == w.blocked;
    assert Next(w, Get(f, h, t)) == Drop(v, Future(st)).(next := t + 1);
  }

  lemma GetInv<R>(w: World<R>, f: Fid, h: Hid, t: Hid)
    requires Inv(w) && Enabled(w, Get(f, h, t))
    ensures Inv(Next(w, Get(f, h, t)))
  {
    var r, st := Next(w, Get(f, h, t)), w.handles[h].st;
    if st.None? {
      assert r == w;
    } else {
      assert HandleOk(w, h);
      if w.states[st.value].ready {
        GetAtOnce(w, f, h, t, st.value);
      } else {
        TakeInv(w, h);
        RegisterGet(Put(w, h, Emptied(w.handles[h])), f, st.value);
      }
    }
  }

  /** The world without the call of `f`. */
  ghost function Without<R>(w: World<R>, f: Fid): World<R>
    requires f in w.blocked
  {
    var c := w.blocked[f];
    w.(blocked := w.blocked - {f}, handles := if c.tmp.None? then w.handles else w.handles - {c.tmp.value})
  }

  ghost function LocalOf<R>(w: World<R>, f: Fid): Handle<Sid>
    requires f in w.blocked
  {
    if w.blocked[f].tmp.None? then Future(None) else Future(Some(w.blocked[f].s))
  }

  lemma LeaveState<R>(w: World<R>, f: Fid, s: Sid)
    requires Inv(w) && f in w.blocked && s in w.states
    ensures StateOk(Without(w, f), LocalOf(w, f), s)
  {
    var r, x, c := Without(w, f), LocalOf(w, f), w.blocked[f];
    assert StateOk(w, Future(None), s) && BlockedOk(w, f);
    if c.tmp.Some? {
      CountWithout(w, c.tmp.value, s);
      var v := w.(handles := w.handles - {c.tmp.value});
      assert forall k {:trigger Count(r, s, k)} :: Count(r, s, k) == Count(v, s, k);
    } else {
      assert forall k {:trigger Count(r, s, k)} :: Count(r, s, k) == Count(w, s, k);
    }
  }

  lemma LeaveInv<R>(w: World<R>, f: Fid)
    requires Inv(w) && f in w.blocked && w.blocked[f].s in w.states && w.states[w.blocked[f].s].ready
    ensures InvWith(Without(w, f), LocalOf(w, f))
  {
    var r, c := Without(w, f), w.blocked[f];
    assert BlockedOk(w, f);
    forall s | s in r.states ensures StateOk(r, LocalOf(w, f), s) { LeaveState(w, f, s); }
    forall g | g in r.handles ensures HandleOk(r, g) { assert HandleOk(w, g); }
    forall g | g in r.blocked ensures BlockedOk(r, g) { assert BlockedOk(w, g); }
    assert f !in w.states[c.s].waiters;
    forall s | s in r.states ensures WaitersOk(r, s) { assert WaitersOk(w, s); }
  }

  /** A fiber that was readied finds the outcome: its loop in `wait` never goes round twice. */
  lemma RetryInv<R>(w: World<R>, f: Fid)
    requires Inv(w) && Enabled(w, Retry(f))
    ensures w.states[w.blocked[f].s].ready
    ensures Inv(Next(w, Retry(f)))
  {
    assert BlockedOk(w, f);
    LeaveInv(w, f);
    DropInv(Without(w, f), LocalOf(w, f));
    assert Next(w, Retry(f)) == Drop(Without(w, f), LocalOf(w, f));
  }

  lemma NextInv<R>(w: World<R>, a: Action<R>)
    requires Inv(w) && Enabled(w, a)
    ensures Inv(Next(w, a))
  {
    match a
    case NewPromise(h, s) => NewPromiseInv(w, h, s);
    case GetFuture(p, h) => GetFutureInv(w, p, h);
    case SetOutcome(p, o) => SetOutcomeInv(w, p, o);
    case Wait(f, h) => WaitInv(w, f, h);
    case Get(f, h, t) => GetInv(w, f, h, t);
    case Retry(f) => RetryInv(w, f);
    case Swap(h, g) => SwapInv(w, h, g);
    case Share(h, g) => ShareInv(w, h, g);
    case NewEmpty(h, shared) => NewEmptyInv(w, shared);
    case MoveNew(h, g) => MoveNewInv(w, g);
    case CopyNew(h, g) => CopyNewInv(w, g);
    case Destroy(h) => EndInv(w, h);
    case _ => AssignInv(w, a);
  }

  // ---------------------------------------------------------------- runs

  ghost predicate IsRun<R>(w: World<R>, acts: seq<Action<R>>)
    decreases |acts|
  {
    acts != [] ==> Enabled(w, acts[0]) && IsRun(Next(w, acts[0]), acts[1..])
  }

  ghost function After<R>(w: World<R>, acts: seq<Action<R>>): World<R>
    requires IsRun(w, acts)
    decreases |acts|
  {
    if acts == [] then w else After(Next(w, acts[0]), acts[1..])
  }

  ghost function Init<R>(): World<R> {
    World(map[], 0, map[], map[], map[])
  }

  lemma {:induction false} RunInv<R>(w: World<R>, acts: seq<Action<R>>)
    requires Inv(w) && IsRun(w, acts)
    ensures Inv(After(w, acts))
    decreases |acts|
  {
    if acts != [] {
      NextInv(w, acts[0]);
      RunInv(Next(w, acts[0]), acts[1..]);
    }
  }

  ghost predicate SameOutcome<R>(u: State<R>, v: State<R>) {
    v.ready == u.ready && v.value == u.value && v.except == u.except
  }

  lemma EndOutcome<R>(w: World<R>, h: Hid, s: Sid)
    requires h in w.handles && s in w.states && w.states[s].ready
    ensures s in EndStep(w, h).states && SameOutcome(w.states[s], EndStep(w, h).states[s])
  {
  }

  lemma TurnOutcome<R>(w: World<R>, f: Fid, c: Call, s: Sid)
    requires s in w.states && w.states[s].ready
    ensures s in Turn(w, f, c).states && SameOutcome(w.states[s], Turn(w, f, c).states[s])
  {
  }

  lemma OutcomeStays<R>(w: World<R>, a: Action<R>, s: Sid)
    requires Enabled(w, a) && s in w.states && w.states[s].ready
    ensures s in Next(w, a).states && SameOutcome(w.states[s], Next(w, a).states[s])
  {
    match a
    case Wait(f, h) => if w.handles[h].st.Some? { TurnOutcome(w, f, Call(w.handles[h].st.value, None), s); }
    case Get(f, h, t) =>
      var st := w.handles[h].st;
      if st.Some? { TurnOutcome(MoveInto(w, t, h, Getting(f, st)), f, Call(st.value, Some(t)), s); }
    case Retry(f) => TurnOutcome(w, f, w.blocked[f], s);
    case Destroy(h) => EndOutcome(w, h, s);
    case MoveAssign(h, g) => EndOutcome(SwapStep(MoveInto(w, w.next, g, w.handles[g]), h, w.next), w.next, s);
    case CopyAssign(h, g) => EndOutcome(SwapStep(CopyStep(w, w.next, g), h, w.next), w.next, s);
    case _ =>
  }

  /** The first of set_value, set_exception and the end of the promise decides: once there is an outcome it is the same
      after every run, whatever becomes of the handles. */
  lemma {:induction false} OutcomeFixed<R>(w: World<R>, acts: seq<Action<R>>, s: Sid)
    requires IsRun(w, acts) && s in w.states && w.states[s].ready
    ensures s in After(w, acts).states && SameOutcome(w.states[s], After(w, acts).states[s])
    decreases |acts|
  {
    if acts != [] {
      OutcomeStays(w, acts[0], s);
      OutcomeFixed(Next(w, acts[0]), acts[1..], s);
    }
  }

  /** What the step that completes a state stores in it. */
  ghost function Completion<R>(a: Action<R>): Outcome<R> {
    if a.SetOutcome? then a.o else Throws(BrokenPromise)
  }

  ghost predicate Settles<R>(u: State<R>, v: State<R>, o: Outcome<R>) {
    !u.ready && v.ready ==> OutcomeOf(v) == o
  }

  lemma EndSettles<R>(w: World<R>, h: Hid, s: Sid)
    requires h in w.handles && s in w.states && Sound(w.states[s])
    ensures s in EndStep(w, h).states && Settles(w.states[s], EndStep(w, h).states[s], Throws(BrokenPromise))
  {
  }

  lemma TurnSettles<R>(w: World<R>, f: Fid, c: Call, s: Sid)
    requires s in w.states && (c.tmp.Some? && c.tmp.value in w.handles ==> w.handles[c.tmp.value].Getting?)
    ensures s in Turn(w, f, c).states && Turn(w, f, c).states[s].ready == w.states[s].ready
  {
  }

  /** The outcome is what the completing step says: the value or exception set, or the broken promise. So `get` reads an
      empty optional exactly when the state was completed by `set_exception` with a null pointer. */
  lemma CompletionDecides<R>(w: World<R>, a: Action<R>, s: Sid)
    requires Inv(w) && Enabled(w, a) && s in w.states && !w.states[s].ready
    ensures s in Next(w, a).states && Settles(w.states[s], Next(w, a).states[s], Completion(a))
  {
    assert StateOk(w, Future(None), s);
    match a
    case Wait(f, h) => if w.handles[h].st.Some? { TurnSettles(w, f, Call(w.handles[h].st.value, None), s); }
    case Get(f, h, t) =>
      var st := w.handles[h].st;
      if st.Some? { TurnSettles(MoveInto(w, t, h, Getting(f, st)), f, Call(st.value, Some(t)), s); }
    case Retry(f) =>
      assert BlockedOk(w, f);
      TurnSettles(w, f, w.blocked[f], s);
    case Destroy(h) => EndSettles(w, h, s);
    case MoveAssign(h, g) => EndSettles(SwapStep(MoveInto(w, w.next, g, w.handles[g]), h, w.next), w.next, s);
    case CopyAssign(h, g) => EndSettles(SwapStep(CopyStep(w, w.next, g), h, w.next), w.next, s);
    case _ =>
  }

  /** Two handles count twice. */
  lemma {:induction false} CountBoth(m: map<Hid, Handle<Sid>>, s: Sid, k: Kind, n: nat, h: Hid, g: Hid)
    requires h < g
    ensures CountBelow(m, s, k, n) >= (if h < n then IsAt(m, h, s, k) else 0) + if g < n then IsAt(m, g, s, k) else 0
  {
    if n > 0 { CountBoth(m, s, k, n - 1, h, g); }
  }

  ghost function Referring(m: map<Hid, Handle<Sid>>, s: Sid, n: nat): set<Hid> {
    set h | h in m && h < n && m[h].st == Some(s)
  }

  lemma {:induction false} CountAll(m: map<Hid, Handle<Sid>>, s: Sid, n: nat)
    ensures CountBelow(m, s, Unasked, n) + CountBelow(m, s, Asked, n) + CountBelow(m, s, Single, n)
            + CountBelow(m, s, Multi, n) == |Referring(m, s, n)|
  {
    if n > 0 {
      CountAll(m, s, n - 1);
      var a, b := Referring(m, s, n), Referring(m, s, n - 1);
      if n - 1 in m && m[n - 1].st == Some(s) {
        assert a == b + {n - 1};
      } else {
        assert a == b;
      }
    }
  }

  /** Two promises, or two futures, never share a state. */
  lemma Unique<R>(w: World<R>, h: Hid, g: Hid)
    requires Inv(w) && h in w.handles && g in w.handles && w.handles[h].st.Some? && w.handles[h].st == w.handles[g].st
    requires (w.handles[h].Promise? && w.handles[g].Promise?)
             || (KindOf(w.handles[h]).Single? && KindOf(w.handles[g]).Single?)
    ensures h == g
  {
    if h != g {
      var s, a, b := w.handles[h].st.value, if h < g then h else g, if h < g then g else h;
      assert HandleOk(w, h);
      assert StateOk(w, Future(None), s);
      CountBoth(w.handles, s, Unasked, w.next, a, b);
      CountBoth(w.handles, s, Asked, w.next, a, b);
      CountBoth(w.handles, s, Single, w.next, a, b);
    }
  }

  ghost predicate Owns<R>(w: World<R>, p: Hid, s: Sid) {
    p in w.handles && w.handles[p].Promise? && w.handles[p].st == Some(s)
  }

  /** After any sequence of moves, swaps, copies, shares, completions, waits and ends of handles: each state has at
      most one promise, `get_future` succeeded at most once for it, and its use count is the number of handles that
      refer to it; a state with an outcome has no waiters, and one that lost its promise has an outcome. */
  lemma ProgramRuns<R>(acts: seq<Action<R>>)
    requires IsRun(Init(), acts)
    ensures var w: World<R> := After(Init(), acts);
            && (forall h, g, s :: Owns(w, h, s) && Owns(w, g, s) ==> h == g)
            && (forall s :: s in w.states ==>
                  && s in w.issued && w.issued[s] <= 1
                  && w.states[s].uses == |Referring(w.handles, s, w.next)|
                  && (w.states[s].ready ==> w.states[s].waiters == [])
                  && (!w.states[s].ready ==> exists p :: Owns(w, p, s)))
  {
    assert Inv(Init<R>());
    RunInv<R>(Init(), acts);
    var w: World<R> := After(Init(), acts);
    forall h, g, s | Owns(w, h, s) && Owns(w, g, s) ensures h == g { Unique(w, h, g); }
    forall s | s in w.states
      ensures s in w.issued && w.issued[s] <= 1 && w.states[s].uses == |Referring(w.handles, s, w.next)|
      ensures w.states[s].ready ==> w.states[s].waiters == []
      ensures !w.states[s].ready ==> exists p :: Owns(w, p, s)
    {
      assert StateOk(w, Future(None), s);
      CountAll(w.handles, s, w.next);
      if !w.states[s].ready {
        var k := if Count(w, s, Unasked) > 0 then Unasked else Asked;
        var p := Someone(w.handles, s, k, w.next);
        assert Owns(w, p, s);
      }
    }
  }

  lemma {:induction false} Someone(m: map<Hid, Handle<Sid>>, s: Sid, k: Kind, n: nat) returns (h: Hid)
    requires CountBelow(m, s, k, n) > 0
    ensures h in m && m[h].st == Some(s) && KindOf(m[h]) == k
  {
    if IsAt(m, n - 1, s, k) == 1 { h := n - 1; } else { h := Someone(m, s, k, n - 1); }
  }
}
