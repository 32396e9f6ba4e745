/** Promises and futures as objects: every operation, done on the pointers and counters, is one step of `FutureRuns`. */
module FutureObjects {
  import opened Seqs
  import Mutexes
  import opened SharedStates
  import opened Futures
  import Runs = FutureRuns

  type Fid = Mutexes.Fid
  type Hid = Runs.Hid
  type Sid = Runs.Sid

  datatype Sort = PromiseSort | FutureSort | SharedSort | LocalSort(f: Fid)

  /** A promise, a future, a shared future, or the local pointer of `future::get`: a pointer to a state and, of use
      for a promise only, whether its future was taken. The three classes of the code repeat the same pointer
      operations. */
  class HandleObject<R> {
    const sort: Sort
    var obtained: bool
    var state: SharedState?<R>
    /** Its number in the table of handles. */
    ghost const id: Hid

    ghost function View(): Handle<Sid>
      reads this
    {
      var st := if state == null then None else Some(state.id);
      match sort
      case PromiseSort => Promise(obtained, st)
      case FutureSort => Future(st)
      case SharedSort => Shared(st)
      case LocalSort(f) => Getting(f, st)
    }

    constructor (sort: Sort, state: SharedState?<R>, ghost id: Hid)
      ensures this.sort == sort && this.id == id && !obtained && this.state == state
    {
      this.sort, this.id := sort, id;
      this.obtained, this.state := false, state;
    }

    method Swap(other: HandleObject<R>)
      modifies this, other
      ensures obtained == old(other.obtained) && state == old(other.state)
      ensures other.obtained == old(obtained) && other.state == old(state)
    {
      obtained, other.obtained := other.obtained, obtained;
      state, other.state := other.state, state;
    }
  }

  /** The shared states of a program, by number. */
  class StateTable<R> {
    ghost var sts: map<Sid, SharedState<R>>
    ghost var states: map<Sid, State<R>>

    ghost predicate Knows(u: SharedState<R>)
      reads this
    {
      u.id in sts && sts[u.id] == u
    }

    ghost predicate Tied(s: Sid)
      requires s in sts && s in states
      reads this, sts[s], sts[s].waiters
    {
      sts[s].id == s && sts[s].View() == states[s]
    }

    ghost predicate Apart(s: Sid, t: Sid)
      requires s in sts && t in sts
      reads this
    {
      s != t ==> sts[s].waiters != sts[t].waiters
    }

    ghost function Repr(): set<object>
      reads this
    {
      sts.Values + set s | s in sts :: sts[s].waiters
    }

    ghost predicate Valid()
      reads this, Repr()
    {
      && sts.Keys == states.Keys
      && (forall s {:trigger Tied(s)} :: s in sts ==> Tied(s))
      && (forall s, t {:trigger Apart(s, t)} :: s in sts && t in sts ==> Apart(s, t))
    }

    constructor ()
      ensures Valid() && sts == map[] && states == map[]
    {
      sts, states := map[], map[];
    }

    /** A new state, with one reference. */
    method Create(ghost s: Sid) returns (u: SharedState<R>)
      requires Valid() && s !in sts
      modifies this
      ensures Valid() && fresh(u) && fresh(u.waiters) && u.id == s && sts == old(sts)[s := u]
      ensures states == old(states)[s := State(1, false, None, None, [])]
    {
      u := new SharedState(s);
      u.AddRef();
      sts, states := sts[s := u], states[s := u.View()];
      forall t | t in sts ensures Tied(t) { assert t != s ==> old(Tied(t)); }
      forall t, x | t in sts && x in sts ensures Apart(t, x) {
        assert t != s ==> old(Tied(t));
        assert x != s ==> old(Tied(x));
        assert t != s && x != s ==> old(Apart(t, x));
      }
    }

    /** The table follows a change of state `u` alone. */
    ghost method Record(u: SharedState<R>)
      requires Knows(u) && sts.Keys == states.Keys
      requires forall s {:trigger Tied(s)} :: s in sts && s != u.id ==> Tied(s)
      requires forall s, t {:trigger Apart(s, t)} :: s in sts && t in sts ==> Apart(s, t)
      modifies `states
      ensures Valid() && states == old(states)[u.id := u.View()]
    {
      states := states[u.id := u.View()];
      forall s | s in sts ensures Tied(s) { assert s != u.id ==> old(Tied(s)); }
      forall s, t | s in sts && t in sts ensures Apart(s, t) { assert old(Apart(s, t)); }
    }

    method AddRef(u: SharedState<R>)
      requires Valid() && Knows(u)
      modifies `states, u
      ensures Valid() && states == old(states)[u.id := old(states)[u.id].(uses := old(states)[u.id].uses + 1)]
    {
      assert Tied(u.id);
      u.AddRef();
      forall s | s in sts && s != u.id ensures Tied(s) { assert old(Tied(s)); }
      Record(u);
    }

    /** The end of a handle. */
    method Drop(u: SharedState<R>, promise: bool)
      requires Valid() && Knows(u)
      modifies `states, u, u.waiters
      ensures Valid() && states == old(states)[u.id := Dropped(promise, old(states)[u.id])]
    {
      assert Tied(u.id);
      if promise {
        u.OwnerDestroyedOf();
      }
      var last := u.Release();
      forall s | s in sts && s != u.id ensures Tied(s) { assert old(Tied(s)) && Apart(s, u.id); }
      Record(u);
    }

    method SetOutcome(u: SharedState<R>, o: Outcome<R>) returns (error: Option<Error>)
      requires Valid() && Knows(u)
      modifies `states, u, u.waiters
      ensures Valid() && states == old(states)[u.id := Set(old(states)[u.id], o).0]
      ensures error == Set(old(states)[u.id], o).1
    {
      assert Tied(u.id);
      var readied;
      match o {
        case Returns(v) => error, readied := u.SetValue(v);
        case Throws(e) => error, readied := u.SetException(Some(e));
        case Nothing => error, readied := u.SetException(None);
      }
      forall s | s in sts && s != u.id ensures Tied(s) { assert old(Tied(s)) && Apart(s, u.id); }
      Record(u);
    }

    method WaitOn(u: SharedState<R>, f: Fid) returns (done: bool)
      requires Valid() && Knows(u) && f !in states[u.id].waiters
      modifies `states, u.waiters
      ensures Valid() && states == old(states)[u.id := WaitTurn(old(states)[u.id], f).0]
      ensures done == WaitTurn(old(states)[u.id], f).1
    {
      assert Tied(u.id);
      done := u.WaitTurnOf(f);
      forall s | s in sts && s != u.id ensures Tied(s) { assert old(Tied(s)) && Apart(s, u.id); }
      Record(u);
    }
  }

  /** A fiber suspended inside `wait` or `get`: the state, and the local pointer of `get`. */
  datatype Suspended<R> = Suspended(state: SharedState<R>, tmp: HandleObject?<R>)

  /** All handles and states of a program. */
  class Program<R> {
    const table: StateTable<R>
    var calls: map<Fid, Suspended<R>>
    ghost var objs: map<Hid, HandleObject<R>>
    ghost var handles: map<Hid, Handle<Sid>>
    ghost var next: Hid
    ghost var issued: map<Sid, nat>
    ghost var blocked: map<Fid, Runs.Call>

    /** What the model says of this program. */
    ghost function W(): Runs.World<R>
      reads `handles, `next, `issued, `blocked, table`states
    {
      Runs.World(handles, next, table.states, issued, blocked)
    }

    ghost predicate Has(a: HandleObject<R>)
      reads `objs
    {
      a.id in objs && objs[a.id] == a
    }

    /** `a` has joined the handles that were there. */
    ghost predicate Joined(a: HandleObject<R>, before: map<Hid, HandleObject<R>>)
      reads `objs
    {
      a.id !in before && objs == before[a.id := a]
    }

    ghost predicate Known(u: SharedState?<R>)
      reads table`sts
    {
      u != null ==> u.id in table.sts && table.sts[u.id] == u
    }

    ghost predicate Tied(h: Hid)
      requires h in objs && h in handles
      reads `objs, `handles, table`sts, objs[h]
    {
      objs[h].id == h && objs[h].View() == handles[h] && Known(objs[h].state)
    }

    ghost predicate HandlesOk()
      reads `objs, `handles, table`sts, objs.Values
    {
      objs.Keys == handles.Keys && forall h {:trigger Tied(h)} :: h in objs ==> Tied(h)
    }

    ghost predicate CallTied(f: Fid)
      requires f in calls && f in blocked
      reads `calls, `blocked, `objs, table`sts
    {
      var c, b := calls[f], blocked[f];
      && Known(c.state) && c.state.id == b.s
      && (if c.tmp == null then b.tmp.None? else Has(c.tmp) && b.tmp == Some(c.tmp.id) && c.tmp.sort == LocalSort(f))
    }

    ghost predicate CallsOk()
      reads `calls, `blocked, `objs, table`sts
    {
      calls.Keys == blocked.Keys && forall f {:trigger CallTied(f)} :: f in calls ==> CallTied(f)
    }

    ghost predicate Numbered()
      reads `objs, `next, `issued, table`sts
    {
      (forall h :: h in objs ==> h < next) && (forall s :: s in table.sts ==> s < next) && issued.Keys == table.sts.Keys
    }

    ghost predicate Valid()
      reads this, objs.Values, table, table.Repr()
    {
      table.Valid() && HandlesOk() && CallsOk() && Numbered()
    }

    constructor ()
      ensures Valid() && W() == Runs.Init()
    {
      table := new StateTable();
      calls, objs := map[], map[];
      handles, next, issued, blocked := map[], 0, map[], map[];
    }

    // -------------------------------------------------------------- handles

    /** A new handle enters the table. */
    ghost method Enlist(a: HandleObject<R>)
      requires table.Valid() && HandlesOk() && CallsOk() && a.id == next && Known(a.state)
      requires (forall h :: h in objs ==> h < next) && (forall s :: s in table.sts ==> s <= next)
      requires issued.Keys == table.sts.Keys
      modifies `handles, `next, `objs
      ensures Valid() && W() == Runs.Put(old(W()), a.id, a.View()) && objs == old(objs)[a.id := a]
    {
      objs := objs[a.id := a];
      handles, next := handles[a.id := a.View()], next + 1;
      forall h | h in objs ensures Tied(h) { assert h != a.id ==> old(Tied(h)); }
      forall f | f in calls ensures CallTied(f) { assert old(CallTied(f)); }
    }

    method Make(sort: Sort, u: SharedState?<R>) returns (a: HandleObject<R>)
      requires Valid() && Known(u)
      modifies `handles, `next, `objs
      ensures Valid() && fresh(a) && a.id == old(next) && a.sort == sort && a.state == u && !a.obtained
      ensures Joined(a, old(objs)) && W() == Runs.Put(old(W()), a.id, a.View())
    {
      a := new HandleObject(sort, u, next);
      Enlist(a);
    }

    method NewEmpty(sort: Sort) returns (a: HandleObject<R>)
      requires Valid() && (sort.FutureSort? || sort.SharedSort?)
      modifies `handles, `next, `objs
      ensures Valid() && fresh(a) && Has(a) && a.id == old(next) && a.sort == sort
      ensures W() == Runs.Next(old(W()), Runs.NewEmpty(a.id, sort.SharedSort?))
    {
      a := Make(sort, null);
    }

    /** A new state, numbered like the handle that is to refer to it. */
    method NewState() returns (u: SharedState<R>)
      requires Valid()
      modifies `issued, table
      ensures table.Valid() && HandlesOk() && CallsOk() && fresh(u) && fresh(u.waiters) && Known(u) && u.id == next
      ensures table.sts.Keys == old(table.sts).Keys + {next} && issued == old(issued)[next := 0]
      ensures table.states == old(table.states)[next := State(1, false, None, None, [])]
    {
      u := table.Create(next);
      issued := issued[next := 0];
      forall h | h in objs ensures Tied(h) { assert old(Tied(h)); }
      forall f | f in calls ensures CallTied(f) { assert old(CallTied(f)); }
    }

    method NewPromise() returns (a: HandleObject<R>)
      requires Valid()
      modifies `handles, `next, `objs, `issued, table
      ensures Valid() && fresh(a) && Has(a) && a.id == old(next) && a.sort == PromiseSort
      ensures W() == Runs.Next(old(W()), Runs.NewPromise(a.id, a.id))
    {
      var u := NewState();
      a := new HandleObject(PromiseSort, u, next);
      Enlist(a);
    }

    /** Two handles trade their contents. */
    method Exchange(a: HandleObject<R>, b: HandleObject<R>)
      requires Valid() && Has(a) && Has(b)
      modifies `handles, a, b
      ensures Valid() && W() == Runs.Put(Runs.Put(old(W()), a.id, a.View()), b.id, b.View())
      ensures a.obtained == old(b.obtained) && a.state == old(b.state)
      ensures b.obtained == old(a.obtained) && b.state == old(a.state)
    {
      assert Tied(a.id) && Tied(b.id);
      a.Swap(b);
      handles := handles[a.id := a.View()][b.id := b.View()];
      forall h | h in objs ensures Tied(h) { assert old(Tied(h)); }
    }

    method Swap(a: HandleObject<R>, b: HandleObject<R>)
      requires Valid() && Has(a) && Has(b) && a.sort == b.sort && Runs.Enabled(W(), Runs.Swap(a.id, b.id))
      modifies `handles, a, b
      ensures Valid() && W() == Runs.Next(old(W()), Runs.Swap(a.id, b.id))
      ensures a.state == old(b.state) && b.state == old(a.state)
    {
      assert Tied(a.id) && Tied(b.id);
      Exchange(a, b);
    }

    /** Construction by moving: an empty handle that trades with the other one. */
    method Take(g: HandleObject<R>, sort: Sort) returns (a: HandleObject<R>)
      requires Valid() && Has(g) && (g.sort == sort || (!g.sort.PromiseSort? && !sort.PromiseSort?))
      modifies `handles, `next, `objs, g
      ensures Valid() && fresh(a) && a.id == old(next) && a.sort == sort && Joined(a, old(objs))
      ensures W() == Runs.Put(Runs.Put(old(W()), g.id, g.View()), a.id, a.View())
      ensures a.state == old(g.state) && a.obtained == old(g.obtained) && g.state == null && !g.obtained
    {
      a := Make(sort, null);
      ghost var d := a.View();
      Exchange(a, g);
      PutTwice(old(handles), a.id, g.id, d, g.View(), a.View());
    }

    method MoveNew(g: HandleObject<R>) returns (a: HandleObject<R>)
      requires Valid() && Has(g) && Runs.Enabled(W(), Runs.MoveNew(next, g.id))
      modifies `handles, `next, `objs, g
      ensures Valid() && fresh(a) && Has(a) && a.id == old(next) && a.sort == g.sort
      ensures W() == Runs.Next(old(W()), Runs.MoveNew(a.id, g.id))
    {
      assert Tied(g.id);
      a := Take(g, g.sort);
    }

    /** `share`. */
    method Share(g: HandleObject<R>) returns (r: Result<HandleObject<R>>)
      requires Valid() && Has(g) && Runs.Enabled(W(), Runs.Share(next, g.id))
      modifies `handles, `next, `objs, g
      ensures Valid() && W() == Runs.Next(old(W()), Runs.Share(old(next), g.id))
      ensures r.Err? <==> old(g.state) == null
      ensures r.Ok? ==> fresh(r.value) && Has(r.value) && r.value.id == old(next) && r.value.sort.SharedSort?
    {
      assert Tied(g.id);
      if g.state == null {
        return Err(FutureUninitialized);
      }
      var a := Take(g, SharedSort);
      return Ok(a);
    }

    /** The state that handle `a` refers to, if any, gets one more reference. */
    method AddRef(a: HandleObject<R>)
      requires Valid() && Known(a.state)
      modifies table`states, if a.state == null then {} else {a.state}
      ensures Valid() && W() == Runs.AddRef(old(W()), a.View())
    {
      if a.state != null {
        table.AddRef(a.state);
      }
    }

    /** A handle that has left the table ends. */
    method Drop(a: HandleObject<R>)
      requires Valid() && Known(a.state)
      modifies table`states, if a.state == null then {} else {a.state, a.state.waiters}
      ensures Valid() && W() == Runs.Drop(old(W()), a.View())
    {
      if a.state != null {
        table.Drop(a.state, a.sort.PromiseSort?);
      }
    }

    /** A copy of `g`, as a handle of the given sort. */
    method Copy(g: HandleObject<R>, sort: Sort) returns (a: HandleObject<R>)
      requires Valid() && Has(g)
      modifies `handles, `next, `objs, table`states, if g.state == null then {} else {g.state}
      ensures Valid() && fresh(a) && a.id == old(next) && a.sort == sort && Joined(a, old(objs))
      ensures a.state == g.state && !a.obtained && W() == Runs.AddRef(Runs.Put(old(W()), a.id, a.View()), a.View())
    {
      assert Tied(g.id);
      a := Make(sort, g.state);
      AddRef(a);
    }

    method CopyNew(g: HandleObject<R>) returns (a: HandleObject<R>)
      requires Valid() && Has(g) && Runs.Enabled(W(), Runs.CopyNew(next, g.id))
      modifies `handles, `next, `objs, table`states, if g.state == null then {} else {g.state}
      ensures Valid() && fresh(a) && a.id == old(next) && a.sort == g.sort && Joined(a, old(objs))
      ensures W() == Runs.Next(old(W()), Runs.CopyNew(a.id, g.id))
    {
      assert Tied(g.id);
      a := Copy(g, SharedSort);
    }

    /** A handle that is not the local pointer of a suspended call leaves the table. */
    ghost method Delist(a: HandleObject<R>)
      requires Valid() && Has(a) && (a.sort.LocalSort? ==> a.sort.f !in calls)
      modifies `handles, `objs
      ensures Valid() && W() == old(W()).(handles := old(handles) - {a.id})
    {
      objs, handles := objs - {a.id}, handles - {a.id};
      forall h | h in objs ensures Tied(h) { assert old(Tied(h)); }
      forall f | f in calls ensures CallTied(f) { assert old(CallTied(f)); }
    }

    /** The destructor: a promise breaks its state, every handle releases it. */
    method End(a: HandleObject<R>)
      requires Valid() && Has(a) && (a.sort.LocalSort? ==> a.sort.f !in calls)
      modifies `handles, `objs, table`states, if a.state == null then {} else {a.state, a.state.waiters}
      ensures Valid() && W() == Runs.EndStep(old(W()), a.id)
    {
      assert Tied(a.id);
      Delist(a);
      Drop(a);
    }

    method Destroy(a: HandleObject<R>)
      requires Valid() && Has(a) && !a.sort.LocalSort? && Runs.Enabled(W(), Runs.Destroy(a.id))
      modifies `handles, `objs, table`states, if a.state == null then {} else {a.state, a.state.waiters}
      ensures Valid() && W() == Runs.Next(old(W()), Runs.Destroy(a.id))
    {
      End(a);
    }

    /** The second half of an assignment: the temporary trades its contents for those of `a`, and ends. */
    method Settle(a: HandleObject<R>, tmp: HandleObject<R>)
      requires Valid() && Has(a) && Has(tmp) && a.sort == tmp.sort && !a.sort.LocalSort?
      modifies `handles, `objs, a, tmp, table`states, if a.state == null then {} else {a.state, a.state.waiters}
      ensures Valid() && a.id in old(handles) && tmp.id in old(handles)
      ensures W() == Runs.EndStep(Runs.SwapStep(old(W()), a.id, tmp.id), tmp.id)
    {
      assert Tied(a.id) && Tied(tmp.id);
      Exchange(a, tmp);
      End(tmp);
    }

    /** Assignment by moving: a temporary takes the other's contents, trades them for the old ones, and ends. */
    method MoveAssign(a: HandleObject<R>, b: HandleObject<R>)
      requires Valid() && Has(a) && Has(b) && a.sort == b.sort && Runs.Enabled(W(), Runs.MoveAssign(a.id, b.id))
      modifies `handles, `next, `objs, a, b, table`states, if a.state == null then {} else {a.state, a.state.waiters}
      ensures Valid() && W() == Runs.Next(old(W()), Runs.MoveAssign(a.id, b.id))
    {
      assert Tied(a.id) && Tied(b.id);
      var tmp := Take(b, b.sort);
      Settle(a, tmp);
    }

    method CopyAssign(a: HandleObject<R>, b: HandleObject<R>)
      requires Valid() && Has(a) && Has(b) && a.sort == b.sort && Runs.Enabled(W(), Runs.CopyAssign(a.id, b.id))
      modifies `handles, `next, `objs, a, table`states
      modifies if a.state == null then {} else {a.state, a.state.waiters}, if b.state == null then {} else {b.state}
      ensures Valid() && W() == Runs.Next(old(W()), Runs.CopyAssign(a.id, b.id))
    {
      assert Tied(a.id) && Tied(b.id);
      var tmp := Copy(b, SharedSort);
      Settle(a, tmp);
    }

    // -------------------------------------------------------------- promises

    method SetOutcome(p: HandleObject<R>, o: Outcome<R>) returns (error: Option<Error>)
      requires Valid() && Has(p) && Runs.Enabled(W(), Runs.SetOutcome(p.id, o))
      modifies table`states, if p.state == null then {} else {p.state, p.state.waiters}
      ensures Valid() && W() == Runs.Next(old(W()), Runs.SetOutcome(p.id, o))
      ensures p.state == null ==> error == Some(PromiseUninitialized)
      ensures p.state != null ==> p.state.id in old(table.states) && error == Set(old(table.states)[p.state.id], o).1
    {
      assert Tied(p.id);
      if p.state == null {
        return Some(PromiseUninitialized);
      }
      error := table.SetOutcome(p.state, o);
    }

    /** The promise remembers that its future was taken. */
    method Ask(p: HandleObject<R>, ghost s: Sid)
      requires Valid() && Has(p) && p.sort.PromiseSort? && p.state != null && p.state.id == s
      modifies `handles, `issued, p
      ensures Valid() && p.state == old(p.state) && s in old(issued) && W() == AskStep(old(W()), p.id, s)
    {
      assert Tied(p.id);
      p.obtained := true;
      handles := handles[p.id := p.View()];
      issued := issued[s := issued[s] + 1];
      forall h | h in objs ensures Tied(h) { assert old(Tied(h)); }
    }

    /** A first future of the state of `p`. */
    method Issue(p: HandleObject<R>, ghost s: Sid) returns (a: HandleObject<R>)
      requires Valid() && Has(p) && p.sort.PromiseSort? && p.state != null && p.state.id == s
      modifies `handles, `next, `objs, `issued, p, table`states, p.state
      ensures Valid() && fresh(a) && Has(a) && a.id == old(next) && a.sort == FutureSort
      ensures s in old(issued) && W() == IssueStep(old(W()), p.id, s)
    {
      Ask(p, s);
      a := Copy(p, FutureSort);
    }

    method GetFuture(p: HandleObject<R>) returns (r: Result<HandleObject<R>>)
      requires Valid() && Has(p) && Runs.Enabled(W(), Runs.GetFuture(p.id, next))
      modifies `handles, `next, `objs, `issued, p, table`states, if p.state == null then {} else {p.state}
      ensures Valid() && W() == Runs.Next(old(W()), Runs.GetFuture(p.id, old(next)))
      ensures r.Err? <==> old(p.obtained) || old(p.state) == null
      ensures r.Err? ==> r.error == if old(p.obtained) then AlreadyRetrieved else PromiseUninitialized
      ensures r.Ok? ==> fresh(r.value) && Has(r.value) && r.value.id == old(next) && r.value.sort.FutureSort?
    {
      assert Tied(p.id);
      if p.obtained {
        return Err(AlreadyRetrieved);
      }
      if p.state == null {
        return Err(PromiseUninitialized);
      }
      GetFutureIs(W(), p.id, p.state.id);
      var a := Issue(p, p.state.id);
      return Ok(a);
    }

    // -------------------------------------------------------------- waiting

    ghost function CallOf(u: SharedState<R>, tmp: HandleObject?<R>): Runs.Call {
      Runs.Call(u.id, if tmp == null then None else Some(tmp.id))
    }

    /** The call of `f` is suspended. */
    method Suspend(f: Fid, u: SharedState<R>, tmp: HandleObject?<R>)
      requires Valid() && Known(u) && (tmp != null ==> Has(tmp) && tmp.sort == LocalSort(f))
      modifies `calls, `blocked
      ensures Valid() && W() == old(W()).(blocked := old(blocked)[f := CallOf(u, tmp)])
    {
      calls, blocked := calls[f := Suspended(u, tmp)], blocked[f := CallOf(u, tmp)];
      forall g | g in calls ensures CallTied(g) { assert g != f ==> old(CallTied(g)); }
    }

    /** The call of `f` returns, and its local pointer ends. */
    method Return(f: Fid, tmp: HandleObject?<R>)
      requires Valid() && (tmp != null ==> Has(tmp) && tmp.sort == LocalSort(f))
      modifies `handles, `objs, `calls, `blocked, table`states
      modifies if tmp == null || tmp.state == null then {} else {tmp.state, tmp.state.waiters}
      ensures Valid() && (tmp != null ==> tmp.id in old(handles))
      ensures var w := old(W()).(blocked := old(blocked) - {f});
              W() == if tmp == null then w else Runs.EndStep(w, tmp.id)
    {
      calls, blocked := calls - {f}, blocked - {f};
      forall g | g in calls ensures CallTied(g) { assert old(CallTied(g)); }
      if tmp != null {
        End(tmp);
      }
    }

    /** One turn of the loop of `wait` on state `u` by fiber `f`, inside `get` if it has a local pointer, and what
        `get` does when the loop is over. */
    method Turn(f: Fid, u: SharedState<R>, tmp: HandleObject?<R>) returns (o: Option<Outcome<R>>)
      requires Valid() && Known(u) && u.id in table.states && f !in table.states[u.id].waiters
      requires tmp != null ==> Has(tmp) && tmp.sort == LocalSort(f) && tmp.state == u
      modifies `handles, `objs, `calls, `blocked, table`states, u, u.waiters
      ensures Valid() && W() == Runs.Turn(old(W()), f, CallOf(u, tmp))
      ensures o == Given(old(table.states)[u.id])
    {
      assert table.Tied(u.id);
      var done := table.WaitOn(u, f);
      if !done {
        o := None;
        Suspend(f, u, tmp);
      } else {
        assert table.states == old(table.states);
        assert table.Tied(u.id);
        var given := u.Outcome();
        o := Some(given);
        Return(f, tmp);
      }
    }

    /** `wait` on a future or shared future, and `get` on a shared future. */
    method Wait(f: Fid, a: HandleObject<R>) returns (r: Result<Option<Outcome<R>>>)
      requires Valid() && Runs.Inv(W()) && Has(a) && Runs.Enabled(W(), Runs.Wait(f, a.id))
      modifies `handles, `objs, `calls, `blocked, table`states
      modifies if a.state == null then {} else {a.state, a.state.waiters}
      ensures Valid() && W() == Runs.Next(old(W()), Runs.Wait(f, a.id))
      ensures if a.state == null then r == Err(FutureUninitialized)
              else a.state.id in old(table.states) && r == Ok(Given(old(table.states)[a.state.id]))
    {
      assert Tied(a.id);
      if a.state == null {
        return Err(FutureUninitialized);
      }
      WaitIs(W(), f, a.id);
      ghost var after := Runs.Turn(W(), f, Runs.Call(a.state.id, None));
      var o := Turn(f, a.state, null);
      assert W() == after;
      return Ok(o);
    }

    /** The reference of `a` moves to a local pointer, and the first turn is taken. */
    method StartGet(f: Fid, a: HandleObject<R>) returns (o: Option<Outcome<R>>)
      requires Valid() && Has(a) && a.sort == FutureSort && a.state != null
      requires a.state.id in table.states && f !in table.states[a.state.id].waiters
      modifies `handles, `next, `objs, `calls, `blocked, a, table`states, a.state, a.state.waiters
      ensures Valid() && a.state == null && o == Given(old(table.states[a.state.id]))
      ensures var s := old(a.state).id;
              var v := Runs.Put(Runs.Put(old(W()), a.id, Future(None)), old(next), Getting(f, Some(s)));
              W() == Runs.Turn(v, f, Runs.Call(s, Some(old(next))))
    {
      assert Tied(a.id);
      var tmp := Take(a, LocalSort(f));
      o := Turn(f, tmp.state, tmp);
    }

    /** `get` on a future: the reference moves to a local pointer, so that a second `get` fails. */
    method Get(f: Fid, a: HandleObject<R>) returns (r: Result<Option<Outcome<R>>>)
      requires Valid() && Runs.Inv(W()) && Has(a) && Runs.Enabled(W(), Runs.Get(f, a.id, next))
      modifies `handles, `next, `objs, `calls, `blocked, a, table`states
      modifies if a.state == null then {} else {a.state, a.state.waiters}
      ensures Valid() && W() == Runs.Next(old(W()), Runs.Get(f, a.id, old(next)))
      ensures a.state == null
      ensures if old(a.state) == null then r == Err(FutureUninitialized)
              else old(a.state).id in old(table.states) && r == Ok(Given(old(table.states)[old(a.state).id]))
    {
      assert Tied(a.id);
      if a.state == null {
        return Err(FutureUninitialized);
      }
      GetIs(W(), f, a.id);
      var o := StartGet(f, a);
      return Ok(o);
    }

    /** A fiber that was readied continues, and its call returns. */
    method Retry(f: Fid) returns (o: Outcome<R>)
      requires Valid() && Runs.Inv(W()) && f in calls && Runs.Enabled(W(), Runs.Retry(f))
      modifies `handles, `objs, `calls, `blocked, table`states, calls[f].state, calls[f].state.waiters
      ensures Valid() && W() == Runs.Next(old(W()), Runs.Retry(f))
      ensures var u := old(W()).states[old(W()).blocked[f].s]; u.ready && o == OutcomeOf(u)
    {
      assert CallTied(f) && Runs.BlockedOk(W(), f);
      if calls[f].tmp != null {
        assert Tied(calls[f].tmp.id);
      }
      var given := Turn(f, calls[f].state, calls[f].tmp);
      o := given.value;
    }
  }

  // What some steps of the model are, when the handle has a state.

  ghost function AskStep<R>(w: Runs.World<R>, p: Hid, s: Sid): Runs.World<R>
    requires s in w.issued
  {
    Runs.Put(w, p, Promise(true, Some(s))).(issued := w.issued[s := w.issued[s] + 1])
  }

  ghost function IssueStep<R>(w: Runs.World<R>, p: Hid, s: Sid): Runs.World<R>
    requires s in w.issued
  {
    Runs.AddRef(Runs.Put(AskStep(w, p, s), w.next, Future(Some(s))), Future(Some(s)))
  }

  lemma GetFutureIs<R>(w: Runs.World<R>, p: Hid, s: Sid)
    requires Runs.Enabled(w, Runs.GetFuture(p, w.next)) && w.handles[p] == Promise(false, Some(s)) && s in w.issued
    requires p < w.next
    ensures Runs.Next(w, Runs.GetFuture(p, w.next)) == IssueStep(w, p, s)
  {
  }

  lemma WaitIs<R>(w: Runs.World<R>, f: Fid, h: Hid)
    requires Runs.Enabled(w, Runs.Wait(f, h)) && Runs.Inv(w) && w.handles[h].st.Some?
    ensures var s := w.handles[h].st.value;
            && s in w.states && f !in w.states[s].waiters
            && Runs.Next(w, Runs.Wait(f, h)) == Runs.Turn(w, f, Runs.Call(s, None))
  {
    assert Runs.HandleOk(w, h);
    assert Runs.WaitersOk(w, w.handles[h].st.value);
  }

  lemma GetIs<R>(w: Runs.World<R>, f: Fid, h: Hid)
    requires Runs.Enabled(w, Runs.Get(f, h, w.next)) && Runs.Inv(w) && w.handles[h].st.Some?
    ensures var s := w.handles[h].st.value;
            var v := Runs.Put(Runs.Put(w, h, Future(None)), w.next, Getting(f, Some(s)));
            && s in w.states && f !in w.states[s].waiters
            && Runs.Next(w, Runs.Get(f, h, w.next)) == Runs.Turn(v, f, Runs.Call(s, Some(w.next)))
  {
    assert Runs.HandleOk(w, h);
    assert Runs.WaitersOk(w, w.handles[h].st.value);
  }

  lemma PutTwice(m: map<Hid, Handle<Sid>>, n: Hid, g: Hid, d: Handle<Sid>, e: Handle<Sid>, x: Handle<Sid>)
    requires n !in m && g != n
    ensures m[n := d][n := x][g := e] == m[g := e][n := x]
  {
  }
}
