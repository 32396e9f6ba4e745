/** The state shared by a promise and its futures: an outcome that is fixed once, and the fibers waiting for it. */
module SharedStates {
  import opened Seqs
  import opened Mutexes
  import opened Conditions

  datatype Exception = BrokenPromise | User(code: nat)

  datatype Error = AlreadySatisfied | AlreadyRetrieved | PromiseUninitialized | FutureUninitialized

  /** What `get` does for its caller. `Nothing`: the state is ready but holds neither, and `get` reads an empty
      optional. */
  datatype Outcome<R> = Returns(value: R) | Throws(except: Exception) | Nothing

  datatype State<R> = State(uses: int, ready: bool, value: Option<R>, except: Option<Exception>, waiters: seq<Fid>)

  // ---------------------------------------------------------------- critical sections

  /** The outcome is stored and every waiter is readied. */
  function Completed<R>(s: State<R>, o: Outcome<R>): State<R> {
    match o
    case Returns(v) => s.(ready := true, value := Some(v), waiters := [])
    case Throws(e) => s.(ready := true, except := Some(e), waiters := [])
    case Nothing => s.(ready := true, except := None, waiters := [])
  }

  /** What `set_exception` with a pointer that may be null asks for. */
  function Thrown<R>(e: Option<Exception>): Outcome<R> {
    if e.Some? then Throws(e.value) else Nothing
  }

  /** `set_value` and `set_exception`: an error when there is an outcome already. */
  function Set<R>(s: State<R>, o: Outcome<R>): (State<R>, Option<Error>) {
    if s.ready then (s, Some(AlreadySatisfied)) else (Completed(s, o), None)
  }

  function OwnerDestroyed<R>(s: State<R>): State<R> {
    if s.ready then s else Completed(s, Throws(BrokenPromise))
  }

  /** One turn of the loop of `wait`: it ends, or the fiber registers and suspends. */
  function WaitTurn<R>(s: State<R>, f: Fid): (State<R>, bool) {
    if s.ready then (s, true) else (s.(waiters := s.waiters + [f]), false)
  }

  /** Nothing is stored before the state is ready; then at most one of value and exception is, and nobody waits. */
  predicate Sound<R>(s: State<R>) {
    if s.ready then (s.value.None? || s.except.None?) && s.waiters == []
    else s.value.None? && s.except.None?
  }

  /** The order of `get`: the exception is looked at first. */
  function OutcomeOf<R>(s: State<R>): Outcome<R>
  {
    if s.except.Some? then Throws(s.except.value) else if s.value.Some? then Returns(s.value.value) else Nothing
  }

  /** What a turn of `wait` or `get` gives: the outcome, or nothing yet. */
  ghost function Given<R>(s: State<R>): Option<Outcome<R>> {
    if s.ready then Some(OutcomeOf(s)) else None
  }

  /** Setting is reading's inverse, and it succeeds once: whatever is tried on a ready state leaves its outcome alone.
      In particular `get` reads an empty optional exactly when the first outcome was a null exception pointer. */
  lemma FirstOutcomeStays<R>(s: State<R>, o: Outcome<R>)
    requires Sound(s)
    ensures var (r, e) := Set(s, o);
            && Sound(r) && r.ready && (e.None? <==> !s.ready)
            && OutcomeOf(r) == if s.ready then OutcomeOf(s) else o
    ensures var r := OwnerDestroyed(s);
            Sound(r) && r.ready && OutcomeOf(r) == if s.ready then OutcomeOf(s) else Throws(BrokenPromise)
  {
  }

  class SharedState<R> {
    var uses: int
    var ready: bool
    var value: Option<R>
    var except: Option<Exception>
    const waiters: ConditionObject
    /** Its number in the table of states. */
    ghost const id: nat

    ghost function View(): State<R>
      reads this, waiters
    {
      State(uses, ready, value, except, waiters.waiting)
    }

    constructor (ghost id: nat)
      ensures this.id == id && fresh(waiters) && View() == State(0, false, None, None, [])
    {
      this.id := id;
      uses, ready, value, except := 0, false, None, None;
      waiters := new ConditionObject();
    }

    /** `readied`: the waiters made runnable, in order. */
    method MarkReadyAndNotify() returns (readied: seq<Fid>)
      modifies this`ready, waiters
      ensures View() == old(View()).(ready := true, waiters := []) && readied == old(View()).waiters
    {
      ready := true;
      readied := waiters.NotifyAll();
    }

    method SetValue(v: R) returns (error: Option<Error>, readied: seq<Fid>)
      modifies this, waiters
      ensures (View(), error) == Set(old(View()), Returns(v))
      ensures readied == if error.None? then old(View()).waiters else []
    {
      if ready {
        return Some(AlreadySatisfied), [];
      }
      value := Some(v);
      readied := MarkReadyAndNotify();
      error := None;
    }

    method SetException(e: Option<Exception>) returns (error: Option<Error>, readied: seq<Fid>)
      modifies this, waiters
      ensures (View(), error) == Set(old(View()), Thrown(e))
      ensures readied == if error.None? then old(View()).waiters else []
    {
      if ready {
        return Some(AlreadySatisfied), [];
      }
      except := e;
      readied := MarkReadyAndNotify();
      error := None;
    }

    method OwnerDestroyedOf()
      modifies this, waiters
      ensures View() == OwnerDestroyed(old(View()))
    {
      if !ready {
        var error, readied := SetException(Some(BrokenPromise));
      }
    }

    method WaitTurnOf(f: Fid) returns (done: bool)
      requires f !in waiters.waiting
      modifies waiters
      ensures (View(), done) == WaitTurn(old(View()), f)
    {
      if !ready {
        waiters.Register(f);
      }
      done := ready;
    }

    /** The end of `get`. */
    method Outcome() returns (o: Outcome<R>)
      ensures o == OutcomeOf(View())
    {
      if except.Some? {
        return Throws(except.value);
      }
      if value.None? {
        return Nothing;
      }
      return Returns(value.value);
    }

    method AddRef()
      modifies this`uses
      ensures View() == old(View()).(uses := old(uses) + 1)
    {
      uses := uses + 1;
    }

    /** `last`: the state is to be deallocated. */
    method Release() returns (last: bool)
      modifies this`uses
      ensures View() == old(View()).(uses := old(uses) - 1) && (last <==> uses == 0)
    {
      uses := uses - 1;
      last := uses == 0;
    }
  }
}
