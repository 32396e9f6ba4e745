/** Promises, futures and shared futures as values: what the operations on these handles of a shared state compute. */
module Futures {
  import opened Seqs
  import opened Mutexes
  import opened SharedStates

  /** A handle and the state it refers to. `Getting` is the local pointer a fiber holds inside `future::get`. */
  datatype Handle<+S> =
    | Promise(obtained: bool, st: Option<S>) | Future(st: Option<S>) | Shared(st: Option<S>)
    | Getting(f: Fid, st: Option<S>)

  datatype Result<+T> = Ok(value: T) | Err(error: Error)

  /** A handle after its contents were moved elsewhere. */
  function Emptied<S>(x: Handle<S>): Handle<S> {
    match x
    case Promise(_, _) => Promise(false, None)
    case Future(_) => Future(None)
    case Shared(_) => Shared(None)
    case Getting(f, _) => Getting(f, None)
  }

  /** What the end of a handle does to its state: a promise breaks it, and the reference goes. */
  function Dropped<R>(promise: bool, u: State<R>): State<R> {
    var v := if promise then OwnerDestroyed(u) else u;
    v.(uses := v.uses - 1)
  }

  /** `get_future`: the promise afterwards, and the future or the error. */
  function GetFutureCall<S>(x: Handle<S>): (Handle<S>, Result<Handle<S>>)
    requires x.Promise?
  {
    if x.obtained then (x, Err(AlreadyRetrieved))
    else if x.st.None? then (x, Err(PromiseUninitialized))
    else (Promise(true, x.st), Ok(Future(x.st)))
  }
}
