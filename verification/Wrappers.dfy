/** Option and Result, the two value types every module of the model shares. */
module Wrappers {

  datatype Option<+T> = None | Some(value: T)

  datatype Result<+T, +E> = Success(value: T) | Failure(error: E)

  /** A sequence of which `done` is there, and whose rest may fail. */
  function Prefixed<T>(done: seq<T>, rest: Option<seq<T>>): Option<seq<T>> {
    match rest
    case None => None
    case Some(more) => Some(done + more)
  }

  lemma PrefixedTwice<T>(done: seq<T>, more: seq<T>, rest: Option<seq<T>>)
    ensures Prefixed(done + more, rest) == Prefixed(done, Prefixed(more, rest))
  {
    if rest.Some? {
      assert done + more + rest.value == done + (more + rest.value);
    }
  }
}
