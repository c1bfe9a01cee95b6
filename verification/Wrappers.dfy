/** Failure-carrying results shared by every component. */
module Wrappers {

  datatype Option<+T> = None | Some(value: T)

  datatype Result<+T, +E> = Success(value: T) | Failure(error: E)

  /** The result of a call that changes the store and returns nothing. */
  datatype Outcome<+E> = Pass | Fail(error: E)

  /** A call does to the store what its specification says, and changes nothing when it fails. */
  ghost predicate Follows<S, E>(before: S, after: S, outcome: Outcome<E>, spec: Result<S, E>) {
    match spec
    case Success(s) => outcome.Pass? && after == s
    case Failure(e) => outcome == Fail(e) && after == before
  }

  /** No two positions of `s` hold the same element. */
  ghost predicate Distinct<T>(s: seq<T>) {
    forall i, j :: 0 <= i < j < |s| ==> s[i] != s[j]
  }
}
