/** Option and Outcome: the model's stand-ins for Python's `None` and for a call
    that either returns normally or raises. */
module Wrappers {

  datatype Option<+T> = None | Some(value: T)

  /** A call that returns (`Pass`) or raises `error` (`Fail`). */
  datatype Outcome<+E> = Pass | Fail(error: E)

  datatype Result<+T, +E> = Success(value: T) | Failure(error: E)

  /** No element occurs twice. */
  predicate Distinct<T(==)>(xs: seq<T>)
  {
    forall i, j :: 0 <= i < j < |xs| ==> xs[i] != xs[j]
  }

  /** `xs` lists the elements of `s`, each once, in some order. */
  predicate Enumerates<T(==)>(xs: seq<T>, s: set<T>)
  {
    && Distinct(xs)
    && (forall i :: 0 <= i < |xs| ==> xs[i] in s)
    && (forall x | x in s :: x in xs)
  }

  /** Regrouping a concatenation, for proofs that compose logged segments. */
  lemma AppendAssoc<T>(a: seq<T>, b: seq<T>, c: seq<T>)
    ensures a + (b + c) == a + b + c
  {
  }
}
