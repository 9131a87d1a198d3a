/** Small shared definitions: nullable references and duplicate-free lists. */
module Wrappers {

  /** An optional value, standing for a reference that may be null. */
  datatype Option<T> = None | Some(value: T)

  /** A list holding each element at most once (what a `Contains` check before `Add` keeps). */
  predicate NoDuplicates<T(==)>(s: seq<T>)
  {
    forall i, j :: 0 <= i < j < |s| ==> s[i] != s[j]
  }
}
