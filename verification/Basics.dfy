/** Small shared vocabulary: optional values, the clock unit, and enumerations of finite sets. */
module Basics {

  datatype Option<+T> = None | Some(value: T)

  /** Every clock reading in the model is a whole number of microseconds. */
  const SECOND: int := 1_000_000

  function Max(a: int, b: int): int {
    if a < b then b else a
  }

  /** Python's truth test for an optional string. */
  predicate Truthy(s: Option<string>) {
    s.Some? && s.value != ""
  }

  ghost predicate NoDuplicates<T(!new)>(s: seq<T>) {
    forall i, j :: 0 <= i < j < |s| ==> s[i] != s[j]
  }

  /** `order` lists every element of `s` exactly once: one possible iteration order. */
  ghost predicate Enumerates<T(!new)>(order: seq<T>, s: set<T>) {
    && NoDuplicates(order)
    && forall x :: x in order <==> x in s
  }
}
