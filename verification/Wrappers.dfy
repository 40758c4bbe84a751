/** Small shared datatypes, and the unit-of-work session that every service writes through. */
module Wrappers {
  datatype Option<+T> = None | Some(value: T)

  function Max(a: int, b: int): (m: int)
    ensures m >= a && m >= b && (m == a || m == b)
  {
    if a >= b then a else b
  }

  function Min(a: int, b: int): (m: int)
    ensures m <= a && m <= b && (m == a || m == b)
  {
    if a <= b then a else b
  }

  /** No two positions of s hold the same value. */
  ghost predicate Distinct<T>(s: seq<T>) {
    forall i, j :: 0 <= i < j < |s| ==> s[i] != s[j]
  }

  /** A database session: reads and writes go to `working`; `committed` is what survives. */
  class Session<T> {
    var committed: T
    var working: T

    constructor (initial: T)
      ensures committed == initial && working == initial
    {
      committed, working := initial, initial;
    }

    method Commit()
      modifies this
      ensures committed == old(working) && working == old(working)
    {
      committed := working;
    }

    method Rollback()
      modifies this
      ensures working == old(committed) && committed == old(committed)
    {
      working := committed;
    }
  }
}
