/** Optional values, used for Go's nil results and nil errors. */
module Wrappers {

  datatype Option<+T> = None | Some(value: T)
}

/** Facts about finite collections used by the loops that visit a map's keys. */
module Collections {

  /** A non-empty set has an element: the witness for picking an arbitrary one. */
  lemma Pick<T>(s: set<T>) returns (x: T)
    requires s != {}
    ensures x in s
  {
    assert (forall y :: y !in s) ==> s == {};
    x :| x in s;
  }

  /** Writing a key twice leaves only the second value. */
  lemma MapOverwrite<K, V>(m: map<K, V>, k: K, a: V, b: V)
    ensures m[k := a][k := b] == m[k := b]
  {
  }
}
