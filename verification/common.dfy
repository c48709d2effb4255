/** Small shared vocabulary: optional values, the maximum of two reals, and picking a set member. */
module Common {

  /** A value that may be absent (a null item, a missing map entry, an absent attribute). */
  datatype Option<+T> = None | Some(value: T)

  /** qMax on doubles. */
  function Max(a: real, b: real): (r: real)
    ensures r >= a && r >= b
    ensures r == a || r == b
  {
    if a >= b then a else b
  }

  /** Some member of a non-empty set, with no promise which: the first one a hash-ordered iteration meets. */
  method AnyMember<T>(s: set<T>) returns (x: T)
    requires s != {}
    ensures x in s
  {
    x :| x in s;
  }
}
