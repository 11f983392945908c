/** Value types shared by the store and the editor: identifiers, dates, image
    bytes, points and colours, plus the set-to-array conversion that every
    fetch performs. */
module Basics {

  /** Foundation's `UUID`. Values come from the system generator, so the model
      only compares them for equality. */
  type Uuid(==)

  /** Foundation's `Date`. The model never inspects a date. */
  type Date

  /** An encoded image payload (`Data`). */
  type Bytes = seq<bv8>

  datatype Option<T> = None | Some(value: T)

  /** A `CGPoint`, with coordinates as exact reals. */
  datatype Point = Point(x: real, y: real)

  /** The four colour components of a token. */
  datatype Rgba = Rgba(red: real, green: real, blue: real, alpha: real)

  predicate Distinct<T(==)>(a: seq<T>) {
    forall i, j :: 0 <= i < j < |a| ==> a[i] != a[j]
  }

  /** Turns an unordered set of records into an array in some order, as a
      Core Data fetch or `Array(set)` does: every member exactly once. */
  method SetToSeq<T(==)>(s: set<T>) returns (a: seq<T>)
    ensures Distinct(a)
    ensures forall x :: x in a <==> x in s
    ensures |a| == |s|
  {
    a := [];
    var rest := s;
    while rest != {}
      invariant rest <= s
      invariant forall x :: x in a <==> x in s && x !in rest
      invariant Distinct(a)
      invariant |a| + |rest| == |s|
      decreases |rest|
    {
      var x :| x in rest;
      a := a + [x];
      rest := rest - {x};
    }
  }
}
