/** The order in which a `find()` over a collection hands its documents to a
    queue: some enumeration of the collection, fixed once taken. */
module Snapshots {
  import opened Common

  /** Lists every element of `s` once, in an order the store chooses. */
  method Enumerate<T(==)>(s: set<T>) returns (items: seq<T>)
    ensures Distinct(items)
    ensures forall x :: x in items <==> x in s
  {
    items := [];
    var rest := s;
    while rest != {}
      invariant rest <= s
      invariant Distinct(items)
      invariant forall x :: x in items <==> x in s && x !in rest
      decreases rest
    {
      var x :| x in rest;
      items := items + [x];
      rest := rest - {x};
    }
  }
}
