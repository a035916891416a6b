module Sets {
  lemma {:induction false} SubsetSize<T>(a: set<T>, b: set<T>)
    requires a <= b
    ensures |a| <= |b| && (|a| == |b| ==> a == b)
  {
    if a != {} {
      var x :| x in a;
      SubsetSize(a - {x}, b - {x});
    }
  }

  /** A number above all of a set. */
  lemma {:induction false} Fresh(ids: set<nat>) returns (x: nat)
    ensures x !in ids && forall id :: id in ids ==> id < x
    decreases |ids|
  {
    x := 0;
    if ids != {} {
      var id :| id in ids;
      var y := Fresh(ids - {id});
      assert ids == ids - {id} + {id};
      x := if id < y then y else id + 1;
    }
  }
}
