/** Facts about finite sets that several modules need. */
module SetFacts {
  lemma {:induction false} SubsetSize<T>(a: set<T>, b: set<T>)
    requires a <= b
    ensures |a| <= |b|
    decreases a
  {
    if a != {} {
      var x :| x in a;
      SubsetSize(a - {x}, b - {x});
    }
  }

  lemma HasElement<T>(ids: set<T>) returns (id: T)
    requires |ids| > 0
    ensures id in ids
  {
    id :| id in ids;
  }
}
