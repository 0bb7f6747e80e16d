/** Small things about values and collections that several modules share. */
module Collections {
  datatype Option<+T> = None | Some(value: T)

  lemma PrefixesCompare<T>(p: seq<T>, q: seq<T>, r: seq<T>)
    requires p <= r && q <= r
    ensures p <= q || q <= p
  {
    assert p == r[..|p|] && q == r[..|q|];
  }

  lemma {:induction false} SubsetIsSmaller<T>(a: set<T>, b: set<T>)
    requires a <= b
    ensures |a| <= |b|
  {
    if a != {} {
      var x :| x in a;
      SubsetIsSmaller(a - {x}, b - {x});
    }
  }
}
