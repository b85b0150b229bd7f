/** Facts about finite sets and sequences that several modules need. */
module Collections {

  /** A set whose members all occur in a sequence is no larger than the sequence is long. */
  lemma {:induction false} DistinctMembers<T>(s: set<T>, t: seq<T>)
    requires forall x :: x in s ==> x in t
    ensures |s| <= |t|
  {
    if s != {} {
      var y :| y in s;
      assert y in t;
      DistinctMembers(s - {t[0]}, t[1..]);
      assert s == s - {t[0]} + s * {t[0]};
    }
  }

  lemma SubsetSize<T>(x: set<T>, y: set<T>)
    requires x <= y
    ensures |x| <= |y|
  {
    assert y == x + (y - x);
  }
}
