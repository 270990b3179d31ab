/** Facts about finite sets. */
module FiniteSets {

  lemma SubsetIsSmaller<T>(s: set<T>, t: set<T>)
    requires s <= t
    ensures |s| <= |t|
  {
    assert t == s + (t - s);
  }

  /** Kernel and pool never run out of numbers. */
  lemma SomeNatOutside(s: set<int>) returns (n: nat)
    ensures n !in s && forall m :: m in s ==> m < n
    decreases |s|
  {
    if x :| x in s {
      var above := SomeNatOutside(s - {x});
      n := if x < above then above else x + 1;
      forall m | m in s
        ensures m < n
      {
        assert m != x ==> m in s - {x};
      }
    } else {
      n := 0;
    }
  }
}
