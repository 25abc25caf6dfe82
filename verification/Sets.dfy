/** Facts about finite sets that the other modules share. */
module Sets {
  lemma NonEmpty(s: set<int>)
    requires s != {}
    ensures exists x :: x in s
  {
    if forall x :: x !in s {
      assert false;
    }
  }

  lemma SubsetSize<T>(a: set<T>, b: set<T>)
    requires a <= b
    ensures |a| <= |b|
    ensures |a| == |b| ==> a == b
  {
    assert b == a + (b - a);
  }

  /** An injective map has as many values as keys. */
  lemma {:induction false} InjectiveSize(f: map<string, int>)
    requires forall x, y :: x in f && y in f && f[x] == f[y] ==> x == y
    ensures |f.Values| == |f|
    decreases |f|
  {
    if f != map[] {
      var x :| x in f;
      var rest := map y | y in f && y != x :: f[y];
      assert rest.Keys == f.Keys - {x};
      InjectiveSize(rest);
      assert f.Values == rest.Values + {f[x]} by {
        forall v | v in f.Values
          ensures v in rest.Values + {f[x]}
        {
          var y :| y in f && f[y] == v;
          assert y == x || (y in rest && rest[y] == v);
        }
      }
      assert |f.Keys| == |rest.Keys| + 1;
    }
  }
}
