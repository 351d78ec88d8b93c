/** Extensional equality of collections, stated once over any element type. */
module Collections {

  datatype Option<+T> = None | Some(value: T)

  lemma SameMap<K, V>(a: map<K, V>, b: map<K, V>)
    requires forall k :: k in a <==> k in b
    requires forall k :: k in a ==> a[k] == b[k]
    ensures a == b
  {
  }

  lemma SameSet<T>(a: set<T>, b: set<T>)
    requires forall x :: x in a <==> x in b
    ensures a == b
  {
  }

  lemma {:induction false} SubsetSize<T>(a: set<T>, b: set<T>)
    requires a <= b
    ensures |a| <= |b|
  {
    assert b == a + (b - a);
  }

  /** The image of a set is no larger than the set. */
  lemma {:induction false} ImageSize<A(!new), B(!new)>(dom: set<A>, image: set<B>, f: A --> B)
    requires forall x :: x in dom ==> f.requires(x)
    requires forall y :: y in image ==> exists x :: x in dom && f(x) == y
    ensures |image| <= |dom|
    decreases |dom|
  {
    if dom == {} {
      assert image == {};
    } else {
      var x :| x in dom;
      forall y | y in image - {f(x)} ensures exists z :: z in dom - {x} && f(z) == y {
        var z :| z in dom && f(z) == y;
        assert z in dom - {x};
      }
      ImageSize(dom - {x}, image - {f(x)}, f);
    }
  }

  lemma Member<T>(s: set<T>) returns (x: T)
    requires s != {}
    ensures x in s
  {
    x :| x in s;
  }

  lemma DisjointSizes<T>(a: set<T>, b: set<T>, c: set<T>, all: set<T>)
    requires a !! b && c !! a + b && a + b + c <= all
    ensures |a| + |b| + |c| <= |all|
  {
    assert |a + b| == |a| + |b|;
    assert |a + b + c| == |a + b| + |c|;
    SubsetSize(a + b + c, all);
  }
}
