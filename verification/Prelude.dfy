/** Small types and set facts shared by the other modules. */
module Prelude {
  datatype Option<+T> = None | Some(value: T)

  /** A set is at least as large as any of its images. */
  lemma {:induction false} ImageSize<S, T>(domain: set<S>, f: S -> T, image: set<T>)
    requires forall y | y in image :: exists x :: x in domain && f(x) == y
    ensures |image| <= |domain|
  {
    if image != {} {
      var y :| y in image;
      var x :| x in domain && f(x) == y;
      forall z | z in image - {y}
        ensures exists x' :: x' in domain - {x} && f(x') == z
      {
        var x' :| x' in domain && f(x') == z;
      }
      ImageSize(domain - {x}, f, image - {y});
    }
  }

  /** ... and no larger when the function is injective on it. */
  lemma {:induction false} InjectiveImageSize<S, T>(domain: set<S>, f: S -> T, image: set<T>)
    requires forall x | x in domain :: f(x) in image
    requires forall x, y | x in domain && y in domain && f(x) == f(y) :: x == y
    ensures |domain| <= |image|
  {
    if domain != {} {
      var x :| x in domain;
      InjectiveImageSize(domain - {x}, f, image - {f(x)});
    }
  }

  lemma SubsetSize<T>(a: set<T>, b: set<T>)
    requires a <= b
    ensures |a| <= |b|
    ensures |a| == |b| ==> a == b
  {
    assert |b| == |a| + |b - a| by {
      assert b == a + (b - a);
    }
    if |a| == |b| {
      assert b - a == {};
    }
  }
}
