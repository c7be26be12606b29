/** Shared vocabulary: optional values, results and flattening. */
module Base {

  datatype Option<+T> = None | Some(value: T)

  datatype Result<+T, +E> = Ok(value: T) | Err(error: E)

  /** An idealised digest or encoder: different inputs give different outputs. */
  ghost predicate Injective<A(!new), B>(f: A -> B) {
    forall x, y :: f(x) == f(y) ==> x == y
  }

  /** Concatenation of the pieces, in order. */
  function Flatten<T>(pieces: seq<seq<T>>): seq<T> {
    if pieces == [] then [] else pieces[0] + Flatten(pieces[1..])
  }

  lemma {:induction false} FlattenConcat<T>(a: seq<seq<T>>, b: seq<seq<T>>)
    ensures Flatten(a + b) == Flatten(a) + Flatten(b)
  {
    if a == [] {
      assert a + b == b;
    } else {
      assert (a + b)[1..] == a[1..] + b;
      FlattenConcat(a[1..], b);
    }
  }

  lemma FlattenSnoc<T>(a: seq<seq<T>>, p: seq<T>)
    ensures Flatten(a + [p]) == Flatten(a) + p
  {
    FlattenConcat(a, [p]);
    assert Flatten([p]) == p + Flatten<T>([]);
  }

  /** What `f` makes of each element, one after the other. */
  function Each<A, B>(xs: seq<A>, f: A -> seq<B>): seq<B> {
    if xs == [] then [] else f(xs[0]) + Each(xs[1..], f)
  }

  lemma {:induction false} EachConcat<A, B>(a: seq<A>, b: seq<A>, f: A -> seq<B>)
    ensures Each(a + b, f) == Each(a, f) + Each(b, f)
  {
    if a == [] {
      assert a + b == b;
    } else {
      EachConcat(a[1..], b, f);
      assert (a + b)[1..] == a[1..] + b;
      assert f(a[0]) + (Each(a[1..], f) + Each(b, f)) == f(a[0]) + Each(a[1..], f) + Each(b, f);
    }
  }

  lemma EachOne<A, B>(x: A, f: A -> seq<B>)
    ensures Each([x], f) == f(x)
  {
    assert [x][1..] == [];
  }
}
