/** The option type and the list function used across the model. */
module Wrappers {
  datatype Option<+T> = None | Some(value: T)

  function AsSeq<T>(o: Option<T>): seq<T> {
    if o.Some? then [o.value] else []
  }

  function FlatMap<A, B>(s: seq<A>, f: A -> seq<B>): seq<B> {
    if s == [] then [] else f(s[0]) + FlatMap(s[1..], f)
  }

  lemma {:induction false} FlatMapConcat<A, B>(a: seq<A>, b: seq<A>, f: A -> seq<B>)
    ensures FlatMap(a + b, f) == FlatMap(a, f) + FlatMap(b, f)
  {
    if a == [] {
      assert a + b == b;
    } else {
      assert (a + b)[0] == a[0] && (a + b)[1..] == a[1..] + b;
      FlatMapConcat(a[1..], b, f);
    }
  }

  lemma {:induction false} InFlatMap<A, B>(s: seq<A>, f: A -> seq<B>, y: B)
    requires y in FlatMap(s, f)
    ensures exists i :: 0 <= i < |s| && y in f(s[i])
  {
    if y in f(s[0]) {
      assert y in f(s[0]);
    } else {
      InFlatMap(s[1..], f, y);
      var i :| 0 <= i < |s[1..]| && y in f(s[1..][i]);
      assert s[i + 1] == s[1..][i];
    }
  }

  lemma {:induction false} FlatMapHas<A, B>(s: seq<A>, f: A -> seq<B>, i: nat)
    requires i < |s|
    ensures forall y :: y in f(s[i]) ==> y in FlatMap(s, f)
  {
    if i > 0 {
      FlatMapHas(s[1..], f, i - 1);
    }
  }

  lemma FlatMapOne<A, B>(x: A, f: A -> seq<B>)
    ensures FlatMap([x], f) == f(x)
  {
    assert [x][1..] == [];
  }

  lemma FlatMapTail<A, B>(s: seq<A>, f: A -> seq<B>, i: nat)
    requires i < |s|
    ensures FlatMap(s[i..], f) == f(s[i]) + FlatMap(s[i + 1..], f)
  {
    assert s[i..][1..] == s[i + 1..];
  }

  lemma FlatMap4<A, B>(s: seq<A>, f: A -> seq<B>)
    requires |s| == 4
    ensures FlatMap(s, f) == f(s[0]) + f(s[1]) + f(s[2]) + f(s[3])
  {
    assert s[0..] == s && s[4..] == [];
    FlatMapTail(s, f, 0);
    FlatMapTail(s, f, 1);
    FlatMapTail(s, f, 2);
    FlatMapTail(s, f, 3);
  }

  lemma FlatMap7<A, B>(s: seq<A>, f: A -> seq<B>)
    requires |s| == 7
    ensures FlatMap(s, f) == f(s[0]) + f(s[1]) + f(s[2]) + f(s[3]) + f(s[4]) + f(s[5]) + f(s[6])
  {
    FlatMap4(s[3..], f);
    assert s[0..] == s;
    FlatMapTail(s, f, 0);
    FlatMapTail(s, f, 1);
    FlatMapTail(s, f, 2);
  }

  /** Mapping twice is mapping once by the composition `h`. */
  lemma {:induction false} FlatMapCompose<A, B, C>(s: seq<A>, f: A -> seq<B>, g: B -> seq<C>, h: A -> seq<C>)
    requires forall i :: 0 <= i < |s| ==> FlatMap(f(s[i]), g) == h(s[i])
    ensures FlatMap(FlatMap(s, f), g) == FlatMap(s, h)
  {
    if s != [] {
      FlatMapConcat(f(s[0]), FlatMap(s[1..], f), g);
      FlatMapCompose(s[1..], f, g, h);
    }
  }

  /** Lists that agree element by element as far as the shorter one goes. */
  lemma {:induction false} FlatMapAgree<A, B, C>(a: seq<A>, b: seq<B>, f: A -> seq<C>, g: B -> seq<C>)
    requires |a| <= |b|
    requires forall i :: 0 <= i < |a| ==> f(a[i]) == g(b[i])
    ensures FlatMap(a, f) <= FlatMap(b, g)
    ensures |a| == |b| ==> FlatMap(a, f) == FlatMap(b, g)
  {
    if a != [] {
      FlatMapAgree(a[1..], b[1..], f, g);
    }
  }

  lemma {:induction false} FlatMapNone<A, B>(s: seq<A>, f: A -> seq<B>)
    requires forall x :: x in s ==> f(x) == []
    ensures FlatMap(s, f) == []
  {
    if s != [] {
      FlatMapNone(s[1..], f);
    }
  }
}
