/** Concatenating the results of a function applied along a sequence. */
module Sequences {

  /** `f(xs[0]) + f(xs[1]) + ... + f(xs[|xs| - 1])`. */
  function ConcatMap<T, U>(f: T -> seq<U>, xs: seq<T>): seq<U> {
    if xs == [] then [] else ConcatMap(f, xs[..|xs| - 1]) + f(xs[|xs| - 1])
  }

  /** One more element adds its result at the end. */
  lemma ConcatMapSnoc<T, U>(f: T -> seq<U>, xs: seq<T>, x: T)
    ensures ConcatMap(f, xs + [x]) == ConcatMap(f, xs) + f(x)
  {
    assert (xs + [x])[..|xs|] == xs;
  }

  /** Extending a prefix by one element adds that element's result. */
  lemma ConcatMapPrefix<T, U>(f: T -> seq<U>, xs: seq<T>, i: nat)
    requires i < |xs|
    ensures ConcatMap(f, xs[..i + 1]) == ConcatMap(f, xs[..i]) + f(xs[i])
  {
    assert xs[..i + 1] == xs[..i] + [xs[i]];
    ConcatMapSnoc(f, xs[..i], xs[i]);
  }

  /** The results over `a + b` are the results over `a`, then over `b`. */
  lemma {:induction false} ConcatMapAppend<T, U>(f: T -> seq<U>, a: seq<T>, b: seq<T>)
    ensures ConcatMap(f, a + b) == ConcatMap(f, a) + ConcatMap(f, b)
    decreases |b|
  {
    if b == [] {
      assert a + b == a;
    } else {
      var front := b[..|b| - 1];
      assert a + b == (a + front) + [b[|b| - 1]];
      ConcatMapSnoc(f, a + front, b[|b| - 1]);
      ConcatMapAppend(f, a, front);
    }
  }

  /** Functions that agree on the elements give the same results. */
  lemma {:induction false} ConcatMapCongruence<T, U>(f: T -> seq<U>, g: T -> seq<U>, xs: seq<T>)
    requires forall x :: x in xs ==> f(x) == g(x)
    ensures ConcatMap(f, xs) == ConcatMap(g, xs)
    decreases |xs|
  {
    if xs != [] {
      var front := xs[..|xs| - 1];
      assert xs[|xs| - 1] in xs;
      assert forall x :: x in front ==> x in xs;
      ConcatMapCongruence(f, g, front);
    }
  }

  /** Every element of the results comes from the result of some element. */
  lemma {:induction false} ConcatMapMember<T, U>(f: T -> seq<U>, xs: seq<T>, y: U)
    requires y in ConcatMap(f, xs)
    ensures exists x :: x in xs && y in f(x)
    decreases |xs|
  {
    var front := xs[..|xs| - 1];
    var last := xs[|xs| - 1];
    assert last in xs;
    if y in ConcatMap(f, front) {
      ConcatMapMember(f, front, y);
      var x :| x in front && y in f(x);
      assert x in xs;
    } else {
      assert y in f(last);
    }
  }
}
