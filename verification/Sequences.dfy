/** Sequences from their end, and sums over them. */
module Sequences {
  function Front<T>(xs: seq<T>): seq<T>
    requires xs != []
  { xs[..|xs| - 1] }

  function Last<T>(xs: seq<T>): T
    requires xs != []
  { xs[|xs| - 1] }

  lemma PrefixGrows<T>(xs: seq<T>, i: nat)
    requires i < |xs|
    ensures xs[..i + 1] != [] && Front(xs[..i + 1]) == xs[..i] && Last(xs[..i + 1]) == xs[i]
  {
  }

  lemma FrontAndLast<T>(xs: seq<T>)
    requires xs != []
    ensures Front(xs) + [Last(xs)] == xs
  {
  }

  function Total<T>(xs: seq<T>, weight: T -> int): int {
    if xs == [] then 0 else Total(xs[..|xs| - 1], weight) + weight(xs[|xs| - 1])
  }

  lemma {:induction false} TotalUpdate<T>(xs: seq<T>, i: nat, x: T, weight: T -> int)
    requires i < |xs|
    ensures Total(xs[i := x], weight) == Total(xs, weight) - weight(xs[i]) + weight(x)
  {
    var n := |xs| - 1;
    if i == n {
      assert xs[i := x][..n] == xs[..n];
    } else {
      TotalUpdate(xs[..n], i, x, weight);
      assert xs[i := x][..n] == xs[..n][i := x];
    }
  }

  lemma TotalAppend<T>(xs: seq<T>, x: T, weight: T -> int)
    ensures Total(xs + [x], weight) == Total(xs, weight) + weight(x)
  {
    assert (xs + [x])[..|xs|] == xs;
  }

  lemma {:induction false} TotalMonotone<T>(xs: seq<T>, v: T -> int, w: T -> int)
    requires forall x :: x in xs ==> v(x) <= w(x)
    ensures Total(xs, v) <= Total(xs, w)
  {
    if xs != [] {
      TotalMonotone(xs[..|xs| - 1], v, w);
    }
  }

  lemma {:induction false} TotalSum<T>(xs: seq<T>, u: T -> int, v: T -> int, w: T -> int)
    requires forall x :: x in xs ==> w(x) == u(x) + v(x)
    ensures Total(xs, w) == Total(xs, u) + Total(xs, v)
  {
    if xs != [] {
      TotalSum(xs[..|xs| - 1], u, v, w);
    }
  }

  lemma {:induction false} TotalOfNothing<T>(xs: seq<T>, w: T -> int)
    requires forall x :: x in xs ==> w(x) == 0
    ensures Total(xs, w) == 0
  {
    if xs != [] {
      TotalOfNothing(xs[..|xs| - 1], w);
    }
  }

  lemma {:induction false} TotalOfEqual<T>(xs: seq<T>, w: T -> int, x: int)
    requires forall y :: y in xs ==> w(y) == x
    ensures Total(xs, w) == |xs| * x
  {
    if xs != [] {
      TotalOfEqual(xs[..|xs| - 1], w, x);
      assert |xs| * x == (|xs| - 1) * x + x;
    }
  }
}
