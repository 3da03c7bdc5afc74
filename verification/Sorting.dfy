/** Go's sort.Slice and sort.SliceStable, as an insertion sort. Only the contract matters to the
    callers: the result is an ordered permutation, and equal elements keep their order. */
module Sorting {
  function Filter<T>(s: seq<T>, p: T -> bool): seq<T> {
    if s == [] then [] else (if p(s[0]) then [s[0]] else []) + Filter(s[1..], p)
  }

  lemma {:induction false} FilterConcat<T>(a: seq<T>, b: seq<T>, p: T -> bool)
    ensures Filter(a + b, p) == Filter(a, p) + Filter(b, p)
  {
    if a == [] {
      assert a + b == b;
    } else {
      var head := if p(a[0]) then [a[0]] else [];
      FilterConcat(a[1..], b, p);
      assert (a + b)[0] == a[0] && (a + b)[1..] == a[1..] + b;
      assert Filter(a + b, p) == head + (Filter(a[1..], p) + Filter(b, p));
    }
  }

  lemma {:induction false} FilterMembers<T>(s: seq<T>, p: T -> bool)
    ensures forall x :: x in Filter(s, p) <==> x in s && p(x)
  {
    if s != [] {
      FilterMembers(s[1..], p);
      assert s == [s[0]] + s[1..];
    }
  }

  ghost predicate StrictWeak<T(!new)>(less: (T, T) -> bool) {
    && (forall a, b :: less(a, b) ==> !less(b, a))
    && (forall a, b, c :: !less(a, b) && !less(b, c) ==> !less(a, c))
  }

  ghost predicate Ordered<T>(s: seq<T>, less: (T, T) -> bool) {
    forall i, j :: 0 <= i < j < |s| ==> !less(s[j], s[i])
  }

  function Insert<T>(x: T, s: seq<T>, less: (T, T) -> bool): seq<T> {
    if s == [] || !less(s[0], x) then [x] + s else [s[0]] + Insert(x, s[1..], less)
  }

  function SortStable<T>(s: seq<T>, less: (T, T) -> bool): seq<T> {
    if s == [] then [] else Insert(s[0], SortStable(s[1..], less), less)
  }

  lemma {:induction false} InsertKeeps<T(!new)>(x: T, s: seq<T>, less: (T, T) -> bool)
    requires StrictWeak(less) && Ordered(s, less)
    ensures multiset(Insert(x, s, less)) == multiset{x} + multiset(s)
    ensures Ordered(Insert(x, s, less), less)
  {
    var r := Insert(x, s, less);
    if s != [] {
      assert s == [s[0]] + s[1..];
      if less(s[0], x) {
        InsertKeeps(x, s[1..], less);
        var t := Insert(x, s[1..], less);
        forall j | 0 <= j < |t| ensures !less(t[j], s[0]) {
          assert t[j] in multiset(t);
          assert t[j] == x || t[j] in s[1..];
        }
      }
    }
  }

  lemma {:induction false} SortIsOrderedPermutation<T(!new)>(s: seq<T>, less: (T, T) -> bool)
    requires StrictWeak(less)
    ensures multiset(SortStable(s, less)) == multiset(s)
    ensures Ordered(SortStable(s, less), less)
  {
    if s != [] {
      SortIsOrderedPermutation(s[1..], less);
      InsertKeeps(s[0], SortStable(s[1..], less), less);
      assert s == [s[0]] + s[1..];
    }
  }

  /** Elements that the order cannot tell apart keep the order they came in. */
  lemma {:induction false} SortIsStable<T(!new)>(s: seq<T>, less: (T, T) -> bool, same: T -> bool)
    requires forall a, b :: same(a) && same(b) ==> !less(a, b)
    ensures Filter(SortStable(s, less), same) == Filter(s, same)
  {
    if s != [] {
      SortIsStable(s[1..], less, same);
      InsertIsStable(s[0], SortStable(s[1..], less), less, same);
    }
  }

  lemma {:induction false} InsertIsStable<T(!new)>(x: T, s: seq<T>, less: (T, T) -> bool, same: T -> bool)
    requires forall a, b :: same(a) && same(b) ==> !less(a, b)
    ensures Filter(Insert(x, s, less), same) == Filter([x], same) + Filter(s, same)
  {
    if s == [] || !less(s[0], x) {
      FilterConcat([x], s, same);
    } else {
      InsertIsStable(x, s[1..], less, same);
      FilterConcat([s[0]], Insert(x, s[1..], less), same);
      assert s == [s[0]] + s[1..];
    }
  }

  lemma SameMembers<T>(a: seq<T>, b: seq<T>)
    requires multiset(a) == multiset(b)
    ensures |a| == |b|
    ensures forall x :: x in a <==> x in b
  {
    assert |multiset(a)| == |a| && |multiset(b)| == |b|;
    forall x ensures x in a <==> x in b {
      assert x in a <==> x in multiset(a);
      assert x in b <==> x in multiset(b);
    }
  }
}
