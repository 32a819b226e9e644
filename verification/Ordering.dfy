/** Sorting without duplicates, for any strict total order. */
module Ordering {
  import opened Prelude

  ghost predicate StrictTotal<T(!new)>(less: (T, T) -> bool) {
    && (forall x :: !less(x, x))
    && (forall x, y :: x != y ==> less(x, y) || less(y, x))
    && (forall x, y, z :: less(x, y) && less(y, z) ==> less(x, z))
  }

  ghost predicate Sorted<T>(less: (T, T) -> bool, xs: seq<T>) {
    forall i, j :: 0 <= i < j < |xs| ==> less(xs[i], xs[j])
  }

  /** Insertion into a sorted sequence; an element already there is not repeated. */
  function Insert<T(==)>(less: (T, T) -> bool, x: T, xs: seq<T>): seq<T> {
    if xs == [] then [x]
    else if xs[0] == x then xs
    else if less(x, xs[0]) then [x] + xs
    else [xs[0]] + Insert(less, x, xs[1..])
  }

  /** `sorted(set(xs))`. */
  function SortDistinct<T(==)>(less: (T, T) -> bool, xs: seq<T>): seq<T> {
    if xs == [] then [] else Insert(less, xs[0], SortDistinct(less, xs[1..]))
  }

  lemma {:induction false} InsertSorts<T(!new)>(less: (T, T) -> bool, x: T, xs: seq<T>)
    requires StrictTotal(less) && Sorted(less, xs)
    ensures Sorted(less, Insert(less, x, xs))
    ensures forall y :: y in Insert(less, x, xs) <==> y == x || y in xs
  {
    if xs != [] && xs[0] != x && !less(x, xs[0]) {
      var rest := Insert(less, x, xs[1..]);
      InsertSorts(less, x, xs[1..]);
      assert forall y :: y in xs <==> y == xs[0] || y in xs[1..];
      forall j | 0 <= j < |rest| ensures less(xs[0], rest[j]) {
        assert rest[j] in rest;
        if rest[j] != x {
          var k :| 0 <= k < |xs[1..]| && xs[1..][k] == rest[j];
          assert xs[k + 1] == rest[j];
        }
      }
    }
  }

  lemma {:induction false} SortDistinctSorts<T(!new)>(less: (T, T) -> bool, xs: seq<T>)
    requires StrictTotal(less)
    ensures Sorted(less, SortDistinct(less, xs))
    ensures forall y :: y in SortDistinct(less, xs) <==> y in xs
  {
    if xs != [] {
      SortDistinctSorts(less, xs[1..]);
      InsertSorts(less, xs[0], SortDistinct(less, xs[1..]));
      assert forall y :: y in xs <==> y == xs[0] || y in xs[1..];
    }
  }

  /** A sorted sequence is determined by what is in it. */
  lemma {:induction false} SortedUnique<T(!new)>(less: (T, T) -> bool, xs: seq<T>, ys: seq<T>)
    requires StrictTotal(less) && Sorted(less, xs) && Sorted(less, ys)
    requires forall x :: x in xs <==> x in ys
    ensures xs == ys
  {
    assert xs != [] ==> xs[0] in xs;
    assert ys != [] ==> ys[0] in ys;
    if xs != [] {
      assert xs[0] == ys[0];
      forall x ensures x in xs[1..] <==> x in ys[1..] {
        assert x in xs <==> x == xs[0] || x in xs[1..];
        assert x in ys <==> x == ys[0] || x in ys[1..];
      }
      SortedUnique(less, xs[1..], ys[1..]);
    }
  }

  lemma {:induction false} FilterSorted<T(!new)>(less: (T, T) -> bool, p: T -> bool, xs: seq<T>)
    requires Sorted(less, xs)
    ensures Sorted(less, Filter(p, xs))
  {
    if xs != [] {
      FilterSorted(less, p, xs[1..]);
      forall x | x in Filter(p, xs[1..]) ensures less(xs[0], x) {
        FilterMember(p, xs[1..], x);
      }
    }
  }

  /** Sorting depends on nothing but the set of elements. */
  lemma SortDistinctCanonical<T(!new)>(less: (T, T) -> bool, xs: seq<T>, ys: seq<T>)
    requires StrictTotal(less)
    ensures SortDistinct(less, xs) == SortDistinct(less, ys) <==> (forall x :: x in xs <==> x in ys)
  {
    SortDistinctSorts(less, xs);
    SortDistinctSorts(less, ys);
    if forall x :: x in xs <==> x in ys {
      SortedUnique(less, SortDistinct(less, xs), SortDistinct(less, ys));
    } else {
      var x :| x in xs <==> x !in ys;
      assert x in SortDistinct(less, xs) <==> x !in SortDistinct(less, ys);
    }
  }
}
