/** Failure-carrying results and the sequence operations every component shares. */
module Prelude {

  datatype Option<+T> = None | Some(value: T)

  datatype Result<+T, +E> = Ok(value: T) | Err(error: E)

  /** The elements of `xs` that satisfy `p`, in order. */
  function Filter<T>(p: T -> bool, xs: seq<T>): seq<T>
  {
    if xs == [] then []
    else (if p(xs[0]) then [xs[0]] else []) + Filter(p, xs[1..])
  }

  /** `f` applied to every element of `xs`, in order. */
  function Map<T, U>(f: T -> U, xs: seq<T>): (ys: seq<U>)
    ensures |ys| == |xs|
    ensures forall i :: 0 <= i < |xs| ==> ys[i] == f(xs[i])
  {
    seq(|xs|, i requires 0 <= i < |xs| => f(xs[i]))
  }

  /** The concatenation of `f(x)` over the elements of `xs`, in order. */
  function FlatMap<T, U>(f: T -> seq<U>, xs: seq<T>): seq<U>
  {
    if xs == [] then [] else f(xs[0]) + FlatMap(f, xs[1..])
  }

  ghost predicate Distinct<T>(xs: seq<T>) {
    forall i, j :: 0 <= i < j < |xs| ==> xs[i] != xs[j]
  }

  lemma ConcatAssociative<T>(a: seq<T>, b: seq<T>, c: seq<T>)
    ensures a + (b + c) == (a + b) + c
  {
  }

  lemma ThreeParts<T>(xs: seq<T>, i: nat, j: nat)
    requires i <= j <= |xs|
    ensures xs == xs[..i] + xs[i..j] + xs[j..]
  {
  }

  lemma {:induction false} FilterConcat<T>(p: T -> bool, xs: seq<T>, ys: seq<T>)
    ensures Filter(p, xs + ys) == Filter(p, xs) + Filter(p, ys)
  {
    if xs == [] {
      assert xs + ys == ys;
    } else {
      FilterConcat(p, xs[1..], ys);
      var tail := xs[1..];
      assert (xs + ys)[1..] == tail + ys;
      ConcatAssociative(if p(xs[0]) then [xs[0]] else [], Filter(p, tail), Filter(p, ys));
    }
  }

  lemma {:induction false} FlatMapConcat<T, U>(f: T -> seq<U>, xs: seq<T>, ys: seq<T>)
    ensures FlatMap(f, xs + ys) == FlatMap(f, xs) + FlatMap(f, ys)
  {
    if xs == [] {
      assert xs + ys == ys;
    } else {
      FlatMapConcat(f, xs[1..], ys);
      var tail := xs[1..];
      assert (xs + ys)[1..] == tail + ys;
      ConcatAssociative(f(xs[0]), FlatMap(f, tail), FlatMap(f, ys));
    }
  }

  /** Filtering keeps exactly the satisfying elements. */
  lemma {:induction false} FilterMember<T>(p: T -> bool, xs: seq<T>, x: T)
    ensures x in Filter(p, xs) <==> x in xs && p(x)
  {
    if xs != [] {
      FilterMember(p, xs[1..], x);
      assert x in xs <==> x == xs[0] || x in xs[1..];
    }
  }

  lemma {:induction false} FlatMapMember<T, U>(f: T -> seq<U>, xs: seq<T>, u: U)
    ensures u in FlatMap(f, xs) <==> exists x :: x in xs && u in f(x)
  {
    if xs != [] {
      FlatMapMember(f, xs[1..], u);
      assert forall x :: x in xs <==> x == xs[0] || x in xs[1..];
      assert xs[0] in xs;
    }
  }

  lemma {:induction false} FilterAgree<T>(p: T -> bool, q: T -> bool, xs: seq<T>)
    requires forall x :: x in xs ==> p(x) == q(x)
    ensures Filter(p, xs) == Filter(q, xs)
  {
    if xs != [] {
      assert xs[0] in xs;
      FilterAgree(p, q, xs[1..]);
    }
  }

  lemma {:induction false} FilterTwice<T>(p: T -> bool, q: T -> bool, r: T -> bool, xs: seq<T>)
    requires forall x :: x in xs ==> r(x) == (p(x) && q(x))
    ensures Filter(p, Filter(q, xs)) == Filter(r, xs)
  {
    if xs != [] {
      assert xs[0] in xs;
      var rest := Filter(q, xs[1..]);
      FilterTwice(p, q, r, xs[1..]);
      if q(xs[0]) {
        assert ([xs[0]] + rest)[1..] == rest;
      } else {
        assert [] + rest == rest;
      }
    }
  }

  lemma {:induction false} FlatMapAgree<T, U>(f: T -> seq<U>, g: T -> seq<U>, xs: seq<T>)
    requires forall x :: x in xs ==> f(x) == g(x)
    ensures FlatMap(f, xs) == FlatMap(g, xs)
  {
    if xs != [] {
      assert xs[0] in xs;
      FlatMapAgree(f, g, xs[1..]);
    }
  }

  /** A stronger test keeps no more elements. */
  lemma {:induction false} FilterShrinks<T>(p: T -> bool, q: T -> bool, xs: seq<T>)
    requires forall x :: x in xs && p(x) ==> q(x)
    ensures |Filter(p, xs)| <= |Filter(q, xs)| <= |xs|
  {
    if xs != [] {
      assert xs[0] in xs;
      FilterShrinks(p, q, xs[1..]);
    }
  }

  /** The first element that satisfies `p`. */
  function First<T>(p: T -> bool, xs: seq<T>): (r: Option<T>)
    ensures r.Some? ==> r.value in xs && p(r.value)
    ensures r.None? ==> forall x :: x in xs ==> !p(x)
  {
    if xs == [] then None else if p(xs[0]) then Some(xs[0]) else First(p, xs[1..])
  }

  /** Elements that fail `p` do not matter to the first one that satisfies it. */
  lemma {:induction false} FirstIs<T>(p: T -> bool, xs: seq<T>, i: nat)
    requires i < |xs| && p(xs[i]) && forall j :: 0 <= j < i ==> !p(xs[j])
    ensures First(p, xs) == Some(xs[i])
  {
    if i > 0 {
      FirstIs(p, xs[1..], i - 1);
    }
  }

  lemma {:induction false} FirstOfFilter<T>(p: T -> bool, q: T -> bool, xs: seq<T>)
    requires forall x :: x in xs && p(x) ==> q(x)
    ensures First(p, Filter(q, xs)) == First(p, xs)
  {
    if xs != [] {
      assert xs[0] in xs;
      FirstOfFilter(p, q, xs[1..]);
      var rest := Filter(q, xs[1..]);
      assert ([xs[0]] + rest)[1..] == rest;
      assert [] + rest == rest;
    }
  }

  /** The exception a loop over `xs` stops at, if one of its calls raises. */
  function FirstErr<T, U, E>(f: T -> Result<U, E>, xs: seq<T>): (r: Option<E>)
    ensures r.None? <==> forall x :: x in xs ==> f(x).Ok?
  {
    if xs == [] then None
    else if f(xs[0]).Err? then Some(f(xs[0]).error)
    else FirstErr(f, xs[1..])
  }

  lemma {:induction false} FirstErrIs<T, U, E>(f: T -> Result<U, E>, xs: seq<T>, i: nat)
    requires i <= |xs| && (forall j :: 0 <= j < i ==> f(xs[j]).Ok?) && (i < |xs| ==> f(xs[i]).Err?)
    ensures FirstErr(f, xs) == if i < |xs| then Some(f(xs[i]).error) else None
  {
    if i > 0 {
      FirstErrIs(f, xs[1..], i - 1);
    }
  }

  lemma {:induction false} FirstErrConcat<T, U, E>(f: T -> Result<U, E>, xs: seq<T>, ys: seq<T>)
    ensures FirstErr(f, xs + ys) == if FirstErr(f, xs).Some? then FirstErr(f, xs) else FirstErr(f, ys)
  {
    if xs == [] {
      assert xs + ys == ys;
    } else {
      assert (xs + ys)[1..] == xs[1..] + ys;
      FirstErrConcat(f, xs[1..], ys);
    }
  }

  lemma {:induction false} FirstErrAgree<T, U, E>(f: T -> Result<U, E>, g: T -> Result<U, E>, xs: seq<T>)
    requires forall x :: x in xs ==> f(x) == g(x)
    ensures FirstErr(f, xs) == FirstErr(g, xs)
  {
    if xs != [] {
      assert xs[0] in xs;
      FirstErrAgree(f, g, xs[1..]);
    }
  }

  /** Filtering what a loop produced is producing it from the filtered input. */
  lemma {:induction false} FilterFlatMap<T, U>(f: T -> seq<U>, p: T -> bool, q: U -> bool, xs: seq<T>)
    requires forall x, u :: x in xs && u in f(x) ==> q(u) == p(x)
    ensures Filter(q, FlatMap(f, xs)) == FlatMap(f, Filter(p, xs))
  {
    if xs != [] {
      assert xs[0] in xs;
      FilterFlatMap(f, p, q, xs[1..]);
      FilterConcat(q, f(xs[0]), FlatMap(f, xs[1..]));
      FilterAllOrNothing(q, f(xs[0]), p(xs[0]));
      var rest := Filter(p, xs[1..]);
      assert ([xs[0]] + rest)[1..] == rest;
      assert [] + rest == rest;
    }
  }

  /** A change that neither `p` nor `f` notices. */
  lemma {:induction false} FlatMapUnchanged<T, U>(f: T -> seq<U>, p: T -> bool, g: T -> T, xs: seq<T>)
    requires forall x :: x in xs ==> p(g(x)) == p(x) && f(g(x)) == f(x)
    ensures FlatMap(f, Filter(p, Map(g, xs))) == FlatMap(f, Filter(p, xs))
  {
    if xs != [] {
      assert xs[0] in xs;
      FlatMapUnchanged(f, p, g, xs[1..]);
      var ys := Map(g, xs);
      assert ys[0] == g(xs[0]) && ys[1..] == Map(g, xs[1..]);
      var rest, rest' := Filter(p, xs[1..]), Filter(p, ys[1..]);
      assert ([xs[0]] + rest)[1..] == rest && ([ys[0]] + rest')[1..] == rest';
      assert [] + rest == rest && [] + rest' == rest';
    }
  }

  lemma {:induction false} FilterAllOrNothing<U>(q: U -> bool, us: seq<U>, keep: bool)
    requires forall u :: u in us ==> q(u) == keep
    ensures Filter(q, us) == if keep then us else []
  {
    if us != [] {
      assert us[0] in us;
      FilterAllOrNothing(q, us[1..], keep);
    }
  }

  /** The elements of `xs` without those whose key occurred before. */
  function DedupBy<T, K(==)>(key: T -> K, xs: seq<T>): seq<T> {
    if xs == [] then []
    else
      var kept, last := DedupBy(key, xs[..|xs| - 1]), xs[|xs| - 1];
      if key(last) in Map(key, kept) then kept else kept + [last]
  }

  /** Where a key occurs first. */
  ghost function FirstIndex<T, K>(key: T -> K, xs: seq<T>, k: K): nat {
    if xs == [] || key(xs[0]) == k then 0 else 1 + FirstIndex(key, xs[1..], k)
  }

  lemma {:induction false} FirstIndexFinds<T, K>(key: T -> K, xs: seq<T>, k: K, ys: seq<T>)
    ensures FirstIndex(key, xs, k) <= |xs|
    ensures FirstIndex(key, xs, k) < |xs| ==> key(xs[FirstIndex(key, xs, k)]) == k
    ensures forall i :: 0 <= i < FirstIndex(key, xs, k) ==> key(xs[i]) != k
    ensures FirstIndex(key, xs + ys, k) ==
            if FirstIndex(key, xs, k) < |xs| then FirstIndex(key, xs, k) else |xs| + FirstIndex(key, ys, k)
  {
    if xs == [] {
      assert xs + ys == ys;
    } else {
      FirstIndexFinds(key, xs[1..], k, ys);
      assert (xs + ys)[1..] == xs[1..] + ys;
    }
  }

  /** `kept` has each key of `xs` once, as its first occurrence, in the order of first
      occurrences. */
  ghost predicate KeepsFirst<T, K>(key: T -> K, xs: seq<T>, kept: seq<T>) {
    && (forall x :: x in xs ==> key(x) in Map(key, kept))
    && (forall i :: 0 <= i < |kept| ==>
          FirstIndex(key, xs, key(kept[i])) < |xs| && xs[FirstIndex(key, xs, key(kept[i]))] == kept[i])
    && (forall i, j :: 0 <= i < j < |kept| ==>
          FirstIndex(key, xs, key(kept[i])) < FirstIndex(key, xs, key(kept[j])))
  }

  lemma KeepsFirstOld<T, K>(key: T -> K, xs: seq<T>, kept: seq<T>, x: T)
    requires KeepsFirst(key, xs, kept) && key(x) in Map(key, kept)
    ensures KeepsFirst(key, xs + [x], kept)
  {
    forall i | 0 <= i < |kept| ensures FirstIndex(key, xs + [x], key(kept[i])) == FirstIndex(key, xs, key(kept[i])) {
      FirstIndexFinds(key, xs, key(kept[i]), [x]);
    }
  }

  lemma KeepsFirstNew<T, K>(key: T -> K, xs: seq<T>, kept: seq<T>, x: T)
    requires KeepsFirst(key, xs, kept) && key(x) !in Map(key, kept)
    ensures KeepsFirst(key, xs + [x], kept + [x])
  {
    var more := kept + [x];
    assert Map(key, more) == Map(key, kept) + [key(x)];
    FirstIndexFinds(key, xs, key(x), [x]);
    assert FirstIndex(key, xs, key(x)) == |xs|;
    forall i | 0 <= i < |kept| ensures FirstIndex(key, xs + [x], key(more[i])) == FirstIndex(key, xs, key(kept[i])) {
      FirstIndexFinds(key, xs, key(kept[i]), [x]);
    }
    assert more[|kept|] == x && (xs + [x])[|xs|] == x;
  }

  lemma {:induction false} DedupKeepsFirst<T, K>(key: T -> K, xs: seq<T>)
    ensures KeepsFirst(key, xs, DedupBy(key, xs))
  {
    if xs != [] {
      var prefix, last := xs[..|xs| - 1], xs[|xs| - 1];
      DedupKeepsFirst(key, prefix);
      assert xs == prefix + [last];
      if key(last) in Map(key, DedupBy(key, prefix)) {
        KeepsFirstOld(key, prefix, DedupBy(key, prefix), last);
      } else {
        KeepsFirstNew(key, prefix, DedupBy(key, prefix), last);
      }
    }
  }

  lemma DedupDistinct<T, K>(key: T -> K, xs: seq<T>)
    ensures Distinct(Map(key, DedupBy(key, xs)))
    ensures forall x :: x in DedupBy(key, xs) ==> x in xs
  {
    DedupKeepsFirst(key, xs);
  }

  /** One more turn of a loop that collects `f` of each element. */
  lemma FlatMapStep<T, U>(f: T -> seq<U>, xs: seq<T>, i: nat)
    requires i < |xs|
    ensures FlatMap(f, xs[..i + 1]) == FlatMap(f, xs[..i]) + f(xs[i])
    ensures f(xs[i]) == [] ==> FlatMap(f, xs[..i + 1]) == FlatMap(f, xs[..i])
  {
    assert xs[..i + 1] == xs[..i] + [xs[i]];
    assert [xs[i]][1..] == [];
    FlatMapConcat(f, xs[..i], [xs[i]]);
  }

  lemma FilterStep<T>(p: T -> bool, xs: seq<T>, i: nat)
    requires i < |xs|
    ensures Filter(p, xs[..i + 1]) ==
            if p(xs[i]) then Filter(p, xs[..i]) + [xs[i]] else Filter(p, xs[..i])
  {
    assert xs[..i + 1] == xs[..i] + [xs[i]];
    assert [xs[i]][1..] == [];
    FilterConcat(p, xs[..i], [xs[i]]);
  }

  /** One more turn of a loop that stops at the first exception. */
  lemma FirstErrStep<T, U, E>(f: T -> Result<U, E>, xs: seq<T>, i: nat)
    requires i < |xs| && FirstErr(f, xs[..i]) == None
    ensures f(xs[i]).Ok? ==> FirstErr(f, xs[..i + 1]) == None
    ensures f(xs[i]).Err? ==> FirstErr(f, xs) == Some(f(xs[i]).error)
  {
    var before, rest := xs[..i], xs[i..];
    assert xs == before + rest && rest[0] == xs[i];
    FirstErrConcat(f, before, rest);
    assert xs[..i + 1] == before + [xs[i]];
    FirstErrConcat(f, before, [xs[i]]);
    FirstErrOne(f, xs[i]);
  }

  lemma FirstErrOne<T, U, E>(f: T -> Result<U, E>, x: T)
    ensures FirstErr(f, [x]) == if f(x).Err? then Some(f(x).error) else None
  {
    assert [x][1..] == [];
  }

  lemma MapStep<T, U>(f: T -> U, xs: seq<T>, x: T)
    ensures Map(f, xs + [x]) == Map(f, xs) + [f(x)]
  {
  }

  lemma MapFirst<T, U>(f: T -> U, x: T, xs: seq<T>)
    ensures Map(f, [x] + xs) == [f(x)] + Map(f, xs)
  {
  }

  lemma MapMember<T, U>(f: T -> U, xs: seq<T>, u: U)
    ensures u in Map(f, xs) <==> exists x :: x in xs && f(x) == u
  {
    if u in Map(f, xs) {
      var i :| 0 <= i < |xs| && Map(f, xs)[i] == u;
      assert xs[i] in xs;
    }
    if x :| x in xs && f(x) == u {
      var i :| 0 <= i < |xs| && xs[i] == x;
      assert Map(f, xs)[i] == u;
    }
  }
}
