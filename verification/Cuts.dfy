/** Cutting a sequence before each element that starts a new piece. */
module Cuts {

  /** How many leading elements satisfy `p`. */
  function Run<T>(p: T -> bool, xs: seq<T>): (n: nat)
    ensures n <= |xs|
    ensures forall i :: 0 <= i < n ==> p(xs[i])
    ensures n < |xs| ==> !p(xs[n])
  {
    if xs == [] || !p(xs[0]) then 0 else 1 + Run(p, xs[1..])
  }

  lemma {:induction false} RunIs<T>(p: T -> bool, front: seq<T>, rest: seq<T>)
    requires forall x :: x in front ==> p(x)
    requires rest == [] || !p(rest[0])
    ensures Run(p, front + rest) == |front|
  {
    if front == [] {
      assert front + rest == rest;
    } else {
      assert front[0] in front;
      RunIs(p, front[1..], rest);
      assert (front + rest)[1..] == front[1..] + rest;
    }
  }

  /** The elements from the first head on, cut before every head. */
  function Pieces<T>(other: T -> bool, xs: seq<T>): (pieces: seq<seq<T>>)
    requires xs == [] || !other(xs[0])
    ensures forall p :: p in pieces ==> p != [] && !other(p[0])
  {
    if xs == [] then []
    else
      var n := 1 + Run(other, xs[1..]);
      [xs[..n]] + Pieces(other, xs[n..])
  }

  /** The positions of the heads at or after `i`. */
  function HeadsFrom<T>(other: T -> bool, xs: seq<T>, i: nat): (hs: seq<nat>)
    requires i <= |xs|
    ensures forall k :: 0 <= k < |hs| ==> i <= hs[k] < |xs| && !other(xs[hs[k]])
    decreases |xs| - i
  {
    if i == |xs| then []
    else if other(xs[i]) then HeadsFrom(other, xs, i + 1)
    else [i] + HeadsFrom(other, xs, i + 1)
  }

  lemma {:induction false} NextHead<T>(other: T -> bool, xs: seq<T>, i: nat)
    requires i <= |xs|
    ensures var n := i + Run(other, xs[i..]);
            HeadsFrom(other, xs, i) == if n < |xs| then [n] + HeadsFrom(other, xs, n + 1) else []
    decreases |xs| - i
  {
    if i < |xs| {
      var rest := xs[i..];
      assert rest[0] == xs[i];
      if other(xs[i]) {
        NextHead(other, xs, i + 1);
        assert rest[1..] == xs[i + 1..];
      }
    }
  }

  /** Where the piece that starts at `i` ends. */
  function EndOf<T>(other: T -> bool, xs: seq<T>, i: nat): (end: nat)
    requires i < |xs|
    ensures i < end <= |xs|
    ensures end < |xs| ==> !other(xs[end])
  {
    i + 1 + Run(other, xs[i + 1..])
  }

  lemma HeadsStep<T>(other: T -> bool, xs: seq<T>, i: nat)
    requires i < |xs| && !other(xs[i])
    ensures var end := EndOf(other, xs, i);
            && HeadsFrom(other, xs, i) == [i] + HeadsFrom(other, xs, end)
            && (end < |xs| ==> HeadsFrom(other, xs, end) == [end] + HeadsFrom(other, xs, end + 1))
            && (end == |xs| ==> HeadsFrom(other, xs, end) == [])
  {
    NextHead(other, xs, i + 1);
  }

  lemma PiecesStep<T>(other: T -> bool, xs: seq<T>, i: nat)
    requires i < |xs| && !other(xs[i])
    ensures var end := EndOf(other, xs, i);
            Pieces(other, xs[i..]) == [xs[i..end]] + Pieces(other, xs[end..])
  {
    var rest, end := xs[i..], EndOf(other, xs, i);
    assert rest[0] == xs[i];
    assert rest[1..] == xs[i + 1..];
    assert rest[..end - i] == xs[i..end];
    assert rest[end - i..] == xs[end..];
  }

  ghost function Concat<T>(pieces: seq<seq<T>>): seq<T> {
    if pieces == [] then [] else pieces[0] + Concat(pieces[1..])
  }

  /** The pieces tile the sequence, and each has its one head in front. */
  lemma {:induction false} PiecesTile<T>(other: T -> bool, xs: seq<T>)
    requires xs == [] || !other(xs[0])
    ensures Concat(Pieces(other, xs)) == xs
    ensures forall p, i :: p in Pieces(other, xs) && 0 < i < |p| ==> other(p[i])
  {
    if xs != [] {
      var n := 1 + Run(other, xs[1..]);
      PiecesTile(other, xs[n..]);
      assert xs[..n] + xs[n..] == xs;
    }
  }

  /** Pieces that each have one head, in front, come back from their concatenation. */
  lemma {:induction false} PiecesOfConcat<T>(other: T -> bool, pieces: seq<seq<T>>)
    requires forall p :: p in pieces ==> p != [] && !other(p[0]) && forall i :: 0 < i < |p| ==> other(p[i])
    ensures Concat(pieces) == [] || !other(Concat(pieces)[0])
    ensures Pieces(other, Concat(pieces)) == pieces
  {
    if pieces != [] {
      var first, rest := pieces[0], Concat(pieces[1..]);
      assert first in pieces;
      PiecesOfConcat(other, pieces[1..]);
      RunIs(other, first[1..], rest);
      var xs := first + rest;
      assert xs[1..] == first[1..] + rest;
      assert xs[..|first|] == first && xs[|first|..] == rest;
    }
  }
}
