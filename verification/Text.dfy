/** Strings as the code uses them: code-point order, ASCII lower-casing, substring search,
    `sep.join` and its inverse. */
module Text {
  import opened Prelude
  import opened Ordering

  function Less(a: string, b: string): bool {
    if b == [] then false
    else if a == [] then true
    else if a[0] != b[0] then a[0] < b[0]
    else Less(a[1..], b[1..])
  }

  lemma {:induction false} LessTransitive(a: string, b: string, c: string)
    requires Less(a, b) && Less(b, c)
    ensures Less(a, c)
  {
    if a != [] && a[0] == b[0] && b[0] == c[0] {
      LessTransitive(a[1..], b[1..], c[1..]);
    }
  }

  lemma {:induction false} LessTotal(a: string, b: string)
    ensures a != b ==> Less(a, b) || Less(b, a)
    ensures !Less(a, a)
  {
    if a != [] && b != [] {
      LessTotal(a[1..], b[1..]);
      assert a == [a[0]] + a[1..] && b == [b[0]] + b[1..];
    } else if a != [] {
      LessTotal(a[1..], b);
    }
  }

  lemma LessStrictTotal()
    ensures StrictTotal(Less)
  {
    forall a, b ensures !Less(a, a) && (a != b ==> Less(a, b) || Less(b, a)) {
      LessTotal(a, b);
    }
    forall a, b, c | Less(a, b) && Less(b, c) ensures Less(a, c) {
      LessTransitive(a, b, c);
    }
  }

  /** Code-point order: one string is a proper prefix of the other, or they first differ at a smaller
      character. */
  lemma {:induction false} LessExactly(a: string, b: string)
    ensures Less(a, b) <==>
              || (a <= b && a != b)
              || exists i :: 0 <= i < |a| && i < |b| && a[..i] == b[..i] && a[i] < b[i]
  {
    if a != [] && b != [] && a[0] == b[0] {
      LessExactly(a[1..], b[1..]);
      assert a == [a[0]] + a[1..] && b == [b[0]] + b[1..];
      if i :| 0 <= i < |a[1..]| && i < |b[1..]| && a[1..][..i] == b[1..][..i] && a[1..][i] < b[1..][i] {
        assert a[..i + 1] == [a[0]] + a[1..][..i] && b[..i + 1] == [b[0]] + b[1..][..i];
      }
      if i :| 0 <= i < |a| && i < |b| && a[..i] == b[..i] && a[i] < b[i] {
        assert a[1..][..i - 1] == a[..i][1..] && b[1..][..i - 1] == b[..i][1..];
      }
    } else if a != [] && b != [] {
      assert a[..0] == b[..0];
    }
  }

  function LowerChar(c: char): char {
    if 'A' <= c <= 'Z' then c + 32 as char else c
  }

  function Lower(s: string): string {
    Map(LowerChar, s)
  }

  function UpperChar(c: char): char {
    if 'a' <= c <= 'z' then c - 32 as char else c
  }

  function Upper(s: string): string {
    Map(UpperChar, s)
  }

  /** Case is that of the letters A to Z; nothing else has one. */
  lemma CaseExactly(c: char)
    ensures 'a' <= c <= 'z' ==> 'A' <= UpperChar(c) <= 'Z' && LowerChar(UpperChar(c)) == c == LowerChar(c)
    ensures 'A' <= c <= 'Z' ==> 'a' <= LowerChar(c) <= 'z' && UpperChar(LowerChar(c)) == c == UpperChar(c)
    ensures !('a' <= c <= 'z' || 'A' <= c <= 'Z') ==> LowerChar(c) == UpperChar(c) == c
    ensures 'A' <= c <= 'Z' ==> LowerChar(c) - 'a' == c - 'A'
  {
  }

  /** A string changes case character by character. */
  lemma CaseOfAll(s: string)
    ensures |Lower(s)| == |Upper(s)| == |s|
    ensures forall i :: 0 <= i < |s| ==> Lower(s)[i] == LowerChar(s[i]) && Upper(s)[i] == UpperChar(s[i])
  {
  }

  predicate OccursAt(s: string, part: string, i: nat) {
    i + |part| <= |s| && s[i..i + |part|] == part
  }

  predicate Contains(s: string, part: string) {
    exists i :: 0 <= i <= |s| && OccursAt(s, part, i)
  }

  /** A part is contained exactly when the string is something, the part, and something. */
  lemma ContainsExactly(s: string, part: string)
    ensures Contains(s, part) <==> exists before, after :: s == before + part + after
  {
    if i :| 0 <= i <= |s| && OccursAt(s, part, i) {
      assert s == s[..i] + part + s[i + |part|..];
    }
    if before, after :| s == before + part + after {
      assert OccursAt(s, part, |before|);
    }
  }

  function Join(sep: char, parts: seq<string>): string {
    if parts == [] then []
    else if |parts| == 1 then parts[0]
    else parts[0] + [sep] + Join(sep, parts[1..])
  }

  /** The pieces of `s` between separators; never none. */
  function Split(sep: char, s: string): (parts: seq<string>)
    ensures parts != []
  {
    if s == [] then [[]]
    else
      var rest := Split(sep, s[1..]);
      if s[0] == sep then [[]] + rest else [[s[0]] + rest[0]] + rest[1..]
  }

  lemma {:induction false} SplitHead(sep: char, part: string, s: string)
    requires sep !in part
    ensures Split(sep, part + [sep] + s) == [part] + Split(sep, s)
    ensures Split(sep, part) == [part]
  {
    if part == [] {
      assert part + [sep] + s == [sep] + s;
    } else {
      SplitHead(sep, part[1..], s);
      assert (part + [sep] + s)[1..] == part[1..] + [sep] + s;
      assert part == [part[0]] + part[1..];
    }
  }

  /** Splitting undoes joining when no part contains the separator. */
  lemma {:induction false} SplitJoin(sep: char, parts: seq<string>)
    requires parts != [] && forall p :: p in parts ==> sep !in p
    ensures Split(sep, Join(sep, parts)) == parts
  {
    assert parts[0] in parts;
    if |parts| == 1 {
      SplitHead(sep, parts[0], []);
    } else {
      SplitJoin(sep, parts[1..]);
      SplitHead(sep, parts[0], Join(sep, parts[1..]));
    }
  }

  /** And joining undoes splitting; no piece contains the separator. */
  lemma {:induction false} JoinSplit(sep: char, s: string)
    ensures Join(sep, Split(sep, s)) == s
    ensures forall p :: p in Split(sep, s) ==> sep !in p
  {
    if s != [] {
      JoinSplit(sep, s[1..]);
      var rest := Split(sep, s[1..]);
      if s[0] == sep {
        assert ([[]] + rest)[1..] == rest;
      } else {
        assert ([[s[0]] + rest[0]] + rest[1..])[1..] == rest[1..];
      }
    }
  }

  /** Joining is injective on non-empty parts without the separator. */
  lemma JoinInjective(sep: char, xs: seq<string>, ys: seq<string>)
    requires forall p :: p in xs ==> p != [] && sep !in p
    requires forall p :: p in ys ==> p != [] && sep !in p
    requires Join(sep, xs) == Join(sep, ys)
    ensures xs == ys
  {
    assert xs != [] ==> xs[0] in xs;
    assert ys != [] ==> ys[0] in ys;
    if xs != [] && ys != [] {
      SplitJoin(sep, xs);
      SplitJoin(sep, ys);
    }
  }

  lemma {:induction false} JoinAvoids(sep: char, parts: seq<string>, c: char)
    requires c != sep && forall p :: p in parts ==> c !in p
    ensures c !in Join(sep, parts)
  {
    if parts != [] {
      assert parts[0] in parts;
      JoinAvoids(sep, parts[1..], c);
    }
  }
}
