/** Lines, white space and digits as Python's string methods and the patterns see them. */
module TextLines {
  import opened Prelude
  import Text

  predicate IsDigit(c: char) {
    '0' <= c <= '9'
  }

  predicate IsWord(c: char) {
    IsDigit(c) || 'a' <= c <= 'z' || 'A' <= c <= 'Z' || c == '_'
  }

  function DigitRun(text: string, i: nat): (n: nat)
    requires i <= |text|
    ensures i + n <= |text|
    decreases |text| - i
  {
    if i < |text| && IsDigit(text[i]) then 1 + DigitRun(text, i + 1) else 0
  }

  lemma {:induction false} DigitRunIsDigits(s: string, i: nat)
    requires i <= |s|
    ensures forall k :: i <= k < i + DigitRun(s, i) ==> IsDigit(s[k])
    decreases |s| - i
  {
    if i < |s| && IsDigit(s[i]) {
      DigitRunIsDigits(s, i + 1);
    }
  }

  lemma {:induction false} DigitRunOf(s: string, i: nat, n: nat)
    requires i + n <= |s| && (forall k :: i <= k < i + n ==> IsDigit(s[k]))
    requires i + n < |s| ==> !IsDigit(s[i + n])
    ensures DigitRun(s, i) == n
    decreases n
  {
    if n > 0 {
      DigitRunOf(s, i + 1, n - 1);
    }
  }

  /** Where `str.splitlines` ends a line. */
  predicate IsBreak(c: char) {
    || '\n' <= c <= '\r' || '\U{1c}' <= c <= '\U{1e}' || c == '\U{85}'
    || c == '\U{2028}' || c == '\U{2029}'
  }

  /** What `str.strip` and the pattern class for white space take for white space. */
  predicate IsSpace(c: char) {
    || c == '\t' || IsBreak(c) || c == '\U{1f}' || c == ' ' || c == '\U{a0}' || c == '\U{1680}'
    || '\U{2000}' <= c <= '\U{200a}' || c == '\U{202f}' || c == '\U{205f}' || c == '\U{3000}'
  }

  function SpaceRun(s: string, i: nat): (n: nat)
    requires i <= |s|
    ensures i + n <= |s|
    decreases |s| - i
  {
    if i < |s| && IsSpace(s[i]) then 1 + SpaceRun(s, i + 1) else 0
  }

  lemma {:induction false} SpaceRunIsSpaces(s: string, i: nat)
    requires i <= |s|
    ensures forall k :: i <= k < i + SpaceRun(s, i) ==> IsSpace(s[k])
    ensures i + SpaceRun(s, i) < |s| ==> !IsSpace(s[i + SpaceRun(s, i)])
    decreases |s| - i
  {
    if i < |s| && IsSpace(s[i]) {
      SpaceRunIsSpaces(s, i + 1);
    }
  }

  lemma {:induction false} SpaceRunOf(s: string, i: nat, n: nat)
    requires i + n <= |s| && (forall k :: i <= k < i + n ==> IsSpace(s[k]))
    requires i + n < |s| ==> !IsSpace(s[i + n])
    ensures SpaceRun(s, i) == n
    decreases n
  {
    if n > 0 {
      SpaceRunOf(s, i + 1, n - 1);
    }
  }

  function StripLeft(s: string): string {
    if s != [] && IsSpace(s[0]) then StripLeft(s[1..]) else s
  }

  function StripRight(s: string): string {
    if s != [] && IsSpace(s[|s| - 1]) then StripRight(s[..|s| - 1]) else s
  }

  function Strip(s: string): string {
    StripRight(StripLeft(s))
  }

  function Newline(c: char): char {
    if IsBreak(c) then '\n' else c
  }

  /** `str.splitlines`, up to empty lines: a pair such as carriage return and line feed ends two
      lines here, the second of them empty. */
  function Lines(text: string): seq<string> {
    Text.Split('\n', Map(Newline, text))
  }

  predicate NonEmpty(s: string) {
    s != []
  }

  /** The stripped lines that are not blank. */
  function CleanLines(text: string): seq<string> {
    Filter(NonEmpty, Map(Strip, Lines(text)))
  }

  /** A line that survives cleaning unchanged. */
  predicate IsClean(s: string) {
    s != [] && !IsSpace(s[0]) && !IsSpace(s[|s| - 1]) && forall c :: c in s ==> !IsBreak(c)
  }

  lemma CleanIsStripped(s: string)
    requires IsClean(s)
    ensures Strip(s) == s
  {
  }

  lemma LinesOfJoin(parts: seq<string>)
    requires parts != [] && forall p :: p in parts ==> forall c :: c in p ==> !IsBreak(c)
    ensures Lines(Text.Join('\n', parts)) == parts
  {
    var text := Text.Join('\n', parts);
    forall c | c in text ensures Newline(c) == c {
      if IsBreak(c) && c != '\n' {
        Text.JoinAvoids('\n', parts, c);
      }
    }
    assert Map(Newline, text) == text;
    Text.SplitJoin('\n', parts);
  }

  /** Clean lines come back from the text they are joined into. */
  lemma CleanLinesOfJoin(parts: seq<string>)
    requires forall p :: p in parts ==> IsClean(p)
    ensures CleanLines(Text.Join('\n', parts)) == parts
  {
    if parts == [] {
      assert Lines([]) == [[]];
      assert Map(Strip, [[]]) == [[]];
    } else {
      LinesOfJoin(parts);
      forall p | p in parts ensures Strip(p) == p {
        CleanIsStripped(p);
      }
      assert Map(Strip, parts) == parts;
      KeepsAll(parts);
    }
  }

  lemma {:induction false} KeepsAll(parts: seq<string>)
    requires forall p :: p in parts ==> p != []
    ensures Filter(NonEmpty, parts) == parts
  {
    if parts != [] {
      var tail := parts[1..];
      assert forall p :: p in tail ==> p in parts;
      assert parts[0] in parts;
      KeepsAll(tail);
      assert parts == [parts[0]] + tail;
    }
  }

  lemma {:induction false} StripLeftShape(s: string)
    ensures StripLeft(s) == [] || !IsSpace(StripLeft(s)[0])
    ensures forall c :: c in StripLeft(s) ==> c in s
  {
    if s != [] && IsSpace(s[0]) {
      StripLeftShape(s[1..]);
    }
  }

  lemma {:induction false} StripRightShape(s: string)
    ensures StripRight(s) <= s
    ensures StripRight(s) == [] || !IsSpace(StripRight(s)[|StripRight(s)| - 1])
  {
    if s != [] && IsSpace(s[|s| - 1]) {
      StripRightShape(s[..|s| - 1]);
    }
  }

  lemma {:induction false} SplitAvoids(sep: char, s: string)
    ensures forall p :: p in Text.Split(sep, s) ==> sep !in p && forall c :: c in p ==> c in s
  {
    if s != [] {
      SplitAvoids(sep, s[1..]);
    }
  }

  /** Cleaning yields clean lines, whatever the text. */
  lemma CleanLinesAreClean(text: string)
    ensures forall l :: l in CleanLines(text) ==> IsClean(l)
  {
    forall l | l in CleanLines(text) ensures IsClean(l) {
      FilterMember(NonEmpty, Map(Strip, Lines(text)), l);
      MapMember(Strip, Lines(text), l);
      var raw :| raw in Lines(text) && Strip(raw) == l;
      SplitAvoids('\n', Map(Newline, text));
      StripLeftShape(raw);
      StripRightShape(StripLeft(raw));
      forall c | c in l ensures !IsBreak(c) {
        assert c in Map(Newline, text);
        assert c != '\n';
      }
    }
  }

  /** The characters of a word, and of white space, by code point. */
  lemma CharactersExactly(c: char)
    ensures var n := c as int;
            && (IsDigit(c) <==> 48 <= n <= 57)
            && (IsWord(c) <==> 48 <= n <= 57 || 65 <= n <= 90 || n == 95 || 97 <= n <= 122)
            && (IsBreak(c) <==> 10 <= n <= 13 || 28 <= n <= 30 || n == 133 || 8232 <= n <= 8233)
            && (IsSpace(c) <==>
                  || 9 <= n <= 13 || 28 <= n <= 32 || n == 133 || n == 160 || n == 5760 || 8192 <= n <= 8202
                  || 8232 <= n <= 8233 || n == 8239 || n == 8287 || n == 12288)
  {
  }

  ghost predicate AllSpace(s: string) {
    forall c :: c in s ==> IsSpace(c)
  }

  /** Stripping takes away the white space at both ends and nothing else. */
  lemma StripExactly(s: string, t: string)
    ensures Strip(s) == t <==>
              && (t == [] || (!IsSpace(t[0]) && !IsSpace(t[|t| - 1])))
              && exists before, after :: AllSpace(before) && AllSpace(after) && s == before + t + after
  {
    StripKeeps(s);
    if before, after :| AllSpace(before) && AllSpace(after) && s == before + t + after
                        && (t == [] || (!IsSpace(t[0]) && !IsSpace(t[|t| - 1])))
    {
      assert s == before + (t + after);
      SkipLeft(before, t + after);
      if t == [] {
        SkipLeft(after, []);
        assert t + after == after + [];
      } else {
        assert StripLeft(t + after) == t + after;
        SkipRight(t, after);
      }
    }
  }

  lemma StripKeeps(s: string)
    ensures exists before, after :: AllSpace(before) && AllSpace(after) && s == before + Strip(s) + after
    ensures var t := Strip(s); t == [] || (!IsSpace(t[0]) && !IsSpace(t[|t| - 1]))
  {
    var before := StripLeftKeeps(s);
    var after := StripRightKeeps(StripLeft(s));
    StripLeftShape(s);
    StripRightShape(StripLeft(s));
    assert s == before + Strip(s) + after;
  }

  lemma {:induction false} StripLeftKeeps(s: string) returns (before: string)
    ensures AllSpace(before) && s == before + StripLeft(s)
  {
    before := [];
    if s != [] && IsSpace(s[0]) {
      before := StripLeftKeeps(s[1..]);
      before := [s[0]] + before;
    }
  }

  lemma {:induction false} StripRightKeeps(s: string) returns (after: string)
    ensures AllSpace(after) && s == StripRight(s) + after
  {
    after := [];
    if s != [] && IsSpace(s[|s| - 1]) {
      after := StripRightKeeps(s[..|s| - 1]);
      assert s == StripRight(s) + (after + [s[|s| - 1]]);
      after := after + [s[|s| - 1]];
    }
  }

  lemma {:induction false} SkipLeft(spaces: string, rest: string)
    requires AllSpace(spaces)
    ensures StripLeft(spaces + rest) == StripLeft(rest)
  {
    if spaces == [] {
      assert spaces + rest == rest;
    } else {
      assert (spaces + rest)[1..] == spaces[1..] + rest;
      assert AllSpace(spaces[1..]);
      assert spaces[0] in spaces;
      SkipLeft(spaces[1..], rest);
    }
  }

  lemma {:induction false} SkipRight(t: string, spaces: string)
    requires AllSpace(spaces) && t != [] && !IsSpace(t[|t| - 1])
    ensures StripRight(t + spaces) == t
  {
    if spaces == [] {
      assert t + spaces == t;
    } else {
      var front := spaces[..|spaces| - 1];
      assert (t + spaces)[..|t + spaces| - 1] == t + front;
      assert AllSpace(front) && spaces[|spaces| - 1] in spaces;
      SkipRight(t, front);
    }
  }

  /** The clean lines: each line stripped, in order, unless it is blank. */
  lemma CleanLinesExactly(text: string, l: string)
    ensures l in CleanLines(text) <==> l != [] && exists raw :: raw in Lines(text) && Strip(raw) == l
    ensures CleanLines(text) == Filter((l: string) => |l| > 0, Map(Strip, Lines(text)))
  {
    FilterMember(NonEmpty, Map(Strip, Lines(text)), l);
    MapMember(Strip, Lines(text), l);
    FilterAgree(NonEmpty, (l: string) => |l| > 0, Map(Strip, Lines(text)));
  }

  /** Lines end at breaks: no line has one, and the lines joined are the text with every break
      turned into a line feed. */
  lemma LinesExactly(text: string)
    ensures forall l, c :: l in Lines(text) && c in l ==> !IsBreak(c)
    ensures var joined := Text.Join('\n', Lines(text));
            |joined| == |text| && forall i :: 0 <= i < |text| ==> joined[i] == if IsBreak(text[i]) then '\n' else text[i]
  {
    var flat := Map(Newline, text);
    Text.JoinSplit('\n', flat);
    SplitAvoids('\n', flat);
    forall l, c | l in Lines(text) && c in l ensures !IsBreak(c) {
      assert c in flat && c != '\n';
      MapMember(Newline, text, c);
    }
  }
}
