/** `_parse_page` of `app/documents/pdf_parser.py`: the title, the metadata and the rest. */
module Pages {
  import opened Prelude
  import opened TextLines
  import opened Cuts
  import opened Sections
  import Text

  datatype Page = Page(number: int, title: string, fields: map<string, string>, sections: seq<Section>)

  datatype ParseError = NoMetadataBlock

  datatype Field = Field(key: string, value: string)

  predicate IsKeyChar(c: char) {
    'A' <= c <= 'Z' || 'a' <= c <= 'z' || c == ' '
  }

  function KeyRun(s: string, i: nat): (n: nat)
    requires i <= |s|
    ensures i + n <= |s|
    decreases |s| - i
  {
    if i < |s| && IsKeyChar(s[i]) then 1 + KeyRun(s, i + 1) else 0
  }

  const MAX_KEY_TAIL := 30

  /** The metadata pattern on one line: a letter, up to thirty letters and spaces, a colon, and
      at least one more character. */
  function FieldOf(line: string): Option<Field> {
    if line == [] || !IsKeyChar(line[0]) || line[0] == ' ' then None
    else
      var tail := KeyRun(line, 1);
      var colon := 1 + tail;
      if 1 <= tail <= MAX_KEY_TAIL && colon + 1 < |line| && line[colon] == ':'
      then Some(Field(Strip(line[..colon]), Strip(line[colon + 1..])))
      else None
  }

  predicate NoField(line: string) {
    FieldOf(line).None?
  }

  predicate IsField(line: string) {
    FieldOf(line).Some?
  }

  /** Later lines override earlier ones with the same key. */
  function FieldsOf(block: seq<string>): map<string, string> {
    if block == [] then map[]
    else
      var before, last := FieldsOf(block[..|block| - 1]), FieldOf(block[|block| - 1]);
      if last.Some? then before[last.value.key := last.value.value] else before
  }

  function PageOf(number: int, lines: seq<string>): Result<Page, ParseError> {
    var t := Run(NoField, lines);
    if t == |lines| then Err(NoMetadataBlock)
    else
      var b := t + Run(IsField, lines[t..]);
      Ok(Page(number, Text.Join(' ', lines[..t]), FieldsOf(lines[t..b]), Split(lines[b..])))
  }

  /** The two loops as written. */
  method ParsePage(number: int, lines: seq<string>) returns (page: Result<Page, ParseError>)
    ensures page == PageOf(number, lines)
  {
    hide FieldOf, FieldsOf, Split, Text.Join, Run;
    var titleLines: seq<string> := [];
    var fields: map<string, string> := map[];
    var idx := 0;
    while idx < |lines| && FieldOf(lines[idx]).None?
      invariant idx <= Run(NoField, lines) && titleLines == lines[..idx]
    {
      titleLines := titleLines + [lines[idx]];
      idx := idx + 1;
    }
    if idx >= |lines| {
      return Err(NoMetadataBlock);
    }
    assert FieldsOf(lines[idx..idx]) == map[] by {
      NoFields(lines[idx..idx]);
    }
    ghost var start, stop := idx, idx + Run(IsField, lines[idx..]);
    while idx < |lines|
      invariant start <= idx <= stop <= |lines|
      invariant fields == FieldsOf(lines[start..idx])
    {
      var field := FieldOf(lines[idx]);
      BlockStep(lines, start, idx);
      if field.None? {
        break;
      }
      fields := fields[field.value.key := field.value.value];
      idx := idx + 1;
    }
    var sections := SplitSections(lines[idx..]);
    page := Ok(Page(number, Text.Join(' ', titleLines), fields, sections));
  }

  lemma NoFields(block: seq<string>)
    requires block == []
    ensures FieldsOf(block) == map[]
  {
  }

  lemma BlockStep(lines: seq<string>, start: nat, i: nat)
    requires start <= i < |lines| && i <= start + Run(IsField, lines[start..])
    ensures IsField(lines[i]) <==> i < start + Run(IsField, lines[start..])
    ensures IsField(lines[i]) ==>
              FieldsOf(lines[start..i + 1])
              == FieldsOf(lines[start..i])[FieldOf(lines[i]).value.key := FieldOf(lines[i]).value.value]
  {
    hide FieldOf;
    assert lines[start..][i - start] == lines[i];
    assert lines[start..i + 1][..i - start] == lines[start..i];
  }

  /** A line is metadata exactly when it is a key of two to thirty-one letters and spaces that begins
      with a letter, a colon, and something more; key and value are stripped. */
  lemma FieldExactly(line: string, f: Field)
    ensures FieldOf(line) == Some(f) <==> exists key, rest :: IsKeyLine(line, key, rest) && f == Field(Strip(key), Strip(rest))
  {
    hide Strip, FieldOf, IsKeyLine;
    if key, rest :| IsKeyLine(line, key, rest) && f == Field(Strip(key), Strip(rest)) {
      KeyLineIsField(line, key, rest);
    }
    if FieldOf(line) == Some(f) {
      var key, rest := FieldIsKeyLine(line);
    }
  }

  lemma KeyLineIsField(line: string, key: string, rest: string)
    requires IsKeyLine(line, key, rest)
    ensures FieldOf(line) == Some(Field(Strip(key), Strip(rest)))
  {
    hide Strip;
    assert forall j :: 0 <= j < |key| ==> key[j] in key && line[j] == key[j];
    assert line[|key|] == ':';
    KeyRunOf(line, 1, |key| - 1);
    assert line[..|key|] == key && line[|key| + 1..] == rest;
  }

  lemma FieldIsKeyLine(line: string) returns (key: string, rest: string)
    requires FieldOf(line).Some?
    ensures IsKeyLine(line, key, rest) && FieldOf(line) == Some(Field(Strip(key), Strip(rest)))
  {
    hide Strip, KeyRun;
    var colon := 1 + KeyRun(line, 1);
    KeyRunIsKey(line, 1);
    key, rest := line[..colon], line[colon + 1..];
    assert line[colon..colon + 1] == ":";
    assert line == key + ":" + rest;
    assert forall j :: 0 <= j < colon ==> key[j] == line[j] && IsKeyChar(line[j]);
  }

  ghost predicate IsKeyLine(line: string, key: string, rest: string) {
    && line == key + ":" + rest && rest != [] && 2 <= |key| <= 31 && key[0] != ' '
    && forall c :: c in key ==> 'A' <= c <= 'Z' || 'a' <= c <= 'z' || c == ' '
  }

  lemma {:induction false} KeyRunIsKey(s: string, i: nat)
    requires i <= |s|
    ensures forall k :: i <= k < i + KeyRun(s, i) ==> IsKeyChar(s[k])
    decreases |s| - i
  {
    if i < |s| && IsKeyChar(s[i]) {
      KeyRunIsKey(s, i + 1);
    }
  }

  /** A block of metadata holds, under each key, the value of the last line with that key, and no
      other key. */
  lemma {:induction false} FieldsExactly(block: seq<string>, k: string, i: nat)
    requires i < |block| && FieldOf(block[i]).Some? && FieldOf(block[i]).value.key == k
    requires forall j :: i < j < |block| && FieldOf(block[j]).Some? ==> FieldOf(block[j]).value.key != k
    ensures k in FieldsOf(block) && FieldsOf(block)[k] == FieldOf(block[i]).value.value
  {
    hide FieldOf;
    if i < |block| - 1 {
      FieldsExactly(block[..|block| - 1], k, i);
    }
  }

  lemma {:induction false} FieldsHaveLines(block: seq<string>, k: string)
    requires k in FieldsOf(block)
    ensures exists i :: 0 <= i < |block| && FieldOf(block[i]).Some? && FieldOf(block[i]).value.key == k
  {
    hide FieldOf;
    var last := FieldOf(block[|block| - 1]);
    if !(last.Some? && last.value.key == k) {
      FieldsHaveLines(block[..|block| - 1], k);
      var i :| 0 <= i < |block| - 1 && FieldOf(block[i]).Some? && FieldOf(block[i]).value.key == k;
    }
  }

  /** A page fails to parse exactly when it has no metadata line. */
  lemma FailsExactlyWhen(number: int, lines: seq<string>)
    ensures PageOf(number, lines).Err? <==> forall l :: l in lines ==> NoField(l)
  {
    var t := Run(NoField, lines);
    assert t < |lines| ==> lines[t] in lines;
  }

  /** Title, metadata and remainder are found wherever the page puts them. */
  lemma PageParts(number: int, title: seq<string>, block: seq<string>, rest: seq<string>)
    requires forall l :: l in title ==> NoField(l)
    requires block != [] && forall l :: l in block ==> IsField(l)
    requires rest == [] || NoField(rest[0])
    ensures PageOf(number, title + block + rest)
         == Ok(Page(number, Text.Join(' ', title), FieldsOf(block), Split(rest)))
  {
    var lines, t := title + block + rest, |title|;
    assert block[0] in block;
    assert lines == title + (block + rest);
    RunIs(NoField, title, block + rest);
    assert lines[t..] == block + rest;
    RunIs(IsField, block, rest);
    assert lines[..t] == title && lines[t..t + |block|] == block && lines[t + |block|..] == rest;
  }

  /** A field that can be written on one line: the key is letters and inner spaces. */
  predicate Writable(f: Field) {
    && 2 <= |f.key| <= MAX_KEY_TAIL + 1 && (forall c :: c in f.key ==> IsKeyChar(c))
    && IsClean(f.key) && IsClean(f.value)
  }

  function KeyOf(f: Field): string {
    f.key
  }

  function WriteField(f: Field): string {
    f.key + ": " + f.value
  }

  lemma {:induction false} KeyRunOf(s: string, i: nat, n: nat)
    requires i + n < |s| && (forall k :: i <= k < i + n ==> IsKeyChar(s[k])) && !IsKeyChar(s[i + n])
    ensures KeyRun(s, i) == n
    decreases n
  {
    if n > 0 {
      KeyRunOf(s, i + 1, n - 1);
    }
  }

  lemma FieldRoundTrip(f: Field)
    requires Writable(f)
    ensures FieldOf(WriteField(f)) == Some(f)
  {
    var line, k := WriteField(f), |f.key|;
    assert forall j :: 0 <= j < k ==> line[j] == f.key[j];
    assert line[k] == ':';
    KeyRunOf(line, 1, k - 1);
    assert line[..k] == f.key;
    assert line[k + 1..] == " " + f.value;
    assert StripLeft(" " + f.value) == f.value by {
      assert (" " + f.value)[1..] == f.value;
    }
    CleanIsStripped(f.key);
  }

  /** Written metadata comes back: every key with the value written last under it, and no
      other key. */
  lemma {:induction false} FieldsRoundTrip(fs: seq<Field>)
    requires forall f :: f in fs ==> Writable(f)
    ensures var m := FieldsOf(Map(WriteField, fs));
            && (forall k :: k in m <==> k in Map(KeyOf, fs))
            && (forall i :: 0 <= i < |fs| && (forall j :: i < j < |fs| ==> fs[j].key != fs[i].key) ==>
                  fs[i].key in m && m[fs[i].key] == fs[i].value)
  {
    hide FieldOf, WriteField, Writable;
    if fs != [] {
      var before, last := fs[..|fs| - 1], fs[|fs| - 1];
      var block := Map(WriteField, fs);
      assert block[..|block| - 1] == Map(WriteField, before);
      assert last in fs;
      FieldRoundTrip(last);
      FieldsRoundTrip(before);
      var m, m' := FieldsOf(block), FieldsOf(Map(WriteField, before));
      assert m == m'[last.key := last.value];
      assert fs == before + [last];
      MapStep(KeyOf, before, last);
      forall i | 0 <= i < |fs| && forall j :: i < j < |fs| ==> fs[j].key != fs[i].key
        ensures fs[i].key in m && m[fs[i].key] == fs[i].value
      {
        if i < |before| {
          assert fs[|before|].key != fs[i].key;
          assert forall j :: i < j < |before| ==> before[j].key == fs[j].key != before[i].key;
        }
      }
    }
  }
}
