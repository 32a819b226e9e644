/** `app/agent/citations.py`: the markers an answer contains, and whether each names a source. */
module Citations {
  import opened Prelude
  import opened Records

  predicate MarkerChar(c: char) {
    'A' <= c <= 'Z' || 'a' <= c <= 'z' || '0' <= c <= '9' || c in {'_', '.', ':', '-'}
  }

  /** How many marker characters follow from `i`. */
  function Run(text: string, i: nat): (n: nat)
    requires i <= |text|
    ensures i + n <= |text|
    ensures forall j :: i <= j < i + n ==> MarkerChar(text[j])
    ensures i + n < |text| ==> !MarkerChar(text[i + n])
    decreases |text| - i
  {
    if i < |text| && MarkerChar(text[i]) then 1 + Run(text, i + 1) else 0
  }

  /** A bracket at `i` opens a marker: one or more marker characters, then a closing bracket. */
  predicate OpensMarker(text: string, i: nat)
    requires i < |text|
  {
    && text[i] == '['
    && Run(text, i + 1) > 0
    && i + 1 + Run(text, i + 1) < |text| && text[i + 1 + Run(text, i + 1)] == ']'
  }

  /** All markers from position `i` on. A marker contains no bracket, so none overlap. */
  function MarkersFrom(text: string, i: nat): seq<string>
    requires i <= |text|
    decreases |text| - i
  {
    if i == |text| then []
    else if OpensMarker(text, i) then
      [text[i + 1..i + 1 + Run(text, i + 1)]] + MarkersFrom(text, i + 1)
    else MarkersFrom(text, i + 1)
  }

  function Markers(text: string): seq<string> {
    MarkersFrom(text, 0)
  }

  /** `m` stands in the text between square brackets at position `i`. */
  ghost predicate Bracketed(text: string, i: nat, m: string) {
    && i + |m| + 2 <= |text| && m != []
    && text[i] == '[' && text[i + 1..i + 1 + |m|] == m && text[i + 1 + |m|] == ']'
    && forall c :: c in m ==> MarkerChar(c)
  }

  lemma BracketedOpens(text: string, i: nat, m: string)
    requires i < |text|
    ensures Bracketed(text, i, m) <==>
              OpensMarker(text, i) && m == text[i + 1..i + 1 + Run(text, i + 1)]
  {
    var n := Run(text, i + 1);
    if Bracketed(text, i, m) {
      assert forall j :: i + 1 <= j < i + 1 + |m| ==> text[j] == m[j - i - 1] && MarkerChar(text[j]);
      assert !MarkerChar(']');
      assert n == |m|;
    }
    if OpensMarker(text, i) && m == text[i + 1..i + 1 + n] {
      forall c | c in m ensures MarkerChar(c) {
        var k :| 0 <= k < |m| && m[k] == c;
        assert c == text[i + 1 + k];
      }
    }
  }

  /** The scanner finds exactly the bracketed marker texts. */
  lemma {:induction false} MarkersExactly(text: string, i: nat, m: string)
    requires i <= |text|
    ensures m in MarkersFrom(text, i) <==> exists j :: i <= j < |text| && Bracketed(text, j, m)
    decreases |text| - i
  {
    if i < |text| {
      MarkersExactly(text, i + 1, m);
      BracketedOpens(text, i, m);
    }
  }

  function CitationKey(ref: EvidenceRef): string {
    if ref.locator.Some? && ref.locator.value != "" then ref.sourceId + ":" + ref.locator.value
    else ref.sourceId
  }

  /** `m.split(":")[0]`. */
  function BeforeColon(m: string): string {
    if m == [] || m[0] == ':' then [] else [m[0]] + BeforeColon(m[1..])
  }

  predicate Names(citations: seq<EvidenceRef>, m: string) {
    exists ref :: ref in citations && (m == CitationKey(ref) || BeforeColon(m) == ref.sourceId)
  }

  /** The markers that name nothing in the evidence. */
  function Invalid(text: string, citations: seq<EvidenceRef>): seq<string> {
    Filter((m: string) => !Names(citations, m), Markers(text))
  }

  /** A text passes exactly when every bracketed marker in it names a source. */
  lemma ValidExactlyWhen(text: string, citations: seq<EvidenceRef>)
    ensures Invalid(text, citations) == [] <==>
              forall i, m :: 0 <= i < |text| && Bracketed(text, i, m) ==> Names(citations, m)
  {
    var bad := Invalid(text, citations);
    forall m ensures m in bad <==> m in Markers(text) && !Names(citations, m) {
      FilterMember((m: string) => !Names(citations, m), Markers(text), m);
    }
    forall m ensures m in Markers(text) <==> exists j :: 0 <= j < |text| && Bracketed(text, j, m) {
      MarkersExactly(text, 0, m);
    }
    assert bad != [] ==> bad[0] in bad;
  }

  /** A marker names a source by its id and locator, or by its id alone, which may be followed by a
      colon and anything else. */
  lemma NamesExactly(citations: seq<EvidenceRef>, m: string)
    ensures Names(citations, m) <==>
              exists ref :: ref in citations
                && (|| m == ref.sourceId + (if ref.locator in {None, Some("")} then "" else [':'] + ref.locator.value)
                    || (':' !in ref.sourceId && (m == ref.sourceId || ref.sourceId + [':'] <= m)))
  {
    forall ref: EvidenceRef ensures BeforeColon(m) == ref.sourceId <==>
      ':' !in ref.sourceId && (m == ref.sourceId || ref.sourceId + [':'] <= m)
    {
      BeforeColonExactly(m, ref.sourceId);
    }
    forall ref: EvidenceRef
      ensures CitationKey(ref) == ref.sourceId + if ref.locator in {None, Some("")} then "" else [':'] + ref.locator.value
    {
      assert ref.sourceId + "" == ref.sourceId;
    }
  }

  lemma {:induction false} BeforeColonExactly(m: string, head: string)
    ensures BeforeColon(m) == head <==> ':' !in head && (m == head || head + [':'] <= m)
  {
    if m != [] && m[0] != ':' {
      var rest := if head == [] then [] else head[1..];
      BeforeColonExactly(m[1..], rest);
      if head != [] {
        assert head == [head[0]] + rest && m == [m[0]] + m[1..];
        assert head + [':'] == [head[0]] + (rest + [':']);
        if head + [':'] <= m {
          assert (rest + [':']) == (head + [':'])[1..] <= m[1..];
        }
      }
    } else if m != [] && head == [] {
      assert head + [':'] == [':'] <= m;
    } else if m != [] && head + [':'] <= m {
      assert head[0] == m[0];
    }
  }

  /** The characters of a marker, by code point. */
  lemma MarkerCharExactly(c: char)
    ensures MarkerChar(c) <==>
              var n := c as int; 45 <= n <= 46 || 48 <= n <= 58 || 65 <= n <= 90 || n == 95 || 97 <= n <= 122
  {
  }
}
