/** `_parse_duration` of `app/documents/sla_table.py`: what a target text says about time. */
module Durations {
  import opened Prelude
  import opened TextLines
  import Text

  datatype Duration = Duration(minutes: Option<int>, is24x7: bool, businessCalendar: bool)

  function Value(digits: string): nat
    requires forall c :: c in digits ==> IsDigit(c)
  {
    if digits == [] then 0
    else
      assert IsDigit(digits[|digits| - 1]);
      10 * Value(digits[..|digits| - 1]) + (digits[|digits| - 1] as int - '0' as int)
  }

  predicate StartsAt(s: string, part: string, i: nat) {
    i + |part| <= |s| && s[i..i + |part|] == part
  }

  /** No word goes on at `i`. */
  predicate Boundary(s: string, i: nat) {
    i >= |s| || !IsWord(s[i])
  }

  /** A singular or plural unit that ends with a word. */
  predicate UnitAt(s: string, i: nat, unit: string) {
    && StartsAt(s, unit, i)
    && var end := i + |unit|;
    (Boundary(s, end) || (end < |s| && s[end] == 's' && Boundary(s, end + 1)))
  }

  /** The duration pattern at position `i`, in minutes. */
  function DurationAt(s: string, i: nat): Option<int>
    requires i <= |s|
  {
    DigitRunIsDigits(s, i);
    var end := i + DigitRun(s, i);
    var unit := end + SpaceRun(s, end);
    if end == i then None
    else if UnitAt(s, unit, "hour") then Some(60 * Value(s[i..end]))
    else if UnitAt(s, unit, "minute") then Some(Value(s[i..end]))
    else None
  }

  /** The leftmost match at or after `i`. */
  function Search(s: string, i: nat): Option<int>
    requires i <= |s|
    decreases |s| - i
  {
    if DurationAt(s, i).Some? then DurationAt(s, i)
    else if i == |s| then None
    else Search(s, i + 1)
  }

  function ParseDuration(text: string): Duration {
    var lower := Text.Lower(text);
    var business := Text.Contains(lower, "business");
    Duration(if business then None else Search(lower, 0), Text.Contains(lower, "24x7"), business)
  }

  // ---- Written durations are read back ----

  function Digit(n: nat): char
    requires n < 10
  {
    '0' + n as char
  }

  function Decimal(n: nat): (s: string)
    ensures s != [] && forall c :: c in s ==> IsDigit(c)
  {
    if n < 10 then [Digit(n)] else Decimal(n / 10) + [Digit(n % 10)]
  }

  lemma {:induction false} DecimalRoundTrip(n: nat)
    ensures Value(Decimal(n)) == n
  {
    var s := Decimal(n);
    if n < 10 {
      assert s[..0] == [];
      assert Value([]) == 0;
    } else {
      DecimalRoundTrip(n / 10);
      assert s[..|s| - 1] == Decimal(n / 10);
    }
  }

  datatype Unit = Hour | Minute

  function UnitText(u: Unit): string {
    match u
    case Hour => "hour"
    case Minute => "minute"
  }

  function Minutes(n: nat, u: Unit): int {
    if u.Hour? then 60 * n else n
  }

  /** A number, a gap, a unit, and a tail that does not go on with the word. */
  function Written(n: nat, gap: string, u: Unit, plural: bool, tail: string): string {
    Decimal(n) + gap + UnitText(u) + (if plural then "s" else "") + tail
  }

  lemma LowerKeeps(c: char)
    ensures IsDigit(c) || IsSpace(c) || 'a' <= c <= 'z' ==> Text.LowerChar(c) == c
    ensures IsWord(c) <==> IsWord(Text.LowerChar(c))
  {
  }

  lemma WrittenLower(n: nat, gap: string, u: Unit, plural: bool, tail: string)
    requires forall c :: c in gap ==> IsSpace(c)
    ensures Text.Lower(Written(n, gap, u, plural, tail)) == Written(n, gap, u, plural, Text.Lower(tail))
  {
    var head := Written(n, gap, u, plural, []);
    var text := Written(n, gap, u, plural, tail);
    assert text == head + tail;
    assert Written(n, gap, u, plural, Text.Lower(tail)) == head + Text.Lower(tail);
    forall i | 0 <= i < |head| ensures Text.LowerChar(head[i]) == head[i] {
      LowerKeeps(head[i]);
      assert head[i] in Decimal(n) || head[i] in gap || head[i] in UnitText(u) || head[i] == 's';
    }
  }

  lemma UnitMatches(s: string, i: nat, u: Unit, plural: bool, tail: string)
    requires i <= |s| && s[i..] == UnitText(u) + (if plural then "s" else "") + tail
    requires tail == [] || !IsWord(tail[0])
    ensures u.Hour? ==> UnitAt(s, i, "hour")
    ensures u.Minute? ==> UnitAt(s, i, "minute") && !UnitAt(s, i, "hour")
    ensures i < |s| && s[i] in {'h', 'm'}
  {
    var rest, w := s[i..], |UnitText(u)|;
    assert s[i] == rest[0] == UnitText(u)[0];
    assert s[i..i + w] == rest[..w] == UnitText(u);
    var end := w + if plural then 1 else 0;
    assert plural ==> s[i + w] == rest[w] == 's';
    assert i + end < |s| ==> s[i + end] == rest[end] == tail[0];
    if u.Minute? {
      assert StartsAt(s, "hour", i) ==> s[i..i + 4][0] == s[i];
    }
  }

  /** Digits, a gap and a unit at the front of a string match the pattern there. */
  lemma PatternMatches(digits: string, gap: string, rest: string, u: Unit, plural: bool, tail: string)
    requires digits != [] && (forall c :: c in digits ==> IsDigit(c)) && (forall c :: c in gap ==> IsSpace(c))
    requires rest == UnitText(u) + (if plural then "s" else "") + tail
    requires tail == [] || !IsWord(tail[0])
    ensures DurationAt(digits + gap + rest, 0) == Some(Minutes(Value(digits), u))
  {
    hide Value, UnitText, UnitAt;
    var s, d, g := digits + gap + rest, |digits|, |gap|;
    assert s[d + g..] == rest;
    UnitMatches(s, d + g, u, plural, tail);
    SpacesStart(gap, rest);
    assert s[d] == (gap + rest)[0];
    DigitRunOf(s, 0, d);
    SpaceRunOf(s, d, g);
    assert s[0..d] == digits;
  }

  lemma SpacesStart(gap: string, rest: string)
    requires (forall c :: c in gap ==> IsSpace(c)) && rest != [] && rest[0] in {'h', 'm'}
    ensures !IsDigit((gap + rest)[0])
  {
    assert gap != [] ==> gap[0] in gap;
  }

  /** A written duration is read as its number of minutes, unless the text speaks of business
      time, and then it is read as no clock time at all. */
  lemma DurationRoundTrip(n: nat, gap: string, u: Unit, plural: bool, tail: string)
    requires (forall c :: c in gap ==> IsSpace(c)) && (tail == [] || !IsWord(tail[0]))
    ensures var d := ParseDuration(Written(n, gap, u, plural, tail));
            d.minutes == if d.businessCalendar then None else Some(Minutes(n, u))
  {
    WrittenLower(n, gap, u, plural, tail);
    var lower := Text.Lower(tail);
    assert tail != [] ==> lower[0] == Text.LowerChar(tail[0]);
    if tail != [] {
      LowerKeeps(tail[0]);
    }
    DecimalRoundTrip(n);
    var rest := UnitText(u) + (if plural then "s" else "") + lower;
    assert Written(n, gap, u, plural, lower) == Decimal(n) + gap + rest;
    PatternMatches(Decimal(n), gap, rest, u, plural, lower);
  }

  // ---- And nothing else is ----

  /** From `i` on, the text is a written duration and a tail. */
  ghost predicate SaysAt(s: string, i: nat, digits: string, gap: string, u: Unit, plural: bool, tail: string) {
    && i <= |s| && s[i..] == digits + gap + (if u.Hour? then "hour" else "minute") + (if plural then "s" else "") + tail
    && digits != [] && (forall c :: c in digits ==> IsDigit(c)) && (forall c :: c in gap ==> IsSpace(c))
    && (tail == [] || !IsWord(tail[0]))
  }

  /** The pattern matches at `i` exactly when a written duration stands there. */
  lemma DurationAtExactly(s: string, i: nat, m: int)
    requires i <= |s|
    ensures DurationAt(s, i) == Some(m) <==>
              exists digits, gap, u, plural, tail ::
                SaysAt(s, i, digits, gap, u, plural, tail) && m == (if u.Hour? then 60 * Value(digits) else Value(digits))
  {
    hide Value, UnitAt;
    if DurationAt(s, i) == Some(m) {
      var digits, gap, u, plural, tail := MatchSays(s, i);
    }
    if digits, gap, u, plural, tail :|
      SaysAt(s, i, digits, gap, u, plural, tail) && m == (if u.Hour? then 60 * Value(digits) else Value(digits))
    {
      SaidMatches(s, i, digits, gap, u, plural, tail);
    }
  }

  lemma SaidMatches(s: string, i: nat, digits: string, gap: string, u: Unit, plural: bool, tail: string)
    requires SaysAt(s, i, digits, gap, u, plural, tail)
    ensures DurationAt(s, i) == Some(if u.Hour? then 60 * Value(digits) else Value(digits))
  {
    hide Value, UnitAt, UnitText, DigitRun, SpaceRun;
    var d, g := |digits|, |gap|;
    var unit := UnitText(u) + (if plural then "s" else "") + tail;
    UnitWord(u, plural, tail);
    ThreeRuns(s, i, digits, gap, unit);
    UnitMatches(s, i + d + g, u, plural, tail);
    DigitRunOf(s, i, d);
    SpaceRunOf(s, i + d, g);
  }

  lemma UnitWord(u: Unit, plural: bool, tail: string)
    ensures var unit := UnitText(u) + (if plural then "s" else "") + tail;
            unit != [] && unit[0] in {'h', 'm'} && UnitText(u) == if u.Hour? then "hour" else "minute"
  {
  }

  lemma ThreeRuns(s: string, i: nat, digits: string, gap: string, unit: string)
    requires i <= |s| && s[i..] == digits + gap + unit && unit != [] && unit[0] in {'h', 'm'}
    requires (forall c :: c in digits ==> IsDigit(c)) && (forall c :: c in gap ==> IsSpace(c))
    ensures var d, g := |digits|, |gap|;
            && i + d + g < |s| && s[i..i + d] == digits && s[i + d + g..] == unit
            && (forall k :: i <= k < i + d ==> IsDigit(s[k])) && !IsDigit(s[i + d])
            && (forall k :: i + d <= k < i + d + g ==> IsSpace(s[k])) && !IsSpace(s[i + d + g])
  {
    var d, g, rest := |digits|, |gap|, s[i..];
    assert forall k :: i <= k < i + d ==> s[k] == rest[k - i] == digits[k - i];
    assert forall k :: i + d <= k < i + d + g ==> s[k] == rest[k - i] == gap[k - i - d];
    assert s[i + d + g..] == rest[d + g..] == unit;
    assert s[i + d + g] == unit[0];
    assert s[i..i + d] == digits;
    assert g > 0 ==> s[i + d] == gap[0] && gap[0] in gap;
  }

  lemma MatchSays(s: string, i: nat) returns (digits: string, gap: string, u: Unit, plural: bool, tail: string)
    requires i <= |s| && DurationAt(s, i).Some?
    ensures SaysAt(s, i, digits, gap, u, plural, tail)
    ensures DurationAt(s, i) == Some(if u.Hour? then 60 * Value(digits) else Value(digits))
  {
    hide Value, UnitAt, DigitRun, SpaceRun;
    RunsSay(s, i);
    var end := i + DigitRun(s, i);
    var at := end + SpaceRun(s, end);
    digits, gap := s[i..end], s[end..at];
    u := if UnitAt(s, at, "hour") then Hour else Minute;
    var word := if u.Hour? then "hour" else "minute";
    plural, tail := UnitSays(s, at, word);
    Joined(digits, gap, s[at..], word, if plural then "s" else "", tail);
  }

  lemma Joined(a: string, b: string, rest: string, word: string, ending: string, tail: string)
    requires rest == word + ending + tail
    ensures a + b + rest == a + b + word + ending + tail
  {
  }

  lemma RunsSay(s: string, i: nat)
    requires i <= |s|
    ensures var end := i + DigitRun(s, i);
            var at := end + SpaceRun(s, end);
            && s[i..] == s[i..end] + s[end..at] + s[at..]
            && (forall c :: c in s[i..end] ==> IsDigit(c)) && (forall c :: c in s[end..at] ==> IsSpace(c))
  {
    DigitRunIsDigits(s, i);
    SpaceRunIsSpaces(s, i + DigitRun(s, i));
  }

  lemma UnitSays(s: string, at: nat, word: string) returns (plural: bool, tail: string)
    requires at <= |s| && UnitAt(s, at, word)
    ensures s[at..] == word + (if plural then "s" else "") + tail && (tail == [] || !IsWord(tail[0]))
  {
    var end := at + |word|;
    plural := !Boundary(s, end);
    tail := s[end + (if plural then 1 else 0)..];
    assert s[at..end] == word;
    assert s[at..] == s[at..end] + s[end..];
    assert plural ==> s[end..] == "s" + tail;
  }

  /** What a text says about time: the leftmost written duration, unless it speaks of business time,
      and then nothing; and whether "24x7" and "business" occur in it, in any case. */
  lemma DurationExactly(text: string)
    ensures var d, lower := ParseDuration(text), Text.Lower(text);
            && (d.is24x7 <==> Text.Contains(lower, "24x7")) && (d.businessCalendar <==> Text.Contains(lower, "business"))
            && (d.businessCalendar ==> d.minutes == None)
            && (!d.businessCalendar ==>
                  && (d.minutes == None <==> forall i :: 0 <= i <= |lower| ==> DurationAt(lower, i) == None)
                  && forall i :: IsLeftmost(lower, 0, i) ==> d.minutes == DurationAt(lower, i))
  {
    hide DurationAt;
    SearchExactly(Text.Lower(text), 0);
  }

  ghost predicate IsLeftmost(s: string, from: nat, i: nat) {
    from <= i <= |s| && DurationAt(s, i).Some? && forall j :: from <= j < i ==> DurationAt(s, j) == None
  }

  lemma {:induction false} SearchExactly(s: string, from: nat)
    requires from <= |s|
    ensures Search(s, from) == None <==> forall i :: from <= i <= |s| ==> DurationAt(s, i) == None
    ensures forall i :: IsLeftmost(s, from, i) ==> Search(s, from) == DurationAt(s, i)
    decreases |s| - from
  {
    hide DurationAt;
    if from < |s| {
      SearchExactly(s, from + 1);
    }
  }
}
