/** `app/domain/severity.py`: a vote of text patterns, with abstention on a tie. */
module SeverityVote {
  import opened Prelude
  import opened Enums
  import opened Records

  /** A pattern is whatever its regular expression accepts. */
  datatype Signal = Signal(matches: string -> bool, definition: string)

  /** The patterns of each severity, and the significant words of a text. */
  datatype Lexicon = Lexicon(p1: seq<Signal>, p2: seq<Signal>, p3: seq<Signal>, tokens: string -> set<string>) {
    function Signals(s: Severity): seq<Signal> {
      match s case P1 => p1 case P2 => p2 case P3 => p3
    }
  }

  function TicketText(t: Ticket): string {
    t.subject + " " + t.description
  }

  function Hits(lex: Lexicon, s: Severity, text: string): seq<string> {
    FlatMap((sig: Signal) => if sig.matches(text) then [sig.definition] else [], lex.Signals(s))
  }

  /** The severity with strictly more hits than each other one, if there is one. */
  function Plurality(lex: Lexicon, text: string): Option<Severity> {
    var n1, n2, n3 := |Hits(lex, P1, text)|, |Hits(lex, P2, text)|, |Hits(lex, P3, text)|;
    if n1 > n2 && n1 > n3 then Some(P1)
    else if n2 > n1 && n2 > n3 then Some(P2)
    else if n3 > n1 && n3 > n2 then Some(P3)
    else None
  }

  /** The outcome: the number of hits of each severity, and the first definition that matched. */
  datatype SeverityOutcome = SeverityOutcome(
    severity: Option<Severity>, counts: map<Severity, nat>, definition: Option<string>)

  function OutcomeOf(lex: Lexicon, text: string): SeverityOutcome {
    var s := Plurality(lex, text);
    SeverityOutcome(s, map[P1 := |Hits(lex, P1, text)|, P2 := |Hits(lex, P2, text)|, P3 := |Hits(lex, P3, text)|],
                    if s.Some? then Some(Hits(lex, s.value, text)[0]) else None)
  }

  datatype Entry = Entry(severity: Severity, hits: seq<string>)

  /** Place an entry by number of hits, the larger first, ties in the order they come. */
  function Place(e: Entry, ranked: seq<Entry>): seq<Entry> {
    if ranked == [] then [e]
    else if |ranked[0].hits| >= |e.hits| then [ranked[0]] + Place(e, ranked[1..])
    else [e] + ranked
  }

  /** The classifier as written: count, rank, compare the top two. */
  method ClassifySeverity(lex: Lexicon, t: Ticket) returns (r: SeverityOutcome, trust: TrustState)
    ensures r == OutcomeOf(lex, TicketText(t))
    ensures trust == if r.severity.Some? then Confident else Uncertain
  {
    hide Hits;
    var text := TicketText(t);
    var ranked: seq<Entry> := [];
    var order := [P1, P2, P3];
    var counts: map<Severity, nat> := map[];
    for i := 0 to |order|
      invariant ranked == Ranking(lex, text, order[..i])
      invariant forall s :: s in counts <==> s in order[..i]
      invariant forall s :: s in counts ==> counts[s] == |Hits(lex, s, text)|
    {
      var hits := CollectHits(lex, order[i], text);
      counts := counts[order[i] := |hits|];
      ranked := Place(Entry(order[i], hits), ranked);
      assert order[..i + 1][..i] == order[..i];
    }
    RankingOfThree(lex, text);
    assert order[..3] == [P1, P2, P3];
    assert counts == OutcomeOf(lex, text).counts;
    var top := ranked[0];
    if top.hits == [] || |ranked[1].hits| >= |top.hits| {
      return SeverityOutcome(None, counts, None), Uncertain;
    }
    return SeverityOutcome(Some(top.severity), counts, Some(top.hits[0])), Confident;
  }

  /** The inner loop over the patterns of one severity. */
  method CollectHits(lex: Lexicon, s: Severity, text: string) returns (hits: seq<string>)
    ensures hits == Hits(lex, s, text)
  {
    hits := [];
    var patterns := lex.Signals(s);
    ghost var found := (sig: Signal) => if sig.matches(text) then [sig.definition] else [];
    for k := 0 to |patterns|
      invariant hits == FlatMap(found, patterns[..k])
    {
      FlatMapStep(found, patterns, k);
      if patterns[k].matches(text) {
        hits := hits + [patterns[k].definition];
      }
    }
    assert patterns[..|patterns|] == patterns;
    FlatMapAgree(found, (sig: Signal) => if sig.matches(text) then [sig.definition] else [], patterns);
  }

  function Ranking(lex: Lexicon, text: string, order: seq<Severity>): seq<Entry> {
    if order == [] then []
    else
      var last := order[|order| - 1];
      Place(Entry(last, Hits(lex, last, text)), Ranking(lex, text, order[..|order| - 1]))
  }

  lemma RankingOfThree(lex: Lexicon, text: string)
    ensures var ranked := Ranking(lex, text, [P1, P2, P3]);
            && |ranked| == 3
            && ranked[0].hits == Hits(lex, ranked[0].severity, text)
            && Plurality(lex, text) ==
                 if ranked[0].hits != [] && |ranked[1].hits| < |ranked[0].hits|
                 then Some(ranked[0].severity) else None
  {
    hide Hits;
    var order := [P1, P2, P3];
    assert order[..2] == [P1, P2] && order[..2][..1] == [P1] && order[..2][..1][..0] == [];
    var e1, e2, e3 := Entry(P1, Hits(lex, P1, text)), Entry(P2, Hits(lex, P2, text)), Entry(P3, Hits(lex, P3, text));
    assert Ranking(lex, text, [P1]) == [e1];
    var two := Place(e2, [e1]);
    assert Place(e2, [e1][1..]) == [e2];
    assert [e1] + [e2] == [e1, e2] && [e2] + [e1] == [e2, e1];
    assert two == if |e1.hits| >= |e2.hits| then [e1, e2] else [e2, e1];
    assert Ranking(lex, text, [P1, P2]) == two;
    assert Place(e3, two) == if |two[0].hits| >= |e3.hits| then [two[0]] + Place(e3, two[1..]) else [e3] + two;
  }

  /** A severity is assigned exactly when it beats each other severity outright. */
  lemma AssignedExactlyWhenAhead(lex: Lexicon, text: string, s: Severity)
    ensures Plurality(lex, text) == Some(s) <==>
              forall o :: o != s ==> |Hits(lex, o, text)| < |Hits(lex, s, text)|
  {
    assert P1 != P2 && P2 != P3 && P1 != P3;
  }

  /** What counts as a hit: a pattern of that severity that matches; hits keep the order of the
      patterns. */
  lemma HitsExactly(lex: Lexicon, text: string)
    ensures Hits(lex, P1, text) == Matched(lex.p1, text)
    ensures Hits(lex, P2, text) == Matched(lex.p2, text)
    ensures Hits(lex, P3, text) == Matched(lex.p3, text)
  {
    MatchedAre(lex.p1, text);
    MatchedAre(lex.p2, text);
    MatchedAre(lex.p3, text);
  }

  /** The definitions of the patterns that match. */
  ghost function Matched(patterns: seq<Signal>, text: string): seq<string> {
    Map((sig: Signal) => sig.definition, Filter((sig: Signal) => sig.matches(text), patterns))
  }

  lemma {:induction false} MatchedAre(patterns: seq<Signal>, text: string)
    ensures FlatMap((sig: Signal) => if sig.matches(text) then [sig.definition] else [], patterns)
         == Matched(patterns, text)
  {
    if patterns != [] {
      MatchedAre(patterns[1..], text);
      var kept := Filter((sig: Signal) => sig.matches(text), patterns[1..]);
      if patterns[0].matches(text) {
        MapFirst((sig: Signal) => sig.definition, patterns[0], kept);
      } else {
        assert [] + kept == kept;
      }
    }
  }

  /** The outcome: one count for each severity, and the first hit of the assigned one. */
  lemma OutcomeExactly(lex: Lexicon, text: string)
    ensures var r := OutcomeOf(lex, text);
            && (forall s :: s in r.counts && r.counts[s] == |Hits(lex, s, text)|)
            && (forall s :: r.severity == Some(s) <==> forall o :: o != s ==> |Hits(lex, o, text)| < |Hits(lex, s, text)|)
            && (r.severity.Some? ==> r.definition == Some(Hits(lex, r.severity.value, text)[0]))
            && (r.severity.None? ==> r.definition == None)
  {
    hide Hits;
    var r := OutcomeOf(lex, text);
    forall s ensures s in r.counts && r.counts[s] == |Hits(lex, s, text)| {
      assert s == P1 || s == P2 || s == P3;
    }
    forall s ensures Plurality(lex, text) == Some(s) <==>
                       forall o :: o != s ==> |Hits(lex, o, text)| < |Hits(lex, s, text)|
    {
      AssignedExactlyWhenAhead(lex, text, s);
    }
  }
}
