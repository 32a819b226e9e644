/** `app/agent/evidence_pack.py`: what the tool results amount to. */
module EvidencePack {
  import opened Prelude
  import opened Enums
  import opened Records
  import opened Tools

  datatype Pack = Pack(
    facts: seq<Row>, documents: seq<Doc>, domainResults: seq<Payload>,
    trustStates: seq<TrustState>, citations: seq<EvidenceRef>, assumptions: seq<string>,
    conflicts: seq<Conflict>, review: bool)

  function Successes(results: seq<ToolResult>): seq<Output> {
    FlatMap((r: ToolResult) => if r.output.Ok? then [r.output.value] else [], results)
  }

  function DocCite(d: Doc): EvidenceRef {
    EvidenceRef(Document, d.sourceId, Some("p" + d.page + ":" + d.section), Some(d.snippet))
  }

  /** `_cite_record` */
  function CiteRecord(row: Row): EvidenceRef {
    match row
    case AccountRow(a) => CiteStructured("accounts", a.accountId)
    case OrderRow(o) => CiteStructured("orders", o.orderId)
    case TicketRow(t) => CiteStructured("tickets", t.ticketId)
  }

  function CitesOf(o: Output): seq<EvidenceRef> {
    match o
    case RecordFound(row) => [CiteRecord(row)]
    case Documents(docs) => Map(DocCite, docs)
    case Calculated(outcome) => outcome.evidence
  }

  function FactsOf(o: Output): seq<Row> {
    if o.RecordFound? then [o.row] else []
  }

  function DocsOf(o: Output): seq<Doc> {
    if o.Documents? then o.docs else []
  }

  function CalcsOf(o: Output): seq<Calculation> {
    if o.Calculated? then [o.outcome] else []
  }

  function Calculations(results: seq<ToolResult>): seq<Calculation> {
    FlatMap(CalcsOf, Successes(results))
  }

  function RefKey(ref: EvidenceRef): (string, Option<string>) {
    (ref.sourceId, ref.locator)
  }

  predicate AnyReview(calcs: seq<Calculation>) {
    exists c :: c in calcs && c.review
  }

  function PayloadOf(c: Calculation): seq<Payload> {
    if c.payload.Some? then [c.payload.value] else []
  }

  function TrustOf(c: Calculation): TrustState {
    c.trust
  }

  function PackOf(facts: seq<Row>, docs: seq<Doc>, cites: seq<EvidenceRef>,
                  calcs: seq<Calculation>): Pack {
    Pack(facts, docs, FlatMap(PayloadOf, calcs), Map(TrustOf, calcs), cites,
         FlatMap((c: Calculation) => c.assumptions, calcs),
         FlatMap((c: Calculation) => c.conflicts, calcs), AnyReview(calcs))
  }

  /** Before citations are deduplicated. */
  function Gather(outputs: seq<Output>): Pack {
    PackOf(FlatMap(FactsOf, outputs), FlatMap(DocsOf, outputs), FlatMap(CitesOf, outputs),
           FlatMap(CalcsOf, outputs))
  }

  function Build(results: seq<ToolResult>): Pack {
    var p := Gather(Successes(results));
    p.(citations := DedupBy(RefKey, p.citations))
  }

  /** What one more tool output adds to each accumulator. */
  function Added(p: Pack, o: Output): Pack {
    match o
    case RecordFound(row) => p.(facts := p.facts + [row], citations := p.citations + [CiteRecord(row)])
    case Documents(docs) =>
      p.(documents := p.documents + docs, citations := p.citations + Map(DocCite, docs))
    case Calculated(c) =>
      p.(domainResults := p.domainResults + PayloadOf(c),
         trustStates := p.trustStates + [c.trust], citations := p.citations + c.evidence,
         assumptions := p.assumptions + c.assumptions, conflicts := p.conflicts + c.conflicts,
         review := p.review || c.review)
  }

  lemma OneMoreCalculation(facts: seq<Row>, docs: seq<Doc>, cites: seq<EvidenceRef>,
                           calcs: seq<Calculation>, c: Calculation)
    ensures PackOf(facts, docs, cites + c.evidence, calcs + [c])
         == Added(PackOf(facts, docs, cites, calcs), Calculated(c))
  {
    var more := calcs + [c];
    assert more[..|calcs|] == calcs && more[..|calcs| + 1] == more;
    FlatMapStep(PayloadOf, more, |calcs|);
    FlatMapStep((c: Calculation) => c.assumptions, more, |calcs|);
    FlatMapStep((c: Calculation) => c.conflicts, more, |calcs|);
    MapStep(TrustOf, calcs, c);
  }

  lemma OneMoreOutput<U>(f: Output -> seq<U>, outputs: seq<Output>, o: Output)
    ensures FlatMap(f, outputs + [o]) == FlatMap(f, outputs) + f(o)
  {
    var all := outputs + [o];
    assert all[..|outputs|] == outputs && all[..|outputs| + 1] == all;
    FlatMapStep(f, all, |outputs|);
  }

  lemma PackStep(facts: seq<Row>, docs: seq<Doc>, cites: seq<EvidenceRef>, calcs: seq<Calculation>, o: Output)
    ensures PackOf(facts + FactsOf(o), docs + DocsOf(o), cites + CitesOf(o), calcs + CalcsOf(o))
         == Added(PackOf(facts, docs, cites, calcs), o)
  {
    hide FlatMap, AnyReview, DocCite, CiteRecord;
    assert facts + [] == facts && docs + [] == docs && calcs + [] == calcs;
    if o.Calculated? {
      OneMoreCalculation(facts, docs, cites, calcs, o.outcome);
    }
  }

  lemma GatherStep(outputs: seq<Output>, o: Output)
    ensures Gather(outputs + [o]) == Added(Gather(outputs), o)
  {
    hide FlatMap, PackOf, Added;
    OneMoreOutput(FactsOf, outputs, o);
    OneMoreOutput(DocsOf, outputs, o);
    OneMoreOutput(CitesOf, outputs, o);
    OneMoreOutput(CalcsOf, outputs, o);
    PackStep(FlatMap(FactsOf, outputs), FlatMap(DocsOf, outputs), FlatMap(CitesOf, outputs),
             FlatMap(CalcsOf, outputs), o);
  }

  lemma GatherNothing()
    ensures Gather([]) == Pack([], [], [], [], [], [], [], false)
  {
    assert FlatMap(CalcsOf, []) == [];
  }

  method BuildEvidencePack(results: seq<ToolResult>) returns (pack: Pack)
    ensures pack == Build(results)
  {
    hide Gather, DedupBy;
    GatherNothing();
    pack := Pack([], [], [], [], [], [], [], false);
    ghost var kept := (r: ToolResult) => if r.output.Ok? then [r.output.value] else [];
    for i := 0 to |results|
      invariant pack == Gather(FlatMap(kept, results[..i]))
    {
      FlatMapStep(kept, results, i);
      if results[i].output.Err? {
        continue;
      }
      var output := results[i].output.value;
      GatherStep(FlatMap(kept, results[..i]), output);
      match output {
        case RecordFound(row) =>
          pack := pack.(facts := pack.facts + [row], citations := pack.citations + [CiteRecord(row)]);
        case Documents(docs) =>
          pack := pack.(documents := pack.documents + docs, citations := pack.citations + Map(DocCite, docs));
        case Calculated(c) =>
          pack := pack.(domainResults := pack.domainResults + (if c.payload.Some? then [c.payload.value] else []),
                        trustStates := pack.trustStates + [c.trust],
                        citations := pack.citations + c.evidence,
                        assumptions := pack.assumptions + c.assumptions,
                        conflicts := pack.conflicts + c.conflicts, review := pack.review || c.review);
      }
    }
    assert results[..|results|] == results;
    var citations := Deduplicated(pack.citations);
    pack := pack.(citations := citations);
  }

  method Deduplicated(citations: seq<EvidenceRef>) returns (deduped: seq<EvidenceRef>)
    ensures deduped == DedupBy(RefKey, citations)
  {
    var seen: set<(string, Option<string>)> := {};
    deduped := [];
    for i := 0 to |citations|
      invariant deduped == DedupBy(RefKey, citations[..i])
      invariant forall k :: k in seen <==> k in Map(RefKey, deduped)
    {
      assert citations[..i + 1][..i] == citations[..i];
      var key := RefKey(citations[i]);
      if key in seen {
        continue;
      }
      MapStep(RefKey, deduped, citations[i]);
      seen := seen + {key};
      deduped := deduped + [citations[i]];
    }
    assert citations[..|citations|] == citations;
  }

  /** What one more result of a tool adds, in call order: a failure adds nothing, a found record its
      row, a search its documents, a calculation its value if it has one, its trust state, its
      assumptions and its conflicts; and a review once called for stays called for. */
  lemma PackGrows(results: seq<ToolResult>, r: ToolResult)
    ensures var before, after := Build(results), Build(results + [r]);
            && after.facts == before.facts
                 + (if r.output.Ok? && r.output.value.RecordFound? then [r.output.value.row] else [])
            && after.documents == before.documents
                 + (if r.output.Ok? && r.output.value.Documents? then r.output.value.docs else [])
            && (r.output.Ok? && r.output.value.Calculated? ==>
                  var c := r.output.value.outcome;
                  && after.domainResults == before.domainResults + (if c.payload.Some? then [c.payload.value] else [])
                  && after.trustStates == before.trustStates + [c.trust]
                  && after.assumptions == before.assumptions + c.assumptions
                  && after.conflicts == before.conflicts + c.conflicts
                  && (after.review <==> before.review || c.review))
            && (!(r.output.Ok? && r.output.value.Calculated?) ==>
                  && after.domainResults == before.domainResults && after.trustStates == before.trustStates
                  && after.assumptions == before.assumptions && after.conflicts == before.conflicts
                  && after.review == before.review)
    ensures Build([]) == Pack([], [], [], [], [], [], [], false)
  {
    hide Gather, Added, DedupBy;
    var kept := (r: ToolResult) => if r.output.Ok? then [r.output.value] else [];
    var all := results + [r];
    assert all[..|results|] == results && all[..|results| + 1] == all;
    FlatMapStep(kept, all, |results|);
    GatherNothing();
    assert FlatMap(kept, []) == [] && DedupBy(RefKey, []) == [] by {
      NothingKept(kept);
    }
    if r.output.Ok? {
      GatherStep(Successes(results), r.output.value);
      AddedIs(Gather(Successes(results)), r.output.value);
    }
  }

  lemma NothingKept(kept: ToolResult -> seq<Output>)
    ensures FlatMap(kept, []) == [] && DedupBy(RefKey, []) == []
  {
  }

  lemma AddedIs(p: Pack, o: Output)
    ensures var q := Added(p, o);
            && q.facts == p.facts + (if o.RecordFound? then [o.row] else [])
            && q.documents == p.documents + (if o.Documents? then o.docs else [])
            && (o.Calculated? ==>
                  && q.domainResults == p.domainResults + (if o.outcome.payload.Some? then [o.outcome.payload.value] else [])
                  && q.trustStates == p.trustStates + [o.outcome.trust]
                  && q.assumptions == p.assumptions + o.outcome.assumptions
                  && q.conflicts == p.conflicts + o.outcome.conflicts
                  && (q.review <==> p.review || o.outcome.review))
            && (!o.Calculated? ==>
                  && q.domainResults == p.domainResults && q.trustStates == p.trustStates
                  && q.assumptions == p.assumptions && q.conflicts == p.conflicts && q.review == p.review)
  {
    assert p.facts + [] == p.facts && p.documents + [] == p.documents;
  }

  /** Some call succeeded with this output. */
  ghost predicate Gave(results: seq<ToolResult>, o: Output) {
    exists r :: r in results && r.output == Ok(o)
  }

  lemma GaveOneMore(results: seq<ToolResult>, r: ToolResult)
    ensures forall o :: Gave(results + [r], o) <==> Gave(results, o) || r.output == Ok(o)
    ensures forall o :: !Gave([], o)
  {
    forall o ensures Gave(results + [r], o) <==> Gave(results, o) || r.output == Ok(o) {
      assert r in results + [r];
    }
  }

  /** So a prompt shows exactly what the tools found: every record looked up, every document, and
      every value calculated; and it calls for a review exactly when a calculation does. */
  lemma {:induction false} PackHoldsExactly(results: seq<ToolResult>)
    ensures var pack := Build(results);
            && (forall row :: row in pack.facts <==> Gave(results, RecordFound(row)))
            && (forall d :: d in pack.documents <==> exists docs :: Gave(results, Documents(docs)) && d in docs)
            && (forall v :: v in pack.domainResults <==> exists c :: Gave(results, Calculated(c)) && c.payload == Some(v))
            && (forall t :: t in pack.trustStates <==> exists c :: Gave(results, Calculated(c)) && c.trust == t)
            && (forall x :: x in pack.assumptions <==> exists c :: Gave(results, Calculated(c)) && x in c.assumptions)
            && (forall x :: x in pack.conflicts <==> exists c :: Gave(results, Calculated(c)) && x in c.conflicts)
            && (pack.review <==> exists c :: Gave(results, Calculated(c)) && c.review)
  {
    hide Build, Gave;
    if results == [] {
      PackGrows([], ToolResult(Err(Internal), 1));
      GaveOneMore([], ToolResult(Err(Internal), 1));
    } else {
      var before, r := results[..|results| - 1], results[|results| - 1];
      assert results == before + [r];
      PackHoldsExactly(before);
      PackGrows(before, r);
      GaveOneMore(before, r);
    }
  }

  /** What a successful tool cites: the row it found, each document, or its calculation's evidence. */
  ghost predicate CitedBy(o: Output, ref: EvidenceRef) {
    match o
    case RecordFound(AccountRow(a)) => ref == CiteStructured("accounts", a.accountId)
    case RecordFound(OrderRow(o)) => ref == CiteStructured("orders", o.orderId)
    case RecordFound(TicketRow(t)) => ref == CiteStructured("tickets", t.ticketId)
    case Documents(docs) =>
      exists d :: d in docs
        && ref == EvidenceRef(Document, d.sourceId, Some("p" + d.page + ":" + d.section), Some(d.snippet))
    case Calculated(c) => ref in c.evidence
  }

  lemma CitesExactly(o: Output, ref: EvidenceRef)
    ensures ref in CitesOf(o) <==> CitedBy(o, ref)
  {
    if o.Documents? {
      MapMember(DocCite, o.docs, ref);
    }
  }

  lemma SuccessesExactly(results: seq<ToolResult>, o: Output)
    ensures o in Successes(results) <==> Gave(results, o)
  {
    var kept := (r: ToolResult) => if r.output.Ok? then [r.output.value] else [];
    FlatMapMember(kept, results, o);
    assert forall r: ToolResult :: r.output == Ok(o) ==> o in kept(r);
  }

  lemma AllCitations(results: seq<ToolResult>, ref: EvidenceRef)
    ensures ref in FlatMap(CitesOf, Successes(results)) <==> exists o :: Gave(results, o) && CitedBy(o, ref)
  {
    hide CitedBy, CitesOf, Gave, Successes;
    FlatMapMember(CitesOf, Successes(results), ref);
    forall o ensures o in Successes(results) <==> Gave(results, o) {
      SuccessesExactly(results, o);
    }
    forall o ensures ref in CitesOf(o) <==> CitedBy(o, ref) {
      CitesExactly(o, ref);
    }
  }

  /** Deduplication loses no source: every citation a successful tool gave is kept under
      its source and locator, once, and nothing else is kept. */
  lemma PackCitesExactly(results: seq<ToolResult>, key: (string, Option<string>))
    ensures Distinct(Map(RefKey, Build(results).citations))
    ensures key in Map(RefKey, Build(results).citations) <==>
              exists o, ref :: Gave(results, o) && CitedBy(o, ref) && (ref.sourceId, ref.locator) == key
    ensures forall ref :: ref in Build(results).citations ==> exists o :: Gave(results, o) && CitedBy(o, ref)
  {
    hide CitedBy, CitesOf, Gave, Successes;
    var all := FlatMap(CitesOf, Successes(results));
    DedupKeepsFirst(RefKey, all);
    DedupDistinct(RefKey, all);
    forall ref ensures ref in all <==> exists o :: Gave(results, o) && CitedBy(o, ref) {
      AllCitations(results, ref);
    }
    var citations := DedupBy(RefKey, all);
    assert forall i :: 0 <= i < |citations| ==> citations[i] in all;
    if key in Map(RefKey, citations) {
      var i :| 0 <= i < |citations| && RefKey(citations[i]) == key;
      assert citations[i] in all;
    }
    if o, ref :| Gave(results, o) && CitedBy(o, ref) && (ref.sourceId, ref.locator) == key {
      assert ref in all && RefKey(ref) == key;
    }
  }

  /** The calculations weighed are those of the successful tool calls. */
  lemma CalculationsExactly(results: seq<ToolResult>, c: Calculation)
    ensures c in Calculations(results) <==>
              exists r :: r in results && r.output == Ok(Calculated(c))
  {
    var kept := (r: ToolResult) => if r.output.Ok? then [r.output.value] else [];
    FlatMapMember(CalcsOf, Successes(results), c);
    FlatMapMember(kept, results, Calculated(c));
    if c in Calculations(results) {
      var o :| o in Successes(results) && c in CalcsOf(o);
      assert o == Calculated(c);
    }
    if r :| r in results && r.output == Ok(Calculated(c)) {
      assert Calculated(c) in kept(r);
      assert c in CalcsOf(Calculated(c));
    }
  }

  lemma TrustStatesExactly(results: seq<ToolResult>, t: TrustState)
    ensures t in Build(results).trustStates <==>
              exists c :: c in Calculations(results) && c.trust == t
  {
    MapMember(TrustOf, Calculations(results), t);
  }
}
