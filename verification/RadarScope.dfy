/** What two callers of the radar see, after deduplication and sorting: the laws of the single
    rules, lifted to the result. */
module RadarScope {
  import opened Prelude
  import opened Enums
  import opened Ordering
  import opened Records
  import opened Repository
  import opened Fingerprint
  import opened RadarRules
  import opened KnownIssues
  import opened RadarService
  import opened RadarLaws
  import opened RadarAlerts
  import opened TextLines
  import Text

  predicate PerRecord(kind: AlertType) {
    kind in {SlaBreach, SlaApproaching, OverduePickup}
  }

  // ---- From a rule's output to the result ----

  lemma CanonicalMember(alerts: seq<Alert>, a: Alert)
    ensures a in Canonical(alerts) <==> a.id in Seen(alerts) && Seen(alerts)[a.id] == a
  {
    SortedKeysKnown(alerts);
    SeenKeys(alerts);
    var sorted := SortDistinct(KeyLess, SortKeys(alerts));
    if a in Canonical(alerts) {
      var i :| 0 <= i < |sorted| && Canonical(alerts)[i] == a;
      assert sorted[i] in sorted;
    }
    if a.id in Seen(alerts) && Seen(alerts)[a.id] == a {
      assert KeyOf(a) in sorted;
      var j :| 0 <= j < |sorted| && sorted[j] == KeyOf(a);
      assert Canonical(alerts)[j] == a;
    }
  }

  /** Every rule labels its alerts with its own type. */
  lemma RuleKind(db: Database, auth: Auth, cfg: Config, kind: AlertType, a: Alert)
    requires ValidTables(db) && Injective(cfg.digest)
    requires Rule(db, auth, cfg, kind).Ok? && a in Rule(db, auth, cfg, kind).value
    ensures a.kind == kind
  {
    hide Rule, AlertId;
    RuleIds(db, auth, cfg, kind, a);
    RuleSound(db, auth, cfg, kind, a);
    assert OfType(cfg.digest, a.kind, a);
    TypesNeverCollide(cfg.digest, kind, a.kind, a, a);
  }

  /** An alert is in the result exactly when its own rule was asked for and it is what that rule
      last produced under its id. */
  lemma InRadar(db: Database, auth: Auth, cfg: Config, types: Option<seq<AlertType>>, a: Alert)
    requires ValidTables(db) && Injective(cfg.digest) && Radar(db, auth, cfg, types).Ok?
    ensures a in Radar(db, auth, cfg, types).value <==>
              && a.kind in Requested(types) && Rule(db, auth, cfg, a.kind).Ok?
              && a.id in Seen(Rule(db, auth, cfg, a.kind).value)
              && Seen(Rule(db, auth, cfg, a.kind).value)[a.id] == a
  {
    hide Rule, Canonical;
    var kinds := Requested(types);
    CanonicalMember(Gathered(db, auth, cfg, kinds), a);
    if a in Radar(db, auth, cfg, types).value {
      SeenSources(db, auth, cfg, kinds, a.id);
      var k :| k in kinds && Rule(db, auth, cfg, k).Ok? && a.id in Seen(Rule(db, auth, cfg, k).value);
      SeenByRule(db, auth, cfg, kinds, k, a.id);
      SeenKeys(Rule(db, auth, cfg, k).value);
      RuleKind(db, auth, cfg, k, a);
    } else if a.kind in kinds && Rule(db, auth, cfg, a.kind).Ok? && a.id in Seen(Rule(db, auth, cfg, a.kind).value) {
      SeenByRule(db, auth, cfg, kinds, a.kind, a.id);
    }
  }

  lemma SameIdSameKey(digest: string -> string, k: AlertType, w: string, es: seq<string>,
                      k': AlertType, w': string, es': seq<string>)
    requires Injective(digest) && AlertId(digest, k, w, VERSION, es) == AlertId(digest, k', w', VERSION, es')
    ensures Key(k, w, VERSION, es) == Key(k', w', VERSION, es')
  {
    assert AlertId(digest, k, w, VERSION, es)[6..] == digest(Key(k, w, VERSION, es));
    assert AlertId(digest, k', w', VERSION, es')[6..] == digest(Key(k', w', VERSION, es'));
  }

  // ---- Alerts about one record ----

  /** The last field of the key is the one record, whatever it contains. */
  lemma OneRecordKey(k: AlertType, w: string, x: string, y: string)
    requires Key(k, w, VERSION, [x]) == Key(k, w, VERSION, [y])
    ensures x == y
  {
    var head := TypeName(k) + ['|'] + (w + ['|'] + (VERSION + ['|']));
    KeyOfOne(k, w, x);
    KeyOfOne(k, w, y);
    assert (head + x)[|head|..] == x && (head + y)[|head|..] == y;
  }

  lemma KeyOfOne(k: AlertType, w: string, x: string)
    ensures Key(k, w, VERSION, [x]) == TypeName(k) + ['|'] + (w + ['|'] + (VERSION + ['|'])) + x
  {
    assert SortDistinct(Text.Less, [x]) == [x];
    assert Text.Join(',', [x]) == x;
    var fields := [TypeName(k), w, VERSION, x];
    assert fields[1..][1..] == [VERSION, x] && [VERSION, x][1..] == [x] && fields[1..] == [w, VERSION, x];
    assert Text.Join('|', [x]) == x;
    assert Text.Join('|', [VERSION, x]) == VERSION + ['|'] + x;
    assert Text.Join('|', [w, VERSION, x]) == w + ['|'] + (VERSION + ['|'] + x);
  }

  /** A rule about single records never produces one id twice for different alerts. */
  lemma PerRecordIds(db: Database, auth: Auth, cfg: Config, kind: AlertType, a: Alert, b: Alert)
    requires ValidTables(db) && Injective(cfg.digest) && PerRecord(kind) && Rule(db, auth, cfg, kind).Ok?
    requires a in Rule(db, auth, cfg, kind).value && b in Rule(db, auth, cfg, kind).value && a.id == b.id
    ensures a == b
  {
    hide Key, SlaOf, IsBreached, IsApproaching, FlatMap, AlertId;
    match kind
    case SlaBreach =>
      var rule := (t: Ticket) => BreachAlerts(cfg, t, SlaOf(db, auth, cfg, t));
      FlatMapMember(rule, OpenTickets(db, auth), a);
      FlatMapMember(rule, OpenTickets(db, auth), b);
      var t :| t in OpenTickets(db, auth) && a in rule(t);
      var u :| u in OpenTickets(db, auth) && b in rule(u);
      SameTicket(db, auth, cfg, kind, t, u);
    case SlaApproaching =>
      var rule := (t: Ticket) => ApproachAlerts(cfg, t, SlaOf(db, auth, cfg, t));
      FlatMapMember(rule, OpenTickets(db, auth), a);
      FlatMapMember(rule, OpenTickets(db, auth), b);
      var t :| t in OpenTickets(db, auth) && a in rule(t);
      var u :| u in OpenTickets(db, auth) && b in rule(u);
      SameTicket(db, auth, cfg, kind, t, u);
    case OverduePickup =>
      var rule := (o: Records.Order) => OverdueAlerts(cfg, o);
      FlatMapMember(rule, Orders(db, auth, Some(Booked)), a);
      FlatMapMember(rule, Orders(db, auth, Some(Booked)), b);
      var o :| o in Orders(db, auth, Some(Booked)) && a in rule(o);
      var p :| p in Orders(db, auth, Some(Booked)) && b in rule(p);
      SameOrder(db, auth, cfg, o, p);
  }

  lemma SameTicket(db: Database, auth: Auth, cfg: Config, kind: AlertType, t: Ticket, u: Ticket)
    requires ValidTables(db) && Injective(cfg.digest) && t in OpenTickets(db, auth) && u in OpenTickets(db, auth)
    requires AlertId(cfg.digest, kind, POINT_IN_TIME, VERSION, [t.ticketId])
          == AlertId(cfg.digest, kind, POINT_IN_TIME, VERSION, [u.ticketId])
    ensures t == u
  {
    SameIdSameKey(cfg.digest, kind, POINT_IN_TIME, [t.ticketId], kind, POINT_IN_TIME, [u.ticketId]);
    OneRecordKey(kind, POINT_IN_TIME, t.ticketId, u.ticketId);
    OpenTicketIsInScope(db, auth, t);
    OpenTicketIsInScope(db, auth, u);
    TicketByKey(db.tickets, t);
    TicketByKey(db.tickets, u);
  }

  lemma SameOrder(db: Database, auth: Auth, cfg: Config, o: Records.Order, p: Records.Order)
    requires ValidTables(db) && Injective(cfg.digest)
    requires o in Orders(db, auth, Some(Booked)) && p in Orders(db, auth, Some(Booked))
    requires AlertId(cfg.digest, OverduePickup, POINT_IN_TIME, VERSION, [o.orderId])
          == AlertId(cfg.digest, OverduePickup, POINT_IN_TIME, VERSION, [p.orderId])
    ensures o == p
  {
    SameIdSameKey(cfg.digest, OverduePickup, POINT_IN_TIME, [o.orderId], OverduePickup, POINT_IN_TIME, [p.orderId]);
    OneRecordKey(OverduePickup, POINT_IN_TIME, o.orderId, p.orderId);
    OrderInScope(db, auth, Some(Booked), o);
    OrderInScope(db, auth, Some(Booked), p);
    OrderByKey(db.orders, o);
    OrderByKey(db.orders, p);
  }

  /** So deduplication drops no alert about a single record. */
  lemma PerRecordInRadar(db: Database, auth: Auth, cfg: Config, types: Option<seq<AlertType>>, a: Alert)
    requires ValidTables(db) && Injective(cfg.digest) && Radar(db, auth, cfg, types).Ok? && PerRecord(a.kind)
    ensures a in Radar(db, auth, cfg, types).value <==>
              a.kind in Requested(types) && Rule(db, auth, cfg, a.kind).Ok? && a in Rule(db, auth, cfg, a.kind).value
  {
    hide Rule, Radar;
    InRadar(db, auth, cfg, types, a);
    if Rule(db, auth, cfg, a.kind).Ok? {
      var alerts := Rule(db, auth, cfg, a.kind).value;
      SeenKeys(alerts);
      if a in alerts {
        PerRecordIds(db, auth, cfg, a.kind, a, Seen(alerts)[a.id]);
      }
    }
  }

  // ---- Two scopes ----

  lemma RulesRunNarrower(db: Database, narrow: Auth, wide: Auth, cfg: Config, kind: AlertType)
    requires ValidTables(db) && Within(narrow, wide) && Rule(db, wide, cfg, kind).Ok?
    ensures Rule(db, narrow, cfg, kind).Ok?
  {
    hide FirstErr, Filter, SlaOf;
    PerRecordScopeLaw(db, narrow, wide, cfg);
    if kind == RecurringIssue {
      NarrowRunsWhenWideRuns(db, narrow, wide, cfg);
    }
  }

  /** A narrower caller whose role may run the radar gets a result whenever a wider one does. */
  lemma RadarRunsNarrower(db: Database, narrow: Auth, wide: Auth, cfg: Config, types: Option<seq<AlertType>>)
    requires ValidTables(db) && Within(narrow, wide) && narrow.role != RestrictedSupport
    requires Radar(db, wide, cfg, types).Ok?
    ensures Radar(db, narrow, cfg, types).Ok?
  {
    hide Rule, Canonical;
    forall k | k in Requested(types) ensures Rule(db, narrow, cfg, k).Ok? {
      RulesRunNarrower(db, narrow, wide, cfg, k);
    }
  }

  predicate Before(a: Alert, b: Alert) {
    KeyLess(KeyOf(a), KeyOf(b))
  }

  /** A list sorted by rank and id is determined by what is in it. */
  lemma {:induction false} SameSorted(xs: seq<Alert>, ys: seq<Alert>)
    requires Sorted(Before, xs) && Sorted(Before, ys) && forall a :: a in xs <==> a in ys
    ensures xs == ys
  {
    KeyLessStrictTotal();
    assert xs != [] ==> xs[0] in xs;
    assert ys != [] ==> ys[0] in ys;
    if xs != [] {
      assert xs[0] == ys[0];
      forall a ensures a in xs[1..] <==> a in ys[1..] {
        assert a in xs <==> a == xs[0] || a in xs[1..];
        assert a in ys <==> a == ys[0] || a in ys[1..];
      }
      SameSorted(xs[1..], ys[1..]);
    }
  }

  /** The alerts about single records that a narrower caller gets are, in the same order, those
      of a wider caller's alerts that are about the narrower scope. */
  lemma RadarScopeLaw(db: Database, narrow: Auth, wide: Auth, cfg: Config, types: Option<seq<AlertType>>)
    requires ValidTables(db) && Injective(cfg.digest) && Within(narrow, wide) && narrow.role != RestrictedSupport
    requires Radar(db, wide, cfg, types).Ok?
    ensures Radar(db, narrow, cfg, types).Ok?
    ensures Filter((a: Alert) => PerRecord(a.kind), Radar(db, narrow, cfg, types).value)
         == Filter((a: Alert) => PerRecord(a.kind) && Visible(narrow, a), Radar(db, wide, cfg, types).value)
  {
    hide Radar, Rule, Visible;
    RadarRunsNarrower(db, narrow, wide, cfg, types);
    var few, many := Radar(db, narrow, cfg, types).value, Radar(db, wide, cfg, types).value;
    var single := (a: Alert) => PerRecord(a.kind);
    var mine := (a: Alert) => PerRecord(a.kind) && Visible(narrow, a);
    RadarSorted(db, narrow, cfg, types);
    RadarSorted(db, wide, cfg, types);
    FilterSorted(Before, single, few);
    FilterSorted(Before, mine, many);
    forall a ensures a in Filter(single, few) <==> a in Filter(mine, many) {
      FilterMember(single, few, a);
      FilterMember(mine, many, a);
      if PerRecord(a.kind) {
        InBothRadars(db, narrow, wide, cfg, types, a);
      }
    }
    SameSorted(Filter(single, few), Filter(mine, many));
  }

  lemma InBothRadars(db: Database, narrow: Auth, wide: Auth, cfg: Config, types: Option<seq<AlertType>>, a: Alert)
    requires ValidTables(db) && Injective(cfg.digest) && Within(narrow, wide) && PerRecord(a.kind)
    requires Radar(db, narrow, cfg, types).Ok? && Radar(db, wide, cfg, types).Ok?
    ensures a in Radar(db, narrow, cfg, types).value <==>
              a in Radar(db, wide, cfg, types).value && Visible(narrow, a)
  {
    hide Radar, Rule, Visible;
    PerRecordInRadar(db, narrow, cfg, types, a);
    PerRecordInRadar(db, wide, cfg, types, a);
    if a.kind in Requested(types) {
      RulesRan(db, wide, cfg, types, a.kind);
      RuleScopeLaw(db, narrow, wide, cfg, a.kind, a);
    }
  }

  lemma RulesRan(db: Database, auth: Auth, cfg: Config, types: Option<seq<AlertType>>, kind: AlertType)
    requires Radar(db, auth, cfg, types).Ok? && kind in Requested(types)
    ensures Rule(db, auth, cfg, kind).Ok?
  {
    hide Rule, Canonical;
  }

  lemma RuleScopeLaw(db: Database, narrow: Auth, wide: Auth, cfg: Config, kind: AlertType, a: Alert)
    requires ValidTables(db) && Within(narrow, wide) && PerRecord(kind) && Rule(db, wide, cfg, kind).Ok?
    ensures Rule(db, narrow, cfg, kind).Ok?
    ensures a in Rule(db, narrow, cfg, kind).value <==> a in Rule(db, wide, cfg, kind).value && Visible(narrow, a)
  {
    hide Breaches, Approaching, OverduePickups, Visible, Filter;
    PerRecordScopeLaw(db, narrow, wide, cfg);
    FilterMember((a: Alert) => Visible(narrow, a), Rule(db, wide, cfg, kind).value, a);
  }

  // ---- Aggregates ----

  /** Ids without the separators of the key, and no ticket named like a known issue: two issues
      named like each other's tickets would share a fingerprint. */
  ghost predicate PlainIds(db: Database, cfg: Config) {
    && Plain(cfg.windowName)
    && (forall t :: t in db.tickets ==> PlainEntities([t.ticketId]))
    && (forall o :: o in db.orders ==> PlainEntities([o.orderId]))
    && (forall t, i :: t in db.tickets && i in ParsedIssues(db.chunks, cfg.lex) ==> t.ticketId != i.kiId)
  }

  lemma PlainRecords(db: Database, auth: Auth, cfg: Config, a: Alert)
    requires PlainIds(db, cfg) && Accountable(db, auth, a)
    ensures PlainEntities(a.records)
  {
    hide PlainIds, Owned, PlainEntities, Cites;
    forall id | id in a.records ensures PlainEntities([id]) {
      var owner :| owner in a.accounts && Owned(db, a.kind, id, owner);
      PlainOwned(db, cfg, a.kind, id, owner);
    }
    PlainOneByOne(a.records);
  }

  lemma PlainOwned(db: Database, cfg: Config, kind: AlertType, id: string, owner: string)
    requires PlainIds(db, cfg) && Owned(db, kind, id, owner)
    ensures PlainEntities([id])
    ensures !AboutOrders(kind) ==> forall i :: i in ParsedIssues(db.chunks, cfg.lex) ==> id != i.kiId
  {
    hide PlainEntities, ParsedIssues;
  }

  lemma PlainOneByOne(ids: seq<string>)
    requires forall id :: id in ids ==> PlainEntities([id])
    ensures PlainEntities(ids)
  {
    forall id | id in ids ensures id != [] && '|' !in id && ',' !in id {
      assert PlainEntities([id]) && id in [id];
    }
  }

  lemma AggregateWindow(db: Database, auth: Auth, cfg: Config, kind: AlertType, a: Alert)
    requires !PerRecord(kind) && Rule(db, auth, cfg, kind).Ok? && a in Rule(db, auth, cfg, kind).value
    ensures a.window == cfg.windowName
  {
    hide AlertId, SlaOf, FaultyOrders, ActiveIssues, Candidates, Matching, Carriers, OfCarrier, FlatMap, Filter;
    match kind
    case RecurringIssue =>
    case KnownIssuePattern =>
      FlatMapMember(
        (i: Issue) => KnownIssueAlerts(db.chunks, cfg, i, Matching(cfg, i, Candidates(db, auth, cfg))),
        ActiveIssues(db, cfg), a);
    case CarrierPattern =>
      var os := FaultyOrders(db, auth, cfg);
      FlatMapMember((carrier: string) => CarrierAlerts(cfg, carrier, OfCarrier(carrier, os)), Carriers(os), a);
  }

  lemma IssueIdIsPlain(chunks: seq<Chunk>, cfg: Config, i: Issue)
    requires i in ParsedIssues(chunks, cfg.lex)
    ensures PlainEntities([i.kiId])
  {
    hide Segment, IsMention, MentionText, Mentions;
    var rule := (c: Chunk) => IssuesOf(cfg.lex, c);
    var rows := Filter((c: Chunk) => c.productDoc && c.current, chunks);
    FlatMapMember(rule, rows, i);
    var c :| c in rows && i in rule(c);
    var k :| 0 <= k < |Mentions(c.text)| && IssuesOf(cfg.lex, c)[k] == i;
    MentionAt(c.text, k);
    MentionIsPlain(c.text, Mentions(c.text)[k]);
  }

  lemma MentionAt(text: string, k: nat)
    requires k < |Mentions(text)|
    ensures Mentions(text)[k] < |text| && IsMention(text, Mentions(text)[k])
  {
    MentionsAscend(text, 0);
  }

  lemma MentionIsPlain(text: string, i: nat)
    requires IsMention(text, i)
    ensures PlainEntities([MentionText(text, i)])
  {
    DigitRunIsDigits(text, i + 3);
    var id := MentionText(text, i);
    assert id[..3] == text[i..i + 3] == "KI-";
    forall k | 0 <= k < |id| ensures id[k] != '|' && id[k] != ',' {
      if k < 3 {
        assert id[k] == id[..3][k];
      }
    }
  }

  /** What an aggregate's id is computed from. */
  function Identifying(a: Alert): seq<string> {
    if a.kind == KnownIssuePattern then [a.subject] + a.records else a.records
  }

  lemma AggregateEntities(db: Database, auth: Auth, cfg: Config, kind: AlertType, a: Alert)
    requires ValidTables(db) && PlainIds(db, cfg) && Injective(cfg.digest) && !PerRecord(kind)
    requires Rule(db, auth, cfg, kind).Ok? && a in Rule(db, auth, cfg, kind).value
    ensures a.kind == kind && PlainEntities(Identifying(a)) && Sound(db, auth, cfg, a)
    ensures a.id == AlertId(cfg.digest, kind, cfg.windowName, VERSION, Identifying(a))
  {
    hide Key, SharesVocabulary, ParsedIssues, PlainEntities;
    RuleKind(db, auth, cfg, kind, a);
    RuleSound(db, auth, cfg, kind, a);
    AggregateWindow(db, auth, cfg, kind, a);
    PlainRecords(db, auth, cfg, a);
    if kind == KnownIssuePattern {
      var i := IssueBehind(db, auth, cfg, a);
      IssueIdIsPlain(db.chunks, cfg, i);
      OneMorePlain(a.subject, a.records);
    }
  }

  lemma OneMorePlain(x: string, xs: seq<string>)
    requires PlainEntities([x]) && PlainEntities(xs)
    ensures PlainEntities([x] + xs)
  {
    assert x in [x];
  }

  lemma IssueBehind(db: Database, auth: Auth, cfg: Config, a: Alert) returns (i: Issue)
    requires ValidTables(db) && a in KnownIssuePatterns(db, auth, cfg)
    ensures i in ParsedIssues(db.chunks, cfg.lex) && a.subject == i.kiId
  {
    hide SharesVocabulary, ParsedIssues, KnownIssuePatterns;
    KnownIssueCountsExactly(db, auth, cfg, a);
    i :| i in ParsedIssues(db.chunks, cfg.lex) && a.subject == i.kiId;
  }

  /** Two aggregates under one id are about the same subject and the same records. */
  lemma SameIdSameAggregate(db: Database, auth: Auth, cfg: Config, kind: AlertType, a: Alert, b: Alert)
    requires ValidTables(db) && PlainIds(db, cfg) && Injective(cfg.digest) && !PerRecord(kind)
    requires cfg.recurringThreshold > 0 && cfg.carrierThreshold > 0
    requires Rule(db, auth, cfg, kind).Ok?
    requires a in Rule(db, auth, cfg, kind).value && b in Rule(db, auth, cfg, kind).value && a.id == b.id
    ensures a.subject == b.subject && a.records == b.records && a.count == b.count
  {
    hide Rule, AlertId, Key, Accountable, PlainEntities, PlainIds;
    AggregateEntities(db, auth, cfg, kind, a);
    AggregateEntities(db, auth, cfg, kind, b);
    SameIdSameKey(cfg.digest, kind, cfg.windowName, Identifying(a), kind, cfg.windowName, Identifying(b));
    PlainWindow(db, cfg);
    KeyEqualExactlyWhen(kind, cfg.windowName, VERSION, Identifying(a), kind, cfg.windowName, VERSION, Identifying(b));
    SameSubject(db, auth, cfg, kind, a, b);
    Text.LessStrictTotal();
    if kind == KnownIssuePattern {
      NotAnIssue(db, auth, cfg, a, a);
      NotAnIssue(db, auth, cfg, b, b);
      assert forall id :: id in a.records <==> id in Identifying(a) && id != a.subject;
      assert forall id :: id in b.records <==> id in Identifying(b) && id != b.subject;
    }
    SortedUnique(Text.Less, a.records, b.records);
  }

  lemma PlainWindow(db: Database, cfg: Config)
    requires PlainIds(db, cfg)
    ensures Plain(cfg.windowName) && Plain(VERSION)
  {
  }

  lemma SameSubject(db: Database, auth: Auth, cfg: Config, kind: AlertType, a: Alert, b: Alert)
    requires ValidTables(db) && PlainIds(db, cfg) && !PerRecord(kind) && Rule(db, auth, cfg, kind).Ok?
    requires cfg.recurringThreshold > 0 && cfg.carrierThreshold > 0
    requires a in Rule(db, auth, cfg, kind).value && b in Rule(db, auth, cfg, kind).value
    requires a.kind == b.kind == kind && Sound(db, auth, cfg, a) && Sound(db, auth, cfg, b)
    requires forall x :: x in Identifying(a) <==> x in Identifying(b)
    ensures a.subject == b.subject
  {
    hide PlainIds, Accountable, RadarAlerts.Counted, Recurring, CarrierPatterns, KnownIssuePatterns;
    assert kind != KnownIssuePattern ==> Identifying(a) == a.records && Identifying(b) == b.records;
    match kind
    case RecurringIssue => SameSeverity(db, auth, cfg, a, b);
    case CarrierPattern => SameCarrier(db, auth, cfg, a, b);
    case KnownIssuePattern =>
      assert a.subject in Identifying(a);
      NotAnIssue(db, auth, cfg, a, b);
  }

  lemma SameSeverity(db: Database, auth: Auth, cfg: Config, a: Alert, b: Alert)
    requires ValidTables(db) && Recurring(db, auth, cfg).Ok? && cfg.recurringThreshold > 0
    requires a in Recurring(db, auth, cfg).value && b in Recurring(db, auth, cfg).value
    requires forall id :: id in a.records <==> id in b.records
    ensures a.subject == b.subject
  {
    hide Recurring, Recurs;
    var s := RecurringCountsExactly(db, auth, cfg, a);
    var s' := RecurringCountsExactly(db, auth, cfg, b);
    var id := a.records[0];
    assert id in a.records && id in b.records;
    var t: Ticket :| t.ticketId == id && Recurs(db, auth, cfg, s, t);
    var t': Ticket :| t'.ticketId == id && Recurs(db, auth, cfg, s', t');
    OneSeverity(db, auth, cfg, s, s', t, t');
  }

  lemma SameCarrier(db: Database, auth: Auth, cfg: Config, a: Alert, b: Alert)
    requires ValidTables(db) && cfg.carrierThreshold > 0
    requires a in CarrierPatterns(db, auth, cfg) && b in CarrierPatterns(db, auth, cfg)
    requires forall id :: id in a.records <==> id in b.records
    ensures a.subject == b.subject
  {
    hide CarrierPatterns, InWindow;
    CarrierCountsExactly(db, auth, cfg, a);
    CarrierCountsExactly(db, auth, cfg, b);
    var id := a.records[0];
    assert id in a.records && id in b.records;
    var o :| o in db.orders && o.orderId == id && auth.Allows(o.accountId)
             && o.carrier == a.subject && o.carrierFault && InWindow(cfg, o.bookedAt);
    var p :| p in db.orders && p.orderId == id && auth.Allows(p.accountId)
             && p.carrier == b.subject && p.carrierFault && InWindow(cfg, p.bookedAt);
    OrderByKey(db.orders, o);
    OrderByKey(db.orders, p);
  }

  /** The subject of a known-issue alert is no record of another one. */
  lemma NotAnIssue(db: Database, auth: Auth, cfg: Config, a: Alert, b: Alert)
    requires ValidTables(db) && PlainIds(db, cfg) && a in Rule(db, auth, cfg, KnownIssuePattern).value
    requires b.kind == KnownIssuePattern && Accountable(db, auth, b)
    ensures a.subject !in b.records
  {
    hide KnownIssuePatterns, ParsedIssues, PlainIds, Owned, Cites, Sorted;
    var i := IssueBehind(db, auth, cfg, a);
    if a.subject in b.records {
      var owner :| owner in b.accounts && Owned(db, b.kind, a.subject, owner);
      PlainOwned(db, cfg, b.kind, a.subject, owner);
    }
  }

  lemma OneSeverity(db: Database, auth: Auth, cfg: Config, s: Severity, s': Severity, t: Ticket, t': Ticket)
    requires ValidTables(db) && Recurs(db, auth, cfg, s, t) && Recurs(db, auth, cfg, s', t')
    requires t.ticketId == t'.ticketId
    ensures s == s'
  {
  }

  /** A narrower scope's aggregate is there for the wider caller too, with the same subject and
      no lower a count. */
  lemma WideningKeepsAggregates(db: Database, narrow: Auth, wide: Auth, cfg: Config, kind: AlertType, a: Alert)
    requires ValidTables(db) && Within(narrow, wide) && !PerRecord(kind)
    requires Rule(db, wide, cfg, kind).Ok? && Rule(db, narrow, cfg, kind).Ok?
    requires a in Rule(db, narrow, cfg, kind).value
    ensures exists b :: b in Rule(db, wide, cfg, kind).value && b.subject == a.subject && b.count >= a.count
  {
    hide Recurring, CarrierPatterns, KnownIssuePatterns;
    match kind
    case RecurringIssue => WideningKeepsRecurring(db, narrow, wide, cfg, a);
    case CarrierPattern => WideningKeepsCarriers(db, narrow, wide, cfg, a);
    case KnownIssuePattern => WideningKeepsKnownIssues(db, narrow, wide, cfg, a);
  }

  /** Seeing more never removes an aggregate from the result and never lowers its count. */
  lemma RadarWideningLaw(db: Database, narrow: Auth, wide: Auth, cfg: Config, types: Option<seq<AlertType>>, a: Alert)
    requires ValidTables(db) && PlainIds(db, cfg) && Injective(cfg.digest) && Within(narrow, wide)
    requires cfg.recurringThreshold > 0 && cfg.carrierThreshold > 0
    requires Radar(db, wide, cfg, types).Ok? && Radar(db, narrow, cfg, types).Ok?
    requires a in Radar(db, narrow, cfg, types).value && !PerRecord(a.kind)
    ensures exists b :: b in Radar(db, wide, cfg, types).value
              && b.kind == a.kind && b.subject == a.subject && b.count >= a.count
  {
    hide Rule, Canonical, PlainIds;
    var kind := a.kind;
    InRadar(db, narrow, cfg, types, a);
    SeenKeys(Rule(db, narrow, cfg, kind).value);
    var alerts := Rule(db, wide, cfg, kind).value;
    WideningKeepsAggregates(db, narrow, wide, cfg, kind, a);
    var b :| b in alerts && b.subject == a.subject && b.count >= a.count;
    SeenKeys(alerts);
    var c := Seen(alerts)[b.id];
    SameIdSameAggregate(db, wide, cfg, kind, b, c);
    RuleKind(db, wide, cfg, kind, c);
    InRadar(db, wide, cfg, types, c);
  }
}
