/** `app/detection/service.py`: run the requested rules, drop repeated ids, sort. */
module RadarService {
  import opened Prelude
  import opened Enums
  import opened Ordering
  import opened Records
  import opened Fingerprint
  import opened RadarRules
  import opened KnownIssues
  import Text

  const ALL_RULES :=
    [SlaBreach, SlaApproaching, RecurringIssue, KnownIssuePattern, CarrierPattern, OverduePickup]

  function Rule(db: Database, auth: Auth, cfg: Config, kind: AlertType): Result<seq<Alert>, Exn> {
    match kind
    case SlaBreach => Breaches(db, auth, cfg)
    case SlaApproaching => Approaching(db, auth, cfg)
    case RecurringIssue => Recurring(db, auth, cfg)
    case KnownIssuePattern => Ok(KnownIssuePatterns(db, auth, cfg))
    case CarrierPattern => Ok(CarrierPatterns(db, auth, cfg))
    case OverduePickup => Ok(OverduePickups(db, auth, cfg))
  }

  function SeverityRank(s: AlertSeverity): nat {
    match s case Critical => 0 case High => 1 case Medium => 2 case Low => 3
  }

  type SortKey = (nat, string)

  function KeyOf(a: Alert): SortKey {
    (SeverityRank(a.severity), a.id)
  }

  predicate KeyLess(x: SortKey, y: SortKey) {
    x.0 < y.0 || (x.0 == y.0 && Text.Less(x.1, y.1))
  }

  lemma KeyLessStrictTotal()
    ensures StrictTotal(KeyLess)
  {
    Text.LessStrictTotal();
  }

  /** The dictionary by alert id after these alerts: the last one under an id stays. */
  function Seen(alerts: seq<Alert>): map<string, Alert> {
    if alerts == [] then map[]
    else Seen(alerts[..|alerts| - 1])[alerts[|alerts| - 1].id := alerts[|alerts| - 1]]
  }

  ghost predicate Filed(seen: map<string, Alert>) {
    forall x :: x in seen ==> seen[x].id == x
  }

  /** `sorted(seen.values(), key=...)`, for a dictionary whose keys are `ids`, repeated or
      not: the sort keys are distinct, so sorting them sorts the alerts. */
  function SortValues(seen: map<string, Alert>, ids: seq<string>): seq<Alert>
    requires Filed(seen) && forall x :: x in ids ==> x in seen
  {
    var sorted := SortDistinct(KeyLess, KeysOf(seen, ids));
    SortedKeysOf(seen, ids);
    seq(|sorted|, i requires 0 <= i < |sorted| => seen[sorted[i].1])
  }

  function KeysOf(seen: map<string, Alert>, ids: seq<string>): seq<SortKey>
    requires forall x :: x in ids ==> x in seen
  {
    seq(|ids|, i requires 0 <= i < |ids| => KeyOf(seen[ids[i]]))
  }

  lemma SortedKeysOf(seen: map<string, Alert>, ids: seq<string>)
    requires Filed(seen) && forall x :: x in ids ==> x in seen
    ensures Sorted(KeyLess, SortDistinct(KeyLess, KeysOf(seen, ids)))
    ensures forall k :: k in SortDistinct(KeyLess, KeysOf(seen, ids)) <==>
              k.1 in ids && k == KeyOf(seen[k.1])
  {
    KeyLessStrictTotal();
    var keys := KeysOf(seen, ids);
    SortDistinctSorts(KeyLess, keys);
    forall k ensures k in keys <==> k.1 in ids && k == KeyOf(seen[k.1]) {
      if k.1 in ids && k == KeyOf(seen[k.1]) {
        var i :| 0 <= i < |ids| && ids[i] == k.1;
        assert keys[i] == k;
      }
    }
  }

  function Ids(alerts: seq<Alert>): seq<string> {
    Map((a: Alert) => a.id, alerts)
  }

  /** The deduplicated and sorted result for everything the rules produced. */
  function Canonical(alerts: seq<Alert>): seq<Alert> {
    SeenKeys(alerts);
    SortValues(Seen(alerts), Ids(alerts))
  }

  function SortKeys(alerts: seq<Alert>): seq<SortKey> {
    SeenKeys(alerts);
    KeysOf(Seen(alerts), Ids(alerts))
  }

  lemma {:induction false} SeenKeys(alerts: seq<Alert>)
    ensures forall i :: 0 <= i < |alerts| ==> alerts[i].id in Seen(alerts)
    ensures Filed(Seen(alerts))
    ensures forall x :: x in Seen(alerts) ==> Seen(alerts)[x] in alerts && x in Ids(alerts)
  {
    if alerts != [] {
      var prefix, last := alerts[..|alerts| - 1], alerts[|alerts| - 1];
      SeenKeys(prefix);
      assert alerts == prefix + [last];
      assert Ids(alerts) == Ids(prefix) + [last.id];
    }
  }

  lemma SortedKeysKnown(alerts: seq<Alert>)
    ensures Sorted(KeyLess, SortDistinct(KeyLess, SortKeys(alerts)))
    ensures forall k :: k in SortDistinct(KeyLess, SortKeys(alerts)) <==>
              k.1 in Seen(alerts) && k == KeyOf(Seen(alerts)[k.1])
  {
    SeenKeys(alerts);
    SortedKeysOf(Seen(alerts), Ids(alerts));
    forall x | x in Ids(alerts) ensures x in Seen(alerts) {
    }
  }

  function Requested(types: Option<seq<AlertType>>): seq<AlertType> {
    if types.None? || types.value == [] then ALL_RULES else types.value
  }

  function Produced(r: Result<seq<Alert>, Exn>): seq<Alert> {
    if r.Ok? then r.value else []
  }

  function Gathered(db: Database, auth: Auth, cfg: Config, kinds: seq<AlertType>): seq<Alert> {
    FlatMap((k: AlertType) => Produced(Rule(db, auth, cfg, k)), kinds)
  }

  function Radar(db: Database, auth: Auth, cfg: Config, types: Option<seq<AlertType>>)
    : Result<seq<Alert>, Exn>
  {
    if auth.role == RestrictedSupport then Err(NotAuthorizedError)
    else
      var kinds := Requested(types);
      var stop := FirstErr((k: AlertType) => Rule(db, auth, cfg, k), kinds);
      if stop.Some? then Err(stop.value) else Ok(Canonical(Gathered(db, auth, cfg, kinds)))
  }

  method RunRule(db: Database, auth: Auth, cfg: Config, kind: AlertType) returns (r: Result<seq<Alert>, Exn>)
    ensures r == Rule(db, auth, cfg, kind)
  {
    match kind {
      case SlaBreach => r := DetectSlaBreaches(db, auth, cfg);
      case SlaApproaching => r := DetectSlaApproaching(db, auth, cfg);
      case RecurringIssue => r := DetectRecurringSeverity(db, auth, cfg);
      case KnownIssuePattern =>
        var alerts := DetectKnownIssuePatterns(db, auth, cfg);
        r := Ok(alerts);
      case CarrierPattern =>
        var alerts := DetectCarrierPatterns(db, auth, cfg);
        r := Ok(alerts);
      case OverduePickup =>
        var alerts := DetectOverduePickups(db, auth, cfg);
        r := Ok(alerts);
    }
  }

  lemma {:induction false} SeenConcat(xs: seq<Alert>, ys: seq<Alert>)
    ensures Seen(xs + ys) == Seen(xs) + Seen(ys)
  {
    if ys == [] {
      assert xs + ys == xs;
    } else {
      assert (xs + ys)[..|xs + ys| - 1] == xs + ys[..|ys| - 1];
      SeenConcat(xs, ys[..|ys| - 1]);
    }
  }

  /** The dictionary and its keys in the order they were entered. */
  ghost predicate Tracks(seen: map<string, Alert>, ids: seq<string>, alerts: seq<Alert>) {
    seen == Seen(alerts) && ids == Ids(alerts)
  }

  /** `for alert in alerts: seen[alert.alert_id] = alert`. */
  method AddAlerts(seen: map<string, Alert>, ids: seq<string>, alerts: seq<Alert>, ghost before: seq<Alert>)
    returns (seen': map<string, Alert>, ids': seq<string>)
    requires Tracks(seen, ids, before)
    ensures Tracks(seen', ids', before + alerts)
  {
    seen', ids' := seen, ids;
    assert before + alerts[..0] == before;
    for j := 0 to |alerts|
      invariant Tracks(seen', ids', before + alerts[..j])
    {
      assert before + alerts[..j + 1] == before + alerts[..j] + [alerts[j]];
      assert (before + alerts[..j + 1])[..|before| + j] == before + alerts[..j];
      seen' := seen'[alerts[j].id := alerts[j]];
      ids' := ids' + [alerts[j].id];
    }
    assert alerts[..|alerts|] == alerts;
  }

  method SortedValues(seen: map<string, Alert>, ids: seq<string>, ghost alerts: seq<Alert>)
    returns (sorted: seq<Alert>)
    requires Tracks(seen, ids, alerts)
    ensures sorted == Canonical(alerts)
  {
    SeenKeys(alerts);
    sorted := SortValues(seen, ids);
  }

  method RunOperationsRadar(db: Database, auth: Auth, cfg: Config, types: Option<seq<AlertType>>)
    returns (r: Result<seq<Alert>, Exn>)
    ensures r == Radar(db, auth, cfg, types)
  {
    if auth.role == RestrictedSupport {
      return Err(NotAuthorizedError);
    }
    var kinds := Requested(types);
    ghost var run := (k: AlertType) => Rule(db, auth, cfg, k);
    ghost var found := (k: AlertType) => Produced(run(k));
    var seen: map<string, Alert>, ids: seq<string> := map[], [];
    ghost var gathered: seq<Alert> := [];
    for i := 0 to |kinds|
      invariant FirstErr(run, kinds[..i]) == None
      invariant gathered == FlatMap(found, kinds[..i])
      invariant Tracks(seen, ids, gathered)
    {
      FirstErrStep(run, kinds, i);
      FlatMapStep(found, kinds, i);
      var outcome := RunRule(db, auth, cfg, kinds[i]);
      assert outcome == run(kinds[i]);
      if outcome.Err? {
        return Err(outcome.error);
      }
      seen, ids := AddAlerts(seen, ids, outcome.value, gathered);
      gathered := gathered + outcome.value;
    }
    assert kinds[..|kinds|] == kinds;
    FlatMapAgree(found, (k: AlertType) => Produced(Rule(db, auth, cfg, k)), kinds);
    var sorted := SortedValues(seen, ids, gathered);
    return Ok(sorted);
  }

  /** Alert ids affecting an account, and the accounts, both sorted. */
  function IdsFor(alerts: seq<Alert>, account: string): seq<string> {
    SortDistinct(Text.Less, Affecting(alerts, account))
  }

  function AllAccounts(alerts: seq<Alert>): seq<string> {
    FlatMap((a: Alert) => a.accounts, alerts)
  }

  function Pairs(alerts: seq<Alert>): seq<(string, string)> {
    FlatMap((a: Alert) => AlertPairs(a), alerts)
  }

  function AlertPairs(a: Alert): seq<(string, string)> {
    Map((account: string) => (account, a.id), a.accounts)
  }

  /** A dictionary of id lists that holds exactly these (account, id) pairs. */
  ghost predicate Collected(grouped: map<string, seq<string>>, pairs: seq<(string, string)>) {
    && (forall n, x :: (n in grouped && x in grouped[n]) <==> (n, x) in pairs)
    && (forall n :: n in grouped ==> grouped[n] != [])
  }

  /** `grouped.setdefault(account_id, set()).add(alert_id)`, for the accounts of one alert. */
  method AddAlert(grouped: map<string, seq<string>>, a: Alert, ghost before: seq<(string, string)>)
    returns (grouped': map<string, seq<string>>)
    requires Collected(grouped, before)
    ensures Collected(grouped', before + AlertPairs(a))
  {
    grouped' := grouped;
    assert before + AlertPairs(a)[..0] == before;
    for k := 0 to |a.accounts|
      invariant Collected(grouped', before + AlertPairs(a)[..k])
    {
      ghost var pairs := before + AlertPairs(a)[..k];
      assert before + AlertPairs(a)[..k + 1] == pairs + [(a.accounts[k], a.id)];
      var account := a.accounts[k];
      var ids := if account in grouped' then grouped'[account] else [];
      grouped' := grouped'[account := ids + [a.id]];
    }
    assert AlertPairs(a)[..|a.accounts|] == AlertPairs(a);
  }

  method GroupByAccount(alerts: seq<Alert>) returns (grouped: map<string, seq<string>>)
    ensures forall n :: n in grouped <==> n in AllAccounts(alerts)
    ensures forall n :: n in grouped ==> grouped[n] == IdsFor(alerts, n)
  {
    var byAccount: map<string, seq<string>> := map[];
    for i := 0 to |alerts|
      invariant Collected(byAccount, Pairs(alerts[..i]))
    {
      FlatMapStep((a: Alert) => AlertPairs(a), alerts, i);
      byAccount := AddAlert(byAccount, alerts[i], Pairs(alerts[..i]));
    }
    assert alerts[..|alerts|] == alerts;
    grouped := map n | n in byAccount :: SortDistinct(Text.Less, byAccount[n]);
    Text.LessStrictTotal();
    forall n ensures n in byAccount <==> n in AllAccounts(alerts) {
      PairsOfAccount(alerts, n);
      if n in byAccount {
        assert (n, byAccount[n][0]) in Pairs(alerts);
      }
    }
    forall n | n in byAccount ensures grouped[n] == IdsFor(alerts, n) {
      PairsOfAccount(alerts, n);
      SortDistinctCanonical(Text.Less, byAccount[n], Affecting(alerts, n));
    }
  }

  function Affecting(alerts: seq<Alert>, account: string): seq<string> {
    Map((a: Alert) => a.id, Filter((a: Alert) => account in a.accounts, alerts))
  }

  lemma AffectingMember(alerts: seq<Alert>, account: string, id: string)
    ensures id in Affecting(alerts, account) <==>
              exists a :: a in alerts && a.id == id && account in a.accounts
  {
    var affected := (a: Alert) => account in a.accounts;
    var kept := Filter(affected, alerts);
    forall a ensures a in kept <==> a in alerts && account in a.accounts {
      FilterMember(affected, alerts, a);
    }
    var ids := Affecting(alerts, account);
    if id in ids {
      var i :| 0 <= i < |ids| && ids[i] == id;
      assert kept[i] in kept;
    }
    if a :| a in alerts && a.id == id && account in a.accounts {
      var i :| 0 <= i < |kept| && kept[i] == a;
      assert ids[i] == id;
    }
  }

  lemma AlertPair(a: Alert, account: string, id: string)
    ensures (account, id) in AlertPairs(a) <==> a.id == id && account in a.accounts
  {
    if a.id == id && account in a.accounts {
      var k :| 0 <= k < |a.accounts| && a.accounts[k] == account;
      assert AlertPairs(a)[k] == (account, id);
    }
  }

  lemma PairsOfAccount(alerts: seq<Alert>, account: string)
    ensures forall id :: (account, id) in Pairs(alerts) <==> id in Affecting(alerts, account)
    ensures account in AllAccounts(alerts) <==> exists id :: (account, id) in Pairs(alerts)
  {
    forall id ensures (account, id) in Pairs(alerts) <==>
                        exists a :: a in alerts && a.id == id && account in a.accounts
    {
      FlatMapMember((a: Alert) => AlertPairs(a), alerts, (account, id));
      forall a ensures (account, id) in AlertPairs(a) <==> a.id == id && account in a.accounts {
        AlertPair(a, account, id);
      }
    }
    forall id ensures (account, id) in Pairs(alerts) <==> id in Affecting(alerts, account) {
      AffectingMember(alerts, account, id);
    }
    FlatMapMember((a: Alert) => a.accounts, alerts, account);
    if a :| a in alerts && account in a.accounts {
      assert (account, a.id) in Pairs(alerts);
    }
  }

  /** The grouping is the exact transpose of alert-to-accounts. */
  lemma GroupIsTranspose(alerts: seq<Alert>, account: string, id: string)
    ensures id in IdsFor(alerts, account) <==>
              exists a :: a in alerts && a.id == id && account in a.accounts
    ensures account in AllAccounts(alerts) <==> exists a :: a in alerts && account in a.accounts
    ensures Sorted(Text.Less, IdsFor(alerts, account))
  {
    Text.LessStrictTotal();
    SortDistinctSorts(Text.Less, Affecting(alerts, account));
    AffectingMember(alerts, account, id);
    FlatMapMember((a: Alert) => a.accounts, alerts, account);
  }

  /** Every result has unique ids and is sorted by severity, then id. */
  lemma RadarSorted(db: Database, auth: Auth, cfg: Config, types: Option<seq<AlertType>>)
    ensures var r := Radar(db, auth, cfg, types);
            r.Ok? ==>
              forall i, j :: 0 <= i < j < |r.value| ==>
                KeyLess(KeyOf(r.value[i]), KeyOf(r.value[j])) && r.value[i].id != r.value[j].id
  {
    CanonicalSorted(Gathered(db, auth, cfg, Requested(types)));
  }

  lemma CanonicalSorted(gathered: seq<Alert>)
    ensures var alerts := Canonical(gathered);
            forall i, j :: 0 <= i < j < |alerts| ==>
              KeyLess(KeyOf(alerts[i]), KeyOf(alerts[j])) && alerts[i].id != alerts[j].id
  {
    SortedKeysKnown(gathered);
    KeyLessStrictTotal();
    var sorted := SortDistinct(KeyLess, SortKeys(gathered));
    forall i | 0 <= i < |sorted| ensures KeyOf(Canonical(gathered)[i]) == sorted[i] {
      assert sorted[i] in sorted;
    }
    forall i, j | 0 <= i < j < |sorted| ensures sorted[i].1 != sorted[j].1 {
      assert sorted[i] in sorted && sorted[j] in sorted;
    }
    SeenKeys(gathered);
  }

  /** Deduplication drops no id: an id is in the result exactly when some rule produced it. */
  lemma RadarKeepsEveryId(alerts: seq<Alert>, id: string)
    ensures (exists a :: a in Canonical(alerts) && a.id == id) <==> (exists a :: a in alerts && a.id == id)
  {
    SortedKeysKnown(alerts);
    SeenKeys(alerts);
    var sorted := SortDistinct(KeyLess, SortKeys(alerts));
    if a :| a in alerts && a.id == id {
      var i :| 0 <= i < |alerts| && alerts[i] == a;
      var k := KeyOf(Seen(alerts)[id]);
      assert k in sorted;
      var j :| 0 <= j < |sorted| && sorted[j] == k;
      assert Canonical(alerts)[j].id == id;
    }
    if a :| a in Canonical(alerts) && a.id == id {
      var i :| 0 <= i < |sorted| && Canonical(alerts)[i] == a;
      assert sorted[i] in sorted;
      assert a in alerts;
    }
  }

  /** Alerts of one rule carry its type in their ids. */
  ghost predicate OfType(digest: string -> string, kind: AlertType, a: Alert) {
    exists window, version, es :: a.id == AlertId(digest, kind, window, version, es)
  }

  lemma RuleIds(db: Database, auth: Auth, cfg: Config, kind: AlertType, a: Alert)
    requires Rule(db, auth, cfg, kind).Ok? && a in Rule(db, auth, cfg, kind).value
    ensures OfType(cfg.digest, kind, a)
  {
    hide SlaOf, AlertId, FaultyOrders, ActiveIssues, OpenTickets, Candidates, Matching, Carriers, OfCarrier, FlatMap, Filter;
    match kind
    case SlaBreach =>
      FlatMapMember((t: Ticket) => BreachAlerts(cfg, t, SlaOf(db, auth, cfg, t)), OpenTickets(db, auth), a);
    case SlaApproaching =>
      FlatMapMember((t: Ticket) => ApproachAlerts(cfg, t, SlaOf(db, auth, cfg, t)), OpenTickets(db, auth), a);
    case RecurringIssue =>
    case KnownIssuePattern =>
      FlatMapMember(
        (i: Issue) => KnownIssueAlerts(db.chunks, cfg, i, Matching(cfg, i, Candidates(db, auth, cfg))),
        ActiveIssues(db, cfg), a);
    case CarrierPattern =>
      var os := FaultyOrders(db, auth, cfg);
      FlatMapMember((carrier: string) => CarrierAlerts(cfg, carrier, OfCarrier(carrier, os)), Carriers(os), a);
    case OverduePickup =>
      FlatMapMember((o: Records.Order) => OverdueAlerts(cfg, o), Repository.Orders(db, auth, Some(Booked)), a);
  }

  lemma TypesNeverCollide(digest: string -> string, k: AlertType, l: AlertType, a: Alert, b: Alert)
    requires Injective(digest) && OfType(digest, k, a) && OfType(digest, l, b) && a.id == b.id
    ensures k == l
  {
    var w, v, es :| a.id == AlertId(digest, k, w, v, es);
    var w', v', es' :| b.id == AlertId(digest, l, w', v', es');
    assert a.id[6..] == digest(Key(k, w, v, es)) == digest(Key(l, w', v', es'));
    KeyTellsType(k, w, v, es, l, w', v', es');
  }

  /** What stays under an id comes from the one rule that can produce that id. */
  lemma {:induction false} SeenByRule(db: Database, auth: Auth, cfg: Config, kinds: seq<AlertType>,
                                      kind: AlertType, id: string)
    requires Injective(cfg.digest)
    requires kind in kinds && Rule(db, auth, cfg, kind).Ok? && id in Seen(Rule(db, auth, cfg, kind).value)
    ensures id in Seen(Gathered(db, auth, cfg, kinds))
    ensures Seen(Gathered(db, auth, cfg, kinds))[id] == Seen(Rule(db, auth, cfg, kind).value)[id]
  {
    var found := (k: AlertType) => Produced(Rule(db, auth, cfg, k));
    var head, rest := found(kinds[0]), Gathered(db, auth, cfg, kinds[1..]);
    SeenConcat(head, rest);
    assert Gathered(db, auth, cfg, kinds) == head + rest;
    SeenKeys(Rule(db, auth, cfg, kind).value);
    RuleIds(db, auth, cfg, kind, Seen(Rule(db, auth, cfg, kind).value)[id]);
    if kind in kinds[1..] {
      SeenByRule(db, auth, cfg, kinds[1..], kind, id);
    } else if id in Seen(rest) {
      SeenKeys(rest);
      var b := Seen(rest)[id];
      FlatMapMember(found, kinds[1..], b);
      var l :| l in kinds[1..] && b in found(l);
      RuleIds(db, auth, cfg, l, b);
      TypesNeverCollide(cfg.digest, kind, l, Seen(Rule(db, auth, cfg, kind).value)[id], b);
    }
  }

  lemma SeenSources(db: Database, auth: Auth, cfg: Config, kinds: seq<AlertType>, id: string)
    requires id in Seen(Gathered(db, auth, cfg, kinds))
    ensures exists k :: k in kinds && Rule(db, auth, cfg, k).Ok? && id in Seen(Rule(db, auth, cfg, k).value)
  {
    var found := (k: AlertType) => Produced(Rule(db, auth, cfg, k));
    SeenKeys(Gathered(db, auth, cfg, kinds));
    var a := Seen(Gathered(db, auth, cfg, kinds))[id];
    FlatMapMember(found, kinds, a);
    var k :| k in kinds && a in found(k);
    SeenKeys(Rule(db, auth, cfg, k).value);
  }

  lemma SameSeen(db: Database, auth: Auth, cfg: Config, kinds: seq<AlertType>, kinds': seq<AlertType>)
    requires Injective(cfg.digest) && forall k :: k in kinds <==> k in kinds'
    ensures Seen(Gathered(db, auth, cfg, kinds)) == Seen(Gathered(db, auth, cfg, kinds'))
  {
    var x, y := Seen(Gathered(db, auth, cfg, kinds)), Seen(Gathered(db, auth, cfg, kinds'));
    forall id ensures (id in x <==> id in y) && (id in x ==> x[id] == y[id]) {
      if id in x {
        SeenSources(db, auth, cfg, kinds, id);
      }
      if id in y {
        SeenSources(db, auth, cfg, kinds', id);
      }
      if k :| k in kinds && Rule(db, auth, cfg, k).Ok? && id in Seen(Rule(db, auth, cfg, k).value) {
        SeenByRule(db, auth, cfg, kinds, k, id);
        SeenByRule(db, auth, cfg, kinds', k, id);
      }
    }
  }

  lemma CanonicalBySeen(xs: seq<Alert>, ys: seq<Alert>)
    requires Seen(xs) == Seen(ys)
    ensures Canonical(xs) == Canonical(ys)
  {
    SortedKeysKnown(xs);
    SortedKeysKnown(ys);
    KeyLessStrictTotal();
    SortedUnique(KeyLess, SortDistinct(KeyLess, SortKeys(xs)), SortDistinct(KeyLess, SortKeys(ys)));
  }

  /** The result depends on nothing but the set of requested types: their order and their
      repetition change neither the alerts nor their order. */
  lemma OrderOfTypesIrrelevant(db: Database, auth: Auth, cfg: Config,
                               types: seq<AlertType>, types': seq<AlertType>)
    requires Injective(cfg.digest) && forall k :: k in types <==> k in types'
    ensures Radar(db, auth, cfg, Some(types)).Ok? <==> Radar(db, auth, cfg, Some(types')).Ok?
    ensures Radar(db, auth, cfg, Some(types)).Ok? ==>
              Radar(db, auth, cfg, Some(types)) == Radar(db, auth, cfg, Some(types'))
  {
    assert types == [] <==> types' == [] by {
      assert types != [] ==> types[0] in types';
      assert types' != [] ==> types'[0] in types;
    }
    var kinds, kinds' := Requested(Some(types)), Requested(Some(types'));
    SameSeen(db, auth, cfg, kinds, kinds');
    CanonicalBySeen(Gathered(db, auth, cfg, kinds), Gathered(db, auth, cfg, kinds'));
  }
}
