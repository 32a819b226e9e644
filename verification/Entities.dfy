/** `app/agent/entities.py`: which orders, tickets and accounts a question is about. */
module Entities {
  import opened Prelude
  import opened Enums
  import opened Records
  import opened Repository
  import opened Ordering
  import Text

  /** A question as the regular expressions see it: the id-shaped tokens in order of mention,
      and which keyword groups occur. */
  datatype Question = Question(
    text: string, tokens: seq<string>, blank: bool,
    cancellation: bool, credit: bool, sla: bool, severity: bool, knownIssue: bool,
    instance: bool, aggregate: bool, words: set<string>)

  datatype Resolution = Resolution(
    orderIds: seq<string>, ticketIds: seq<string>, accountIds: seq<string>,
    ambiguous: seq<string>, unresolved: seq<string>)

  datatype Bucket = AnOrder | ATicket | AnAccount | Unresolved

  const CHECKERS := [AnOrder, ATicket, AnAccount]

  /** One verification attempt: found, not there, or there but not visible. */
  function Check(db: Database, auth: Auth, kind: Bucket, id: string): Result<(), Exn> {
    match kind
    case AnOrder => (var r := GetOrder(db, id, auth); if r.Ok? then Ok(()) else Err(r.error))
    case ATicket => (var r := GetTicket(db, id, auth); if r.Ok? then Ok(()) else Err(r.error))
    case AnAccount => (var r := GetAccount(db, id, auth); if r.Ok? then Ok(()) else Err(r.error))
    case Unresolved => Err(UnknownEntityError)
  }

  /** The first table that knows the id decides; a row that is not visible ends the search. */
  function Classify(db: Database, auth: Auth, id: string): Bucket {
    if GetOrder(db, id, auth).Ok? then AnOrder
    else if GetOrder(db, id, auth) == Err(NotAuthorizedError) then Unresolved
    else if GetTicket(db, id, auth).Ok? then ATicket
    else if GetTicket(db, id, auth) == Err(NotAuthorizedError) then Unresolved
    else if GetAccount(db, id, auth).Ok? then AnAccount
    else Unresolved
  }

  function Self(id: string): string {
    id
  }

  /** The distinct upper-cased tokens in order of first mention. */
  function Mentioned(q: Question): seq<string> {
    DedupBy(Self, Map(Text.Upper, q.tokens))
  }

  function InBucket(db: Database, auth: Auth, b: Bucket, ids: seq<string>): seq<string> {
    Filter((id: string) => Classify(db, auth, id) == b, ids)
  }

  /** The full name occurs in the question, is specific enough, and the account is visible. */
  predicate NameMatches(q: Question, auth: Auth, a: Account) {
    |a.name| >= 4 && Text.Contains(Text.Lower(q.text), Text.Lower(a.name)) && auth.Allows(a.accountId)
  }

  function NamedAccounts(db: Database, auth: Auth, q: Question): seq<string> {
    Map((a: Account) => a.accountId, Filter((a: Account) => NameMatches(q, auth, a), db.accounts))
  }

  function Explicit(db: Database, auth: Auth, ids: seq<string>): Resolution {
    Resolution(InBucket(db, auth, AnOrder, ids), InBucket(db, auth, ATicket, ids),
               InBucket(db, auth, AnAccount, ids), [], InBucket(db, auth, Unresolved, ids))
  }

  /** Names are consulted only when no explicit id resolved. */
  function WithNames(r: Resolution, named: seq<string>): Resolution {
    if r.orderIds != [] || r.ticketIds != [] || r.accountIds != [] then r
    else if |named| == 1 then r.(accountIds := named)
    else if |named| > 1 then r.(ambiguous := named)
    else r
  }

  function Resolve(db: Database, auth: Auth, q: Question): Resolution {
    WithNames(Explicit(db, auth, Mentioned(q)), NamedAccounts(db, auth, q))
  }

  method ClassifyToken(db: Database, auth: Auth, id: string) returns (b: Bucket)
    ensures b == Classify(db, auth, id)
  {
    for k := 0 to |CHECKERS|
      invariant forall j :: 0 <= j < k ==> Check(db, auth, CHECKERS[j], id) == Err(UnknownEntityError)
    {
      var found := Check(db, auth, CHECKERS[k], id);
      if found == Err(UnknownEntityError) {
        continue;
      }
      if found.Err? {
        assert k == 0 ==> GetOrder(db, id, auth) == Err(NotAuthorizedError);
        assert k == 2 ==> Check(db, auth, CHECKERS[0], id).Err? && Check(db, auth, CHECKERS[1], id).Err?;
        assert Check(db, auth, CHECKERS[0], id).Err?;
        return Unresolved;
      }
      assert k > 0 ==> Check(db, auth, CHECKERS[0], id).Err?;
      assert k > 1 ==> Check(db, auth, CHECKERS[1], id).Err?;
      return CHECKERS[k];
    }
    assert Check(db, auth, CHECKERS[0], id).Err? && Check(db, auth, CHECKERS[1], id).Err?
        && Check(db, auth, CHECKERS[2], id).Err?;
    return Unresolved;
  }

  lemma MentionStep(xs: seq<string>, i: nat)
    requires i < |xs|
    ensures DedupBy(Self, xs[..i + 1]) ==
            if xs[i] in DedupBy(Self, xs[..i]) then DedupBy(Self, xs[..i])
            else DedupBy(Self, xs[..i]) + [xs[i]]
  {
    assert xs[..i + 1][..i] == xs[..i];
    assert Map(Self, DedupBy(Self, xs[..i])) == DedupBy(Self, xs[..i]);
  }

  lemma ExplicitStep(db: Database, auth: Auth, ids: seq<string>, id: string)
    ensures var b, r, r' := Classify(db, auth, id), Explicit(db, auth, ids), Explicit(db, auth, ids + [id]);
            r' == match b
                  case AnOrder => r.(orderIds := r.orderIds + [id])
                  case ATicket => r.(ticketIds := r.ticketIds + [id])
                  case AnAccount => r.(accountIds := r.accountIds + [id])
                  case Unresolved => r.(unresolved := r.unresolved + [id])
  {
    hide Classify, Filter;
    forall b ensures InBucket(db, auth, b, ids + [id]) ==
                       if Classify(db, auth, id) == b then InBucket(db, auth, b, ids) + [id]
                       else InBucket(db, auth, b, ids)
    {
      FilterStep((x: string) => Classify(db, auth, x) == b, ids + [id], |ids|);
      assert (ids + [id])[..|ids|] == ids && (ids + [id])[..|ids| + 1] == ids + [id];
    }
  }

  /** The nested loops with their `seen` set and their buckets. */
  method ResolveEntities(db: Database, auth: Auth, q: Question) returns (r: Resolution)
    ensures r == Resolve(db, auth, q)
  {
    var ids := Map(Text.Upper, q.tokens);
    var seen: seq<string> := [];
    r := Resolution([], [], [], [], []);
    for i := 0 to |ids|
      invariant seen == DedupBy(Self, ids[..i])
      invariant r == Explicit(db, auth, seen)
    {
      MentionStep(ids, i);
      var id := ids[i];
      if id in seen {
        continue;
      }
      ExplicitStep(db, auth, seen, id);
      seen := seen + [id];
      var b := ClassifyToken(db, auth, id);
      match b {
        case AnOrder => r := r.(orderIds := r.orderIds + [id]);
        case ATicket => r := r.(ticketIds := r.ticketIds + [id]);
        case AnAccount => r := r.(accountIds := r.accountIds + [id]);
        case Unresolved => r := r.(unresolved := r.unresolved + [id]);
      }
    }
    assert ids[..|ids|] == ids;
    if r.orderIds == [] && r.ticketIds == [] && r.accountIds == [] {
      var named := MatchAccountNames(db, auth, q);
      if |named| == 1 {
        r := r.(accountIds := [named[0]]);
        assert [named[0]] == named;
      } else if |named| > 1 {
        r := r.(ambiguous := named);
      }
    }
  }

  method MatchAccountNames(db: Database, auth: Auth, q: Question) returns (matches: seq<string>)
    ensures matches == NamedAccounts(db, auth, q)
  {
    var lowered := Text.Lower(q.text);
    ghost var named := (a: Account) => NameMatches(q, auth, a);
    ghost var idOf := (a: Account) => a.accountId;
    matches := [];
    for i := 0 to |db.accounts|
      invariant matches == Map(idOf, Filter(named, db.accounts[..i]))
    {
      var a := db.accounts[i];
      FilterStep(named, db.accounts, i);
      MapStep(idOf, Filter(named, db.accounts[..i]), a);
      if |a.name| >= 4 && Text.Contains(lowered, Text.Lower(a.name)) && auth.Allows(a.accountId) {
        matches := matches + [a.accountId];
      }
    }
    assert db.accounts[..|db.accounts|] == db.accounts;
  }

  predicate OneOf(a: bool, b: bool, c: bool, d: bool) {
    (if a then 1 else 0) + (if b then 1 else 0) + (if c then 1 else 0) + (if d then 1 else 0) == 1
  }

  /** Every distinct token lands in exactly one list, and each list keeps the order of first
      mention without repeats. */
  lemma ExactlyOneBucket(db: Database, auth: Auth, q: Question, id: string)
    ensures var r := Explicit(db, auth, Mentioned(q));
            && (id in Map(Text.Upper, q.tokens) ==>
                  OneOf(id in r.orderIds, id in r.ticketIds, id in r.accountIds, id in r.unresolved))
            && (id in r.orderIds || id in r.ticketIds || id in r.accountIds || id in r.unresolved ==>
                  id in Map(Text.Upper, q.tokens))
    ensures Distinct(Mentioned(q))
    ensures forall i, j :: 0 <= i < j < |Mentioned(q)| ==>
              FirstIndex(Self, Map(Text.Upper, q.tokens), Mentioned(q)[i])
              < FirstIndex(Self, Map(Text.Upper, q.tokens), Mentioned(q)[j])
  {
    var ids, all := Mentioned(q), Map(Text.Upper, q.tokens);
    DedupKeepsFirst(Self, all);
    DedupDistinct(Self, all);
    assert Map(Self, ids) == ids;
    assert Self(id) == id;
    forall b ensures id in InBucket(db, auth, b, ids) <==> id in ids && Classify(db, auth, id) == b {
      FilterMember((x: string) => Classify(db, auth, x) == b, ids, id);
    }
  }

  /** What an id names: an order in scope; else, if it names no order, a ticket in scope; else, if it
      names neither, an account in scope. */
  lemma ClassifyExactly(db: Database, auth: Auth, id: string)
    requires ValidTables(db)
    ensures var noOrder := forall o :: o in db.orders ==> o.orderId != id;
            var noTicket := forall t :: t in db.tickets ==> t.ticketId != id;
            && (Classify(db, auth, id) == AnOrder <==>
                  exists o :: o in db.orders && o.orderId == id && auth.Allows(o.accountId))
            && (Classify(db, auth, id) == ATicket <==>
                  noOrder && exists t :: t in db.tickets && t.ticketId == id && auth.Allows(t.accountId))
            && (Classify(db, auth, id) == AnAccount <==>
                  noOrder && noTicket && auth.Allows(id) && exists a :: a in db.accounts && a.accountId == id)
  {
    hide GetOrder, GetTicket, GetAccount;
    OrderLookupExactly(db, id, auth);
    TicketLookupExactly(db, id, auth);
    AccountLookupExactly(db, id, auth);
    var order, ticket, account := GetOrder(db, id, auth), GetTicket(db, id, auth), GetAccount(db, id, auth);
    LookupFailures(db, id, auth);
    assert order.Ok? ==> order == Ok(order.value);
    assert ticket.Ok? ==> ticket == Ok(ticket.value);
    assert account.Ok? ==> account == Ok(account.value);
  }

  lemma LookupFailures(db: Database, id: string, auth: Auth)
    ensures GetOrder(db, id, auth).Ok? || GetOrder(db, id, auth) in {Err(NotAuthorizedError), Err(UnknownEntityError)}
    ensures GetTicket(db, id, auth).Ok? || GetTicket(db, id, auth) in {Err(NotAuthorizedError), Err(UnknownEntityError)}
    ensures GetAccount(db, id, auth).Ok? || GetAccount(db, id, auth) in {Err(NotAuthorizedError), Err(UnknownEntityError)}
  {
  }

  /** The tokens that name this kind, in upper case, in the order of their first mention. */
  ghost predicate Lists(db: Database, auth: Auth, q: Question, kind: Bucket, ids: seq<string>) {
    var tokens := Map(Text.Upper, q.tokens);
    && (forall id :: id in ids <==> id in tokens && Classify(db, auth, id) == kind)
    && forall i, j :: 0 <= i < j < |ids| ==> FirstIndex(Self, tokens, ids[i]) < FirstIndex(Self, tokens, ids[j])
  }

  /** The resolution: every token goes where it is classified. Names of accounts are consulted only
      when no token named anything; one match resolves, several are ambiguous. */
  lemma ResolveExactly(db: Database, auth: Auth, q: Question)
    ensures var r, named := Resolve(db, auth, q), NamedAccounts(db, auth, q);
            && Lists(db, auth, q, AnOrder, r.orderIds) && Lists(db, auth, q, ATicket, r.ticketIds)
            && Lists(db, auth, q, Unresolved, r.unresolved)
            && if exists id :: id in Map(Text.Upper, q.tokens) && Classify(db, auth, id) != Unresolved
               then Lists(db, auth, q, AnAccount, r.accountIds) && r.ambiguous == []
               else && r.accountIds == (if |named| == 1 then named else [])
                    && r.ambiguous == (if |named| > 1 then named else [])
  {
    hide Classify, NamedAccounts, Mentioned;
    forall b ensures Lists(db, auth, q, b, InBucket(db, auth, b, Mentioned(q))) {
      BucketLists(db, auth, q, b);
    }
    var r := Explicit(db, auth, Mentioned(q));
    assert r.orderIds != [] ==> r.orderIds[0] in r.orderIds;
    assert r.ticketIds != [] ==> r.ticketIds[0] in r.ticketIds;
    assert r.accountIds != [] ==> r.accountIds[0] in r.accountIds;
    forall id | id in Map(Text.Upper, q.tokens) && Classify(db, auth, id) != Unresolved
      ensures id in r.orderIds || id in r.ticketIds || id in r.accountIds
    {
    }
  }

  lemma BucketLists(db: Database, auth: Auth, q: Question, b: Bucket)
    ensures Lists(db, auth, q, b, InBucket(db, auth, b, Mentioned(q)))
  {
    hide Classify, Mentioned, Text.Upper, FirstIndex, DedupBy;
    var ids, tokens := Mentioned(q), Map(Text.Upper, q.tokens);
    var isIt := (id: string) => Classify(db, auth, id) == b;
    var earlier := (x: string, y: string) => FirstIndex(Self, tokens, x) < FirstIndex(Self, tokens, y);
    MentionedInOrder(q);
    FilterSorted(earlier, isIt, ids);
    forall id ensures id in Filter(isIt, ids) <==> id in ids && isIt(id) {
      FilterMember(isIt, ids, id);
    }
  }

  lemma MentionedInOrder(q: Question)
    ensures var tokens := Map(Text.Upper, q.tokens);
            && (forall id :: id in tokens <==> id in Mentioned(q))
            && Sorted((x: string, y: string) => FirstIndex(Self, tokens, x) < FirstIndex(Self, tokens, y), Mentioned(q))
  {
    hide Text.Upper, FirstIndex, DedupBy;
    var ids, tokens := Mentioned(q), Map(Text.Upper, q.tokens);
    DedupKeepsFirst(Self, tokens);
    assert Map(Self, ids) == ids;
    forall id ensures id in tokens <==> id in ids {
      assert Self(id) == id;
    }
  }

  /** An account is named by a question when its whole name, of four letters or more, occurs in it
      in any case, and the account is in scope; matches come in table order. */
  lemma NamedExactly(db: Database, auth: Auth, q: Question)
    ensures NamedAccounts(db, auth, q) ==
              Map((a: Account) => a.accountId,
                  Filter((a: Account) => !(|a.name| < 4) && (auth.accountScope == None || auth.Allows(a.accountId))
                                         && Text.Contains(Text.Lower(q.text), Text.Lower(a.name)), db.accounts))
  {
    hide Text.Contains;
    FilterAgree((a: Account) => NameMatches(q, auth, a),
                (a: Account) => !(|a.name| < 4) && (auth.accountScope == None || auth.Allows(a.accountId))
                                && Text.Contains(Text.Lower(q.text), Text.Lower(a.name)), db.accounts);
  }

  /** Everything resolved is visible: no lookup of a resolved id is refused, nor fails. */
  lemma ResolvedIsVisible(db: Database, auth: Auth, q: Question)
    ensures var r := Resolve(db, auth, q);
            && (forall id :: id in r.orderIds ==> GetOrder(db, id, auth).Ok?)
            && (forall id :: id in r.ticketIds ==> GetTicket(db, id, auth).Ok?)
            && (forall id :: id in r.accountIds ==> GetAccount(db, id, auth).Ok?)
  {
    var ids, r := Mentioned(q), Resolve(db, auth, q);
    forall b, id | id in InBucket(db, auth, b, ids) ensures Classify(db, auth, id) == b {
      FilterMember((x: string) => Classify(db, auth, x) == b, ids, id);
    }
    forall id | id in NamedAccounts(db, auth, q) ensures GetAccount(db, id, auth).Ok? {
      var named := Filter((a: Account) => NameMatches(q, auth, a), db.accounts);
      var i :| 0 <= i < |named| && Map((a: Account) => a.accountId, named)[i] == id;
      assert named[i] in named;
      FilterMember((a: Account) => NameMatches(q, auth, a), db.accounts, named[i]);
    }
  }

  /** No id is in two tables. */
  ghost predicate DisjointKeys(db: Database) {
    && (forall o, t :: o in db.orders && t in db.tickets ==> o.orderId != t.ticketId)
    && (forall o, a :: o in db.orders && a in db.accounts ==> o.orderId != a.accountId)
    && (forall t, a :: t in db.tickets && a in db.accounts ==> t.ticketId != a.accountId)
  }

  /** With disjoint ids the name fallback keeps this so: in the final resolution, too, every
      distinct token is in exactly one list. */
  lemma ExactlyOneFinally(db: Database, auth: Auth, q: Question, id: string)
    requires DisjointKeys(db) && id in Map(Text.Upper, q.tokens)
    ensures var r := Resolve(db, auth, q);
            OneOf(id in r.orderIds, id in r.ticketIds, id in r.accountIds, id in r.unresolved)
  {
    hide Classify, DisjointKeys, Mentioned;
    ExactlyOneBucket(db, auth, q, id);
    var ids, named := Mentioned(q), Filter((a: Account) => NameMatches(q, auth, a), db.accounts);
    FilterMember((x: string) => Classify(db, auth, x) == Unresolved, ids, id);
    if id in NamedAccounts(db, auth, q) {
      var i :| 0 <= i < |named| && named[i].accountId == id;
      assert named[i] in named;
      FilterMember((a: Account) => NameMatches(q, auth, a), db.accounts, named[i]);
      NamedIsAccount(db, auth, id, named[i]);
    }
  }

  lemma NamedIsAccount(db: Database, auth: Auth, id: string, a: Account)
    requires DisjointKeys(db) && a in db.accounts && a.accountId == id && auth.Allows(id)
    ensures Classify(db, auth, id) == AnAccount
  {
  }

  /** The id names an order out of scope or, when it names no order, a ticket out of scope. */
  predicate Hidden(db: Database, auth: Auth, id: string) {
    || GetOrder(db, id, auth) == Err(NotAuthorizedError)
    || (GetOrder(db, id, auth).Err? && GetTicket(db, id, auth) == Err(NotAuthorizedError))
  }

  /** What the in-scope rows alone say about an id. */
  function VisibleKind(db: Database, auth: Auth, id: string): Bucket {
    if GetOrder(db, id, auth).Ok? then AnOrder
    else if GetTicket(db, id, auth).Ok? then ATicket
    else if GetAccount(db, id, auth).Ok? then AnAccount
    else Unresolved
  }

  lemma VisibleLookups(db: Database, db': Database, auth: Auth, id: string)
    requires ValidTables(db) && ValidTables(db') && AgreeInScope(db, db', auth)
    ensures GetOrder(db, id, auth).Ok? ==> GetOrder(db', id, auth) == GetOrder(db, id, auth)
    ensures GetTicket(db, id, auth).Ok? ==> GetTicket(db', id, auth) == GetTicket(db, id, auth)
  {
    if GetOrder(db, id, auth).Ok? {
      OrderByKey(db'.orders, GetOrder(db, id, auth).value);
    }
    if GetTicket(db, id, auth).Ok? {
      TicketByKey(db'.tickets, GetTicket(db, id, auth).value);
    }
  }

  /** Exactly when hidden rows cannot be told from a classification: for two databases with the
      same in-scope rows an id is classified alike if and only if it is hidden in both or in
      neither, or no in-scope row has it. */
  lemma ClassifiedAlikeExactlyWhen(db: Database, db': Database, auth: Auth, id: string)
    requires ValidTables(db) && ValidTables(db') && AgreeInScope(db, db', auth)
    ensures Classify(db, auth, id) == Classify(db', auth, id) <==>
              || Hidden(db, auth, id) == Hidden(db', auth, id)
              || VisibleKind(db, auth, id) == Unresolved
  {
    VisibleLookups(db, db', auth, id);
    VisibleLookups(db', db, auth, id);
    GetAccountIgnoresOutOfScope(db, db', auth, id);
  }

  lemma HiddenIsNowhereVisible(db: Database, auth: Auth, id: string)
    requires DisjointKeys(db) && Hidden(db, auth, id)
    ensures VisibleKind(db, auth, id) == Unresolved
  {
    var order := First((o: Order) => o.orderId == id, db.orders);
    var ticket := First((t: Ticket) => t.ticketId == id, db.tickets);
    var account := First((a: Account) => a.accountId == id, db.accounts);
    assert order.Some? ==> order.value in db.orders && order.value.orderId == id;
    assert ticket.Some? ==> ticket.value in db.tickets && ticket.value.ticketId == id;
    assert account.Some? ==> account.value in db.accounts && account.value.accountId == id;
  }

  lemma ClassifyIgnoresOutOfScope(db: Database, db': Database, auth: Auth, id: string)
    requires ValidTables(db) && ValidTables(db') && AgreeInScope(db, db', auth)
    requires DisjointKeys(db) && DisjointKeys(db')
    ensures Classify(db, auth, id) == Classify(db', auth, id)
  {
    ClassifiedAlikeExactlyWhen(db, db', auth, id);
    ClassifiedAlikeExactlyWhen(db', db, auth, id);
    if Hidden(db, auth, id) {
      HiddenIsNowhereVisible(db, auth, id);
    }
    if Hidden(db', auth, id) {
      HiddenIsNowhereVisible(db', auth, id);
    }
  }

  lemma NamesIgnoreOutOfScope(db: Database, db': Database, auth: Auth, q: Question)
    requires AgreeInScope(db, db', auth)
    ensures NamedAccounts(db, auth, q) == NamedAccounts(db', auth, q)
  {
    var visible := (a: Account) => auth.Allows(a.accountId);
    var named := (a: Account) => NameMatches(q, auth, a);
    FilterTwice(named, visible, named, db.accounts);
    FilterTwice(named, visible, named, db'.accounts);
  }

  /** With disjoint ids the resolution depends on in-scope rows only. */
  lemma ResolveIgnoresOutOfScope(db: Database, db': Database, auth: Auth, q: Question)
    requires ValidTables(db) && ValidTables(db') && AgreeInScope(db, db', auth)
    requires DisjointKeys(db) && DisjointKeys(db')
    ensures Resolve(db, auth, q) == Resolve(db', auth, q)
  {
    var ids := Mentioned(q);
    NamesIgnoreOutOfScope(db, db', auth, q);
    forall id ensures Classify(db, auth, id) == Classify(db', auth, id) {
      ClassifyIgnoresOutOfScope(db, db', auth, id);
    }
    SameBuckets(db, db', auth, ids);
  }

  lemma SameBuckets(db: Database, db': Database, auth: Auth, ids: seq<string>)
    requires forall id :: Classify(db, auth, id) == Classify(db', auth, id)
    ensures Explicit(db, auth, ids) == Explicit(db', auth, ids)
  {
    forall b ensures InBucket(db, auth, b, ids) == InBucket(db', auth, b, ids) {
      FilterAgree((id: string) => Classify(db, auth, id) == b,
                  (id: string) => Classify(db', auth, id) == b, ids);
    }
  }

  /** Without disjoint ids it does not: an out-of-scope order hides an in-scope ticket of the
      same id. */
  lemma SharedIdLeaks()
    ensures exists db, db', auth, id ::
              && ValidTables(db) && ValidTables(db') && AgreeInScope(db, db', auth)
              && Classify(db, auth, id) == Unresolved && Classify(db', auth, id) == ATicket
  {
    var t := Ticket("AB-1", "mine", 0, Open, "", "", "", "", 0, None);
    var o := Order("AB-1", "theirs", "", Booked, 0, 0, 0, None, 0.0, false, false, None, "");
    var auth := Auth(SupportAgent, Some(["mine"]));
    var db, db' := Database([], [o], [t], [], [], []), Database([], [], [t], [], [], []);
    assert AgreeInScope(db, db', auth);
    assert GetOrder(db, "AB-1", auth) == Err(NotAuthorizedError);
    assert GetTicket(db', "AB-1", auth) == Ok(t);
    assert Classify(db, auth, "AB-1") == Unresolved && Classify(db', auth, "AB-1") == ATicket;
  }
}
