/** `app/structured_data/repository.py`: the only readers of accounts, orders and tickets.
    Scope filtering happens in the query, before a row is returned. */
module Repository {
  import opened Prelude
  import opened Enums
  import opened Ordering
  import opened Records
  import Text

  /** An account out of scope is refused whether or not it exists. */
  function GetAccount(db: Database, id: string, auth: Auth): Result<Account, Exn> {
    if !auth.Allows(id) then Err(NotAuthorizedError)
    else
      var row := First((a: Account) => a.accountId == id, db.accounts);
      if row.None? then Err(UnknownEntityError) else Ok(row.value)
  }

  /** An order is looked up first and checked second. */
  function GetOrder(db: Database, id: string, auth: Auth): Result<Order, Exn> {
    var row := First((o: Order) => o.orderId == id, db.orders);
    if row.None? then Err(UnknownEntityError)
    else if !auth.Allows(row.value.accountId) then Err(NotAuthorizedError)
    else Ok(row.value)
  }

  function GetTicket(db: Database, id: string, auth: Auth): Result<Ticket, Exn> {
    var row := First((t: Ticket) => t.ticketId == id, db.tickets);
    if row.None? then Err(UnknownEntityError)
    else if !auth.Allows(row.value.accountId) then Err(NotAuthorizedError)
    else Ok(row.value)
  }

  /** One conjunct of a WHERE clause. */
  datatype Clause =
    | AccountIn(accountIds: seq<string>)
    | AccountIs(accountId: string)
    | OrderStatusIs(orderStatus: OrderStatus)
    | TicketStatusIs(ticketStatus: TicketStatus)
    | CarrierIs(carrier: string)

  predicate OrderMeets(o: Order, c: Clause) {
    match c
    case AccountIn(ids) => o.accountId in ids
    case AccountIs(id) => o.accountId == id
    case OrderStatusIs(status) => o.status == status
    case CarrierIs(carrier) => o.carrier == carrier
    case TicketStatusIs(_) => false
  }

  predicate OrderMatches(o: Order, clauses: seq<Clause>) {
    forall c :: c in clauses ==> OrderMeets(o, c)
  }

  predicate TicketMeets(t: Ticket, c: Clause) {
    match c
    case AccountIn(ids) => t.accountId in ids
    case AccountIs(id) => t.accountId == id
    case TicketStatusIs(status) => t.status == status
    case OrderStatusIs(_) => false
    case CarrierIs(_) => false
  }

  predicate TicketMatches(t: Ticket, clauses: seq<Clause>) {
    forall c :: c in clauses ==> TicketMeets(t, c)
  }

  /** What a search is for: the in-scope rows that meet every given condition. */
  predicate OrderWanted(auth: Auth, account: Option<string>, status: Option<OrderStatus>,
                        carrier: Option<string>, o: Order) {
    && auth.Allows(o.accountId)
    && (account.Some? ==> o.accountId == account.value)
    && (status.Some? ==> o.status == status.value)
    && (carrier.Some? ==> o.carrier == carrier.value)
  }

  predicate TicketWanted(auth: Auth, account: Option<string>, status: Option<TicketStatus>, t: Ticket) {
    && auth.Allows(t.accountId)
    && (account.Some? ==> t.accountId == account.value)
    && (status.Some? ==> t.status == status.value)
  }

  function WantedOrders(db: Database, auth: Auth, account: Option<string>, status: Option<OrderStatus>,
                        carrier: Option<string>): seq<Order> {
    Filter((o: Order) => OrderWanted(auth, account, status, carrier, o), db.orders)
  }

  function WantedTickets(db: Database, auth: Auth, account: Option<string>,
                         status: Option<TicketStatus>): seq<Ticket> {
    Filter((t: Ticket) => TicketWanted(auth, account, status, t), db.tickets)
  }

  function Orders(db: Database, auth: Auth, status: Option<OrderStatus>): seq<Order> {
    WantedOrders(db, auth, None, status, None)
  }

  function Tickets(db: Database, auth: Auth, status: Option<TicketStatus>): seq<Ticket> {
    WantedTickets(db, auth, None, status)
  }

  /** The dynamically built query returns exactly the wanted rows, in key order. */
  method SearchOrders(db: Database, auth: Auth, account: Option<string>, status: Option<OrderStatus>,
                      carrier: Option<string>) returns (r: Result<seq<Order>, Exn>)
    ensures r == if account.Some? && !auth.Allows(account.value) then Err(NotAuthorizedError)
                 else Ok(WantedOrders(db, auth, account, status, carrier))
  {
    if account.Some? && !auth.Allows(account.value) {
      return Err(NotAuthorizedError);
    }
    var clauses: seq<Clause> := [];
    if auth.accountScope.Some? {
      clauses := clauses + [AccountIn(auth.accountScope.value)];
    }
    if account.Some? {
      clauses := clauses + [AccountIs(account.value)];
    }
    if status.Some? {
      clauses := clauses + [OrderStatusIs(status.value)];
    }
    if carrier.Some? {
      clauses := clauses + [CarrierIs(carrier.value)];
    }
    var where := (o: Order) => OrderMatches(o, clauses);
    forall o: Order ensures OrderMatches(o, clauses) == OrderWanted(auth, account, status, carrier, o) {
      assert auth.accountScope.Some? ==> AccountIn(auth.accountScope.value) in clauses;
      assert account.Some? ==> AccountIs(account.value) in clauses;
      assert status.Some? ==> OrderStatusIs(status.value) in clauses;
      assert carrier.Some? ==> CarrierIs(carrier.value) in clauses;
    }
    FilterAgree(where, (o: Order) => OrderWanted(auth, account, status, carrier, o), db.orders);
    return Ok(Filter(where, db.orders));
  }

  method SearchTickets(db: Database, auth: Auth, account: Option<string>, status: Option<TicketStatus>)
    returns (r: Result<seq<Ticket>, Exn>)
    ensures r == if account.Some? && !auth.Allows(account.value) then Err(NotAuthorizedError)
                 else Ok(WantedTickets(db, auth, account, status))
  {
    if account.Some? && !auth.Allows(account.value) {
      return Err(NotAuthorizedError);
    }
    var clauses: seq<Clause> := [];
    if auth.accountScope.Some? {
      clauses := clauses + [AccountIn(auth.accountScope.value)];
    }
    if account.Some? {
      clauses := clauses + [AccountIs(account.value)];
    }
    if status.Some? {
      clauses := clauses + [TicketStatusIs(status.value)];
    }
    var where := (t: Ticket) => TicketMatches(t, clauses);
    forall t: Ticket ensures TicketMatches(t, clauses) == TicketWanted(auth, account, status, t) {
      assert auth.accountScope.Some? ==> AccountIn(auth.accountScope.value) in clauses;
      assert account.Some? ==> AccountIs(account.value) in clauses;
      assert status.Some? ==> TicketStatusIs(status.value) in clauses;
    }
    FilterAgree(where, (t: Ticket) => TicketWanted(auth, account, status, t), db.tickets);
    return Ok(Filter(where, db.tickets));
  }

  /** A lookup by id returns the row with that id if its account is in the caller's scope, refuses
      it if it is not, and knows nothing exactly when no row has the id. */
  lemma OrderLookupExactly(db: Database, id: string, auth: Auth)
    requires ValidTables(db)
    ensures forall o :: GetOrder(db, id, auth) == Ok(o) <==> o in db.orders && o.orderId == id && auth.Allows(o.accountId)
    ensures GetOrder(db, id, auth) == Err(NotAuthorizedError) <==>
              exists o :: o in db.orders && o.orderId == id && !auth.Allows(o.accountId)
    ensures GetOrder(db, id, auth) == Err(UnknownEntityError) <==> forall o :: o in db.orders ==> o.orderId != id
  {
    forall o | o in db.orders && o.orderId == id ensures First((x: Order) => x.orderId == id, db.orders) == Some(o) {
      OrderByKey(db.orders, o);
    }
  }

  lemma TicketLookupExactly(db: Database, id: string, auth: Auth)
    requires ValidTables(db)
    ensures forall t :: GetTicket(db, id, auth) == Ok(t) <==> t in db.tickets && t.ticketId == id && auth.Allows(t.accountId)
    ensures GetTicket(db, id, auth) == Err(NotAuthorizedError) <==>
              exists t :: t in db.tickets && t.ticketId == id && !auth.Allows(t.accountId)
    ensures GetTicket(db, id, auth) == Err(UnknownEntityError) <==> forall t :: t in db.tickets ==> t.ticketId != id
  {
    forall t | t in db.tickets && t.ticketId == id ensures First((x: Ticket) => x.ticketId == id, db.tickets) == Some(t) {
      TicketByKey(db.tickets, t);
    }
  }

  /** An account is refused by its id alone, before the table is read. */
  lemma AccountLookupExactly(db: Database, id: string, auth: Auth)
    requires ValidTables(db)
    ensures forall a :: GetAccount(db, id, auth) == Ok(a) <==> a in db.accounts && a.accountId == id && auth.Allows(id)
    ensures GetAccount(db, id, auth) == Err(NotAuthorizedError) <==> !auth.Allows(id)
    ensures GetAccount(db, id, auth) == Err(UnknownEntityError) <==>
              auth.Allows(id) && forall a :: a in db.accounts ==> a.accountId != id
  {
    var found := First((a: Account) => a.accountId == id, db.accounts);
    forall a | a in db.accounts && a.accountId == id ensures found == Some(a) {
      var i :| 0 <= i < |db.accounts| && db.accounts[i] == found.value;
      var j :| 0 <= j < |db.accounts| && db.accounts[j] == a;
    }
  }

  /** A search returns exactly the rows in scope that meet every given criterion, in key order. */
  lemma OrderSearchExactly(db: Database, auth: Auth, account: Option<string>, status: Option<OrderStatus>,
                           carrier: Option<string>)
    requires ValidTables(db)
    ensures Sorted(OrderBefore, WantedOrders(db, auth, account, status, carrier))
    ensures forall o :: o in WantedOrders(db, auth, account, status, carrier) <==>
              && o in db.orders && (auth.accountScope.None? || o.accountId in auth.accountScope.value)
              && (account == None || account == Some(o.accountId)) && (status == None || status == Some(o.status))
              && (carrier == None || carrier == Some(o.carrier))
  {
    var p := (o: Order) => OrderWanted(auth, account, status, carrier, o);
    FilterSorted(OrderBefore, p, db.orders);
    forall o ensures o in Filter(p, db.orders) <==> o in db.orders && p(o) {
      FilterMember(p, db.orders, o);
    }
  }

  lemma TicketSearchExactly(db: Database, auth: Auth, account: Option<string>, status: Option<TicketStatus>)
    requires ValidTables(db)
    ensures Sorted(TicketBefore, WantedTickets(db, auth, account, status))
    ensures forall t :: t in WantedTickets(db, auth, account, status) <==>
              && t in db.tickets && (auth.accountScope.None? || t.accountId in auth.accountScope.value)
              && (account == None || account == Some(t.accountId)) && (status == None || status == Some(t.status))
  {
    var p := (t: Ticket) => TicketWanted(auth, account, status, t);
    FilterSorted(TicketBefore, p, db.tickets);
    forall t ensures t in Filter(p, db.tickets) <==> t in db.tickets && p(t) {
      FilterMember(p, db.tickets, t);
    }
  }

  /** Two databases with the same in-scope rows; nothing is said about the others. Policy and
      document tables are the same. */
  ghost predicate AgreeInScope(db: Database, db': Database, auth: Auth) {
    && (forall o: Order :: auth.Allows(o.accountId) ==> (o in db.orders <==> o in db'.orders))
    && (forall t: Ticket :: auth.Allows(t.accountId) ==> (t in db.tickets <==> t in db'.tickets))
    && Filter((a: Account) => auth.Allows(a.accountId), db.accounts)
       == Filter((a: Account) => auth.Allows(a.accountId), db'.accounts)
    && db.sources == db'.sources && db.targets == db'.targets && db.chunks == db'.chunks
  }

  /** Rows in key order with the same members are the same rows. Keys order rows strictly
      only within a table, so this follows the two tables rather than a total order. */
  lemma {:induction false} SameOrders(xs: seq<Order>, ys: seq<Order>)
    requires Sorted(OrderBefore, xs) && Sorted(OrderBefore, ys)
    requires forall o :: o in xs <==> o in ys
    ensures xs == ys
  {
    assert xs != [] ==> xs[0] in xs;
    assert ys != [] ==> ys[0] in ys;
    Text.LessStrictTotal();
    if xs != [] {
      assert xs[0] == ys[0];
      forall o ensures o in xs[1..] <==> o in ys[1..] {
        assert o in xs <==> o == xs[0] || o in xs[1..];
        assert o in ys <==> o == ys[0] || o in ys[1..];
      }
      SameOrders(xs[1..], ys[1..]);
    }
  }

  lemma {:induction false} SameTickets(xs: seq<Ticket>, ys: seq<Ticket>)
    requires Sorted(TicketBefore, xs) && Sorted(TicketBefore, ys)
    requires forall t :: t in xs <==> t in ys
    ensures xs == ys
  {
    assert xs != [] ==> xs[0] in xs;
    assert ys != [] ==> ys[0] in ys;
    Text.LessStrictTotal();
    if xs != [] {
      assert xs[0] == ys[0];
      forall t ensures t in xs[1..] <==> t in ys[1..] {
        assert t in xs <==> t == xs[0] || t in xs[1..];
        assert t in ys <==> t == ys[0] || t in ys[1..];
      }
      SameTickets(xs[1..], ys[1..]);
    }
  }

  /** Out-of-scope rows are invisible to every scoped search, whatever else it asks for. */
  lemma SearchesIgnoreOutOfScope(db: Database, db': Database, auth: Auth, account: Option<string>,
                                 orderStatus: Option<OrderStatus>, ticketStatus: Option<TicketStatus>,
                                 carrier: Option<string>)
    requires ValidTables(db) && ValidTables(db') && AgreeInScope(db, db', auth)
    ensures WantedOrders(db, auth, account, orderStatus, carrier)
         == WantedOrders(db', auth, account, orderStatus, carrier)
    ensures WantedTickets(db, auth, account, ticketStatus) == WantedTickets(db', auth, account, ticketStatus)
  {
    var p := (o: Order) => OrderWanted(auth, account, orderStatus, carrier, o);
    var q := (t: Ticket) => TicketWanted(auth, account, ticketStatus, t);
    FilterSorted(OrderBefore, p, db.orders);
    FilterSorted(OrderBefore, p, db'.orders);
    FilterSorted(TicketBefore, q, db.tickets);
    FilterSorted(TicketBefore, q, db'.tickets);
    forall o ensures o in Filter(p, db.orders) <==> o in Filter(p, db'.orders) {
      FilterMember(p, db.orders, o);
      FilterMember(p, db'.orders, o);
    }
    forall t ensures t in Filter(q, db.tickets) <==> t in Filter(q, db'.tickets) {
      FilterMember(q, db.tickets, t);
      FilterMember(q, db'.tickets, t);
    }
    SameOrders(Filter(p, db.orders), Filter(p, db'.orders));
    SameTickets(Filter(q, db.tickets), Filter(q, db'.tickets));
  }

  /** A key finds its own row. */
  lemma {:induction false} TicketByKey(tickets: seq<Ticket>, t: Ticket)
    requires Sorted(TicketBefore, tickets) && t in tickets
    ensures First((x: Ticket) => x.ticketId == t.ticketId, tickets) == Some(t)
  {
    Text.LessStrictTotal();
    if tickets[0] != t {
      TicketByKey(tickets[1..], t);
    }
  }

  lemma {:induction false} OrderByKey(orders: seq<Order>, o: Order)
    requires Sorted(OrderBefore, orders) && o in orders
    ensures First((x: Order) => x.orderId == o.orderId, orders) == Some(o)
  {
    Text.LessStrictTotal();
    if orders[0] != o {
      OrderByKey(orders[1..], o);
    }
  }

  lemma GetAccountIgnoresOutOfScope(db: Database, db': Database, auth: Auth, id: string)
    requires AgreeInScope(db, db', auth)
    ensures GetAccount(db, id, auth) == GetAccount(db', id, auth)
  {
    if auth.Allows(id) {
      var p, q := (a: Account) => a.accountId == id, (a: Account) => auth.Allows(a.accountId);
      FirstOfFilter(p, q, db.accounts);
      FirstOfFilter(p, q, db'.accounts);
    }
  }
}
