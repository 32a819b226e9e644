/** Rows of the database, the caller's authorization, and the exceptions the readers raise. */
module Records {
  import opened Prelude
  import opened Enums
  import opened Ordering
  import Text

  datatype Role = OperationsAdmin | SupportAgent | RestrictedSupport

  /** `accountScope == None` is an unrestricted caller. */
  datatype Auth = Auth(role: Role, accountScope: Option<seq<string>>) {
    predicate Allows(accountId: string) {
      accountScope.None? || accountId in accountScope.value
    }
  }

  datatype Account = Account(
    accountId: string, name: string, plan: string, status: string, csm: string,
    contractFile: Option<string>, premiumSupport: bool, notes: string)

  /** Instants are seconds, money is rupees. */
  datatype Order = Order(
    orderId: string, accountId: string, carrier: string, status: OrderStatus,
    bookedAt: int, pickupWindowStart: int, pickupWindowEnd: int, pickupActualAt: Option<int>,
    fee: real, carrierFault: bool, customerFault: bool, cancellationRequestedAt: Option<int>,
    notes: string)

  datatype Ticket = Ticket(
    ticketId: string, accountId: string, createdAt: int, status: TicketStatus,
    subject: string, description: string, channel: string, assignedTo: string,
    lastCustomerMessageAt: int, historicalResolution: Option<string>)

  /** An agreement or policy document; the term is in days, and open-ended without `expiry`. */
  datatype Source = Source(sourceId: string, effective: int, expiry: Option<int>)

  /** One first-response target, for a plan, for an account, or (by schema) for both. */
  datatype SlaTarget = SlaTarget(
    sourceId: string, plan: Option<string>, accountId: Option<string>, severity: Severity,
    text: string, minutes: Option<int>, is24x7: bool, businessCalendar: bool)

  datatype Chunk = Chunk(
    sourceId: string, page: string, section: string, productDoc: bool, current: bool, text: string)

  /** The tables. Orders and tickets are listed in primary-key order, which is the order
      every search asks for; accounts in the order a scan yields them. */
  datatype Database = Database(
    accounts: seq<Account>, orders: seq<Order>, tickets: seq<Ticket>,
    sources: seq<Source>, targets: seq<SlaTarget>, chunks: seq<Chunk>)

  predicate OrderBefore(x: Order, y: Order) {
    Text.Less(x.orderId, y.orderId)
  }

  predicate TicketBefore(x: Ticket, y: Ticket) {
    Text.Less(x.ticketId, y.ticketId)
  }

  /** Primary keys are keys. */
  ghost predicate ValidTables(db: Database) {
    && Sorted(OrderBefore, db.orders)
    && Sorted(TicketBefore, db.tickets)
    && forall i, j :: 0 <= i < j < |db.accounts| ==> db.accounts[i].accountId != db.accounts[j].accountId
  }

  /** The exceptions that reach the callers of the readers and the calculators. */
  datatype Exn =
    | NotAuthorizedError | UnknownEntityError | InvalidFilterError | ValueError | ValidationError
    | OtherError

  datatype EvidenceKind = Document | Structured

  datatype EvidenceRef = EvidenceRef(
    kind: EvidenceKind, sourceId: string, locator: Option<string>, note: Option<string>)

  datatype Conflict = Conflict(winner: string, loser: string, scope: string, review: bool)

  /** What every calculator returns. */
  datatype Decision<+T> = Decision(
    result: Option<T>, trust: TrustState, evidence: seq<EvidenceRef>, assumptions: seq<string>,
    conflicts: seq<Conflict>, review: bool)

  /** `datetime.date()` of an instant. */
  function DayOf(now: int): int {
    now / 86400
  }

  /** A day has 24 hours of 3600 seconds, before the epoch too. */
  lemma DayExactly(now: int)
    ensures 0 <= now - 24 * 3600 * DayOf(now) < 24 * 3600
  {
  }

  function CiteStructured(table: string, id: string, note: Option<string> := None): EvidenceRef {
    EvidenceRef(Structured, "SRC-07", Some(table + ":" + id), note)
  }

  /** The page a section really lives on, or page 1 when no chunk has it. */
  function CiteDocument(chunks: seq<Chunk>, sourceId: string, section: string,
                        note: Option<string> := None): EvidenceRef {
    var chunk := First((c: Chunk) => c.sourceId == sourceId && c.section == section, chunks);
    EvidenceRef(Document, sourceId,
      Some("p" + (if chunk.Some? then chunk.value.page else "1") + ":" + section), note)
  }

  /** A structured citation names the workbook and the row. */
  lemma CiteStructuredExactly(table: string, id: string, note: Option<string>)
    ensures CiteStructured(table, id, note) == EvidenceRef(Structured, "SRC-07", Some(table + [':'] + id), note)
  {
  }

  /** A document citation gives the page of the first chunk that has the section, or page 1. */
  lemma CiteDocumentExactly(chunks: seq<Chunk>, sourceId: string, section: string, note: Option<string>, i: nat)
    requires i <= |chunks|
    requires forall j :: 0 <= j < i ==> chunks[j].sourceId != sourceId || chunks[j].section != section
    requires i < |chunks| ==> chunks[i].sourceId == sourceId && chunks[i].section == section
    ensures CiteDocument(chunks, sourceId, section, note)
         == EvidenceRef(Document, sourceId,
                        Some("p" + (if i < |chunks| then chunks[i].page else "1") + ":" + section), note)
  {
    if i < |chunks| {
      FirstIs((c: Chunk) => c.sourceId == sourceId && c.section == section, chunks, i);
    }
  }
}
