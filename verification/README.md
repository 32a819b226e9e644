# Verification of the support agent

The system answers support questions for a logistics company, watches its tickets and orders for
patterns, and lets a person confirm an escalation before it is executed. This project models its
decision logic in Dafny and proves what the code is trusted for: that the escalation protocol is
safe under any interleaving, that no answer leaves the agent ungrounded, that no caller learns
anything from rows out of scope, and that the policy arithmetic, the retry loops and the document
splitters do what their callers rely on.

`dafny verify dfyconfig.toml` checks everything.

## How it is laid out

| part | modules |
|---|---|
| shared sequences, orders, text | `Prelude`, `Ordering`, `Text`, `TextLines`, `Cuts`, `Enums`, `Records` |
| escalation protocol | `ActionRecords`, `ActionStore`, `ActionProtocol`, `ActionLinearizability`, `ActionSafety` |
| tables and policy | `Repository`, `Applicability`, `Trust`, `Cancellation`, `ServiceCredit`, `SeverityVote`, `Sla` |
| Operations Radar | `Fingerprint`, `RadarRules`, `KnownIssues`, `RadarService`, `RadarExact`, `RadarLaws`, `RadarAlerts`, `RadarScope`, `RadarClash` |
| bounded agent run | `Entities`, `Planner`, `Tools`, `Citations`, `EvidencePack`, `Orchestrator`, `AgentExact`, `AgentLaws`, `AgentTrust`, `AgentScope`, `CostLaws`, `SampleRun` |
| model gateway | `ProviderRetry`, `Gateway` |
| documents | `Sections`, `Pages`, `Durations`, `SlaTable`, `GridUse` |

Code that updates state is modelled by methods with the program's loops and early exits, and each
is proved equal to a specification function; the lemmas are about those functions. The actions
table is a class whose methods may be interrupted between any two statements by arbitrary other
callers (`ActionStore`), and, separately, a step machine over every schedule of every set of calls
(`ActionProtocol`). Instants are integers, money and ratios are reals.

## Where the code and its own words differ

- The overdue rule is described as reporting orders without a cancellation, and never looks at
  one. It keeps to its description exactly when no late order has a cancellation requested
  (`RadarLaws.OverdueDescriptionHoldsExactlyWhen`), and there are other inputs
  (`RadarLaws.CancelledOrderReported`).
- An SLA calculation stays CONFIDENT when the account's agreement is out of term and review is
  needed; the other two calculators escalate there. It does so exactly when the governing target is
  a clock target (`Sla.OutOfTermStaysConfident`, with an input in `Sla.ConfidentOutOfTerm`).
- A comment in the orchestrator takes a tie between severities for escalated. A tie gives UNCERTAIN,
  and an answered run with a tie is escalated exactly when another calculation of it needs a human
  (`AgentTrust.TieEscalatesExactlyWhen`, with a complete run in `SampleRun.TiedRunCompletes`).
- The cost budget is checked before the first model call and not before the repair, so runs keep it
  exactly when no repair is possible or two calls fit (`CostLaws.CostKeptExactlyWhen`);
  `SampleRun.RunOverspends` is a run that does not.
- A model without a configured price is let through that check, so a run may exceed any budget
  (`CostLaws.UnpricedNeverKept`); a provider that prices its own answers loses the paid one to an
  exception (`ProviderRetry.UnpricedAnswerRaises`, `Gateway.UnpricedCandidateEndsRun`).
- `fallback_used` is false when a fallback fails permanently, however many candidates were tried
  (`Gateway.FallbackFlagExactly`, `Gateway.FallbackFlagMisleads`).
- The grid parser accepts cells that are neither a clock time nor business time, and the SLA
  calculation raises on them. It never does so on a grid's targets exactly when every cell says a
  time (`GridUse.GridNeverFailsExactlyWhen`, with a text in `GridUse.AcceptedGridFails`).
- An account's own target row is said to win always. It does, in every order of the rows, exactly
  when no matching row names the plan together with another account (`Sla.OwnRowWins`,
  `Sla.ForeignRowWins`).
- When an id names rows in two tables, a row out of scope can hide one in scope
  (`Entities.SharedIdLeaks`); `Entities.ClassifiedAlikeExactlyWhen` says exactly when.
- Deduplication is meant for overlapping runs. Two different known issues can have one fingerprint
  when tickets are named like them, and then it drops one of the two
  (`RadarClash.WideningDropsAggregate`). Under plain ids without such tickets a wider scope loses no
  aggregate (`RadarScope.RadarWideningLaw`).
- An empty list of alert types runs every rule, like no list at all (`RadarService.RunOperationsRadar`).

## Model

| member | source | states |
|---|---|---|
| `ActionRecords.AtomicEvolves` | app/actions/workflow.py:128-262 | a whole call at one instant moves its row strictly forward or leaves it, and never touches another row |
| `ActionRecords.ExecuteIdempotent` | app/actions/workflow.py:224-240 | a second execute, at any later time, changes nothing and returns the first one's record |
| `ActionRecords.PrepareSucceedsExactlyWhen` | app/actions/workflow.py:69-125 | both directions: a prepare succeeds exactly for a visible open ticket that is classified and P1 or past its deadline, under a fresh id; and the fields of the one row it adds |
| `ActionRecords.PrepareRefusedExactlyWhen` | app/actions/workflow.py:69-103 | which refusal a prepare ends with, on its inputs, and that nothing changes |
| `ActionRecords.ConfirmSucceedsExactlyWhen` | app/actions/workflow.py:143-209 | both directions: confirmation succeeds exactly for a pending row within its window, by its preparer, with its digest, on an unchanged visible ticket; and then changes status and instant and nothing else |
| `ActionRecords.ConfirmRefusedExactlyWhen` | app/actions/workflow.py:143-200 | which refusal a confirm ends with, on its inputs, and that only an expiry changes a row |
| `ActionRecords.ExecuteSucceedsExactlyWhen` | app/actions/workflow.py:234-262 | an execute succeeds exactly on a confirmed or executed row, and what it returns and changes in each case |
| `ActionRecords.LateConfirmExpires` | app/actions/workflow.py:158-178 | after the window any caller's confirm, with any digest, expires the row, and no later confirm succeeds |
| `ActionStore.Store.InsertAction` | app/actions/store.py:45-62 | adds exactly the new row, or changes nothing on a duplicate key |
| `ActionStore.Store.SaveActionIfStatus` | app/actions/store.py:65-95 | true exactly when the row had the expected status; then only the four transition columns change |
| `ActionStore.Store.PrepareEscalation` | app/actions/workflow.py:69-125 | whatever other callers do between its statements, outcome and effect are those of the atomic call at one instant during the call |
| `ActionStore.Store.ConfirmAction` | app/actions/workflow.py:128-209 | the same for confirm, with its stale read, its compare-and-swap and its re-read |
| `ActionStore.Store.ExecuteAction` | app/actions/workflow.py:224-262 | the same for execute, including the call that lost the race |
| `ActionProtocol.CallStepSafe` | app/actions/workflow.py:128-262 | every single step of every call keeps the call's knowledge of the table true and moves rows only forward |
| `ActionProtocol.RunSafe` | app/actions/workflow.py:128-262 | every state reachable under any schedule satisfies the invariant, and over any stretch of a run rows only move forward |
| `ActionProtocol.NoAba` | app/actions/store.py:82-95 | in every reachable state, a copy whose status equals the row's equals the row in every field, so the status-only update loses nothing |
| `ActionProtocol.NoAbaAtTicketCheck` | app/actions/workflow.py:186-203 | the same for the copy a confirm holds while it looks at the ticket |
| `ActionProtocol.CallsFinish` | app/actions/workflow.py:69-262 | under any schedule a confirm is done after at most four statements of its own, a prepare or an execute after three, whatever other calls do |
| `ActionProtocol.FourthStatementNeeded` | app/actions/workflow.py:158-214 | the bound is met: a concrete confirm that lost its row after three statements and has yet to re-read |
| `ActionLinearizability.StepRefines` | app/actions/workflow.py:128-262 | a step of a call either settles nothing and leaves the table alone, or settles the call as the atomic call would on the table it finds |
| `ActionLinearizability.ReplayAgrees` | app/actions/workflow.py:76-262 | the sequential run of the atomic calls in the order of their points gives the interleaved run's table and outcomes |
| `ActionLinearizability.PointsWithinCalls` | app/actions/workflow.py:76-262 | every point lies between its call's invocation and its return, and no call has two |
| `ActionLinearizability.Linearizable` | app/actions/workflow.py:76-262 | for every schedule from any table some order of atomic calls, each within its call, gives the same final table and every returned outcome |
| `ActionLinearizability.RealTimeOrder` | app/actions/workflow.py:76-262 | a call that returned before another was invoked comes first in that order |
| `ActionSafety.AtMostOneConfirm` | app/actions/workflow.py:202-209 | of all confirm calls ever made on an action at most one succeeds |
| `ActionSafety.ExecuteNeverLies` | app/actions/workflow.py:239-262 | every successful execute, lost race or not, returned the row that is in the table and EXECUTED, so all return one record |
| `ActionSafety.RereadNeverMisses` | app/actions/workflow.py:212-214 | the assertions after a lost update never fail |
| `ActionSafety.ExpiredExcludesConfirmed` | app/actions/workflow.py:158-209 | no action is expired at one point of a run and confirmed or executed at another, in either order |
| `ActionSafety.OwnerNeverChanges` | app/api/routes/actions.py:58-63 | the owner, and the whole proposal, never change, so the check made before an execute cannot go stale |
| `ActionSafety.LeftForGood` | app/actions/store.py:65-95 | no transition happens twice, and after it the row stays beyond the status it left |
| `ActionSafety.TransitionsAtMostOnce` | app/actions/workflow.py:248-262 | no run makes the same transition of an action twice; in particular CONFIRMED to EXECUTED happens at most once |
| `ActionSafety.RunProvenance` | app/actions/workflow.py:76-262 | every row of any run from an empty table is owed to the prepare, confirm and execute calls its status implies, an EXPIRED one to a confirm past its window that returned it |
| `ActionSafety.RunHistory` | app/actions/workflow.py:76-262 | and those calls, the one that expired a row included, took effect in that order, each at an event of its own |
| `ActionSafety.ExecutedOnlyAfterConfirmation` | app/actions/workflow.py:76-262 | behind every EXECUTED row stand the effects, at ascending events, of a prepare that saw an open ticket, P1 or breached, of a confirm by the same user with the digest of that proposal within fifteen minutes, and of the execute whose clock reading it carries |
| `Repository.SearchOrders` | app/structured_data/repository.py:51-85 | the dynamically built filter returns exactly the orders in scope that meet every given criterion, in key order, or refuses an account out of scope |
| `Repository.SearchTickets` | app/structured_data/repository.py:88-118 | the same for tickets |
| `Repository.OrderSearchExactly` | app/structured_data/repository.py:63-85 | a row is found exactly when its account is in scope and it meets every given criterion |
| `Repository.TicketSearchExactly` | app/structured_data/repository.py:99-118 | the same for tickets |
| `Repository.OrderLookupExactly` | app/structured_data/repository.py:35-40 | a lookup gives the stored row in scope, refuses the one out of scope, and knows nothing exactly when no row has the id |
| `Repository.TicketLookupExactly` | app/structured_data/repository.py:43-48 | the same for tickets |
| `Repository.AccountLookupExactly` | app/structured_data/repository.py:26-32 | an account out of scope is refused whether or not it exists |
| `Records.CiteStructuredExactly` | app/domain/evidence.py:26-29 | the citation of a row names the workbook, the table and the id |
| `Records.CiteDocumentExactly` | app/domain/evidence.py:13-23 | the citation of a section gives the page of the first chunk that has it, or page 1 |
| `Records.DayExactly` | app/domain/cancellation.py:153-153 | the day of an instant |
| `Repository.SearchesIgnoreOutOfScope` | app/structured_data/repository.py:51-118 | two databases with the same in-scope rows give a caller the same rows for every search, whatever account, status and carrier it asks for |
| `Repository.GetAccountIgnoresOutOfScope` | app/structured_data/repository.py:26-32 | an account lookup does not depend on accounts out of scope |
| `Applicability.WinnerOverTime` | app/policy/applicability.py:114-168 | for a closed registry: default before and after an agreement's term, the agreement within it, review flagged exactly outside the term, and one conflict, naming agreement, default and account, exactly while an agreement in force displaces the default |
| `Applicability.GovernsExactly` | app/policy/applicability.py:114-168 | which clause governs, when a review is needed, and which conflict is reported, on any registry that resolves |
| `Applicability.ResolvesExactlyWhen` | app/policy/applicability.py:114-142 | exactly when a clause resolves at all, and with which exception it fails |
| `Applicability.OverrideExactly` | app/policy/applicability.py:115-117 | the override that counts is the first of the account and topic |
| `Applicability.ShippedOverrides` | app/policy/applicability.py:46-86 | which override and which default the shipped registry has for every account and topic |
| `Applicability.OtherOverridesIrrelevant` | app/policy/applicability.py:115-117 | overrides of other accounts and topics do not matter |
| `Trust.WorstIsWorst` | app/agent/trust_gate.py:31-32 | the gate picks a state that occurs and that none exceeds |
| `Trust.GateIgnoresOrder` | app/agent/trust_gate.py:27-36 | order and repetition of the calculations do not matter |
| `Trust.GateExactly` | app/agent/trust_gate.py:27-36 | all four states in both directions: ESCALATE exactly when it occurs, UNCERTAIN when it occurs without that or there is nothing, CONFIDENT for a non-empty all-confident list, CONDITIONAL otherwise |
| `Cancellation.AgreementsReachOnlyRequestedBookings` | app/domain/cancellation.py:98-151 | agreements change nothing about delivered, picked up, draft or unrequested orders |
| `Cancellation.EscalatesExactlyWhenOutOfTerm` | app/domain/cancellation.py:171-192 | ESCALATE exactly for a requested booking whose agreement is out of term |
| `Cancellation.DecisionExactly` | app/domain/cancellation.py:98-192 | decision, governing clause, fee under any rules, minutes, citations and conflict of every order |
| `Cancellation.FailsExactlyWhen` | app/domain/cancellation.py:93-157 | exactly when there is no decision, and with which exception |
| `Cancellation.ShippedFee` | app/domain/cancellation.py:72-77 | under the shipped rules the fee is 250 exactly for a booking cancelled after more than 30 minutes without a waiver in force, and 0 otherwise |
| `Cancellation.FeeMonotone` | app/domain/cancellation.py:60-69 | waiting longer never lowers the fee |
| `Cancellation.IgnoresOtherOverrides` | app/domain/cancellation.py:152-158 | overrides for other accounts or topics change no result |
| `ServiceCredit.EscalatesExactlyWhen` | app/domain/service_credit.py:156-180 | ESCALATE exactly when the agreement is out of term or the credit exceeds the approval limit |
| `ServiceCredit.DecisionExactly` | app/domain/service_credit.py:114-198 | governing clause, delay, credit under any rules, approval, assumption, citations and conflict of every order |
| `ServiceCredit.FailsExactlyWhen` | app/domain/service_credit.py:107-160 | exactly when there is no decision, and with which exception |
| `ServiceCredit.ShippedCredit` | app/domain/service_credit.py:86-93 | the shipped rules in closed form; with a non-negative fee the credit lies in [0, 500] and never needs manager approval |
| `ServiceCredit.CreditMonotone` | app/domain/service_credit.py:67-83 | for one rule, a longer delay never lowers what is owed |
| `ServiceCredit.CreditGrowsWhileAccruing` | app/domain/service_credit.py:136-154 | while a pickup is outstanding and the same clause wins, what is owed never drops as the snapshot advances |
| `ServiceCredit.IgnoresOtherOverrides` | app/domain/service_credit.py:149-157 | overrides for other accounts or topics change no result |
| `SeverityVote.ClassifySeverity` | app/domain/severity.py:85-143 | counting, stable ranking and the top-two comparison assign the plurality severity with the exact counts and its first matched definition, CONFIDENT exactly when one is assigned |
| `SeverityVote.AssignedExactlyWhenAhead` | app/domain/severity.py:96-134 | a severity is assigned exactly when it has strictly more signals than each other one |
| `SeverityVote.HitsExactly` | app/domain/severity.py:89-94 | the hits of a severity are the definitions of its patterns that match, in order |
| `SeverityVote.OutcomeExactly` | app/domain/severity.py:96-143 | one count for each severity, the severity ahead of every other one, and its first hit |
| `Sla.AccountRowWins` | app/domain/sla.py:50-70 | a target is found exactly when one matches, it matches, and it names no account only when no matching row does, whatever the row order |
| `Sla.OwnRowWins` | app/domain/sla.py:50-70 | an account with a row of its own gets it in every order of the rows, exactly when no matching row of its plan names another account |
| `Sla.ForeignRowWins` | app/domain/sla.py:50-70 | two concrete rows for which another account's row wins |
| `Sla.TrustExactly` | app/domain/sla.py:132-190 | breached exactly when the deadline is strictly past; CONFIDENT exactly for a clock target; never ESCALATE |
| `Sla.GoverningExactly` | app/domain/sla.py:65-102 | the governing row is one of the governing source, the severity, and the account or its plan; there is none exactly when no row matches |
| `Sla.DeadlineExactly` | app/domain/sla.py:96-190 | an outcome has the plurality severity and says what the governing row says: for a clock target deadline, breach, minutes past and CONFIDENT, for business time none of them; with its citations, its review flag and its conflict |
| `Sla.NoOutcomeExactly` | app/domain/sla.py:86-113 | there is no outcome exactly without a severity or a row, and what the decision says then |
| `Sla.EarlierFailures` | app/domain/sla.py:82-101 | what fails before a row is looked up fails the calculation |
| `Sla.OutOfTermStaysConfident` | app/domain/sla.py:177-190 | on the inputs: CONFIDENT exactly for a clock target, in or out of term; then flagged exactly when the agreement is out of term or a P1 deadline has passed |
| `Sla.ConfidentOutOfTerm` | app/domain/sla.py:154-190 | a concrete ticket whose result is CONFIDENT and flagged under an expired agreement |
| `Sla.IgnoresOtherOverrides` | app/domain/sla.py:98-101 | overrides for other accounts or topics change no result |
| `Sla.SecondLookupNotRefused` | app/domain/sla.py:83-84 | a ticket the caller may read never leads to an account lookup that is refused |
| `Sla.SameReadsSameSla` | app/domain/sla.py:82-102 | the calculation depends on nothing but the ticket, its account and the policy tables |
| `Sla.FailsExactlyWhenUnusable` | app/domain/sla.py:116-155 | on a readable ticket and account with a severity and a clause, the calculation raises exactly when the governing target has neither minutes nor business time |
| `Fingerprint.KeyEqualExactlyWhen` | app/detection/fingerprint.py:16-23 | for clean components, keys are equal exactly for equal type, window, version and entity set |
| `Fingerprint.KeyTellsType` | app/detection/fingerprint.py:19-21 | whatever the other fields contain, equal keys have equal types |
| `Fingerprint.IdEqualExactlyWhen` | app/detection/fingerprint.py:19-23 | under a digest without collisions two ids are equal exactly when the keys are |
| `RadarRules.DetectSlaBreaches` | app/detection/rules.py:102-163 | the loop yields, in ticket order, one alert for each open in-scope ticket that is past a clock deadline, or the first exception |
| `RadarRules.DetectSlaApproaching` | app/detection/rules.py:166-231 | the same for tickets within the warning share of their window |
| `RadarRules.DetectRecurringSeverity` | app/detection/rules.py:234-300 | the grouping loop yields the P1 and P2 aggregates of the recent open tickets, or the first exception |
| `RadarRules.DetectCarrierPatterns` | app/detection/rules.py:423-477 | the setdefault grouping yields one aggregate for each carrier in first-occurrence order |
| `RadarRules.DetectOverduePickups` | app/detection/rules.py:480-527 | one alert for each booked in-scope order past its window without a pickup |
| `RadarExact.BreachesExactly` | app/detection/rules.py:102-163 | a breach alert, with all its fields, exactly for an open ticket in scope whose deadline is settled for P1 or P2 and past |
| `RadarExact.ApproachingExactly` | app/detection/rules.py:166-231 | an approaching alert exactly when the deadline is not past and no more than the warning share of the window is left |
| `RadarExact.SlaRulesFailExactly` | app/detection/rules.py:116-119 | the two rules fail with the first calculation that fails, and otherwise run |
| `RadarExact.RecurringFailsExactly` | app/detection/rules.py:253-260 | the recurring rule runs exactly when every calculation within the window does |
| `RadarExact.OverdueAlertsExactly` | app/detection/rules.py:480-527 | an overdue alert, with all its fields, exactly for a booked order in scope without a pickup and past its window: HIGH exactly when the carrier is at fault |
| `RadarExact.RecurringSays` | app/detection/rules.py:272-300 | type, window, trust and citations of a recurring alert |
| `RadarExact.CarrierSays` | app/detection/rules.py:446-477 | the same of a carrier alert, which is MEDIUM |
| `RadarExact.KnownIssueSays` | app/detection/rules.py:380-419 | the same of a known-issue alert, which cites its document first |
| `RadarExact.SharesExactly` | app/detection/rules.py:372-376 | a ticket matches an issue when two significant words of its text are words of the piece |
| `KnownIssues.ParseKnownIssues` | app/detection/rules.py:303-331 | the nested loops cut every current product document at its mentions |
| `KnownIssues.SegmentsTile` | app/detection/rules.py:315-331 | the segments from any mention on concatenate to the rest of the text |
| `KnownIssues.SegmentHasOneMention` | app/detection/rules.py:315-331 | a segment starts with its own mention and has no other mention of the text in it |
| `KnownIssues.MentionExactly` | app/detection/rules.py:78-78 | a mention is "KI-" and a number, standing alone as a word |
| `KnownIssues.ParsedExactly` | app/detection/rules.py:303-331 | an issue is parsed exactly when a current product document mentions it, and it is judged resolved, and given its words, by the text from its mention to the next one |
| `KnownIssues.DetectKnownIssuePatterns` | app/detection/rules.py:334-420 | one aggregate for each unresolved issue over the recent in-scope tickets of any status |
| `RadarService.RunOperationsRadar` | app/detection/service.py:54-106 | dispatch, dictionary and sort give the canonical alert list of the requested types, or the first exception; restricted callers are refused |
| `RadarService.RadarSorted` | app/detection/service.py:90-106 | ids are unique and the list is sorted by severity, then id |
| `RadarExact.RadarOrder` | app/detection/service.py:40-43 | CRITICAL before HIGH before MEDIUM before LOW, and among equals the smaller id |
| `RadarExact.RadarRunsExactlyWhen` | app/detection/service.py:86-106 | a restricted caller is refused whatever is stored and asked for; any other gets a list exactly when every requested rule gives one, and otherwise the first failure |
| `RadarExact.RequestedExactly` | app/detection/service.py:89-89 | no types and the empty list request all six; any other list requests what it names |
| `RadarService.RadarKeepsEveryId` | app/detection/service.py:104-106 | an id is in the result exactly when some rule produced it |
| `RadarService.OrderOfTypesIrrelevant` | app/detection/service.py:89-106 | order and repetition of the requested types change neither alerts nor their order |
| `RadarService.GroupByAccount` | app/detection/service.py:109-118 | the dictionary of sets gives each account the sorted distinct ids of its alerts |
| `RadarService.GroupIsTranspose` | app/detection/service.py:109-118 | an id is listed under an account exactly when an alert with that id affects that account |
| `RadarLaws.RadarIgnoresOutOfScope` | app/detection/rules.py:102-527 | non-interference: whatever the out-of-scope rows are, a scoped caller gets the same alerts, counts, ids and order, or the same exception |
| `RadarLaws.PerRecordScopeLaw` | app/detection/rules.py:116-126 | breach, approaching and overdue alerts under a scope are the wider caller's alerts filtered to it, in order |
| `RadarLaws.RecurringCountsExactly` | app/detection/rules.py:253-300 | a recurring alert is about P1 or P2, and its count and records are exactly the open, in-scope tickets within the window whose severity that is beyond doubt |
| `RadarLaws.RecurringAlertedWhenever` | app/detection/rules.py:272-300 | a severity is alerted on whenever enough tickets recur with it |
| `RadarLaws.WideningKeepsRecurring` | app/detection/rules.py:253-272 | seeing more never removes a recurring alert nor lowers its count |
| `RadarLaws.NarrowRunsWhenWideRuns` | app/detection/rules.py:253-260 | a run that raises no exception for a wider caller raises none for a narrower one |
| `RadarLaws.CarrierAlertedExactlyWhen` | app/detection/rules.py:440-454 | for any threshold, a carrier is alerted on exactly when it has orders and reaches it, with the exact number |
| `RadarLaws.CarrierCountsExactly` | app/detection/rules.py:440-477 | a carrier alert's records are exactly the in-scope orders of that carrier, at fault and booked within the window |
| `RadarLaws.WideningKeepsCarriers` | app/detection/rules.py:440-454 | seeing more never removes a carrier alert nor lowers its count |
| `RadarLaws.KnownIssueCountsExactly` | app/detection/rules.py:366-381 | behind every known-issue alert stands an unresolved issue, and its records are exactly the recent in-scope tickets that share its vocabulary |
| `RadarLaws.KnownIssueAlertedWhenever` | app/detection/rules.py:366-381 | an unresolved issue is alerted on, with the exact number, whenever enough tickets match it |
| `RadarLaws.WideningKeepsKnownIssues` | app/detection/rules.py:366-381 | seeing more never removes a known-issue alert nor lowers its count |
| `RadarAlerts.EveryAlertSound` | app/detection/rules.py:102-527 | every alert names exactly the owners of its records, all in the caller's scope, cites every record, counts them exactly, and has their fingerprint as id |
| `RadarAlerts.UrgencyOrdered` | app/detection/rules.py:128-231 | P1 ranks before P2 in each SLA rule, and a breach before a warning of the same severity |
| `RadarScope.InRadar` | app/detection/service.py:90-106 | an alert is in the result exactly when its own rule was requested and produced it last under its id |
| `RadarScope.RadarScopeLaw` | app/detection/service.py:54-106 | after deduplication and sorting, the narrower caller's alerts about single records are, in order, the wider caller's alerts about the narrower scope; whenever the wider run raises nothing, neither does the narrower |
| `RadarScope.RadarWideningLaw` | app/detection/service.py:54-106 | for ids without the key's separators, tickets not named like known issues, and positive thresholds, every aggregate a narrower caller gets is in the wider caller's result, with the same subject and no lower a count |
| `RadarClash.WideningDropsAggregate` | app/detection/rules.py:380-386 | with two tickets named like known issues it fails: a concrete database in which the wider caller loses an aggregate to an equal fingerprint |
| `RadarLaws.OverdueExactly` | app/detection/rules.py:487-502 | an order is reported overdue exactly when it is in scope, booked, not picked up and past its window |
| `RadarLaws.OverdueDescriptionHoldsExactlyWhen` | app/detection/rules.py:483-496 | every reported order is without a requested cancellation exactly when no in-scope booked order without pickup and past its window has one |
| `RadarLaws.CancelledOrderReported` | app/detection/rules.py:483-502 | a concrete database and caller with a cancelled order that is reported |
| `RadarLaws.OverdueIgnoresCancellation` | app/detection/rules.py:480-527 | whatever cancellations are requested on however many orders, the rule's alert list is the same |
| `RadarLaws.AlertsTellTheStage` | app/detection/rules.py:116-126 | the two SLA rules report exactly whether a P1 or P2 ticket is late, warned or quiet |
| `RadarLaws.StageOnlyAdvances` | app/detection/rules.py:181-197 | as the snapshot moves forward a ticket goes quiet, warned, late, and never back |
| `RadarLaws.EveryStageOccurs` | app/detection/rules.py:181-197 | for a ratio of at least 0 and below 1, and a target of at least a minute, all three stages do occur, in that order |
| `RadarLaws.AlertsNeverGoBack` | app/detection/rules.py:102-231 | under one winning target a breach stays a breach, and an approaching ticket stays so or breaches |
| `RadarLaws.NeverBothLists` | app/detection/rules.py:116-197 | no ticket is in both lists |
| `Entities.ResolveEntities` | app/agent/entities.py:50-102 | the nested loops with buckets and a seen set compute the resolution |
| `Entities.MatchAccountNames` | app/agent/entities.py:105-115 | the name fallback lists exactly the visible accounts whose long enough name occurs in the question |
| `Entities.ExactlyOneBucket` | app/agent/entities.py:63-81 | every distinct upper-cased token is in exactly one of order, ticket, account or unresolved, each list in first-mention order without repeats |
| `Entities.ClassifyExactly` | app/agent/entities.py:63-81 | an id names an order in scope, else a ticket in scope if it names no order, else an account in scope if it names neither |
| `Entities.ResolveExactly` | app/agent/entities.py:50-115 | every token is listed where it is classified, in order of mention; names count only when no token named anything, one resolves and several are ambiguous |
| `Entities.NamedExactly` | app/agent/entities.py:105-116 | the accounts a question names: in scope, four letters or more, the whole name, in any case |
| `Entities.ExactlyOneFinally` | app/agent/entities.py:83-102 | with disjoint id namespaces this survives the name fallback |
| `Entities.ResolvedIsVisible` | app/agent/entities.py:68-79 | no lookup of a resolved id is refused or fails |
| `Entities.ClassifiedAlikeExactlyWhen` | app/agent/entities.py:69-81 | exactly when two databases with the same in-scope rows classify an id alike |
| `Entities.ResolveIgnoresOutOfScope` | app/agent/entities.py:50-115 | with disjoint id namespaces the resolution depends on in-scope rows only |
| `Entities.SharedIdLeaks` | app/agent/entities.py:69-81 | without them it does not: a concrete out-of-scope order hides an in-scope ticket |
| `Planner.BuildPlan` | app/agent/planner.py:72-150 | the append loops give each intent its steps in order |
| `Planner.IntentExactly` | app/agent/intent.py:39-68 | the intent on flags and entities, both directions: one topic raised, several, or none and then order, ticket, account, informational |
| `Planner.PlanInOrder` | app/agent/planner.py:72-150 | every step of every plan by its position |
| `Planner.PlanExactly` | app/agent/planner.py:72-150 | membership in a plan, both directions: which entities are looked up, which outcomes calculated, which documents searched |
| `Planner.PlanLooksUpFirst` | app/agent/planner.py:72-150 | in every plan, what is calculated was looked up by an earlier step |
| `Planner.ResolvedPlanNeverEmpty` | app/agent/intent.py:39-68 | an intent resolved from unambiguous entities and a non-blank question has a plan, and has the entities it is about |
| `Planner.PlanIsAboutResolved` | app/agent/planner.py:72-150 | every planned step names a resolved id, in the table it was found in |
| `Tools.ExecuteTool` | app/agent/registry.py:158-222 | an unknown tool and refused arguments fail at once; otherwise the loop ends with the first attempt that is not a timeout, or the last permitted one |
| `Tools.AttemptsBounded` | app/agent/registry.py:187-222 | attempts stay within the cap, every attempt but the last timed out, and a final timeout used them all |
| `Tools.FailureNotRetried` | app/agent/registry.py:217-218 | a deterministic failure takes one attempt |
| `Tools.ClassifyExactly` | app/agent/registry.py:110-127 | which error type stands for which exception |
| `Tools.AttemptExactly` | app/agent/registry.py:183-218 | an attempt succeeds exactly when the tool returned in time; how many attempts a tool has |
| `Tools.LookupExactly` | app/agent/tools.py:143-197 | a lookup gives exactly the record of the reader, or its failure |
| `Tools.SearchExactly` | app/agent/tools.py:83-114 | a search keeps, in order, what ranks at -1.0 or lower, and how it fails |
| `Tools.CalculationExactly` | app/agent/tools.py:250-290 | a calculation crosses the tool boundary with every field, for its own target |
| `Tools.SeverityExactly` | app/agent/tools.py:250-290 | a severity is that of the text of its ticket |
| `Citations.MarkersExactly` | app/agent/citations.py:32-33 | the scanner finds exactly the bracketed marker texts |
| `Citations.ValidExactlyWhen` | app/agent/citations.py:44-57 | a text passes exactly when every bracketed marker in it names a source |
| `Citations.NamesExactly` | app/agent/citations.py:28-54 | a marker names a source by id and locator, or by id alone with or without a colon and more |
| `EvidencePack.BuildEvidencePack` | app/agent/evidence_pack.py:49-129 | the eight accumulators, with full records and calculated values, and the deduplication loop compute the evidence |
| `EvidencePack.PackGrows` | app/agent/evidence_pack.py:66-99 | what one more tool result adds to each part of the evidence, in call order |
| `EvidencePack.PackHoldsExactly` | app/agent/evidence_pack.py:66-99 | a record, document, value, trust state, assumption or conflict is in the evidence exactly when a successful call gave it, and a review is called for exactly when a calculation does |
| `EvidencePack.PackCitesExactly` | app/agent/evidence_pack.py:20-113 | every row, document and source that a successful tool gave is cited under its key, once, and nothing else is |
| `EvidencePack.CalculationsExactly` | app/agent/evidence_pack.py:66-99 | the calculations weighed are exactly those of the successful tool calls |
| `EvidencePack.TrustStatesExactly` | app/agent/evidence_pack.py:92-95 | the trust states are exactly those of the successful calculations |
| `Orchestrator.ExecutePlan` | app/agent/orchestrator.py:177-216 | the tool loop stops at the first exhausted budget or refusal, checked in the program's order |
| `Orchestrator.InvestigateQuestion` | app/agent/orchestrator.py:131-175 | the early exits before any tool runs, each with the trace recorded by then |
| `Orchestrator.WeighEvidence` | app/agent/orchestrator.py:218-280 | the exits between the tools and the first model call |
| `Orchestrator.RepairOnce` | app/agent/orchestrator.py:302-354 | at most one more prompt, sent exactly within the call budget; an answer exactly when its reply came and cites only the evidence; calls counted by replies |
| `Orchestrator.ComposeAndRepair` | app/agent/orchestrator.py:282-406 | composition, citation check and repair |
| `Orchestrator.RunAgent` | app/agent/orchestrator.py:117-406 | the whole imperative run gives the specified result and sends the specified prompts |
| `AgentExact.InvestigationExactly` | app/agent/orchestrator.py:131-175 | how a run ends before any tool: ambiguous, in need of an account, blank, over the call budget, with trace and fields; and otherwise its plan |
| `AgentExact.ToolsExactly` | app/agent/orchestrator.py:177-216 | the first step that finds no time or no iterations left, or is refused, stops the loop, and what is on record then |
| `AgentExact.SufficientExactly` | app/agent/evidence_sufficiency.py:64-93 | when documents alone support an answer |
| `AgentExact.WeighExactly` | app/agent/orchestrator.py:218-284 | the five ways a run ends between tools and model, in their order, and the trust state otherwise |
| `AgentExact.AnswerExactly` | app/agent/orchestrator.py:286-406 | how composition ends for every pair of replies: status, reason, answer, evidence, calls, cost and prompts |
| `AgentExact.RunExactly` | app/agent/orchestrator.py:117-406 | the phases in order, and that the first one that ends the run ends it |
| `AgentLaws.ToolsBounded` | app/agent/orchestrator.py:177-216 | total attempts stay at most `max_iterations` - 1 plus one tool's cap |
| `AgentLaws.RunBounded` | app/agent/orchestrator.py:128-385 | for every provider: at most min(2, `max_llm_calls`) prompts, at most `max_tool_calls` tool calls, and bounded attempts |
| `AgentLaws.RunTraced` | app/agent/orchestrator.py:128-385 | every trace is a repetition-free prefix of the pipeline followed by exactly one terminal state, the one matching the status |
| `AgentLaws.AnswersAreGrounded` | app/agent/orchestrator.py:298-406 | an answer exists exactly in a completed or escalated run, and every bracketed marker in it names a source that the run's own tool results cite |
| `AgentLaws.ProviderDecidesOnlyTheText` | app/agent/orchestrator.py:253-406 | two runs that differ only in the provider agree on trust, tool outcomes and first prompt, and on status when both answer |
| `AgentLaws.NeverUnauthorized` | app/agent/orchestrator.py:207-216 | the branch for an unauthorized tool is unreachable for every question, database and caller |
| `AgentLaws.NeverWithoutPlan` | app/agent/orchestrator.py:163-168 | so is the branch for a plan without steps |
| `AgentTrust.DispatchEscalates` | app/domain/cancellation.py:177-179 | a successful calculation is ESCALATE exactly when an agreement is out of term or a credit exceeds the approval limit |
| `AgentTrust.EscalatedExactlyWhen` | app/agent/trust_gate.py:27-36 | an answered run is escalated exactly when such a calculation is among its own, and CONFIDENT exactly when there is a calculation and all are CONFIDENT |
| `AgentTrust.TieEscalatesExactlyWhen` | app/agent/orchestrator.py:364-377 | an answered run with a tied ticket is never CONFIDENT, and is escalated exactly when a cancellation or credit calculation of it needs a human |
| `AgentTrust.NoOrderNoEscalation` | app/agent/orchestrator.py:364-377 | an answered question that resolves to no order ends completed, whatever its tickets look like |
| `SampleRun.TiedRunCompletes` | app/agent/orchestrator.py:364-377 | a concrete answered run, of a question and a ticket whose texts the patterns read, with a tied ticket and status completed |
| `AgentTrust.TrustIgnoresToolOrder` | app/agent/evidence_pack.py:92-99 | the trust state does not depend on the order the tools ran in |
| `AgentScope.StepIgnoresOutOfScope` | app/agent/registry.py:136-155 | a planned step gives the same outcome, every record field and calculated value included, in two databases with the same in-scope rows |
| `AgentScope.RunIgnoresOutOfScope` | app/agent/orchestrator.py:117-406 | non-interference of the whole run: the result and the prompts, with the records and values they show, are the same in both databases |
| `AgentScope.PromptsStayInScope` | app/agent/evidence_pack.py:69-79 | every record in every prompt is a stored row of an account in the caller's scope |
| `AgentScope.PromptValuesStayInScope` | app/agent/evidence_pack.py:91-99 | every calculated value in every prompt is the payload of one of the run's own calculations, and that calculation is what the calculator gives for a record the caller may read |
| `CostLaws.SomeTextIsInvalid` | app/agent/citations.py:44-57 | whatever the evidence, some text has a marker it does not support |
| `CostLaws.NoPromptNoCost` | app/agent/orchestrator.py:117-284 | a run that never reaches the model costs nothing |
| `CostLaws.RunCostWithinExactly` | app/agent/orchestrator.py:286-336 | when no call costs more than `e`, every run of a question that reaches the model keeps the cost budget exactly when `e`, or twice `e` with a repair permitted, fits into it |
| `CostLaws.CostKeptExactlyWhen` | app/agent/orchestrator.py:274-336 | with a priced model, every run whose calls stay within the estimate keeps the cost budget exactly when no repair is permitted or two calls fit |
| `CostLaws.UnpricedNeverKept` | app/agent/orchestrator.py:274-284 | without a price the check passes under every cost budget, and some provider exceeds it |
| `SampleRun.RunOverspends` | app/agent/orchestrator.py:274-336 | a concrete run whose every call stays within an estimate the budget allows, and which costs more than the budget |
| `CostLaws.RunAccounts` | app/agent/orchestrator.py:298-406 | a result's call count and cost are exactly the number and the sum of the replies its prompts got |
| `ProviderRetry.Complete` | app/llm/anthropic_provider.py:95-107 | at most `max_retries` + 1 SDK calls, `retries` equal to the failures before success, one wait within its bound between any two calls |
| `ProviderRetry.DelayBounded` | app/llm/anthropic_provider.py:61-67 | every drawn delay lies between zero and min(max delay, base times a power of two) |
| `ProviderRetry.BoundExactly` | app/llm/anthropic_provider.py:61-67 | the bound starts at the base delay and doubles up to the cap |
| `ProviderRetry.SettlingExactly` | app/llm/anthropic_provider.py:97-106 | the loop ends at the first attempt that does not fail retryably, or the last one |
| `ProviderRetry.SucceedsExactlyWhen` | app/llm/anthropic_provider.py:95-131 | success with n retries exactly when the model has a price, attempt n answers within the budget, and all before it failed retryably |
| `ProviderRetry.ReplyExactly` | app/llm/anthropic_provider.py:95-131 | content, retries and price of an answer, the failure of the settling attempt otherwise, and the SDK calls made |
| `ProviderRetry.RetryableExactly` | app/llm/error_classification.py:30-52 | the eight failures that are worth another attempt |
| `ProviderRetry.UnpricedAnswerRaises` | app/llm/pricing.py:21-30 | without a price an answer is lost after it was paid for: a permanent failure, with its SDK calls spent |
| `ProviderRetry.MoreRetriesNeverHurt` | app/llm/anthropic_provider.py:97-106 | a larger retry budget changes only calls that ended in a retryable failure |
| `ProviderRetry.TotalWaitGeometric` | app/llm/anthropic_provider.py:61-67 | all waits of a call together stay below the geometric bound |
| `ProviderRetry.TotalWaitCapped` | app/llm/anthropic_provider.py:61-67 | and below the cap times their number |
| `Gateway.LlmGateway.Create` | app/llm/gateway.py:90-94 | an empty candidate list is refused |
| `Gateway.LlmGateway.Complete` | app/llm/gateway.py:96-148 | the loop returns the specified outcome, remembers the specified run, and causes exactly the SDK calls of the candidates it tried |
| `Gateway.RespondsExactlyWhen` | app/llm/gateway.py:100-139 | it responds exactly when some candidate succeeds and every earlier one failed retryably |
| `Gateway.OutcomeExactly` | app/llm/gateway.py:100-148 | how a run ends, and the attempts, reason and cost that are remembered, by the first candidate that does not fail retryably |
| `Gateway.AnswerExactly` | app/llm/gateway.py:100-107 | what a candidate answers and how many SDK calls that takes |
| `Gateway.AttemptsTellTheRun` | app/llm/gateway.py:108-147 | attempts match a prefix of the candidates, all but the last are retryable failures, and the last says how the run ended |
| `Gateway.FallbacksCompose` | app/llm/gateway.py:100-148 | appended fallbacks matter exactly when the first list is exhausted; no later candidate is called before that |
| `Gateway.UnpricedCandidateEndsRun` | app/llm/gateway.py:105-121 | an unpriced Anthropic candidate that answers ends the run as a permanent failure with its SDK calls spent and no fallback called |
| `Gateway.FallbackFlagExactly` | app/llm/gateway.py:113-147 | `fallback_used` holds exactly when the first of several candidates failed retryably and no later one that is reached fails permanently |
| `Gateway.FallbackFlagMisleads` | app/llm/gateway.py:113-121 | a concrete run that used a fallback and says it did not |
| `Gateway.CompleteCallsBounded` | app/llm/gateway.py:100-148 | total SDK calls are at most the number of Anthropic candidates times `max_retries` + 1 |
| `Cuts.PiecesOfConcat` | app/documents/pdf_parser.py:97-104 | pieces with one head each, in front, come back from their concatenation |
| `Sections.SplitSections` | app/documents/pdf_parser.py:87-104 | the loop over heading positions cuts exactly the specified sections |
| `Sections.SectionsTile` | app/documents/pdf_parser.py:97-104 | the pieces behind the sections tile the lines from the first heading to the end, each with one heading in front, and each section has its piece's number, title and body |
| `Sections.HeadingExactly` | app/documents/pdf_parser.py:22-22 | a line is a heading exactly when it is digits, a full stop, white space and a title |
| `Sections.SplitWithoutHeadings` | app/documents/pdf_parser.py:88-95 | without headings one section titled by the first line; without lines none |
| `Sections.HeadingRoundTrip` | app/documents/pdf_parser.py:22-22 | a printed heading is read back as its number and title |
| `Sections.SplitUndoesPrint` | app/documents/pdf_parser.py:87-104 | printed sections come back, after any unnumbered lines, when no body has a heading line |
| `Sections.BodyDeterminesLines` | app/documents/pdf_parser.py:100-103 | a joined body has one reading as clean lines |
| `TextLines.CleanLinesExactly` | app/documents/pdf_parser.py:48-49 | the clean lines are the lines stripped, in order, without the blank ones |
| `TextLines.StripExactly` | app/documents/pdf_parser.py:48-48 | stripping takes away the white space at both ends and nothing else |
| `Pages.ParsePage` | app/documents/pdf_parser.py:57-84 | the two loops compute title, fields and sections |
| `Pages.FailsExactlyWhen` | app/documents/pdf_parser.py:62-67 | a page is refused exactly when no line of it is metadata |
| `Pages.FieldExactly` | app/documents/pdf_parser.py:23-23 | a line is metadata exactly when it is a key of two to thirty-one letters and spaces, a colon and something more |
| `Pages.FieldsExactly` | app/documents/pdf_parser.py:69-75 | each key has the value of its last line |
| `Pages.FieldsHaveLines` | app/documents/pdf_parser.py:69-75 | and there is no key without a line |
| `Pages.PageParts` | app/documents/pdf_parser.py:62-84 | title, metadata block and remainder are found wherever the page puts them |
| `Pages.FieldRoundTrip` | app/documents/pdf_parser.py:23-23 | a written key and value are read back |
| `Pages.FieldsRoundTrip` | app/documents/pdf_parser.py:69-75 | written metadata comes back: each key with its last value, and no other key |
| `Durations.DurationRoundTrip` | app/documents/sla_table.py:35-45 | a written number of hours or minutes is read as its minutes, unless the text speaks of business time |
| `Durations.DurationExactly` | app/documents/sla_table.py:35-45 | what a text says about time: its leftmost duration unless it speaks of business time, and the two markers |
| `Durations.DurationAtExactly` | app/documents/sla_table.py:31-31 | the pattern matches exactly where a number, a gap and a unit stand, and gives their minutes |
| `SlaTable.ParseGridTable` | app/documents/sla_table.py:48-81 | the cursor loop computes the specified targets or the specified error |
| `SlaTable.GridRoundTrip` | app/documents/sla_table.py:50-81 | a grid is read back cell by cell, in order, whatever lines other than "Plan" precede it and whatever follows |
| `SlaTable.GridTextRoundTrip` | app/documents/sla_table.py:50-81 | the same from the text, one clean cell to a line |
| `SlaTable.GridAcceptsExactly` | app/documents/sla_table.py:51-65 | lines are accepted exactly when a grid stands at their first "Plan" |
| `SlaTable.GridTargetsExactly` | app/documents/sla_table.py:61-80 | the nine targets of a grid, field by field |
| `SlaTable.GridRefusedExactly` | app/documents/sla_table.py:51-65 | which error refuses which lines |
| `SlaTable.GridTextAcceptsExactly` | app/documents/sla_table.py:50-65 | on any text, accepted exactly when its clean lines have a grid after the first "Plan", and then every cell is clean |
| `SlaTable.ParseBulletTargets` | app/documents/sla_table.py:84-109 | the loop collects the bullet of every line that has one and accepts exactly three |
| `SlaTable.BulletExactly` | app/documents/sla_table.py:87-104 | the target of a line, field by field, by its first bullet |
| `SlaTable.BulletsRefusedExactly` | app/documents/sla_table.py:105-109 | a list is refused exactly when its number of bullets is not three |
| `SlaTable.BulletsRoundTrip` | app/documents/sla_table.py:84-109 | a printed bullet list comes back as its three targets, whatever lines without a bullet surround them |
| `SlaTable.UsableExactlyWhen` | app/documents/sla_table.py:35-79 | every target of a grid is usable exactly when every cell says a clock time or business time |
| `GridUse.GridNeverFailsExactlyWhen` | app/documents/sla_table.py:35-79 | no SLA calculation on a grid's targets raises for an unusable one exactly when every cell says a time |
| `GridUse.AcceptedGridFails` | app/domain/sla.py:154-155 | a concrete text the grid parser accepts, and a ticket on whose target the calculation raises |

## Left out

- FastAPI wiring, middleware, the command line, evaluation scripts, tracing and logging: no decision logic.
- SQLite, full-text search and ranking, PDF and workbook readers: a table is a map or a sequence, an UPDATE is one atomic step, and a search is a fixed function of the filter.
- Prompt wording, token and cost estimators, and what a model writes: arbitrary parameters of a run. A prompt is the evidence and the trust state it shows; the question and the instructions, which are fixed in a run, are not repeated in it.
- SHA-256: a payload digest is a free constructor and the alert digest an injective function where distinctness matters, so collisions and the 16-digit truncation are not modelled.
- Uniqueness of generated action ids is not assumed; a duplicate key ends a prepare with the database's exception.
- An exception out of the SLA calculation inside a prepare call, other than the ticket refusals: it ends the call before anything is written.
- The ticket verdict and the clock reading are inputs of each action call, so nothing is claimed about an order of action calls and ticket updates together.
- The tickets, orders and policy tables do not change during one agent run or one radar run.
- Message texts, reasons and risk notes; only codes and typed fields are compared. Latency appears only where a timeout or a wall-clock budget reads it.
- Regular expressions of severity signals, id tokens and vocabulary: a signal is an arbitrary predicate on the ticket text, tokens and significant words are given. The heading, metadata, bullet, duration, mention and marker patterns are written out over ASCII letters and digits.
- Case folding and Unicode normalisation beyond ASCII letters.
- Time zones, date parsing and floating-point rounding.
- A printed heading, title or body line is one line: what `splitlines` would cut is no line to begin with.
- The `LIKE` prefilter of product documents: a document without a mention yields no issue anyway.
- The issue-detection tool and the search lookups: no planned step reaches them.
- Providers keep no state between calls: what each SDK attempt answers is an arbitrary function of its number.
- Manifest and checksum ingestion: straight-line comparisons.
