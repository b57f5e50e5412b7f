# Procurement request lifecycle and monthly analytics

This project models the core of a procurement backend. In that system a logist creates requests for products. The supplier who owns the products confirms or rejects them. An administrator steps a confirmed request towards payment, and a logist gives the final confirmation. Alongside the lifecycle, an analytics service reports what each supplier is owed for a month, produces a monthly cost report, and counts requests by month and status.

The model has three modules:

- `Lifecycle` (`lifecycle.dfy`) holds pure definitions. It has the five statuses and the transition table as an explicit set of (status, action, status) rows. It has the decision each operation of the request service makes: `DecideCreate`, `DecideReply`, `DecideChange` and `DecideConfirm`. `Step` applies one operation to a store of requests and `Run` applies a sequence of them. The lemmas prove what every run preserves:
  - every request's products belong to its one supplier;
  - no request is deleted, and no field other than the status changes;
  - statuses only move forward, and terminal statuses stay.
- `Requests` (`request_service.dfy`) holds the class `RequestService`. Its `requests` field is the request repository, a map that the methods update in place. The product repository and the logist and supplier services form a fixed `catalog`. Each method reads, validates, and writes only when every check passes. Its postcondition ties the result to the matching decision function and the new state to `Step`. Client methods replay the documented scenarios against these contracts.
- `Analytics` (`analytics.dfy`) holds the analytics. `CalculatePaymentsForSuppliers` keeps the nested loops of `calculatePaymentsForSuppliers` and is proved against `SumCosts(ForMonth(...))`. The monthly report and the three counts are functions over a sequence of stored requests. Two client methods derive the documented figures from the contracts: payments of 250 and 200, and a report total of 300.

The request service's own source is not part of this model. Its behaviour is taken from the assertions of its unit tests. Where the tests leave a case open, the following choices were made:

- A line naming a product that does not exist fails with `NotFound`.
- An empty product list has no shared supplier, so it fails with the same `InvalidInput("All products must have the same supplier")` as a mixed list.
- A supplier reply with `confirm = false` moves the request to `Rejected`.
- `changeRequestStatus` accepts only the immediate successor in the order `IN_PROCESS, CONFIRMED, WAITING_FOR_PAYMENT, COMPLETED`.
- `confirmRequest` succeeds only when the acting logist DIFFERS from the logist recorded on the request. That is what the tests require, and the model keeps it even though it looks inverted.

The analytics service file as written does not compile: it declares its constructor twice and has a stray closing brace before `generateMonthlyReport`. The model follows the evident intent.

## Model

| member | source | states |
|---|---|---|
| `Lifecycle.NextStatus` | src/request/request.service.spec.ts:196-218 | the successor of a status is exactly the next entry of the forward order IN_PROCESS, CONFIRMED, WAITING_FOR_PAYMENT, COMPLETED; the last entry and REJECTED have none |
| `Lifecycle.AdminChangeIsNextStatus` | src/request/request.service.spec.ts:196-218 | the administrative rows of the transition table are exactly the forward-order successors, so going back (CONFIRMED to IN_PROCESS) or skipping is not allowed |
| `Lifecycle.TransitionsMakeProgress` | src/request/request.service.spec.ts:111-261 | every row of the transition table moves a request strictly forward, and no row leaves COMPLETED or REJECTED |
| `Lifecycle.PathIsShort` | src/request/request.service.spec.ts:111-261 | along any chain of legal transitions, progress grows by at least one per step, so a request passes through at most four statuses and never returns to an earlier one |
| `Lifecycle.ResolveProducts` | src/request/request.service.spec.ts:70-84 | the product lookup succeeds exactly when every line's product exists, returns the products line by line, and otherwise fails with NotFound |
| `Lifecycle.SharedSupplier` | src/request/request.service.spec.ts:89-108 | yields a supplier only when the products are non-empty and all belong to it; otherwise some product's supplier differs from the first one's (or the list is empty) |
| `Lifecycle.DecideCreate` | src/request/request.service.spec.ts:59-108 | creation fails with NotFound for an unknown logist, for a line naming a product that does not exist, and when all products share a supplier that does not exist; it succeeds with supplier s exactly when every line names an existing product of the existing supplier s; an empty list, and lines of two suppliers whose products all exist, fail with InvalidInput("All products must have the same supplier"); no other error occurs |
| `Lifecycle.DecideReply` | src/request/request.service.spec.ts:111-173 | NotFound exactly for an unknown request; success exactly when the acting supplier owns the request and the table has a reply row from its status (only IN_PROCESS); the new status follows that row (CONFIRMED when confirming); every other case is a Conflict |
| `Lifecycle.DecideChange` | src/request/request.service.spec.ts:195-218 | NotFound exactly for an unknown request; success, with the target as the new status, exactly when the table has an administrative row from the current status to the target; otherwise a Conflict |
| `Lifecycle.DecideConfirm` | src/request/request.service.spec.ts:221-261 | NotFound exactly when the request or the acting logist is unknown; success, with COMPLETED, exactly when the request waits for payment and its recorded logist differs from the actor; otherwise a Conflict |
| `Lifecycle.Settle` | src/request/request.service.spec.ts:127-234 | persisting a decision keeps every id and the next id; a successful decision replaces only the status of the named request, by the decided one, and leaves every other request as it was; a failed decision writes nothing |
| `Lifecycle.Step` | src/request/request.service.spec.ts:59-234 | one operation deletes no request; an operation on an existing request keeps the ids and the next id and changes at most that request, and only its status; a successful creation saves `Request(nextId, IN_PROCESS, shared supplier, logist, lines)` under the next id, advances it and leaves the other requests as they were; a failed creation writes nothing |
| `Lifecycle.StepFollowsTable` | src/request/request.service.spec.ts:112-234 | one operation keeps every stored request and changes at most the named request, and only its status, along a row of the table; a successful creation adds exactly one fresh request, in process; a failed creation writes nothing |
| `Lifecycle.StepPreservesInv` | src/request/request.service.spec.ts:59-108 | every operation keeps the store invariant: ids below the next id, existing logist and supplier, and every product line owned by the request's supplier |
| `Lifecycle.StepEvolves` | src/request/request.service.spec.ts:195-261 | after one operation, every request keeps all its fields but the status, its status is no earlier in the lifecycle, and a terminal status is kept |
| `Lifecycle.RunPreservesInv` | src/request/request.service.spec.ts:59-108 | no sequence of operations breaks the single-supplier store invariant |
| `Lifecycle.RunEvolves` | src/request/request.service.spec.ts:195-261 | no sequence of operations deletes a request, changes a field other than its status, moves a status backward or leaves a terminal status |
| `Lifecycle.ReplyIsFinal` | src/request/request.service.spec.ts:159-173 | right after a successful supplier reply, the request holds the reply's status, and a second reply to it is a Conflict that writes nothing |
| `Lifecycle.HappyPath` | src/request/request.service.spec.ts:60-235 | create, supplier confirmation, the administrative step to WAITING_FOR_PAYMENT and confirmation by another logist leave the new request COMPLETED |
| `Requests.RequestService.FindOne` | src/request/request.service.spec.ts:176-192 | returns the stored request for a known id and NotFound for an unknown one |
| `Requests.RequestService.Create` | src/request/request.service.spec.ts:59-108 | succeeds exactly when DecideCreate does, saving `Request(nextId, IN_PROCESS, shared supplier, logist, lines)` under a fresh id; on failure returns DecideCreate's error and changes nothing; keeps the store invariant |
| `Requests.RequestService.SupReplyToRequest` | src/request/request.service.spec.ts:111-173 | succeeds exactly when DecideReply does and returns `{newStatus}`; writes only the status of that request; on failure returns DecideReply's error and changes nothing |
| `Requests.RequestService.ChangeRequestStatus` | src/request/request.service.spec.ts:195-218 | succeeds with true exactly when DecideChange does, replacing only the status by the target; on failure returns DecideChange's error and changes nothing |
| `Requests.RequestService.ConfirmRequest` | src/request/request.service.spec.ts:221-261 | succeeds with true exactly when DecideConfirm does, replacing only the status by COMPLETED; on failure returns DecideConfirm's error and changes nothing |
| `Analytics.CalculatePaymentsForSuppliers` | src/analytics/analytics.service.ts:32-48 | one payment per supplier, in the suppliers' order, copying id and name and totalling the costs of exactly that supplier's requests of the month (0 when it has none); the payments together add up to what all the suppliers are owed for the month |
| `Analytics.PaidIsOwed` | src/analytics/analytics.service.ts:32-48 | payments that each settle one supplier's month, supplier by supplier, add up to the month's total owed over all the suppliers |
| `Analytics.MonthSumSnoc` | src/analytics/analytics.service.ts:38-43 | one more request adds its cost to its own month's total and nothing to any other month's |
| `Analytics.SumCosts` | src/analytics/analytics.service.ts:54 | the reduce starts from 0: no requests cost 0, and one request costs its own cost |
| `Analytics.SumCostsCons` | src/analytics/analytics.service.ts:54 | adding the costs up from the left gives the first cost plus the sum of the rest |
| `Analytics.ForMonth` | src/analytics/analytics.service.ts:53 | the month query returns no more requests than are stored |
| `Analytics.ForMonthSelects` | src/analytics/analytics.service.ts:53 | the month query holds each stored request of that month exactly as many times as it is stored, and no request of another month |
| `Analytics.WithStatus` | src/analytics/analytics.service.ts:23 | the status filter returns no more requests than it is given, all of them in that status |
| `Analytics.WithStatusSelects` | src/analytics/analytics.service.ts:23 | the status filter holds each given request in that status exactly as many times as it is given, and no request in another status |
| `Analytics.SumCostsAppend` | src/analytics/analytics.service.ts:54 | the reduce from 0 over a concatenation is the sum of the reduces over the parts |
| `Analytics.ForMonthAppend` | src/analytics/analytics.service.ts:53 | selecting a month from a concatenation selects it in each part, in order |
| `Analytics.GenerateMonthlyReport` | src/analytics/analytics.service.ts:51-60 | the report holds each stored request of the month exactly as many times as it is stored, and no request of another month; totalCost is the sum from 0 of their costs; a month without requests has no requests and totalCost 0 |
| `Analytics.ReportIsAdditive` | src/analytics/analytics.service.ts:54 | the month's totalCost over two parts of the store is the sum of the parts' totals |
| `Analytics.PaymentsAddUpToReport` | src/analytics/analytics.service.ts:32-60 | what the suppliers are owed for a month adds up to the monthly report's totalCost over all their requests |
| `Analytics.CountForMonth` | src/analytics/analytics.service.ts:17-19 | the month count equals the number of requests the month query selects |
| `Analytics.CountWithStatus` | src/analytics/analytics.service.ts:22-30 | the count by month and status is the number of the month's requests in that status; it never exceeds the month count, and it is 0 exactly when no request has both that month and that status |
| `Analytics.GetTotalRequests` | src/analytics/analytics.service.ts:17-20 | `{totalRequests}` is the number of requests in the month's report |
| `Analytics.GetRejectedRequests` | src/analytics/analytics.service.ts:22-25 | the 'rejected' count is the number of the month's report requests whose status is 'rejected'; it is at most the month's total, and 0 exactly when no request of the month is 'rejected' |
| `Analytics.GetCompletedRequests` | src/analytics/analytics.service.ts:27-30 | the 'done' count is the number of the month's report requests whose status is 'done'; it is at most the month's total, and 0 exactly when no request of the month is 'done' |
| `Analytics.RejectedAndCompletedWithinTotal` | src/analytics/analytics.service.ts:17-30 | the 'rejected' and 'done' counts of a month together never exceed its total |

## Left out

- HTTP controllers, role guards and dependency-injection wiring (`analytics.controller.ts`, `controller.report.ts`, `analytics.module.ts`). They only route calls. The analytics controller also calls `getOverview` and `getSupplierPayments`, which the service does not define.
- PDF report rendering and file output (`report.revice.ts`): presentation and I/O.
- The user, product, supplier and logist services beyond lookups. The model keeps only find-or-NotFound behaviour, as lookups in the catalog. Password hashing and paginated product queries are not modelled.
- Concurrency. Operations are sequential, so the atomic read-validate-write that the persistence layer must provide is not modelled. Two replies to one request are modelled one after the other (`ReplyIsFinal`).
- Persistence details. The database assigns request ids; here a counter stands in for it. The repository's `update({id}, {status})` and `save({...request, status})` both become a map update that replaces only the status. Loading relations (supplier, logist) is implicit in the stored record.
- A request's `cost` and `month` fields are not part of the lifecycle record. The analytics read them through their own record type, `MonthRequest`.
- The analytics count statuses by the strings `'rejected'` and `'done'`. The lifecycle's status enum calls the final status COMPLETED. The two vocabularies are kept as the source has them and are not reconciled.
- Costs are integers. The source's JavaScript numbers are floating point.
- Product quantities are carried along unchecked, as in the source's tests.
- Analytics repository queries (`getAllSuppliers`, `getRequestsForMonth`, `countRequestsForMonth`, `count`) become parameters: the sequence of suppliers, or the sequence of stored requests filtered by month and status.
