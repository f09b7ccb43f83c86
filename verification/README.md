# Verification of the logistics backend

A multi-tenant logistics platform keeps orders, routes, couriers, webhooks and payments of many companies in one
database. This project models the parts of it that keep state over many calls, or that do arithmetic, and proves what
holds of them over every sequence or interleaving of calls.

| module | models | main results |
|---|---|---|
| `TokenRefresh` | the 401 interceptor of the HTTP client: leader flag, wait queue, replays | one refresh at a time, every parked request released once with the outcome it waited for, at most n refreshes, every run ends |
| `InboundImport` | `importOrder` at the granularity of single database calls, any number of requests interleaved with other order writers | one order per external id, one execution per idempotency key, replays change nothing, termination, exact outcome of a lone import |
| `Stranding` | the catch block of `importOrder` | exactly which imports can end with their event still `processing` |
| `WebhookDelivery` | event table, job queue and retry table of outbound webhooks | an unfinished event has one job and a finished one none, at most six sends, delivery ends, fan-out row by row |
| `Dispatch` | orders, routes, points and status history, as two services write them | an order is in at most one active route, points are a permutation, the history of an order is a chain, events are the history |
| `DispatchOutcomes` | the same calls, one at a time | when each call is refused, and every row it writes |
| `StateMachines` | the two transition tables | terminal and inactive statuses are final |
| `Payments`, `PaymentOutcomes`, `Money`, `Calendar` | metrics, the fold of the rules, rounding, guarantee periods | money is conserved, what each rule pays, what a guarantee reaches and keeps, periods exclude each other |
| `RuleVersions`, `RuleConfig`, `Json` | versioned payment rules, their configurations, JSON normalisation | versions are exactly 1 to k, old rows never change, round trips with their exact conditions |
| `RouteOptions` | the provider options stored in a route | stored options follow the requests |
| `Tenant`, `TenantTables` | the rewriting of database calls, and the tables it acts on | confinement, and non-interference between companies, with their exact conditions |
| `Profiles` | users, courier and dispatcher profiles | profiles fit roles and activity after any calls |

Code that changes things step by step is modelled twice: as a class or a loop with the source's own variables, and as a
function that the class or loop is proved equal to. The theorems are about the functions, so they hold of both. `Common`
holds shared types.

Where the code does something its description does not say, the model follows the code:

- An import that another request overtakes while it recovers ends with an error out of the catch block, and its event
  stays `processing`. That can happen to exactly the imports with a new key, a window in order and an external id not
  mapped yet (`Stranding.NewImportCanStrandIff`).
- Rules behind a guarantee, such as a penalty whose name sorts later, can take the total below the guaranteed value
  (`Payments.TotalKeepsGuaranteeIff` says when, `Payments.PenaltyAfterGuarantee` is an instance), and the reported
  subtotal before guarantee then includes the top-up.
- A bonus or penalty on an unknown metric passes the checks when it is written and refuses every later payment of the
  company (`Payments.BuiltRulePayableIff`, `Payments.UnknownMetricIsNoticedLate`).
- Tenant isolation keeps the key `company_id` of data to the active company. A relation that sets the owner is none of
  its concern: `TenantTables.CallStaysHomeIff` says which calls keep the owner of the rows they write.
- Unique keys over all companies, such as the user of a courier profile, let one company notice a row of another:
  `TenantTables.NonInterferenceIff` says that nothing else does, as long as every call keeps the owner of its rows.
- `Date.UTC` reads the years 0 to 99 as 1900 to 1999, so a period that touches them can be taken for a month or week it
  is not (`Calendar.FebruaryOfYearZero`, `Calendar.WeeksThatAreNot`).
- Functions and symbols become `undefined` when they are normalised, so only values without them are normalised once and
  for all (`Json.NormalizeIdempotent`); a date given as conditions is stored as text and read back as none
  (`RuleConfig.StoredConditionsAreParsed`). Only callers in code can pass such values; a JSON request cannot.

What is taken as given: database calls are atomic, keep their unique keys and refuse data that set the owner of a row
twice, by key and by relation (`TenantTables.IsAccepted`); a service call of `Dispatch`, `RuleVersions` and `Profiles`
is one step; amounts and distances are exact decimals; a refresh that succeeds carries a token (without one,
`processQueue` would settle nobody); the external id of an import is not empty where `Stranding` requires it, as the
request validation ensures. The routing provider, the geocoder, HTTP answers, new ids, passwords and the clock are
parameters. `localeCompare` is a ranking of names, `toISOString` and the `Date` constructor are a pair of functions
that undo each other, and the conversion of numeric strings is any function.

## Model

| member | source | states |
|---|---|---|
| TokenRefresh.SingleFlight | frontend/src/api/http-client.ts:127-198 | over all runs: never two leaders; the queue is non-empty only during a refresh; each parked entry is released exactly once, in order, with the outcome of the refresh it waited for |
| TokenRefresh.ReleaseAllAt | frontend/src/api/http-client.ts:56-65 | processQueue settles or resends exactly the parked requests, each once |
| TokenRefresh.CallsAreBounded | frontend/src/api/http-client.ts:127-198 | n requests lead at most n refreshes, each at most one, and each is sent at most n + 1 times |
| TokenRefresh.EveryRunEnds | frontend/src/api/http-client.ts:127-198 | n requests are over after at most n (n + 4) handler invocations, whatever is answered in whatever order |
| TokenRefresh.StuckMeansSettled | frontend/src/api/http-client.ts:127-198 | a run can go on exactly as long as some request is not settled |
| TokenRefresh.StepOutcome | frontend/src/api/http-client.ts:127-198 | what each handler does to each request: answers settle it, a 401 parks it or makes it lead or rejects it, the end of the refresh resends or rejects all that waited |
| TokenRefresh.ResolvedIff | frontend/src/api/http-client.ts:127-198 | in every run a request resolves exactly if it was answered with success, and at the end every other one is rejected |
| TokenRefresh.HttpClient.SendRequest | frontend/src/api/http-client.ts:127-198 | sending a request is one step of the protocol |
| TokenRefresh.HttpClient.OnResponse | frontend/src/api/http-client.ts:129-162 | the response handler changes the module variables as one step of the protocol says |
| TokenRefresh.HttpClient.ProcessQueue | frontend/src/api/http-client.ts:56-65 | the loop over the queue releases all of it with one outcome and empties it |
| TokenRefresh.HttpClient.OnRefreshAnswer | frontend/src/api/http-client.ts:164-196 | success, failure and `finally` of the refresh are one step of the protocol |
| InboundImport.OneOrderPerExternalId | backend/src/modules/integrations/integrations.service.ts:232-333 | in every interleaving a company has at most one order per external id, and all successful answers with it name that order |
| InboundImport.NoMappingConflict | backend/src/modules/integrations/integrations.service.ts:439-505 | no request, in recovery or not, meets a map row that names a different or a missing order |
| InboundImport.OneExecutionPerKey | backend/src/modules/integrations/integrations.service.ts:355-400 | at most one request per idempotency key executes the body; its successful answers are all the same and exclude a failed or unfinished execution |
| InboundImport.ReplayChangesNothing | backend/src/modules/integrations/integrations.service.ts:402-437 | in every run a request that ended without owning its event changed no table; at its last step it was answered with the stored response if the event had succeeded, refused as failed if it had failed and as in progress otherwise |
| InboundImport.ReplayOfFinished | backend/src/modules/integrations/integrations.service.ts:402-437 | a request that comes after its event was finished ends with the stored response if the event succeeded and refused as failed otherwise, whatever happens in between |
| InboundImport.FinishedEventIsFinal | backend/src/modules/integrations/integrations.service.ts:507-541 | an event row that succeeded or failed never changes again |
| InboundImport.LostRace | backend/src/modules/integrations/integrations.service.ts:465-505 | an insert that loses a race changes no table, and where the request goes on |
| InboundImport.StrandedIff | backend/src/modules/integrations/integrations.service.ts:303-331 | an ended execution leaves its event in `processing` exactly if an error left the catch block |
| Stranding.EscapesIff | backend/src/modules/integrations/integrations.service.ts:543-581 | a step lets an error out of the catch block exactly if recovery inserts a map row that another request has inserted since, or reads back an order without external id |
| Stranding.CanStrandIff | backend/src/modules/integrations/integrations.service.ts:232-333 | from any reachable state: some continuation strands a request exactly if it stands in front of a map query or insertion of that kind with its external id not mapped yet |
| Stranding.NewImportCanStrandIff | backend/src/modules/integrations/integrations.service.ts:213-333 | before the call: an import can be stranded exactly if its key is new, its time window is in order and its external id is not mapped yet |
| Stranding.StrandedExample | backend/src/modules/integrations/integrations.service.ts:543-581 | a run from an empty database that strands an import |
| InboundImport.ImportsEnd | backend/src/modules/integrations/integrations.service.ts:213-333 | n requests make at most 12 n database calls, however they interleave |
| InboundImport.ImportOutcome | backend/src/modules/integrations/integrations.service.ts:213-333 | an uninterrupted import: exactly when it succeeds, the order it answers with, why it is rejected, every row it writes; a repeated key changes nothing |
| InboundImport.ImportTables.CreateInboundEventOrGetCached | backend/src/modules/integrations/integrations.service.ts:355-437 | inserts the event of a new key; for an old one changes nothing and returns the stored response after success, a refusal otherwise |
| InboundImport.ImportTables.CreateOrder | backend/src/modules/orders/orders.service.ts:64-125 | which of its errors creation ends with, or the row it adds |
| InboundImport.ImportTables.EnsureExternalIdMap | backend/src/modules/integrations/integrations.service.ts:465-505 | adds the map row, accepts the same one, refuses another one |
| InboundImport.ImportTables.ImportOrder | backend/src/modules/integrations/integrations.service.ts:213-333 | the whole call has the effect of its database calls run one after another |
| WebhookDelivery.QueueInvariant | backend/src/modules/integrations/webhook-delivery.processor.ts:58-240 | in every reachable state an unfinished event has exactly one job and a finished one none; at most 6 sends and 9,750,000 ms of scheduled delay, both reached when the last attempt fails |
| WebhookDelivery.FinishedIsFinal | backend/src/modules/integrations/webhook-delivery.processor.ts:58-160 | a finished event is never written or sent again, although the processor does not look at its status |
| WebhookDelivery.DeliveryEnds | backend/src/modules/integrations/webhook-delivery.processor.ts:162-217 | each event causes at most 18 processing steps |
| WebhookDelivery.UnfinishedCanProceed | backend/src/modules/integrations/webhook-delivery.processor.ts:58-160 | while an event is unfinished, some step on its job is possible |
| WebhookDelivery.AttemptOutcome | backend/src/modules/integrations/webhook-delivery.processor.ts:78-129 | an unusable event fails unsent; any other one is counted and sent |
| WebhookDelivery.AnswerOutcome | backend/src/modules/integrations/webhook-delivery.processor.ts:131-240 | a success status ends the delivery; any other answer schedules the next attempt after the delay of the table, or after the sixth fails the event |
| WebhookDelivery.SucceededIff | backend/src/modules/integrations/webhook-delivery.processor.ts:122-160 | in every run an event has succeeded exactly if the last answer was a success |
| WebhookDelivery.DelayTotals | backend/src/modules/integrations/integrations.constants.ts:4-10 | the delays of any first retries sum to at most 9,750,000 ms, of all five to exactly that |
| WebhookDelivery.ReceiversInOrder | backend/src/modules/integrations/outbound-webhooks.service.ts:303-330 | the receivers are exactly the active, subscribed integrations of the company with url and secret, each once, in table order |
| WebhookDelivery.FanoutRows | backend/src/modules/integrations/outbound-webhooks.service.ts:224-301 | one row per receiver, in order; pending if the queue took its job, failed otherwise; older rows stay |
| WebhookDelivery.FanoutJobs | backend/src/modules/integrations/outbound-webhooks.service.ts:224-301 | a row has one job if the queue took it and none otherwise, whatever happens to the others |
| WebhookDelivery.WebhookTables.EnqueueOutboundWebhooks | backend/src/modules/integrations/outbound-webhooks.service.ts:224-301 | the loop over the receivers makes exactly these rows and jobs |
| WebhookDelivery.WebhookTables.LoadEvent | backend/src/modules/integrations/webhook-delivery.processor.ts:58-75 | a job reads its event, or ends if there is none |
| WebhookDelivery.WebhookTables.StartAttempt | backend/src/modules/integrations/webhook-delivery.processor.ts:58-129 | rejects an unusable integration or counts the attempt and sends |
| WebhookDelivery.WebhookTables.HandleAnswer | backend/src/modules/integrations/webhook-delivery.processor.ts:131-240 | success, retry with the delay of the table, or failure after the last attempt |
| Dispatch.PointsAreAPermutation | backend/src/modules/routing/routing.service.ts:1124-1162 | points are created exactly if the provider's orders are an arrangement of the planned ones; they are in the provider's order, each order once, numbered 1 to n |
| Dispatch.OrdersAreExclusive | backend/src/modules/routing/routing.service.ts:694-721 | after any calls an order occurs in at most one point over all active, not deleted routes |
| Dispatch.RoutesAreNumbered | backend/src/modules/routing/routing.service.ts:1144-1161 | after any calls the points of a route name orders of its company and are numbered from 1 without gaps |
| Dispatch.HistoryIsAChain | backend/src/modules/orders/orders.service.ts:292-333 | whichever service wrote them, the history rows of an order lead from `new` to its status by allowed transitions without a gap, as many as the status is far, at most 5 |
| Dispatch.AssignmentEffect | backend/src/modules/routing/routing.service.ts:741-846 | every listed order gets the courier; exactly the confirmed ones advance, with one history row and one event each in list order; no other order changes |
| Dispatch.EventsAreTheHistory | backend/src/modules/routing/routing.service.ts:741-846 | over any calls the status-change events emitted are, in order, exactly the history rows written, whichever service wrote them |
| Dispatch.CallAnnounces | backend/src/modules/orders/orders.service.ts:284-390 | one call emits one event per row, with the status and courier the order then has; a failed call neither |
| Dispatch.BuiltRoute | backend/src/modules/routing/routing.service.ts:154-253 | a built route is a fresh draft with exactly the requested orders; other routes keep their rows and points |
| Dispatch.BuildTakesFreeOrders | backend/src/modules/routing/routing.service.ts:589-659 | a build succeeds only for orders in no active route, and then each is in exactly one |
| Dispatch.UpdatedRoute | backend/src/modules/routing/routing.service.ts:332-526 | the status asked for is written; a changed plan replaces the points by exactly the wanted orders, takes over courier and return as given and raises the version by one; all that is not given stays |
| Dispatch.DeleteFreesOrders | backend/src/modules/routing/routing.service.ts:528-587 | the orders of a deleted route were in it alone and are in no active route afterwards |
| Dispatch.InactiveForGood | backend/src/modules/routing/route-state-machine.ts:3-9 | a route that was once completed, cancelled or deleted is never active again |
| Dispatch.FailureWritesOnlyLocations | backend/src/modules/routing/routing.service.ts:661-692 | a call that fails changes nothing but coordinates that were missing |
| DispatchOutcomes.PlanOutcome | backend/src/modules/routing/routing.service.ts:589-659 | a plan is made or refused by exactly these checks in this order |
| DispatchOutcomes.LocateInOrder | backend/src/modules/routing/routing.service.ts:661-692 | orders are located in list order, each with the place of its address, up to the first that is not found |
| DispatchOutcomes.OrderIdsAt | backend/src/modules/routing/routing.service.ts:1133-1136 | the order ids of the provider's points, those with one, in their order |
| DispatchOutcomes.BuildOutcome | backend/src/modules/routing/routing.service.ts:154-253 | when a build succeeds, why not, and each row it writes: route, points, orders with courier and status, history |
| DispatchOutcomes.UpdateOutcome | backend/src/modules/routing/routing.service.ts:332-526 | when an update succeeds, why not, and what it writes to orders and history |
| DispatchOutcomes.ConfirmedInOrder | backend/src/modules/routing/routing.service.ts:741-846 | the orders recorded are the confirmed ones of the list, each at its place |
| DispatchOutcomes.DeleteOutcome | backend/src/modules/routing/routing.service.ts:528-587 | a delete marks exactly an editable route as cancelled and deleted, and writes nothing else |
| DispatchOutcomes.TransitionOutcome | backend/src/modules/orders/orders.service.ts:284-390 | a status change writes status, row and event together, exactly if the status is of the next stage |
| DispatchOutcomes.OrderOutcome | backend/src/modules/orders/orders.service.ts:64-282 | creating an order and changing its courier: checks and rows |
| Dispatch.DispatchServices.ResolveOrderCoordinates | backend/src/modules/routing/routing.service.ts:661-692 | the loop locates the orders in list order and stops at the first unknown address |
| Dispatch.DispatchServices.SyncRouteOrdersWithCourier | backend/src/modules/routing/routing.service.ts:741-846 | the loop writes the orders, history rows and events of the assignment |
| Dispatch.DispatchServices.BuildRoute | backend/src/modules/routing/routing.service.ts:154-253 | the call has the effect of a build and keeps the invariant |
| Dispatch.DispatchServices.UpdateRoute | backend/src/modules/routing/routing.service.ts:332-526 | the call has the effect of an update and keeps the invariant |
| Dispatch.DispatchServices.DeleteRoute | backend/src/modules/routing/routing.service.ts:528-587 | the call has the effect of a soft delete and keeps the invariant |
| Dispatch.DispatchServices.TransitionOrderStatus | backend/src/modules/orders/orders.service.ts:284-390 | the call writes status and history row together, or nothing |
| StateMachines.TerminalHasNoWayOut | backend/src/modules/orders/order-state-machine.ts:3-20 | the terminal order statuses are exactly those without a transition |
| StateMachines.TransitionIff | backend/src/modules/orders/order-state-machine.ts:3-20 | an order moves exactly one stage at a time, to any status of the next stage |
| StateMachines.InactiveIsFinal | backend/src/modules/routing/route-state-machine.ts:3-9 | the inactive route statuses are exactly those without a transition |
| StateMachines.RouteTransitionIff | backend/src/modules/routing/route-state-machine.ts:3-9 | an active route is cancelled or moves on one status |
| Money.RoundIsNearest | backend/src/modules/compensation/payments.service.ts:1175-1181 | the rounded value is nearest, and of two equally near ones the farther from zero |
| Money.TopUpReachesIff | backend/src/modules/compensation/payments.service.ts:999-1012 | adding the rounded difference reaches the larger of subtotal and rounded goal, exactly if the goal is not a negative half cent above the subtotal |
| Payments.AggregationBound | backend/src/modules/compensation/payments.service.ts:693-731 | for n routes the total distance is within (n + 1) times 0.0005 km of the sum of the route distances |
| Payments.DeliveredOrdersExactly | backend/src/modules/compensation/payments.service.ts:693-731 | the delivered orders are exactly the delivered points of the routes, as many as the routes count |
| Payments.DeliveriesInOrder | backend/src/modules/compensation/payments.service.ts:701-711 | the delivered orders of a route are in the order of its points, each at its place |
| Payments.BuildPaymentMetrics | backend/src/modules/compensation/payments.service.ts:693-731 | the loop computes these metrics |
| PaymentOutcomes.MetricsOutcome | backend/src/modules/compensation/payments.service.ts:693-731 | counts, distances and rows of the metrics in terms of what the routes hold under `distanceMeters` and of their delivered points |
| Payments.MoneyIsConserved | backend/src/modules/compensation/payments.service.ts:733-773 | total is max(0, sum of the amounts), top-up the sum of the guarantees, subtotal before guarantee the sum up to the last other rule; all in whole cents |
| Payments.GuaranteeStep | backend/src/modules/compensation/payments.service.ts:999-1012 | a matching guarantee takes the subtotal r to max(r, guaranteed value in cents), exactly if the value is not a negative half cent above r |
| Payments.OtherGuaranteeStep | backend/src/modules/compensation/payments.service.ts:1008-1012 | a guarantee for another period adds nothing |
| Payments.TotalKeepsGuaranteeIff | backend/src/modules/compensation/payments.service.ts:733-773 | the total keeps the guaranteed value exactly if the value rounds to nothing, or what the subtotal had above it makes up for what the later rules take away |
| Payments.LastGuaranteeIsKeptIff | backend/src/modules/compensation/payments.service.ts:733-773 | with no guarantee behind it, the same in terms of the amounts of the later rules |
| Payments.TotalKeepsGuarantee | backend/src/modules/compensation/payments.service.ts:733-773 | so the total is at least the guaranteed value less the penalties behind it, and at least the value if there is none |
| Payments.PenaltyAfterGuarantee | backend/src/modules/compensation/payments.service.ts:733-773 | two rules whose total is below the guaranteed value |
| Payments.AppliedAccountForAll | backend/src/modules/compensation/payments.service.ts:770-773 | the applied components account for the whole sum, but for rates per kilometre on a negative distance |
| Payments.OrderMattersToGuaranteesOnly | backend/src/modules/compensation/payments.service.ts:733-773 | without guarantees the order of the rules does not change the total |
| Payments.ZoneRatesMatchPerOrder | backend/src/modules/compensation/payments.service.ts:853-937 | breakdowns of one rate for every zone and of one rate per order have the same total, up to half a cent a rounding |
| Payments.BreakdownSucceedsIff | backend/src/modules/compensation/payments.service.ts:819-851 | a breakdown is computed exactly if every rule can be paid |
| Payments.BuiltRulePayableIff | backend/src/modules/compensation/payment-rule-config.ts:75-122 | a rule that passed the checks can be paid exactly if it is no bonus or penalty on an unknown metric |
| Payments.UnknownMetricIsNoticedLate | backend/src/modules/compensation/payments.service.ts:1107-1117 | a bonus that is accepted when it is written and refused by every breakdown |
| Payments.BuildPaymentBreakdown | backend/src/modules/compensation/payments.service.ts:733-817 | the loop computes the breakdown or stops with the first rule's error |
| PaymentOutcomes.ComponentOutcome | backend/src/modules/compensation/payments.service.ts:819-1035 | what each kind of rule pays: rate times distance or count to the cent, bonus and penalty exactly on their side of the threshold, guarantee the rounded difference in its period |
| PaymentOutcomes.BreakdownOutcome | backend/src/modules/compensation/payments.service.ts:733-773 | one component for each rule, in order, on the sum of those in front; and which are listed as applied |
| Payments.CalculatePayment | backend/src/modules/compensation/payments.service.ts:330-394 | the calculation is latest rules, filter, metrics and breakdown |
| PaymentOutcomes.CalculationOutcome | backend/src/modules/compensation/payments.service.ts:330-394 | the same for a whole calculation, on the metrics of the routes; an unordered period is refused |
| Payments.CurrentRules | backend/src/modules/compensation/payments.service.ts:372-381 | the rules paid are exactly the last versions that are active and in effect at the end of the period |
| Payments.CalculationUsesCurrentRules | backend/src/modules/compensation/payments.service.ts:330-394 | over any rule history and order of rows: when a payment is computed, and its one component per current rule |
| Payments.CalculationKeepsGuarantee | backend/src/modules/compensation/payments.service.ts:330-394 | over any rule history and routes of no negative distance, a payment keeps the value of a current guarantee if every current penalty has a name in front of it |
| Calendar.CivilOfDayNumber | backend/src/modules/compensation/payments.service.ts:1088-1105 | dates and day numbers determine each other, leap years included |
| Calendar.DaysFollow | backend/src/modules/compensation/payments.service.ts:1088-1105 | day 0 is 1 January 1970 and each day is followed by the next one of the calendar |
| Calendar.MonthsAreKnown | backend/src/modules/compensation/payments.service.ts:1103-1105 | 30 days have April, June, September and November, February 28 or 29, the others 31 |
| Calendar.DaysInUtcMonthIsMonthLength | backend/src/modules/compensation/payments.service.ts:1103-1105 | day 0 of the next month is the last day of this one, in the year Date.UTC takes it for |
| Calendar.AtMostOnePeriod | backend/src/modules/compensation/payments.service.ts:1054-1078 | at most one of daily, weekly and monthly matches any two instants |
| Calendar.MonthlyIff | backend/src/modules/compensation/payments.service.ts:1067-1074 | monthly is first to last day of one month, but for February of year 0 |
| Calendar.MonthlyCoversTheMonth | backend/src/modules/compensation/payments.service.ts:1067-1074 | a monthly period has 28 to 31 days, as many as its month exactly if it is not that February |
| Calendar.WeeklyIff | backend/src/modules/compensation/payments.service.ts:1088-1101 | the exact rule: days from start to end, and the days by which Date.UTC moves the end further than the start, make six |
| Calendar.WeeksAreRecognisedIff | backend/src/modules/compensation/payments.service.ts:1064-1066 | a period of seven days is recognised, and one that is recognised has seven days, exactly if both ends move alike |
| Calendar.FebruaryOfYearZero | backend/src/modules/compensation/payments.service.ts:1103-1105 | 28 of 29 days pass for a month |
| Calendar.WeeksThatAreNot | backend/src/modules/compensation/payments.service.ts:1088-1101 | a real week that does not match, and 1900 years and a week that do |
| RuleVersions.VersionsAreConsecutive | backend/src/modules/compensation/payment-rules.service.ts:51-232 | through any calls the versions of each key of each company are exactly 1 to k, in this order |
| RuleVersions.OldVersionsNeverChange | backend/src/modules/compensation/payment-rules.service.ts:142-232 | no call changes or removes a row |
| RuleVersions.UpdateSucceedsIff | backend/src/modules/compensation/payment-rules.service.ts:142-217 | exactly when an update succeeds; the unique key on versions is never the reason that it does not |
| RuleVersions.UpdatedRowIsLatest | backend/src/modules/compensation/payment-rules.service.ts:188-217 | the row of a successful update is the latest of the same key, one version further |
| RuleVersions.CreatedRow | backend/src/modules/compensation/payment-rules.service.ts:51-92 | a rule is created as version 1 with the fields given, or why not |
| RuleVersions.UpdatedFields | backend/src/modules/compensation/payment-rules.service.ts:180-217 | a field that is left out keeps its value, one that is given, null included, has that value |
| RuleVersions.UpdateRefusal | backend/src/modules/compensation/payment-rules.service.ts:142-178 | why an update is refused |
| RuleVersions.UpdateCanBeUndone | backend/src/modules/compensation/payment-rules.service.ts:142-217 | a further update can take a successful one back exactly if the window of the old row is ordered and the id unused; it restores all but id, version and author exactly if the conditions were stable |
| RuleVersions.ConfigIsKeptIff | backend/src/modules/compensation/payment-rules.service.ts:180-199 | an update without type, value and conditions writes the same configuration exactly if the conditions are stable |
| RuleVersions.LatestIsMaximumPerKey | backend/src/modules/compensation/payments.service.ts:677-691 | for any order of rows: one rule of each key and no other, a highest version, sorted by name |
| RuleVersions.LatestIsVersionK | backend/src/modules/compensation/payment-rules.service.ts:257-271 | of the k versions of a key, exactly version k is kept |
| RuleVersions.CollectLatestRules | backend/src/modules/compensation/payment-rules.service.ts:257-271 | the loop over a Map computes this selection |
| RuleVersions.RuleStore.CreatePaymentRule | backend/src/modules/compensation/payment-rules.service.ts:51-92 | adds version 1 of a key or nothing, and keeps the invariant |
| RuleVersions.RuleStore.UpdatePaymentRule | backend/src/modules/compensation/payment-rules.service.ts:142-232 | adds the next version or nothing, and keeps the invariant |
| RuleConfig.RoundTrip | backend/src/modules/compensation/payment-rule-config.ts:10-46 | parsing what was built returns the value and the normalised conditions |
| RuleConfig.BuildIff | backend/src/modules/compensation/payment-rule-config.ts:10-122 | a configuration is built exactly from a value that is not negative and the conditions of its type, and which error it is otherwise |
| RuleConfig.ParseIff | backend/src/modules/compensation/payment-rule-config.ts:25-46 | a configuration is parsed exactly if it is an object with a number as its value |
| RuleConfig.StoredConditionsAreParsed | backend/src/modules/compensation/payment-rule-config.ts:10-46 | the stored conditions are the parsed ones exactly if no date was given |
| RuleConfig.ValidateNormalized | backend/src/modules/compensation/payment-rule-config.ts:75-122 | normalising keeps what the checks accept |
| RuleConfig.RebuildIff | backend/src/modules/compensation/payment-rule-config.ts:10-46 | building again from what was parsed gives the same configuration exactly if the conditions are stable |
| Json.ToInputJsonValue | backend/src/modules/compensation/payment-rule-config.ts:150-185 | the recursion with its loop over entries computes the normal form |
| Json.NormalizeByKind | backend/src/modules/compensation/payment-rule-config.ts:150-185 | what becomes of each kind of value |
| Json.NormalizedIsJson | backend/src/modules/compensation/payment-rule-config.ts:150-185 | the result is JSON exactly if no function or symbol is found on the way down |
| Json.JsonIsFixed | backend/src/modules/compensation/payment-rule-config.ts:150-185 | normalising leaves exactly the JSON values alone |
| Json.NormalizeIdempotent | backend/src/modules/compensation/payment-rule-config.ts:150-185 | twice is once, exactly if no function or symbol is found on the way down |
| Json.FieldOfNormalized | backend/src/modules/compensation/payment-rule-config.ts:171-182 | an entry of a normalised object is the normalised entry |
| RouteOptions.RoundTripIff | backend/src/modules/routing/routing.service.ts:1164-1222 | options read back are those serialised, exactly if the departure time is set |
| RouteOptions.Extracted | backend/src/modules/routing/routing.service.ts:1205-1222 | otherwise the route date takes the place of the departure time and nothing else changes |
| RouteOptions.ExtractedFromAnything | backend/src/modules/routing/routing.service.ts:1205-1222 | how each option is read from any stored value, and what stands for a missing one |
| RouteOptions.OptionsFollowTheRequests | backend/src/modules/routing/routing.service.ts:1031-1058 | after any build and updates each stored option is the last one asked for, and the departure time is the route date |
| Tenant.ApplyTenantIsolation | backend/src/prisma/tenant-prisma.helper.ts:74-127 | the stepwise assignment of arguments computes the rewriting |
| Tenant.RewriteKeepsArgs | backend/src/prisma/tenant-prisma.helper.ts:90-127 | which arguments are the caller's and which are rewritten |
| Tenant.MergeKeepsFilter | backend/src/prisma/tenant-prisma.helper.ts:129-138 | the filter keeps every entry of the caller but the owner |
| Tenant.InjectKeepsData | backend/src/prisma/tenant-prisma.helper.ts:140-168 | created data keep every item and entry of the caller but the owner |
| Tenant.ContextIsNeededIff | backend/src/prisma/tenant-prisma.helper.ts:62-88 | scoped models need a company; everything else passes as it is |
| Tenant.IsolateIdempotent | backend/src/prisma/tenant-prisma.helper.ts:74-189 | rewriting twice is rewriting once |
| Tenant.WriteRefusedIff | backend/src/prisma/tenant-prisma.helper.ts:140-189 | a write is refused exactly if its data, nested arrays included, name another company |
| TenantTables.CallIsConfinedIff | backend/src/prisma/tenant-prisma.helper.ts:74-189 | a listed action leaves the rows of other companies alone and moves none, exactly if a unique key refuses it or all rows it writes belong to its company; what it reads and deletes always does |
| TenantTables.SelectionIff | backend/src/prisma/tenant-prisma.helper.ts:129-138 | a rewritten call selects exactly the rows of model and company that pass the caller's own filter |
| TenantTables.SelectedOrder | backend/src/prisma/tenant-prisma.helper.ts:129-138 | rows are found in the order of the table |
| TenantTables.CallReachesTheWanted | backend/src/prisma/tenant-prisma.helper.ts:74-189 | a read answers with exactly these rows, deleteMany removes and updateMany writes exactly them, single actions take the first |
| TenantTables.CallCreates | backend/src/prisma/tenant-prisma.helper.ts:140-168 | a create, or an upsert that finds nothing, adds the caller's data under the company |
| TenantTables.CallStaysHomeIff | backend/src/prisma/tenant-prisma.helper.ts:74-189 | for every listed action with data that set the owner at most once: all rows written are of its company exactly if no row found is updated with data that set another owner |
| TenantTables.RunStaysHomeIff | backend/src/prisma/tenant-prisma.helper.ts:74-189 | every call of a run writes rows of its own company only exactly if none does that |
| TenantTables.FieldCallsStayHome | backend/src/prisma/tenant-prisma.helper.ts:74-189 | calls whose data are plain fields always do, creates and upserts included |
| TenantTables.FieldRunsStayHome | backend/src/prisma/tenant-prisma.helper.ts:74-189 | so do all calls of a run |
| TenantTables.CompanyRelationMoves | backend/src/prisma/tenant-prisma.helper.ts:170-189 | an update that connects the `company` relation passes and changes the owner |
| TenantTables.CallSeesItsCompanyIff | backend/src/prisma/tenant-prisma.helper.ts:74-189 | for a call that writes rows of its own company only: effect and answer are those on a table with the company's rows alone, exactly if it meets no unique key of another company |
| TenantTables.NonInterferenceIff | backend/src/prisma/tenant-prisma.helper.ts:74-189 | in any interleaving of calls that write rows of their own companies only: a company ends with the rows and gets the answers it would without the others, exactly if none of its calls meets such a key |
| TenantTables.OthersKeepTheirRows | backend/src/prisma/tenant-prisma.helper.ts:74-189 | in a run of such calls, whatever the keys do, a company without a call keeps its rows |
| TenantTables.ForeignKeyIsNoticed | backend/prisma/schema.prisma:127-148 | a courier profile for a user who has one in another company is refused |
| Profiles.ProfilesFitTheRoles | backend/src/modules/users/users.service.ts:221-312 | after any calls a user is an active courier exactly if a courier profile other than inactive exists, an active dispatcher exactly if an active dispatcher profile exists; emails are unique in a company |
| Profiles.ProfilesOfAnyRun | backend/src/modules/users/users.service.ts:73-334 | the same from the empty directory on; and nobody has a live courier and a live dispatcher profile |
| Profiles.PerformKeepsInv | backend/src/modules/users/users.service.ts:73-219 | a call changes nobody but the user it names, and nothing if it fails |
| Profiles.CreateOutcome | backend/src/modules/users/users.service.ts:73-128 | when a user is created, and every row of it |
| Profiles.OwnerOutcome | backend/src/modules/tenant-provisioning/tenant-provisioning.service.ts:209-229 | the owner of a company is an active user without profiles |
| Profiles.UpdateOutcome | backend/src/modules/users/users.service.ts:130-219 | when an update is refused, and that it writes what is given and keeps the rest |
| Profiles.StatusAfterUpdate | backend/src/modules/users/users.service.ts:314-334 | an active courier keeps the status through an update, everyone else who becomes one starts offline |
| Profiles.ToggleIff | backend/src/modules/couriers/couriers.service.ts:84-136 | the toggle works for exactly the active couriers of the company who are not suspended, makes them available or offline as asked and writes nothing else |
| Profiles.ToggleRefusal | backend/src/modules/couriers/couriers.service.ts:84-112 | why a toggle is refused |
| Profiles.OnlineIsActive | backend/src/modules/couriers/couriers.service.ts:261-263 | whoever is shown online is an active courier |
| Profiles.UserDirectory.NewUser | backend/src/modules/users/users.service.ts:73-128 | the call inserts user and profiles or nothing |
| Profiles.UserDirectory.ChangeUser | backend/src/modules/users/users.service.ts:130-219 | the call writes user and profiles or nothing |
| Profiles.UserDirectory.Sync | backend/src/modules/users/users.service.ts:221-312 | the sequence of upserts and updates has the effect of the synchronisation |
| Profiles.UserDirectory.ToggleCourier | backend/src/modules/couriers/couriers.service.ts:84-136 | the guarded update writes the status or nothing |

## Left out

- Request headers, integration credentials and their checks in front of `importOrder`; order fields other than company, external id and order number there.
- Updates that change the external id of an order: they let the id map lead to a renamed order.
- Tokens, headers, the redirect to the login page and the auth store of the HTTP client.
- Failures of the database or of the queue once a webhook event is queued, crashes between writes, and jobs that the queue delivers twice.
- Payloads of webhooks and their signatures; the history fields `sends` and `delayed` are not in the source.
- The race of two route builds between conflict check and transaction: a service call is one step.
- Coordinates beyond known or unknown, planned arrival times, distances, route metadata and the other fields of orders, which no modelled decision reads.
- Order listing filters, time-window parsing and the events that services emit besides status changes.
- Reasons and details of payment components, payment statuses and the payment row itself.
- NaN, infinities, floating-point representation and amounts of 10^21 and more, where `toFixed` switches to exponents.
- Dates beyond the range of `Date`, and invalid ones, which `toISOString` refuses.
- Cyclic objects, getters and inherited entries in JSON normalisation; storing is taken to return what was written.
- Filters that reach into related rows, and writes to rows of other tables through nested data.
- Prisma actions that the helper does not list, and calls that bypass the tenant.
- A profile is named by its user, so the separate ids of profile rows, courier positions and last-seen times are not modelled.
- Passwords, names and phone numbers of users.
- Controllers, request validation, logging, audit, notifications, zones, platform administration, company settings and the user interface.
