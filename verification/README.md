# Order management, verified

This project models the order-management service: how an order is received, allocated against an
inventory service, promised, released to the floor, cancelled and promised again, while any number of
requests run at the same time against one database, and while a relay carries what happened to other
services. It also models the read models that follow the service's events.

The main results are about whole runs and every interleaving:

- **One order at a time.** Although a load is three separate reads, every committed order is one use
  case applied to exactly the order committed before it, one version up; a stale or torn load can
  never be saved (`Serializability`).
- **Events in order.** With one relay, the first sends of an order's outbox rows follow the order of
  the committed versions, across concurrent writers, rollbacks, failed sends, lost relay commits and
  crashes (`OutboxOrder`, `RelayOrder`). The outbox is exactly the rows of the committed transactions
  (`OutboxContents`).
- **Released lines.** Over any run the committed events of an order list every released line exactly
  once and nothing else, as long as the publishes of first passes succeed; without that the exception
  has an exact condition (`History.EventsListEachReleasedLineOnce`, `History.NobodyIsSilent`).
- **Life cycle.** In every committed state of every run: a ship-complete order has no released line or
  only released ones, released is never left, cancellation is all or nothing, reservation ids match
  statuses, a held order waits (`History`).
- **Reservations.** After any pass that commits every line holds exactly what inventory granted it,
  no line is asked about twice, no two reservations share a key (`ReservationTheorems`,
  `PassConservation`, `ReservationKeys`).
- **Promises.** The search by a deadline is exact; groups partition the lines; splitting an order
  never delays a line; when it moves the date shown, and when a repromise breaks a deadline, has an
  exact condition (`PromiseTheorems`, `SplitPromises`, `RepromiseTheorems`, `Schedule`).
- **At most once.** One committed effect per idempotency key and per source event (`Idempotency`,
  `ProcessedMarks`, `RepromiseOnce`).
- **Done, and done right.** In any reachable state a use case that nobody stands in the way of is
  committed, with its order, its events and its mark (`UndisturbedRuns`, and by use case `JobsDone`); a
  fresh idempotent request is served whatever others do between its steps (`IdempotencyProgress`). What
  a pass writes, releases, announces and reports is stated in terms of the answers it got alone
  (`PassOutcome`, `UseCaseOutcomes`), what is promised in terms of the windows offered alone
  (`PromiseAnswers`), and what a report shows in terms of the events alone (`AnalyticsRows`).
- **Read models.** The two-table projection answers every query like the single map, and both depend
  only on which events there were (`AnalyticsTheorems`, `AnalyticsSets`, `PromiseHealth`); the replayed
  path cache is ready exactly when it has caught up (`PathCache`).
- **Tables.** The machine of the first two results is refined by what the service really has: its three
  order tables hold every run (`TableRefinement`), and a relay pass over the outbox table, whatever
  fails in it, is a sequence of the machine's steps (`RelayRefinement`). Passes drain the table however
  many of them fail (`Relay.PassesDrain`).

## How it is put together

Entities are values in `Orders`, with functions for their transitions. The classes the service
changes in place (`OrderAggregate.Order`, `OrderRepo.Repository`, `Relay.Outbox`,
`UnitOfWork.Session`, the two analytics stores, the two Kafka consumers) and the loops of the passes
and use cases are imperative, and each method is proved equal to a function on values. The theorems
are about those functions. `OrderSystem` is the concurrent machine: use cases are its parameter, so
its guarantees (`Serializability`, `OutboxOrder`, `RelayOrder`, `OutboxContents`, `ProcessedMarks`)
hold for any that leave an order's id and version alone; `History` instantiates it with the real ones.
A request to receive comes in two forms there. With a database it runs under an idempotency key
(internal/adapters/inbound/http/server.go:87-98): its intake and its first pass are then one
transaction, which inserts the order and may update it, and this is the form that is deployed. Where no
key's transaction is open they are two. All run theorems hold for both.

What comes from outside is a parameter: inventory answers per line, publishes and saves that may
fail, the clock, the schedule, capability and capacity functions, and every step at which a
transaction may fail, a commit may be lost or a process may crash. From the database the machine
takes only unique-index blocking, row locks held to the end of a transaction, atomic commit and an
id sequence that never goes back; from the message broker only that each partition delivers in order.

## Findings

- A repromise ignores the external deadline: it takes an order out of it exactly when a stored group
  lists the line and the line is allocated or released (`RepromiseTheorems.RepromiseKeepsDeadlineIff`,
  with a witness in `RepromiseTheorems.RepromiseBreaksADeadline`). The in-run deadline theorem is
  therefore about runs without a repromise of that order.
- The comment at internal/domain/order/order.go:337-340 says the date of the latest group is never
  earlier than the single promise. It can be (`SplitPromises.SummaryCanBeEarlier`), and is not exactly
  when some allocated line cannot depart before the single promise by itself
  (`SplitPromises.SummaryNotEarlierIff`, `SplitPromises.SummaryEqualsPromiseIff`).
- The comment at internal/domain/order/promise_policy.go:329-339 says that lines with the same promise
  share a group. The group index is a map keyed by time values, which compare with their zone object,
  and the schedule loads one for every search
  (internal/adapters/outbound/kafkacptschedule/schedule.go:32). UTC and the local zone of the process
  are shared objects; in any other zone two lines that make the same window stand in two groups
  (`SplitPromises.EqualPromisesCanSplit`; the exact condition is `PromiseTheorems.ShareGroupIff`).
- Under an idempotency key the middleware's transaction is the outermost one and commits error
  responses too (internal/adapters/inbound/http/idempotency.go:230-272), so an event that an encoder
  refuses, which is no failed statement, does not undo what was written before it. The committed order
  is sound and strands no reservation, but it can be released without a message on the integration
  stream that says so: exactly when the integration encoder refuses the order-level event of a request
  that releases (`EncodedRows.IntegrationIsToldIff`, `EncodedRows.ReleaseCanBeSilent`). No encoder that
  is wired today is known to refuse such an event: their only errors come from building the envelope
  (internal/adapters/kafka/cloudevents/cloudevents.go:66-86), which an order with an id passes. While
  none does, every release is announced (`JoinedReceive.PublishedRequestAnnouncesAll`).
- A joined unit of work does not undo its own writes when its caller swallows the error
  (`UnitOfWork.SwallowedScopeIsNotUndone`, `UnitOfWork.SwallowedWriteSurvives`).
- The analytics consumer records an id before it applies the event, so an event whose first
  application fails is never counted, whatever is redelivered
  (`AnalyticsConsumer.CountedIffFirstLands`, `AnalyticsConsumer.RedeliveryDoesNotRepair`).
- Which definition a lookup returns depends on map order exactly when two different definitions share
  the longest matching prefix (`PathCatalogue.DefinitionIgnoresOrderIff`,
  `PathCatalogue.DefinitionCanDependOnOrder`).
- A replayed cache whose topic has lost the last message below a watermark handles all there is and
  never becomes ready (`PathCache.ReadyAtTheEndIff`, `PathCache.LostLastMessageKeepsItWaiting`).
- A truncated cause is one character longer than its comment says (`Allocation.CutIsTooLongIff`).

## Model

| member | source | states |
|---|---|---|
| `Orders.MoveKeeps` | internal/domain/order/order.go:438-537 | a line transition that succeeds changes that line alone, keeps numbers, goods and the match of reservation ids with statuses, and never touches a released or cancelled line |
| `Orders.MoveIsLegalIff` | internal/domain/order/order.go:438-537 | each transition is allowed from exactly its statuses, with its own error from every other |
| `Orders.MoveLeaves` | internal/domain/order/order.go:438-537 | after a transition a line holds a reservation exactly if it is allocated or released, the one granted if one was |
| `Orders.StatusIff` | internal/domain/order/order.go:395-430 | between use cases each of the seven statuses means exactly one situation of the lines |
| `Orders.IndexFrom` | internal/domain/order/order.go:606-613 | looking a line up finds the first line with that number, or none |
| `Orders.LatestGroup` | internal/domain/order/order.go:355-375 | the running latest is the first of the groups with the latest cutoff |
| `Orders.SummaryDescribesLatestGroup` | internal/domain/order/order.go:355-375 | the three summary fields describe one and the same group, and its cutoff is the latest of all groups |
| `OrderAggregate.Order.New` | internal/domain/order/order.go:113-126 | a new order numbers its lines by position and starts at version 1 without a promise |
| `OrderAggregate.Order.Rehydrate` | internal/domain/order/order.go:178-186 | an order rebuilt from rows has exactly the stored state |
| `OrderAggregate.Order.FindLine` | internal/domain/order/order.go:606-613 | the linear search finds the first line with the number |
| `OrderAggregate.Order.LinesWithStatus` | internal/domain/order/order.go:596-604 | the lines in a status, in line order, as the order's own objects |
| `OrderAggregate.Order.AllocatedReservationIDs` | internal/domain/order/order.go:584-592 | the reservation ids of the allocated lines, in line order |
| `OrderAggregate.Order.Status` | internal/domain/order/order.go:395-430 | the counting loop computes the status that the quantifiers over lines define |
| `OrderAggregate.CountMeans` | internal/domain/order/order.go:395-430 | a positive counter means some line, a full counter every line |
| `OrderAggregate.Order.AllocateLine` | internal/domain/order/order.go:438-454 | allocation from Pending only, with the error for every other status |
| `OrderAggregate.Order.RetryAllocateLine` | internal/domain/order/order.go:457-469 | allocation from Backordered only |
| `OrderAggregate.Order.ReconfirmReservation` | internal/domain/order/order.go:476-487 | a new reservation id on an allocated line |
| `OrderAggregate.Order.LoseLineReservation` | internal/domain/order/order.go:493-504 | an allocated line goes back to Backordered and drops its reservation |
| `OrderAggregate.Order.MarkLineBackordered` | internal/domain/order/order.go:509-523 | Pending and Backordered lines become Backordered |
| `OrderAggregate.Order.ReleaseLine` | internal/domain/order/order.go:527-537 | only an allocated line is released |
| `OrderAggregate.Order.EnsureReleasable` | internal/domain/order/order.go:543-553 | the gate is open exactly for a partial order or one whose lines are all allocated or released |
| `OrderAggregate.Order.EnsureCancellable` | internal/domain/order/order.go:557-564 | cancellation is open exactly while no line is released |
| `OrderAggregate.Order.Cancel` | internal/domain/order/order.go:572-580 | every line becomes Cancelled, or nothing changes and the error says why |
| `OrderAggregate.Order.SetPromise` | internal/domain/order/order.go:296-307 | the three summary fields take the promise, with no departure id for an empty one |
| `OrderAggregate.Order.SetPromiseGroups` | internal/domain/order/order.go:355-375 | the groups are stored and the summary is that of the latest group |
| `PromisePolicies.SlowestLead` | internal/domain/order/promise.go:67-83 | the longest lead time among the lines that count, attained by one of them |
| `PromisePolicies.PromiseDate` | internal/domain/order/promise.go:67-83 | the loop computes the date of the slowest line, and none without lines |
| `PromisePolicies.PromisableMembers` | internal/domain/order/promise_policy.go:245-253 | the lines considered are exactly the allocated and released ones |
| `PromisePolicies.FirstFit` | internal/domain/order/promise_policy.go:98-119 | the window found fits every line and no earlier one does |
| `PromisePolicies.BestBy` | internal/domain/order/promise_policy.go:158-204 | the window found qualifies and no qualifying one has a later cutoff |
| `PromisePolicies.SearchFeasibleBy` | internal/domain/order/promise_policy.go:158-204 | the loop over windows computes the latest qualifying cutoff |
| `PromisePolicies.AllocatedLines` | internal/domain/order/promise_policy.go:245-253 | the loop collects the allocated and released lines in order |
| `PromisePolicies.ComputePromiseGroups` | internal/domain/order/promise_policy.go:340-390 | one group for ship-complete, the grouped per-line promises otherwise, nothing without lines |
| `PromisePolicies.PromisePerLine` | internal/domain/order/promise_policy.go:340-390 | each line's own promise, or nothing as soon as one has none |
| `PromisePolicies.GroupByPromise` | internal/domain/order/promise_policy.go:340-390 | the index map puts every line in the group of its promise as a map key, which is the promise together with the zone object its cutoff carries |
| `PromiseTheorems.FeasibleByIsExact` | internal/domain/order/promise_policy.go:158-204 | the search succeeds exactly when some offered window by the deadline fits every allocated line, and returns a network promise at the latest such cutoff |
| `PromiseTheorems.FeasibleByIgnoresWindowOrder` | internal/domain/order/promise_policy.go:158-204 | the cutoff found does not depend on the order of the windows |
| `PromiseTheorems.FeasibleByIsMonotone` | internal/domain/order/promise_policy.go:158-204 | a later deadline stays feasible, at a cutoff no earlier |
| `PromiseTheorems.PromisableIsFeasible` | internal/domain/order/promise_policy.go:98-119 | an order promised a window by the deadline is feasible by it |
| `PromiseTheorems.AllocatedOrderIsPromised` | internal/domain/order/promise_policy.go:98-119 | an order with an allocated line always gets a promise |
| `PromiseTheorems.GroupedIsPartition` | internal/domain/order/promise_policy.go:340-390 | groups have pairwise distinct keys in order of first occurrence and hold exactly the lines with their key |
| `PromiseTheorems.GroupingConservesLines` | internal/domain/order/promise_policy.go:340-390 | grouping neither loses nor duplicates a line number |
| `PromiseTheorems.GroupsExistWhenPromiseDoes` | internal/domain/order/promise_policy.go:340-390 | there are groups exactly when there is a single promise, which is when a line is allocated |
| `PromiseTheorems.ShipCompleteIsOneGroup` | internal/domain/order/promise_policy.go:340-390 | a ship-complete order has one group of all its allocated lines at the whole-order promise |
| `PromiseTheorems.GroupsPartitionAllocatedLines` | internal/domain/order/promise_policy.go:340-390 | a partial order's groups partition its allocated lines by the key of each line's own promise |
| `PromiseTheorems.EachAllocatedLineInOneGroup` | internal/domain/order/promise_policy.go:340-390 | every allocated line number is in exactly one group, once, and no other number is in any |
| `PromiseTheorems.GroupsCarryEachLinesOwnPromise` | internal/domain/order/promise_policy.go:340-390 | the group of a line carries the promise the line would get as the only line of an order |
| `PromiseTheorems.EachCountedLineInOneGroup` | internal/domain/order/promise_policy.go:340-390 | in either kind of order every allocated line is in exactly one group, once, and no other number is in any |
| `PromiseTheorems.ShareGroupIff` | internal/domain/order/promise_policy.go:354-388 | two lines of a partial order share a group if and only if each alone gets the same promise and, for a window, both searches got the same zone object |
| `PromiseTheorems.SharedZoneGroupsByPromise` | internal/domain/order/promise_policy.go:329-388 | where all searches share one zone object the groups have pairwise distinct promises |
| `PromiseTheorems.SingleLinePromise` | internal/domain/order/promise_policy.go:278-327 | the promise for one line of an order, with its special fallback, is that of the line alone |
| `PromiseTheorems.LineAloneIsNoLater` | internal/domain/order/promise_policy.go:208-232 | with ascending windows a line alone departs no later than the whole order |
| `PromiseTheorems.SplittingNeverDelays` | internal/domain/order/promise_policy.go:340-390 | with ascending windows every group, and the summary the order shows, departs no later than the whole-order promise, at capability basis |
| `PromiseAnswers.PromiseIs` | internal/domain/order/promise_policy.go:98-119 | an order with an allocated or released line is promised the first offered window that all such lines make, or else the slowest lead time; any other is not promised |
| `PromiseAnswers.FeasibleByIs` | internal/domain/order/promise_policy.go:158-204 | the search by a deadline fails exactly when no offered window at or before it fits every such line, and otherwise finds the latest that does |
| `PromiseAnswers.DeadlineOrderIsPromised` | internal/application/usecases/allocation.go:243-257 | promising a deadline order: one network group at the latest feasible cutoff, listing exactly the allocated lines, if there is one, and no change otherwise |
| `PromiseAnswers.PromisedByDeadlineIff` | internal/application/usecases/allocation.go:243-257 | a deadline order without a promise gets one if and only if a window at or before the deadline fits every allocated or released line |
| `PromiseAnswers.PassPromisesByDeadline` | internal/application/usecases/allocation.go:350-393 | what a pass leaves of a deadline order carries the promise made by that rule with every answer in |
| `PromiseAnswers.OrdinaryOrderIsPromised` | internal/application/usecases/allocation.go:258-261 | without a deadline: one group of all counted lines at the whole-order promise if ship-complete, groups of each line's own promise if partial, no change without a counted line; the summary is that of a latest group |
| `SplitPromises.SummaryIsLatestLine` | internal/domain/order/order.go:337-375 | a partial order's summary date is the latest of its lines' own dates |
| `SplitPromises.SummaryNotEarlierIff` | internal/domain/order/order.go:337-375 | at any basis, the summary date is not earlier than the single promise if and only if some allocated line cannot depart before it by itself |
| `SplitPromises.SummaryEqualsPromiseIff` | internal/domain/order/order.go:337-375 | at capability basis the summary equals the single promise if and only if every offered window that some allocated line fits is at or after it |
| `SplitPromises.ShipCompleteShowsItsPromise` | internal/domain/order/order.go:337-375 | a ship-complete order always shows its single promise |
| `SplitPromises.SummaryCanBeEarlier` | internal/domain/order/order.go:337-375 | a concrete partial order whose summary date is earlier than its single promise |
| `SplitPromises.EqualPromisesCanSplit` | internal/domain/order/promise_policy.go:329-339 | a concrete partial order whose two lines have equal promises and stand in two groups |
| `Schedule.ComputeNextCutoffs` | internal/adapters/outbound/kafkacptschedule/schedule.go:28-83 | the windows are the earliest future occurrences of the days searched, ascending; an error exactly for a zone or time that does not parse; none for a non-positive count |
| `Schedule.Collect` | internal/adapters/outbound/kafkacptschedule/schedule.go:46-71 | the nested loops find every occurrence of the horizon after the start, once |
| `Schedule.SortByInstant` | internal/adapters/outbound/kafkacptschedule/schedule.go:73-73 | an ascending permutation, with no promise about simultaneous cutoffs |
| `Schedule.BeyondHorizonIsLater` | internal/adapters/outbound/kafkacptschedule/schedule.go:53-63 | an occurrence the search does not look at is later than any it does |
| `Schedule.NEarliestOverAllDays` | internal/adapters/outbound/kafkacptschedule/schedule.go:28-83 | a full result is the earliest over all future days, not only the days searched |
| `Schedule.FewerMeansAll` | internal/adapters/outbound/kafkacptschedule/schedule.go:28-83 | a shorter result is every occurrence of the horizon |
| `Schedule.OccursAtIff` | internal/adapters/outbound/kafkacptschedule/schedule.go:46-71 | a cutoff occurs at an instant if and only if it is later than the start, the local time of day is the cutoff's, and the local day is one it runs on |
| `Schedule.WeekGoesRound` | internal/adapters/outbound/kafkacptschedule/schedule.go:46-71 | the days are named in the order of the week, from the Thursday of the epoch |
| `Schedule.SearchedUntil` | internal/adapters/outbound/kafkacptschedule/schedule.go:53-63 | the search ends at the fifteenth local midnight after the one that today started with |
| `Allocation.TruncateCause` | internal/application/usecases/allocation.go:33-39 | a cause is kept whole up to 500 characters; a longer one becomes its first 500 and the ellipsis |
| `Allocation.CutIsTooLongIff` | internal/application/usecases/allocation.go:31-39 | the cut text exceeds the 500 characters of the comment exactly when the cause does, and does for a concrete cause of 501 |
| `AllocationTheorems.AllocateLinesKeep` | internal/application/usecases/allocation.go:59-124 | whatever is answered, the reservation loop releases and cancels nothing, touches no released or cancelled line, keeps reservation ids matched and publishes line events only |
| `AllocationTheorems.ReconfirmLinesKeep` | internal/application/usecases/allocation.go:576-620 | the same of reconfirmation, which never counts an allocation |
| `AllocationTheorems.WithStatusLists` | internal/domain/order/order.go:596-604 | the listing is exactly the lines in the status, strictly ascending |
| `AllocationTheorems.ReleaseIsAllOrNothing` | internal/application/usecases/allocation.go:470-497 | behind a shut gate nothing moves; otherwise every allocated line is released and reported once, in line order, and nothing else changes |
| `PassTheorems.PassWritesWhatItReleases` | internal/application/usecases/allocation.go:350-431 | every pass stores at most one order, changed only by line moves and release behind the gate, and a committed pass announces exactly the lines it newly released, in order |
| `ReservationTheorems.IntakeConservesReservations` | internal/application/usecases/allocation.go:350-458 | for every script of answers, if the pass commits or its save succeeds then the ids granted are exactly the ids on the lines it leaves, in line order; without a save it stores nothing |
| `PassConservation.PassConservesReservations` | internal/application/usecases/allocation.go:350-458 | for any pass that commits, every persisted line that was asked about holds exactly what it was granted, every other line what it held |
| `PassConservation.UseCasesConserveReservations` | internal/application/usecases/allocation.go:576-639 | the same for the implicit first pass, a retry and a release on demand, reconfirmed and lost reservations included |
| `ReservationTheorems.ReserveIsAskedOnce` | internal/application/usecases/allocation.go:350-431 | no line is asked about twice in a pass |
| `ReservationTheorems.PassKeepsDeadline` | internal/application/usecases/allocation.go:229-262 | what a pass stores for a deadline order has no promise or a network promise within the deadline, if the order it started from had |
| `PassReports.PartialOutcomeCountsLineEvents` | internal/application/usecases/allocation.go:143-184 | the counts of a partial outcome are the numbers of line events written in the same transaction |
| `PassReports.ReportsMatchStoredOrder` | internal/application/usecases/allocation.go:470-497 | every reported line is released in the stored order, and described as that order describes it |
| `PassReports.ReportedPromiseIsOfItsGroup` | internal/application/usecases/allocation.go:286-294 | the promise reported is that of a group that lists the line, and none if no group does |
| `PassReports.ReportSays` | internal/application/usecases/allocation.go:470-497 | a report names the goods of a released line, its class by the number of lines and units, and the promise of the last stored group that lists it, or none |
| `PassReports.CancelGivesBackEveryReservation` | internal/application/usecases/cancel_order.go:30-68 | a cancellation that commits has given back every allocated line's reservation and counts them |
| `PassProgress.StoredPromiseIsFresh` | internal/application/usecases/allocation.go:350-458 | whatever a pass stores, in whichever way it ends, carries the promise computed after its reservations |
| `PassProgress.AllocatedOrderGetsItsPromise` | internal/application/usecases/allocation.go:258-261 | without a deadline an allocated order is promised, its groups list every allocated line once and no other, and its summary is one of them |
| `PassProgress.FullGrantReleasesAll` | internal/application/usecases/allocation.go:350-431 | when everything is granted and nothing fails, a pass commits with every line released |
| `PassProgress.FullGrantAllocatesHeld` | internal/application/usecases/allocation.go:394-399 | with the release held back, it commits with every line of its kind allocated and no other status changed |
| `PassProgress.HeldOrderIsReleased` | internal/application/usecases/release_held_order.go:50-94 | the release on demand of a held, fully allocated order releases all of it |
| `PassOutcome.ReservationsAre` | internal/application/usecases/allocation.go:350-393 | what the reservations of any pass write, keep, count and fail with, in terms of the answers and publishes alone |
| `PassOutcome.RenewalsAre` | internal/application/usecases/allocation.go:576-639 | the same of reconfirmation, lost reservations included |
| `PassOutcome.PassLeaves` | internal/application/usecases/allocation.go:143-184 | after a save there is an order-level event if and only if the pass granted, lost or released something and the stored lines are in an announced situation; it is OrderAllocated exactly when all lines are allocated or all released, and OrderPartiallyAllocated with the counts of the pass otherwise, with the promise of the stored order; the pass commits exactly when that publish succeeds |
| `PassOutcome.UnsavedPass` | internal/application/usecases/allocation.go:394-431 | when the save fails nothing is kept and the failure is reported |
| `PassOutcome.LeftStatus` | internal/application/usecases/allocation.go:401-423 | a line is newly released if and only if it is allocated when the pass comes to release and the pass may release |
| `UseCaseOutcomes.StoppedPassKeepsGrants` | internal/application/usecases/allocation.go:442-458 | a pass stopped by a failure saves and tells of what was granted, with its promise, if anything was, and otherwise saves nothing; the failure is reported either way |
| `UseCaseOutcomes.FailedRenewalSavesNothing` | internal/application/usecases/allocation.go:401-415 | a failure while reconfirming rolls the pass back |
| `UseCaseOutcomes.PassPersists` | internal/application/usecases/allocation.go:350-458 | what any pass leaves persisted is the order its inputs say, or one with nothing newly released |
| `UseCaseOutcomes.PassReleasesIff` | internal/application/usecases/allocation.go:350-431 | what any pass stores has a newly released line if and only if it is to release, nothing fails before its save, and the gate is open on an allocated line |
| `UseCaseOutcomes.ReleasingPassIsTold` | internal/application/usecases/allocation.go:143-184 | a pass that releases has an order-level event that reports it, and commits if and only if that event is published |
| `UseCaseOutcomes.RetryReleasesIff` | internal/application/usecases/retry_allocation.go:42-61 | a retry does nothing without a backordered line, and otherwise stores a released line if and only if the order is not held, nothing fails and enough of the backordered and allocated lines is granted, reconfirmation answers included |
| `UseCaseOutcomes.RetryGetsEverythingGranted` | internal/application/usecases/retry_allocation.go:42-61 | with everything granted a retry commits, stores once and releases every line; of a held order it allocates every backordered line |
| `UseCaseOutcomes.HeldReleasesIff` | internal/application/usecases/release_held_order.go:50-94 | a release on demand stores a released line if and only if nothing fails before its save and enough of the allocated lines is granted again; without a hold or an allocated line it writes nothing |
| `UseCaseOutcomes.CancelGoesAheadIff` | internal/application/usecases/cancel_order.go:30-68 | a cancellation commits if and only if no line is released, every reservation is taken back and both writes succeed, and then cancels every line, changes nothing else and tells how many reservations it gave back |
| `UseCaseOutcomes.RetryTells` | internal/application/usecases/retry_allocation.go:42-61 | a retry is refused exactly without a backordered line, and otherwise reports what its pass reports |
| `UseCaseOutcomes.HeldTells` | internal/application/usecases/release_held_order.go:50-94 | a release on demand is refused exactly for an order never held, succeeds without an allocated line, and otherwise reports what its pass reports |
| `UseCaseOutcomes.CancelTells` | internal/application/usecases/cancel_order.go:30-68 | a cancellation reports the first thing that stands in its way |
| `UseCaseOutcomes.ReceivedIff` | internal/application/usecases/receive_order.go:151-242 | a request is accepted if and only if its intent is consistent, each line has goods, a positive quantity and an active path, and there is an id and a line; the order has exactly the lines requested, on the paths named or chosen |
| `UseCaseOutcomes.RefusedBecause` | internal/application/usecases/receive_order.go:151-242 | a refused request gets the first error in the order of the checks |
| `AllocationMethods.AllocateEach` | internal/application/usecases/allocation.go:59-124 | the loop over the order object does what the function on values does, for every answer |
| `AllocationMethods.ReconfirmAllocatedLines` | internal/application/usecases/allocation.go:576-620 | the loop reserves again exactly the allocated lines not just reserved |
| `PassMethods.PromiseOrder` | internal/application/usecases/allocation.go:229-262 | a deadline order is promised by feasibility or not at all, any other by groups |
| `PassMethods.PromiseGroupByLine` | internal/application/usecases/allocation.go:286-294 | the nested loops index every line number by the last group that lists it |
| `PassMethods.ReleaseAll` | internal/application/usecases/allocation.go:470-497 | the loop releases and reports behind the gate |
| `PassMethods.PublishOutcome` | internal/application/usecases/allocation.go:143-184 | the event matches the derived status, and is silent only when nothing happened |
| `PassMethods.SalvageFailure` | internal/application/usecases/allocation.go:442-458 | partial progress is saved and made visible; its own failures are joined to the cause |
| `PassMethods.ReconfirmAndRelease` | internal/application/usecases/allocation.go:626-639 | a ship-complete order that lost a reservation is saved unreleased, any other goes on to release |
| `PassMethods.RunPass` | internal/application/usecases/allocation.go:350-431 | the whole imperative pass makes exactly the writes, in order, that the function on values gives |
| `UseCaseMethods.BuildDomainLines` | internal/application/usecases/receive_order.go:221-242 | each line is routed, checked for its goods and then for an active path, in order; the first bad one is the error |
| `UseCaseMethods.NewOrderFor` | internal/application/usecases/receive_order.go:151-179 | a request is refused before anything is stored, or becomes a new, perhaps held, order |
| `UseCaseMethods.Receive` | internal/application/usecases/receive_order.go:151-206 | intake and the implicit pass are two transactions, the second only after the first committed; the caller gets the committed order even when the pass fails, or the error of the intake, or that of reading the order again |
| `UseCaseMethods.StoreAndAllocate` | internal/application/usecases/receive_order.go:181-268 | after a failed pass the order handed back is the one read again, which is what is committed, or the error of that read |
| `UseCaseMethods.ReceiveKeyed` | internal/application/usecases/receive_order.go:151-206 | under an idempotency key intake and pass write in one transaction; the caller gets the order in its row, even when the pass fails |
| `UseCaseMethods.StoreAndAllocateKeyed` | internal/application/usecases/receive_order.go:181-268 | both parts join the open transaction, and what they have written is committed whichever of them failed |
| `UseCaseMethods.ReceiveAnswers` | internal/application/usecases/receive_order.go:181-267 | the caller of a request gets the committed order, or the failure of the intake, or, exactly if the pass failed and the order cannot be read again, that failure |
| `UseCaseMethods.KeyedAnswers` | internal/application/usecases/receive_order.go:181-267 | under a key the caller gets the order as the request commits it, unless the receipt cannot be published |
| `UseCaseMethods.Retry` | internal/application/usecases/retry_allocation.go:42-61 | refused without backordered lines; otherwise the pass, whose failure is the caller's; without a failure the order in memory is the committed one |
| `UseCaseMethods.ReleaseHeld` | internal/application/usecases/release_held_order.go:50-94 | an order never held is refused, one without allocated lines succeeds unchanged, any other goes through the release pass |
| `UseCaseMethods.Cancel` | internal/application/usecases/cancel_order.go:30-68 | the boundary is checked before any reservation is given back; a refusal or a reservation that is not taken back is the error and leaves the order as it was |
| `UseCaseMethods.GroupOf` | internal/application/usecases/repromise_order.go:146-155 | the nested loops find the first group that lists the line |
| `UseCaseMethods.Repromise` | internal/application/usecases/repromise_order.go:86-142 | the promise is rewritten exactly when the line's group exists before and after and its promise moved |
| `UseCaseTheorems.PlanSameRow` | internal/application/usecases/allocation.go:350-458 | every use case saves the order under the id and version it was loaded with, and its events name that order |
| `UseCaseTheorems.ReturnedOrderIsCommitted` | internal/application/usecases/allocation.go:350-431 | a pass that reports no failure leaves in memory exactly the order it has committed |
| `UseCaseTheorems.NoSaveNoRelease` | internal/application/usecases/allocation.go:364-380 | a transaction that commits without a save announces no released line |
| `UseCaseTheorems.PlanFollows` | internal/application/usecases/allocation.go:350-431 | every use case keeps the life cycle and announces exactly what it newly released |
| `UseCaseTheorems.CancelFollows` | internal/application/usecases/cancel_order.go:30-68 | a committed cancellation cancels every line of an order without released lines |
| `UseCaseTheorems.RepromiseFollows` | internal/application/usecases/repromise_order.go:86-142 | a repromise changes nothing but the promise |
| `UseCaseTheorems.RepromiseRecordsTheMove` | internal/application/usecases/repromise_order.go:98-141 | a repromise stores the freshly computed groups, and its event names the line's departures before and after, whose promises differ |
| `RepromiseTheorems.RewritesIff` | internal/application/usecases/repromise_order.go:86-142 | for an order within its deadline, a signal rewrites the promise if and only if a stored group lists the line and the line is allocated or released |
| `RepromiseTheorems.RewrittenIff` | internal/application/usecases/repromise_order.go:86-142 | for every order: the promise is rewritten if and only if a stored group lists the line, the line is allocated or released, and the promise of the first group listing it differs in departure, basis or instant from the one computed now |
| `RepromiseTheorems.RepromiseWritesIff` | internal/application/usecases/repromise_order.go:120-142 | for every order and whether or not the writes succeed: what a repromise saves, publishes and commits if the promise has moved, and that it only marks the signal if not |
| `RepromiseTheorems.RepromiseKeepsDeadlineIff` | internal/application/usecases/repromise_order.go:114-133 | a signal leaves an order within its deadline if and only if no stored group lists the line, or the line is neither allocated nor released |
| `RepromiseTheorems.RepromiseBreaksADeadline` | internal/application/usecases/repromise_order.go:114-133 | a concrete order within its deadline that a repromise takes out of it, whatever the policy and the time |
| `UseCaseTheorems.ReceivedStartsFresh` | internal/application/usecases/receive_order.go:151-179 | an accepted order starts with every line pending, no promise, version 1, and held only if ship-complete |
| `UseCaseTheorems.FirstPassStrandsNothing` | internal/application/usecases/receive_order.go:181-205 | after a committed first pass the ids granted are exactly those on the persisted lines, in line order |
| `IntakePass.ReservationsSettle` | internal/application/usecases/allocation.go:59-124 | the reservations of a received order go through if and only if every line gets an answer and its event is published, and then each line holds its answer |
| `IntakePass.FirstPassReleasesIff` | internal/application/usecases/allocation.go:364-431 | the first pass leaves a released line if and only if every line goes through, the order is not held, something is granted, and everything is if it is ship-complete |
| `IntakePass.ReleasingPassCommitsIff` | internal/application/usecases/allocation.go:364-431 | a pass that releases ends well if and only if its order-level event, which there is, is published |
| `JoinedReceive.JoinedOrderIsSound` | internal/adapters/inbound/http/idempotency.go:206-272 | when a request runs in the transaction of its idempotency key, whatever fails on the way the committed order keeps the life cycle, what was received and the deadline |
| `JoinedReceive.PassMeetsItsOwnRow` | internal/adapters/outbound/postgres/order_repo.go:75-106 | there no save fails by itself: the pass meets the row its own transaction has inserted, at the version it expects |
| `JoinedReceive.ReceiptIsAnnouncedIff` | internal/application/usecases/receive_order.go:181-188 | there the received order, which is committed either way, is announced if and only if its publish succeeds |
| `JoinedReceive.JoinedConservesReservations` | internal/application/usecases/receive_order.go:193-206 | there the committed order holds exactly the granted ids, in line order, whatever is answered and whichever publish fails |
| `JoinedReceive.JoinedAnnouncesReleasesIff` | internal/application/usecases/receive_order.go:193-206 | there the committed events announce exactly the released lines, unless intake and every line go through, the order is not held, enough is granted to release, and the order-level publish fails |
| `JoinedReceive.PublishedRequestAnnouncesAll` | internal/application/usecases/receive_order.go:193-206 | there, if every publish succeeds, exactly what is released is announced |
| `EncodedRows.Publish` | internal/adapters/outbound/postgres/outbox_publisher.go:52-74 | a publish asks the encoders in turn and leaves the rows of those before the first refusal |
| `EncodedRows.IntegrationIsToldIff` | internal/adapters/outbound/postgres/outbox_publisher.go:52-74 | the rows that a keyed request commits tell the integration stream exactly of the released lines, unless the integration encoder refuses the event that names them; a refusal by the analytics encoder does not matter |
| `EncodedRows.OrderLevelAnnounces` | internal/application/usecases/allocation.go:143-184 | the order-level event of a pass that goes through announces exactly what the pass releases |
| `EncodedRows.ReleaseCanBeSilent` | internal/adapters/inbound/http/idempotency.go:230-272 | a concrete order committed as released without any message of the integration stream naming a line, if that encoder refuses its event |
| `OrderRepo.Repository.SaveHeader` | internal/adapters/outbound/postgres/order_repo.go:75-106 | guarded update, else insert, else conflict, with nothing written on conflict |
| `OrderRepo.Repository.Save` | internal/adapters/outbound/postgres/order_repo.go:57-145 | a save succeeds exactly when the version guard passes, writes the three tables, and leaves everything as it was on a conflict; the version in memory follows an update |
| `OrderRepo.Repository.SaveLines` | internal/adapters/outbound/postgres/order_repo.go:108-118 | new line rows are inserted, existing ones change status and reservation only |
| `OrderRepo.Repository.PersistPromiseGroups` | internal/adapters/outbound/postgres/order_repo.go:149-167 | the groups of the order are replaced, numbered from one |
| `OrderRepo.Repository.FindByID` | internal/adapters/outbound/postgres/order_repo.go:205-232 | the object rebuilt from the three tables has exactly the stored state, and there is none without a header |
| `OrderRepo.FindAfterSave` | internal/adapters/outbound/postgres/order_repo.go:57-145 | load after save gives back the saved order at the stored version, although goods and shipment preference are not rewritten |
| `OrderRepo.SaveTouchesOneOrder` | internal/adapters/outbound/postgres/order_repo.go:57-167 | saving one order leaves every other order as it was |
| `OrderRepo.SavedOrderFitsAgain` | internal/adapters/outbound/postgres/order_repo.go:57-145 | what a save leaves behind satisfies the condition of the next save of the order |
| `OrderRepo.UpsertedHolds` | internal/adapters/outbound/postgres/order_repo.go:108-118 | after the upserts every line has its own row and other rows are untouched |
| `Serializability.EveryRunIsSerial` | internal/adapters/outbound/postgres/order_repo.go:57-145 | in every run the committed orders are the committed transactions executed one after the other, each on exactly the order committed before it, one version up, or creating it, with an update on top if its transaction saves twice |
| `Serializability.GroupsKeep` | internal/adapters/outbound/postgres/order_repo.go:205-232 | an order pieced together from three reads is the committed one, or its version says it is out of date |
| `Serializability.CommitKeepsClients` | internal/adapters/outbound/postgres/order_repo.go:57-145 | a commit leaves every other request right about what it has read and locked |
| `Serializability.TornLoadIsNeverSaved` | internal/adapters/outbound/postgres/order_repo.go:75-106 | a load that differs from the committed order fails the version guard |
| `Serializability.StaleSaveChangesNothing` | internal/adapters/outbound/postgres/order_repo.go:176-194 | a save that fails the guard changes nothing committed and ends its transaction |
| `OrderSystem.OnlyCommitsLeaveTraces` | internal/adapters/outbound/postgres/unit_of_work.go:88-116 | between two commits of a run, whatever fails or crashes, orders, outbox and processed events stay as they are |
| `UndisturbedRuns.UseCaseIsDone` | internal/application/usecases/retry_allocation.go:42-61 | in any reachable state a retry, release, cancellation or repromise that ends well and that nobody stands in the way of is committed: the order it saves replaces the stored one, one version up, its events follow in the outbox, once per encoder, and its source event is processed |
| `UndisturbedRuns.KeyedReceiveIsDone` | internal/adapters/inbound/http/server.go:87-98 | in any reachable state an accepted keyed request is committed, intake and pass together, whatever the pass runs into |
| `UndisturbedRuns.IntakeIsDone` | internal/application/usecases/receive_order.go:181-188 | without a key the intake commits by itself, with its one event, and its pass is next |
| `UndisturbedRuns.FirstPassFollows` | internal/application/usecases/receive_order.go:189-205 | that pass is then committed on the order as received, if it ends well |
| `UndisturbedRuns.RefusedAtOnce` | internal/application/usecases/repromise_order.go:86-95 | a refused request, and a repromise whose source event is processed already, changes nothing |
| `UndisturbedRuns.UnknownOrderIsMarked` | internal/application/usecases/repromise_order.go:97-105 | a repromise of an order that is not stored commits its mark and nothing else |
| `JobsDone.ReceivedOrderReachesTheFloor` | internal/application/usecases/receive_order.go:151-242 | in any reachable state an accepted keyed request with everything granted ends with every line released in the committed order |
| `JobsDone.RetriedOrderIsReleased` | internal/application/usecases/retry_allocation.go:42-61 | in any reachable state a retry with everything granted ends with every line released in the committed order, and no other order changed |
| `JobsDone.HeldOrderReachesTheFloor` | internal/application/usecases/release_held_order.go:50-94 | the same of the release on demand of a held, fully allocated order |
| `JobsDone.CancelledOrderIsCancelled` | internal/application/usecases/cancel_order.go:30-68 | in any reachable state a cancellation whose conditions hold leaves every line cancelled, nothing else changed, and its event once per encoder in the outbox |
| `JobsDone.MovedPromiseIsRecorded` | internal/application/usecases/repromise_order.go:86-142 | in any reachable state a signal that has moved a line's promise leaves the order promised anew, both departures announced, and the signal processed |
| `JobsDone.StandingPromiseIsLeft` | internal/application/usecases/repromise_order.go:86-142 | a signal that has not moved it leaves every order and the outbox as they were, and is processed |
| `TableRefinement.TablesHoldEveryRun` | internal/adapters/outbound/postgres/order_repo.go:57-145 | in every run the three tables, written by nothing but the committed saves, an insert and an update in one transaction included, load every order exactly as the machine has it committed |
| `TableRefinement.StatementsAgreeInEveryRun` | internal/adapters/outbound/postgres/order_repo.go:205-232 | in every run three queries at three moments load what the machine assembles, and the version guard in the tables agrees with the machine's |
| `TableRefinement.SaveRefines` | internal/adapters/outbound/postgres/order_repo.go:57-145 | a save of an order with the goods and preference it was loaded with is one write in the map of orders, inserts and updates alike |
| `OutboxOrder.RowIdsFollowVersions` | internal/adapters/outbound/postgres/outbox_publisher.go:52-74 | in every run the outbox rows of one order are numbered in the order of the versions committed, although rows are written before the save |
| `OutboxOrder.CommitsAfter` | internal/adapters/outbound/postgres/order_repo.go:205-232 | a committing transaction's rows come after those of every earlier one that saved the order, because it read the version first |
| `OutboxContents.OutboxHoldsCommittedEvents` | internal/adapters/outbound/postgres/outbox_publisher.go:52-74 | the outbox is exactly the rows of committed transactions, one per event and encoder, in order |
| `RelayOrder.FirstSendsFollowCommits` | internal/adapters/outbound/postgres/outbox_relay.go:105-196 | in every run an order's rows are first sent in the order of its committed versions |
| `RelayOrder.PublishedMeansSent` | internal/adapters/outbound/postgres/outbox_relay.go:161-181 | no committed row is marked published without having been sent |
| `RelayOrder.ClaimKeeps` | internal/adapters/outbound/postgres/outbox_relay.go:121-154 | a claimed batch has, before each row, every unpublished row that belongs before it |
| `Relay.Outbox.RelayOnce` | internal/adapters/outbound/postgres/outbox_relay.go:105-196 | a pass sends the claimed rows in order up to the first refused send or failed mark; its marks and the recorded refusal are kept all together or, if a statement or the commit fails, not at all, while what was sent stays sent |
| `Relay.ClaimsOldestFirst` | internal/adapters/outbound/postgres/outbox_relay.go:121-154 | a claim is a prefix of the pending rows in id order |
| `Relay.ClaimIsFull` | internal/adapters/outbound/postgres/outbox_relay.go:121-154 | a claim is as large as the batch size and the pending rows allow |
| `Relay.PassPublishesOnlySent` | internal/adapters/outbound/postgres/outbox_relay.go:161-196 | whatever goes wrong, a pass publishes only rows it sent, and neither adds, removes nor unpublishes a row |
| `Relay.PassLeaves` | internal/adapters/outbound/postgres/outbox_relay.go:161-196 | what a pass leaves in each row: published with one more attempt, or one more attempt and the error of the refused send, or unchanged, all of it only if the pass keeps anything |
| `Relay.PassTells` | internal/adapters/outbound/postgres/outbox_relay.go:105-196 | what a pass sends and what it reports: the refused send, the failed mark or the failed commit it ends with |
| `Relay.PassShrinks` | internal/adapters/outbound/postgres/outbox_relay.go:161-196 | no pass makes more rows pending, and one without a failure publishes a full batch or all there is |
| `Relay.PassesDrain` | internal/adapters/outbound/postgres/outbox_relay.go:74-90 | any mixture of failing and good passes leaves no row pending once the good ones have had room for all |
| `Relay.GoodPassesDrain` | internal/adapters/outbound/postgres/outbox_relay.go:74-90 | pending rows over batch size, plus one, good passes leave none |
| `RelayRefinement.PassIsMachineSteps` | internal/adapters/outbound/postgres/outbox_relay.go:105-196 | a pass over the table, whatever goes wrong in it, is a sequence of the machine's steps with the same sends and the same rows published |
| `RelayRefinement.ClaimIsClaimable` | internal/adapters/outbound/postgres/outbox_relay.go:121-154 | what a pass claims from the table is a batch the machine may claim |
| `ProcessedMarks.OneCommitPerSourceEvent` | internal/application/usecases/repromise_order.go:86-96 | under any redelivery and interleaving at most one committed transaction answers to a source event, and the event is processed if and only if one has |
| `ProcessedMarks.CommitMarks` | internal/adapters/outbound/postgres/repromise_processed_events_repo.go:24-32 | a commit makes its mark processed and leaves every other request's mark unprocessed |
| `ProcessedMarks.FailureLeavesNoTrace` | internal/adapters/outbound/postgres/unit_of_work.go:88-116 | an attempt that holds a source event and fails anywhere in a run leaves no trace, and the event is then neither processed nor locked: a redelivery claims it at once |
| `RepromiseOnce.AtMostOneRewritePerSourceEvent` | internal/application/usecases/repromise_order.go:86-142 | under any redelivery and interleaving, all that is ever committed for one source event is nothing, or one rewritten order and one event that it was promised again |
| `RepromiseConsumer.HandleWithRetry` | internal/adapters/inbound/kafka/repromise_consumer.go:393-407 | attempts stop at the first answer that is not a plain failure, at cancellation, or at three |
| `RepromiseConsumer.HandleMessage` | internal/adapters/inbound/kafka/repromise_consumer.go:337-384 | an offset is committed exactly past a message handled or dead-lettered, if that succeeds; a version conflict is left uncommitted; anything else undisposed is an error |
| `RepromiseConsumer.NoAttemptAfterAnAnswer` | internal/adapters/inbound/kafka/repromise_consumer.go:393-407 | no attempt follows a success or a version conflict |
| `History.LifecycleInEveryRun` | internal/domain/order/order.go:438-580 | in every committed state, with intake and first pass in one transaction or in two: ship-complete release and cancellation are all or nothing, reservation ids match statuses, held orders are ship-complete |
| `History.ReleasedIsForever` | internal/domain/order/order.go:527-580 | a released line stays exactly as it was for the rest of the run |
| `History.HeldUntilReleased` | internal/application/usecases/release_held_order.go:50-94 | a held order has no released line before a release on demand commits |
| `History.DeadlineKeptInEveryRun` | internal/application/usecases/allocation.go:229-262 | over runs without a repromise of it, a deadline order has no promise or a network promise within the deadline |
| `History.EventsListEachReleasedLineOnce` | internal/application/usecases/allocation.go:143-184 | over any run the committed events of an order list every released line exactly once and nothing else, except lines that a keyed request releases in silence, which are never listed |
| `History.NobodyIsSilent` | internal/application/usecases/allocation.go:143-184 | no line is released in silence where intake and first pass are two transactions, or where the publishes of first passes succeed |
| `History.ReleaseStep` | internal/application/usecases/allocation.go:350-431 | one committed transaction announces exactly the lines it newly releases of its own order, and none of another, unless it is a keyed request that releases in silence |
| `ReservationKeys.PassKeysAreDistinct` | internal/application/usecases/allocation.go:67-85 | no two reservation calls of a pass share a key |
| `ReservationKeys.VersionsNeverReused` | internal/adapters/outbound/postgres/order_repo.go:75-106 | between two moments of a run an order is unchanged or at a higher version |
| `ReservationKeys.LaterPassUsesNewKeys` | internal/application/usecases/allocation.go:67-85 | passes separated by a committed save share no reservation key |
| `ReservationKeys.SavingPassesShareNoKey` | internal/application/usecases/allocation.go:67-85 | in every run two committed passes that each saved the same order used different reservation keys, whatever lines they asked about |
| `WorkUnits.ParseUndoesFormat` | internal/application/usecases/allocation.go:510-561 | parsing undoes formatting for every non-empty order id, even one that contains the marker, and every positive line number |
| `WorkUnits.ParseIsSound` | internal/application/usecases/allocation.go:546-561 | what parses has a non-empty order id and a positive number around a marker |
| `WorkUnits.LastIndex` | internal/application/usecases/allocation.go:546-548 | the split is at the last occurrence of the marker |
| `WorkUnits.ReservationKeyIsInjective` | internal/adapters/outbound/inventorystorage/client.go:48-50 | two reservation keys are equal only for the same order, line and attempt |
| `WorkUnits.TheTwoNames` | internal/adapters/outbound/inventorystorage/client.go:48-50 | the two names of a line, as other services read them |
| `UnitOfWork.Session.Execute` | internal/adapters/outbound/postgres/unit_of_work.go:88-116 | the outermost scope commits everything or nothing; an inner one joins |
| `UnitOfWork.AllOrNothing` | internal/adapters/outbound/postgres/unit_of_work.go:88-116 | a unit of work leaves every put that it and whatever joined it reached, if the program ends well and commits, and otherwise the database as it was |
| `UnitOfWork.JoinedPutsEverything` | internal/adapters/outbound/postgres/unit_of_work.go:89-91 | inside a transaction every put that is reached stands, those of failed inner scopes included |
| `UnitOfWork.JoiningIsInlining` | internal/adapters/outbound/postgres/unit_of_work.go:59-69 | an inner scope means exactly what its body means in place |
| `UnitOfWork.SwallowedScopeIsNotUndone` | internal/adapters/outbound/postgres/unit_of_work.go:89-91 | a joined scope whose error is swallowed leaves what one rolled back on its own would if and only if its program does not end in an error or puts only what was there already |
| `UnitOfWork.SwallowedWriteSurvives` | internal/adapters/outbound/postgres/unit_of_work.go:89-91 | a concrete write that survives a swallowed failure |
| `Idempotency.AtMostOneEffectPerKey` | internal/adapters/inbound/http/idempotency.go:73-133 | over any run at most one handler execution's writes are committed per key |
| `Idempotency.CommittedRowsAreComplete` | internal/adapters/inbound/http/idempotency.go:214-272 | every committed key row holds the full response of the execution committed with it, for the body that execution was given |
| `Idempotency.RepliesAreTheCommittedResponse` | internal/adapters/inbound/http/idempotency.go:153-204 | every answered request got the committed response of its key and had the committed body |
| `Idempotency.DifferentBodyHasNoEffect` | internal/adapters/inbound/http/idempotency.go:170-177 | a request with a different body commits nothing and gets no stored response |
| `Idempotency.RetryReplays` | internal/adapters/inbound/http/idempotency.go:153-204 | a retry with the same body is answered from the row and executes nothing |
| `Idempotency.RowsAreFinal` | internal/adapters/inbound/http/idempotency.go:73-133 | a committed row is never changed |
| `IdempotencyProgress.FreshRequestIsServed` | internal/adapters/inbound/http/idempotency.go:214-272 | a fresh request by itself appends one execution, its own, with its writes and response, leaves its row and no other change, and is sent that response |
| `IdempotencyProgress.EveryRunServesANewKey` | internal/adapters/inbound/http/idempotency.go:73-133 | the same after any run, for any key that is not committed and not held |
| `IdempotencyProgress.FreshRequestCommits` | internal/adapters/inbound/http/idempotency.go:214-272 | however the steps of others fall between its own, a fresh request commits its row and execution, whether or not the confirmation is heard |
| `IdempotencyProgress.CommittedRequestIsAnswered` | internal/adapters/inbound/http/idempotency.go:261-272 | a request that hears of its commit is sent exactly the committed response |
| `IdempotencyProgress.UnheardCommitIsTheSameCommit` | internal/adapters/inbound/http/idempotency.go:256-259 | a lost confirmation answers an internal error and commits the same row and execution |
| `IdempotencyProgress.OnlyCommitsHaveEffects` | internal/adapters/inbound/http/idempotency.go:214-272 | a commit adds exactly its row and its execution, and no other step touches either |
| `IdempotencyProgress.ExecutionsAreTheHandlers` | internal/adapters/inbound/http/idempotency.go:230-259 | in every run each committed execution has the writes and the response of its own handler step |
| `IdempotencyProgress.FailureFreesTheKey` | internal/adapters/inbound/http/idempotency.go:215-254 | a panic, a refused statement or a crash before the commit leaves no trace, and the key is new again |
| `IdempotencyProgress.OtherBodyIsRefused` | internal/adapters/inbound/http/idempotency.go:170-177 | a request whose key is committed for another body is told so |
| `IdempotencyProgress.InsertWaits` | internal/adapters/inbound/http/idempotency.go:103-133 | an insert waits while another open transaction holds the key |
| `Analytics.MemoryStore.FirstApply` | internal/adapters/outbound/analyticsstore/memory_store.go:70-79 | the first application of an id is told from a duplicate, and only it advances the watermark |
| `Analytics.MemoryStore.ApplyPromiseKPIs` | internal/adapters/outbound/analyticsstore/memory_store.go:113-127 | the promise facts are added to the row |
| `Analytics.MemoryStore.Apply` | internal/adapters/outbound/analyticsstore/memory_store.go:93-193 | an event counts once, on the row of its path and hour; a repromise on the row without a path |
| `Analytics.PostgresProjection.Apply` | internal/adapters/outbound/analyticsstore/postgres_projection.go:63-90 | claim and effect commit together, and a duplicate is a committed no-op |
| `Analytics.PostgresProjection.ApplyCount` | internal/adapters/outbound/analyticsstore/postgres_projection.go:97-111 | one column of one row goes up by one |
| `Analytics.PostgresProjection.ApplyAllocationOutcome` | internal/adapters/outbound/analyticsstore/postgres_projection.go:119-172 | one upsert adds the stage and every promise fact |
| `Analytics.PostgresProjection.ApplyRepromised` | internal/adapters/outbound/analyticsstore/postgres_projection.go:227-240 | the repromises of the hour go up by one |
| `AnalyticsTheorems.ProjectionEqualsMemory` | internal/adapters/outbound/analyticsstore/postgres_report.go:43-115 | for every event stream, window and path filter, the join and UNION ALL give exactly the rows of the single map |
| `AnalyticsTheorems.UnionHasNoDuplicates` | internal/adapters/outbound/analyticsstore/postgres_report.go:43-84 | the two parts of the union share no key, and no key occurs twice |
| `AnalyticsTheorems.ApplyAgrees` | internal/adapters/outbound/analyticsstore/postgres_projection.go:63-172 | an event keeps the single map equal to the join of the two tables |
| `AnalyticsSets.StreamCounts` | internal/adapters/outbound/analyticsstore/memory_store.go:70-193 | after any stream every counter is the number of distinct events that move it, and every gap sum is over them |
| `AnalyticsSets.OrderAndDuplicatesDoNotMatter` | internal/adapters/outbound/analyticsstore/memory_store.go:70-193 | streams with the same distinct events leave the same rows |
| `AnalyticsSets.StagesAddUpToDistinctIds` | internal/adapters/outbound/analyticsstore/memory_store.go:70-193 | over all rows the stage counters add up to the number of distinct ids |
| `AnalyticsRows.RowReportedIff` | internal/adapters/outbound/analyticsstore/postgres_report.go:43-115 | after any stream a row of a path and hour is reported if and only if some event of that path falls in that whole hour, the hour is in the window, and the filter lets the path through |
| `AnalyticsRows.ReportedRowIs` | internal/adapters/outbound/analyticsstore/postgres_report.go:43-115 | each column of a reported row is the number of distinct events of its kind in that hour, and the gap is the mean over those with a known cutoff |
| `AnalyticsRows.GapIsTimeLeft` | internal/adapters/outbound/analyticsstore/memory_store.go:113-127 | the gap of an event is the seconds from its time to the cutoff, and a sum of gaps adds each event's once |
| `PromiseHealth.AggregatePromiseHealth` | internal/adapters/inbound/mcp/promise_health.go:98-124 | the loop computes totals, rates over allocated orders, and the sample-weighted gap |
| `PromiseHealth.AggregatedGapIsTheExactMean` | internal/adapters/inbound/mcp/promise_health.go:98-124 | the gap aggregated over rows is exactly the mean over all samples of the distinct events |
| `PromiseHealth.SummaryCountsDistinctEvents` | internal/adapters/inbound/mcp/promise_health.go:98-124 | the totals of the summary are the numbers of distinct events in its rows |
| `PromiseHealth.RateIsPartOfWhole` | internal/adapters/inbound/mcp/promise_health.go:98-124 | a rate times the allocated orders is the part, and without allocated orders it is zero |
| `AnalyticsConsumer.Consumer.HandleMessage` | internal/adapters/inbound/kafka/analytics_consumer.go:174-201 | an event is recorded before it is applied; what is not an event, does not project or is recorded already is not applied |
| `AnalyticsConsumer.CountedIffFirstLands` | internal/adapters/inbound/kafka/analytics_consumer.go:174-201 | an event is in the read model if and only if the first delivery that recorded it was applied |
| `AnalyticsConsumer.RedeliveryDoesNotRepair` | internal/adapters/inbound/kafka/analytics_consumer.go:188-200 | a concrete event that a perfect redelivery does not bring back |
| `AnalyticsConsumer.NoFailureNoLoss` | internal/adapters/inbound/kafka/analytics_consumer.go:174-247 | if no first application fails, the read model is that of the recorded stream |
| `PathCatalogue.Lookup` | internal/domain/processpath/catalogue.go:77-99 | the loop returns the first of the definitions with the longest matching prefix, for any case folding |
| `PathCatalogue.RecognizedIff` | internal/domain/processpath/catalogue.go:77-110 | a path is recognized by a non-empty prefix followed by nothing or by a hyphen |
| `PathCatalogue.WinningPrefixIgnoresOrder` | internal/domain/processpath/catalogue.go:77-110 | in every order of the entries, lookup fails exactly when none matches and the winning prefix is the one longest match |
| `PathCatalogue.DefinitionIgnoresOrderIff` | internal/adapters/outbound/kafkacatalog/consumer.go:376-384 | the definition returned is the same in every order if and only if all longest matches are equal |
| `PathCatalogue.DefinitionCanDependOnOrder` | internal/adapters/outbound/kafkacatalog/consumer.go:376-384 | two paths with one prefix for which two orders of the entries give two definitions with different cycle times |
| `PathCatalogue.LineEligible` | internal/domain/order/path_selection.go:133-149 | a line is eligible exactly within the unit limit, with every required and no excluded attribute |
| `PathCatalogue.SortByPreference` | internal/domain/order/path_selection.go:112-122 | an ordered permutation by known cycle time, cycle time, path id |
| `PathCatalogue.Select` | internal/domain/order/path_selection.go:85-124 | fails open without candidates, refuses exactly when none is eligible, else picks one that no eligible candidate comes before |
| `PathCatalogue.SelectIgnoresOrder` | internal/domain/order/path_selection.go:85-124 | every order of the candidates gives the same path |
| `PathCatalogue.ChosenIsBest` | internal/domain/order/path_selection.go:85-149 | the candidate chosen is within its limit and attribute lists, gift wrap included, and no other that is has a shorter known cycle time, or the same one and an id first in the dictionary |
| `PathCache.Consumer.constructor` | internal/adapters/outbound/kafkacatalog/consumer.go:160-187 | with nothing to catch up with the cache is ready at once |
| `PathCache.Consumer.MarkReady` | internal/adapters/outbound/kafkacatalog/consumer.go:306-314 | the channel is closed once |
| `PathCache.Consumer.CheckReady` | internal/adapters/outbound/kafkacatalog/consumer.go:413-433 | a partition that reaches its watermark is struck off, and the cache is ready when none is left |
| `PathCache.Consumer.Handle` | internal/adapters/outbound/kafkacatalog/consumer.go:440-506 | an upsert overwrites, a deactivation removes, anything else changes nothing |
| `PathCache.Consumer.Run` | internal/adapters/outbound/kafkacatalog/consumer.go:389-411 | after any messages the cache is their replay, readiness never reverts and the channel is closed exactly once if ready |
| `PathCache.LastWriteWins` | internal/adapters/outbound/kafkacatalog/consumer.go:440-506 | a path is held exactly when the last message about it declared it, and as that message said |
| `PathCache.ReadyExactlyWhenCaughtUp` | internal/adapters/outbound/kafkacatalog/consumer.go:239-276 | for any interleaving of partitions delivered in order, a ready cache has handled every message below every watermark, and is ready as soon as it has if the message below each watermark is still there |
| `PathCache.ReadyAtTheEndIff` | internal/adapters/outbound/kafkacatalog/consumer.go:413-433 | a cache that has handled all there is becomes ready if and only if every tracked partition still holds a message at or after the last offset below its watermark |
| `PathCache.LostLastMessageKeepsItWaiting` | internal/adapters/outbound/kafkacatalog/consumer.go:413-433 | a concrete log whose last message is gone, fully handled and never ready |
| `PathCache.ReadyStays` | internal/adapters/outbound/kafkacatalog/consumer.go:413-433 | no later message takes readiness away |

## Left out

- HTTP routing, request decoding, problem details, metrics, logs, traces and the MCP wrapper: plumbing around the modelled steps.
- Kafka and Postgres clients, pools, migrations, boot retries and circuit breakers: library behaviour beyond the four assumptions named above.
- CloudEvents encoding and decoding, headers and payload shapes: an event is a value, and the number of encoders that have a row for it is a parameter.
- The CPT-schedule and path-capacity replay consumers: they repeat the readiness gate of the path cache.
- Time zone databases, daylight-saving gaps and the parsing of local times: zones have a fixed offset, and a local time is its minute of the day or unparseable.
- Floating-point rounding in the gap means: sums and means are exact reals.
- Expiry of reservations at the inventory service: every reservation call has an arbitrary answer.
- Occurrence times of events and the freshness lag: events carry no time except in the analytics read model.
- The classification lookup during intake: the path chosen for a line and whether it is active are parameters there; the choice itself is PathCatalogue.Select.
- In the machine a publish that fails leaves no row. In the source one that fails at its second encoder leaves the row of the first, which only a keyed request commits, and only for an order-level event; EncodedRows is about those rows, one request at a time.
- UseCaseMethods.Receive: the order read again after a failed pass is the one the pass left; another request that commits in between would show as well.
- Reservations of a pass that is rolled back: inventory keeps them, and a repeated pass from the same version asks for them under the same keys.
- Other actions between the steps of one relay pass: PassIsMachineSteps is about a pass on its own, while the order of sends is proved for every interleaving.
- Two relays at once: skipping locked rows shares no row but promises no global order, so the machine has one relay.
- Promise groups that mention a line reconfirmation has since lost: promises are computed first, and the model keeps that order.
- The library sort of the schedule and of the path candidates: an insertion sort stands for it, and only order and permutation are promised.
- The cleaning of lead-time configuration (internal/domain/order/promise.go:33-44): LeadTimeFor already ignores non-positive entries.
- Overflow of durations and of the version counter: integers are unbounded.
