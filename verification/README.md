# Verification of the support-ticket platform

This project models the event-driven support-ticket platform and proves its whole-run
properties: what is never lost, invented or applied twice between a service's transaction
and the read models; that the read models agree with the tickets once the pipeline is
quiet; that refresh-token families and the browser's single-flight refresh compose; and
how tickets are numbered, closed and kept within their organization.

`dafny verify dfyconfig.toml` checks all of it.

## How the model is built

Each protocol is a labelled transition system: a `State`, a `Label` per atomic step, a
total function `Step`, and `Run` over any sequence of labels. A step whose condition does
not hold changes nothing, so a theorem about `Run(Init, ls)` for all `ls` is a theorem
about every reachable state under every interleaving. Steps are split at the awaits of the
source, and each await may take effect and say so, take effect and report a failure, or
fail (`Io`). Processes may crash between any two steps, and the broker may take a delivery
back while its worker is still busy.

The services that change state are also written as classes with loops and fields
(`OutboxRelayService.Service`, `Consumers.IdempotencyService`, `Consumers.ConsumerRunner`,
`TicketsService.Service`, `TicketsService.CommentsService`, `TokenService.Service`,
`AuthInterceptor.Page`). Each method is proved to do exactly what the steps of the
transition system do, so the theorems about runs are theorems about these methods.

| file | contents |
|---|---|
| `Domain.dfy` | entities, event payloads, routing keys, queues and bindings |
| `Decimal.dfy` | printing, padding and parsing of decimal numerals |
| `Tickets.dfy` | the ticket aggregate as a transition system, numbering, lifecycle, tenancy |
| `Requests.dfy` | the request behind each event, and the last write behind each field of a ticket |
| `TicketsService.dfy`, `Pagination.dfy` | the ticket and comment services as classes, list endpoints |
| `Projections.dfy` | the three projections and what their tables say about the processed events |
| `Pipeline.dfy`, `Guarantees.dfy` | outbox, relays, queues, workers and faults; what every run guarantees |
| `OutboxRelay.dfy`, `OutboxRelayService.dfy` | the row machine of one relay, draining, the relay service as a class |
| `Consumers.dfy` | retries, the idempotency service, the consumer runner and the projectors as classes |
| `Reopening.dfy` | when a settled outbox row can change again, for any number of relays |
| `Settling.dfy` | what undisturbed ticks and handles make of every reachable state |
| `Platform.dfy` | the ticket aggregate feeding the pipeline |
| `Tokens.dfy`, `TokenService.dfy` | refresh-token families and the token service as a class |
| `Interceptor.dfy`, `AuthInterceptor.dfy` | the HTTP interceptor of one page, as steps and as a class |
| `Session.dfy` | page and token service composed |

History fields (`calls`, `landed`, `departures`, `parent`, `reported`, `swallowed`,
`successes`, `signIns`, `session`, `mine`, the context of a processed event, and a
request's send and release history) record what happened so that it can be stated. Two of
them also stand for something the source knows from its control flow: `refreshes` tells the
replay of a request that led a refresh from that of a waiter, and `mine` in `Session` keeps
other clients from presenting the page's tokens.

Routing of keys to bindings follows section 3.1.3.3 of AMQP 0-9-1 (topic exchange), for
the patterns in use: literal keys and `#`.

## Hypotheses

- Queues are bound before the first publish, and the configured exchange is `EXCHANGE`.
- A transaction commits or rolls back as a whole. The unique constraints on ticket
  references, on (organization, day) and on (event, consumer) hold; under the first, a
  violating transaction rolls back.
- A consumer callback that throws leaves its delivery in the queue.
- "Nothing is lost" and the agreement of the read models assume that no projector raises a
  unique violation of its own (`NoUniqueViolation`). `Guarantees.LastCopySurvivesIff` says
  exactly what happens otherwise. "At most once" does not need the hypothesis.
- Tickets, comments and organizations are never deleted, and users keep their organization.
- Each call of the token service is atomic, and each HTTP request reaches it at most once,
  possibly long after the page has seen an error for it; ids of rows and families are
  fresh; the token hash is injective and signatures cannot be forged.
- `maxAttempts` and `batchSize` are at least 1 where a theorem says so.

## Where the code and its documentation differ

The model follows the code in each case.

- The comment of `OutboxRelayService` says that the `running` flag prevents
  double publishing. It does so within one process only: with two relays even a dispatched
  row can become pending again (`OutboxRelayService.TwoRelaysReopenDispatchedRow`), and with
  one relay so can a row whose update to DISPATCHED took effect and reported a failure
  (`Reopening.OneRelayReopens`). `Reopening.SettledRowsChangeIff` says exactly when. The
  consumers still apply each event at most once.
- The repository's README promises no lost events. A row that reaches `maxAttempts`
  becomes FAILED and nothing replays it, and a message that exhausts its retries is
  dead-lettered; `Guarantees.NothingIsLost` has both cases, and
  `Guarantees.AccountedIffLanded` says which FAILED rows are lost.
- `runOnce` reads every unique violation as "already processed", also one raised by the
  projector, and then drops the event (`Guarantees.LastCopySurvivesIff`;
  `Settling.ViolationDropsEvent` is the run). Outside the upsert of `ticket_metrics_daily`,
  keyed by (organization, day) (backend/prisma/schema.prisma:199), no projector inserts a row
  under a unique key other than a generated id; whether concurrent upserts can raise the violation is up to the database
  client, which is not part of this model.
- The comment of `ConsumerRunner` says that the original delivery is always acknowledged.
  When the republish fails, the callback throws and the delivery stays
  (`Consumers.ConsumerRunner.HandleDelivery`).
- A comment in `TicketsService.update` lets customers edit only their own OPEN tickets. The
  code checks ownership and rejects status and priority, but not that the ticket is OPEN.
- Two interleaved closing updates enqueue ticket.closed twice for one closing
  (`Tickets.InterleavedClosesCountTwice`); `Tickets.CommitKeepsBalanceIff` gives the exact
  condition for one commit, `Tickets.InterleavedLifecycle` the exact law for every run.
- The interceptor promises a logout when the refresh fails. Its `catchError` also covers
  the leader's own replay, so a failing replay after a successful refresh logs out too.
- The interceptor's comment says that queued requests retry once the refresh completes. A
  failed refresh leaves them waiting (`Interceptor.FailedRefreshStrandsWaiter`), and the
  next successful refresh of the page replays them, even if somebody else has signed in by
  then (`Interceptor.StrandedWaiterReplaysForAnother`).
- Unsubscribing the request that leads a refresh, as a `forkJoin` does when a sibling fails,
  leaves `isRefreshing` set (`Interceptor.FlagOutlivesLeaderIff`). Only a reload or the
  failing replay of an earlier leader lowers it again. Unless such a replay is under way
  (`Interceptor.WedgedIff`) no refresh starts before a reload, and every request that meets a
  401 waits (`Interceptor.WedgedUntilReload`).

## Model

| member | source | states |
|---|---|---|
| `Decimal.PaddedNumeralsAreInvertible` | backend/src/tickets/tickets.service.ts:44-45 | a number printed and padded to any width parses back to itself, also when it is longer than the width |
| `Tickets.ReferencesDetermineNumbers` | backend/src/tickets/tickets.service.ts:44-45 | equal references have equal numbers |
| `Tickets.ReferencesSpellNumbers` | backend/src/tickets/tickets.service.ts:44-45 | a reference is "TKT-" and the number in at least six digits, and has a leading zero only if it needs one to get there |
| `Tickets.NextReference` | backend/src/tickets/tickets.service.ts:41-46 | in a numbered table, the reference made from an earlier count is taken if and only if a ticket was added since |
| `Tickets.ReferencesAreOneToN` | backend/src/tickets/tickets.service.ts:41-65 | however creations interleave, the references of the n tickets are "TKT-" and 1..n in commit order, all distinct, and each spells its number back |
| `Tickets.CreationCommitsIffCountIsCurrent` | backend/src/tickets/tickets.service.ts:53-84 | a creation adds a ticket and its event exactly when its count is still the number of tickets; otherwise it changes neither table |
| `Tickets.RunKeepsInv` | backend/src/tickets/tickets.service.ts:48-242 | in every interleaving: references, creators' membership, closing times, assignments backed by events, events right about their ticket, operations still authorized for the organization |
| `Tickets.RunExtends` | backend/src/tickets/tickets.service.ts:48-242 | no run ever removes a ticket or an event, or changes a ticket's reference, organization, creator or the presence of its closing time |
| `Tickets.ClosedTicketsHaveClosedAt` | backend/src/tickets/tickets.service.ts:153-164 | in every interleaving a CLOSED ticket has its closing time, although `update` decides from a row read before its transaction |
| `Tickets.EventsStayWithinTheTenant` | backend/src/comments/comments.service.ts:37-61 | every event ever enqueued carries the organization of its ticket, which is the acting user's organization too, and this stays true as the run goes on |
| `Tickets.CommitBalance` | backend/src/tickets/tickets.service.ts:153-191 | by how much a commit moves (closing events less departures from CLOSED less one if closed): zero, except for a closing update whose read disagrees with the row it writes |
| `Tickets.CommitKeepsBalanceIff` | backend/src/tickets/tickets.service.ts:153-191 | a commit keeps that balance for every ticket if and only if it is not a closing update that read the ticket differently closed than it is now |
| `Tickets.InterleavedLifecycle` | backend/src/tickets/tickets.service.ts:136-229 | the lifecycle law of every interleaving: that balance is the number of stale closings that close the ticket again less the number of those that close it open but had read it closed |
| `Tickets.FreshLifecycle` | backend/src/tickets/tickets.service.ts:136-229 | in a run without stale closings, closing events less departures from CLOSED are 1 for a closed ticket and 0 otherwise |
| `Tickets.SerialLifecycle` | backend/src/tickets/tickets.service.ts:136-229 | when operations do not overlap, closing events less departures from CLOSED are 1 for a closed ticket and 0 otherwise |
| `Tickets.InterleavedClosesCountTwice` | backend/src/tickets/tickets.service.ts:142-191 | a run in which two overlapping closing updates enqueue ticket.closed twice for one closing |
| `Requests.RequestsArePendingIffGranted` | backend/src/tickets/tickets.service.ts:123-217 | in every state a request becomes pending if and only if its actor is a member, may find the ticket (own organization; a customer only own tickets), sets no status or priority if a customer, and assigns an active agent or admin of the organization; what it carries then, and that it stays so until it is committed or rolled back |
| `Requests.EveryEventWasAskedFor` | backend/src/tickets/tickets.service.ts:48-242 | in every interleaving each event was enqueued by the commit of one request that was granted when it was made, and says who asked and what: actor, ticket, organization, assignee, internal flag; ticket.closed only for a closing update of a ticket read open |
| `Requests.LastWriteWins` | backend/src/tickets/tickets.service.ts:53-224 | however operations overlap, title, status, priority, assignee and closing time of each ticket are those of the last commit that was asked to write them: a creation starts OPEN, and MEDIUM unless told otherwise, an assignment writes assignee and IN_PROGRESS, an update exactly what it is given, and the time if it closes what it read open |
| `Requests.AssigneeIsLastAssigned` | backend/src/tickets/tickets.service.ts:219-239 | in every interleaving a ticket's assignee is the one named by the last ticket.assigned event about it, and none before the first |
| `Requests.CommentsAreAlwaysTold` | backend/src/comments/comments.service.ts:37-58 | in every interleaving the comment.created events are exactly the comments in order, each with the number, ticket, organization, author and internal flag of its comment |
| `Requests.DeactivatedUsersAreNotAssigned` | backend/src/tickets/tickets.service.ts:206-217 | once a user is deactivated or made a customer, no run assigns a ticket to the user until the user is changed again, except by assignments already under way |
| `TicketsService.Service.NextReference` | backend/src/tickets/tickets.service.ts:41-46 | "TKT-" and the count plus one, in at least six digits |
| `TicketsService.Service.Create` | backend/src/tickets/tickets.service.ts:48-85 | the store after the call is the begin and commit of one creation; the new ticket field by field and its event; it fails exactly when the reference is taken, and then changes nothing |
| `TicketsService.Service.FindOne` | backend/src/tickets/tickets.service.ts:123-134 | not found exactly outside the organization, forbidden exactly for a customer who did not create the ticket, and the ticket otherwise |
| `TicketsService.Service.FindAll` | backend/src/tickets/tickets.service.ts:87-121 | the requested page, in the order that the sort expression stands for, of the tickets that the actor may see and the status, priority, assignee and search filters select, with their total and number of pages |
| `TicketsService.Service.Update` | backend/src/tickets/tickets.service.ts:136-196 | the store after the call is the begin and commit of one update; which error each refusal gives, and that it changes nothing; field by field the stored ticket: what the request sets, the closing time exactly if it closes an open ticket, the rest as before; one ticket.updated and exactly then one ticket.closed, naming the actor |
| `TicketsService.Service.Assign` | backend/src/tickets/tickets.service.ts:198-242 | the store after the call is the begin and commit of one assignment; it succeeds exactly if the actor may find the ticket and the assignee is an active agent or admin of the organization; then assignee and IN_PROGRESS are stored, all else stays, and one ticket.assigned names assignee and actor |
| `TicketsService.CommentsService.Create` | backend/src/comments/comments.service.ts:24-62 | the store after the call is the begin and commit of one comment, with the same access control as the ticket; the comment has this ticket and author and is internal exactly if that was asked for by staff, and the event carries the same |
| `TicketsService.CommentsService.FindForTicket` | backend/src/comments/comments.service.ts:64-87 | the requested page of the comments the actor may read, or the refusal that `findOne` gives |
| `TicketsService.CommentsForAreReadable` | backend/src/comments/comments.service.ts:71-75 | over all pages a reader gets exactly the ticket's comments, each as often as written, without internal notes for customers |
| `TicketsService.CommentsForKeepsOrder` | backend/src/comments/comments.service.ts:77-84 | readers get the comments in the order in which they were written |
| `TicketsService.EventPublisherService.Enqueue` | backend/src/messaging/event-publisher.service.ts:14-28 | exactly one outbox row is added to the caller's store |
| `Pagination.SortExpressionsMeanWhatTheySay` | backend/src/common/utils/pagination.util.ts:25-39 | an expression orders by its field if that is allowed, upwards exactly for "asc", ignoring further parts; no other field is ever ordered by |
| `Pagination.TicketsAreSortedBy` | backend/src/tickets/tickets.service.ts:22-28 | tickets are listed newest first, unless asked for by creation, change, priority, status or reference, upwards exactly for "asc" |
| `Pagination.ListedShowsThePage` | backend/src/common/utils/pagination.util.ts:15-55 | page 1 and twenty rows a page unless asked otherwise; the items are the rows from (page - 1) * limit on, at most limit of them; total and totalPages are the number of rows and its ceiling in pages, at least 1 |
| `Pagination.PagesPartitionTheListing` | backend/src/common/utils/pagination.util.ts:41-55 | pages 1..totalPages in a row are the listing, no page exceeds the limit, a page of a non-empty listing is empty if and only if it lies beyond totalPages, and an empty listing has one page |
| `Pagination.PagesListWhatFindOneFinds` | backend/src/tickets/tickets.service.ts:87-134 | for every total order, limit and set of filters, paging lists exactly the tickets for which `findOne` succeeds for that actor and which have the status, priority and assignee asked for and hold the search text in title or reference, each once and in the order asked for |
| `Pagination.NoFiltersSelectAll` | backend/src/tickets/tickets.service.ts:91-104 | absent filters and an empty search text leave no ticket out |
| `Projections.RecipientsAreEntitled` | backend/src/consumers/notification.consumer.ts:63-178 | exactly who is notified of each event: no user twice, the actor only of a creation, of an internal comment nobody but the assignee |
| `Projections.CellsCountAppliedEvents` | backend/src/consumers/analytics.consumer.ts:57-102 | each cell of the table that upserts build is the number of distinct events of its kind applied that day |
| `Projections.RowsCountAppliedEvents` | backend/src/consumers/analytics.consumer.ts:57-102 | the three columns of a metrics row are the numbers of distinct ticket.created, ticket.assigned and ticket.closed events of the organization applied that day, in this order |
| `Projections.RowsExistForAppliedDays` | backend/src/consumers/analytics.consumer.ts:91-101 | a metrics row exists if and only if some event of that organization was applied that day |
| `Projections.MetricsIgnoreOrder` | backend/src/consumers/analytics.consumer.ts:57-102 | two histories that applied the same events on the same days have the same metrics table |
| `Projections.TotalsCountAppliedEvents` | backend/src/consumers/analytics.consumer.ts:57-102 | summed over days, a counter is the number of distinct events of its kind that were applied |
| `Projections.AuditDescribesProcessedEvents` | backend/src/consumers/audit.consumer.ts:57-130 | the audit table is one row per audited event, in commit order, with its routing key, entity, actor and organization spelled out kind by kind |
| `Projections.NobodyIsToldTwice` | backend/src/consumers/notification.consumer.ts:164-178 | in the table that the processed events build, no two rows of one event go to one user |
| `Pipeline.RunKeepsSafe` | backend/src/consumers/idempotency.service.ts:24-47 | in every run: each copy carries a committed event at a bound queue within the retry limit, markers are unique, and the tables are the projections of the marked events |
| `Pipeline.RunKeepsNothingLost` | backend/src/consumers/consumer-runner.service.ts:48-116 | in every run: each dispatched row, and each row a relay is about to mark, has a trace at every queue bound to its key |
| `Pipeline.PublishCovers` | backend/src/messaging/contracts/topology.ts:34-49 | a publish that takes effect leaves a copy in every queue bound to the key |
| `Guarantees.BindingsMatchProjectors` | backend/src/messaging/contracts/topology.ts:34-49 | analytics is bound to exactly the keys that move a counter, notification to all but notification.created, audit to all |
| `Guarantees.NothingIsLost` | backend/src/consumers/consumer-runner.service.ts:48-116 | in every run each committed row is PENDING, FAILED, or queued, held, applied or dead-lettered at each bound queue |
| `Guarantees.AccountedIffLanded` | backend/src/messaging/outbox-relay.service.ts:76-103 | in every run an event is queued, held, applied or dead-lettered at a bound queue if and only if some publish of its row reached the queues, whatever the row's status |
| `Guarantees.NothingIsInvented` | backend/src/messaging/event-publisher.service.ts:8-11 | in every run each copy anywhere carries the payload of a committed row, sits at a bound queue and has at most maxRetries retries; a dead letter has exactly that many |
| `Guarantees.LastCopySurvivesIff` | backend/src/consumers/idempotency.service.ts:29-45 | running the last copy of an unapplied event keeps the event accounted for if and only if the projector raises no unique violation |
| `Settling.ViolationDropsEvent` | backend/src/consumers/idempotency.service.ts:29-45 | for every event, bound queue and configuration, a run in which the event is dispatched and published and then is nowhere for that queue: not queued, held, applied or dead-lettered |
| `Guarantees.EffectsHappenOnce` | backend/src/consumers/idempotency.service.ts:24-47 | under any relays, workers and faults, markers are unique and the tables are the fold of the projections over the marked events |
| `Guarantees.MetricsAreCounts` | backend/src/consumers/analytics.consumer.ts:57-102 | in every run each metrics cell is the number of distinct events of its kind applied that day, column by column |
| `Guarantees.MetricsAreOrderIndependent` | backend/src/consumers/analytics.consumer.ts:57-102 | runs that applied the same events on the same days end with the same metrics, whatever their order, faults and duplicates |
| `Guarantees.EachEventNotifiesOnce` | backend/src/consumers/notification.consumer.ts:63-178 | in every run each notification is due to an event that was applied and to the ticket as it was then, and no event has notified a user twice |
| `Guarantees.QuietMeansApplied` | backend/src/consumers/consumer-runner.service.ts:48-67 | once the pipeline is quiet, an event is marked for a consumer if and only if its key is bound to the consumer's queue |
| `Guarantees.QuietMetricsAgree` | backend/src/consumers/analytics.consumer.ts:57-102 | once quiet, each counter summed over days is the number of committed outbox rows of its kind |
| `Guarantees.QuietAuditAgrees` | backend/src/consumers/audit.consumer.ts:57-73 | once quiet, the audit log is exactly one describing row per committed outbox row |
| `OutboxRelay.OneRelayRowMachine` | backend/src/messaging/outbox-relay.service.ts:61-104 | with one relay and any faults, in every run: PENDING has attempts left, FAILED has used them all, DISPATCHED has reached the queues, and settled rows never change again, except one whose dispatching update reported a failure that is about to be recorded |
| `OutboxRelay.PublishedAtMostMaxAttempts` | backend/src/messaging/outbox-relay.service.ts:76-103 | with one relay and any faults, no row is handed to the broker more than maxAttempts times plus once for each of its own attempts that went unrecorded |
| `OutboxRelay.CallsAreCounted` | backend/src/messaging/outbox-relay.service.ts:76-103 | with one relay and any faults, in every run: the exact number of times a row was handed to the broker, namely its recorded attempts, the attempts at this row that a crash or a failing update left unrecorded, and one more if it is dispatched or being worked on |
| `Reopening.SettledRowsChangeIff` | backend/src/messaging/outbox-relay.service.ts:43-104 | for any number of relays, in every reachable state: the status of a settled row changes in some continuation if and only if some relay's batch holds a job for it that is not about to record it FAILED again |
| `Reopening.OneRelaySettledRowsChangeIff` | backend/src/messaging/outbox-relay.service.ts:84-99 | with one relay this happens if and only if the update to DISPATCHED reported a failure that is about to be recorded |
| `Reopening.OneRelayReopens` | backend/src/messaging/outbox-relay.service.ts:84-99 | a run of one relay that turns a dispatched row back to pending |
| `Reopening.SpentJobsChangeNothing` | backend/src/messaging/outbox-relay.service.ts:89-99 | a reachable state in which a relay holds a job for a FAILED row that stays FAILED in every continuation |
| `OutboxRelay.BatchesIsCeiling` | backend/src/messaging/outbox-relay.service.ts:45-49 | the number of batches is the ceiling of rows over batchSize |
| `OutboxRelay.DrainsInTime` | backend/src/messaging/outbox-relay.service.ts:39-104 | with working updates, ceil(N / batchSize) * maxAttempts ticks leave no PENDING row, whatever each publish does |
| `OutboxRelayService.OldestComeFirst` | backend/src/messaging/outbox-relay.service.ts:45-49 | a batch is pending rows by age, at most batchSize; a pending row is left out only if the batch is full of older ones |
| `OutboxRelayService.Service.FindPending` | backend/src/messaging/outbox-relay.service.ts:45-49 | the oldest pending rows, at most batchSize, none twice |
| `OutboxRelayService.Service.PublishRow` | backend/src/messaging/outbox-relay.service.ts:61-104 | row, queues and thrown error for each combination of outcomes of publish, mark and record |
| `OutboxRelayService.Service.PublishAll` | backend/src/messaging/outbox-relay.service.ts:51-58 | the rows are handled in order until one throws, and the flag is cleared in either case |
| `OutboxRelayService.Service.DispatchPending` | backend/src/messaging/outbox-relay.service.ts:38-59 | a tick does nothing while one runs or after the stop; otherwise it is a run of the pipeline's relay steps and ends ready for the next |
| `OutboxRelayService.Service.OnModuleDestroy` | backend/src/messaging/outbox-relay.service.ts:34-36 | later ticks are refused; a running tick goes on |
| `OutboxRelayService.BatchScriptRuns` | backend/src/messaging/outbox-relay.service.ts:51-104 | the batch loop and the step-by-step run of its rows end in the same state |
| `OutboxRelayService.TickScriptTicks` | backend/src/messaging/outbox-relay.service.ts:38-59 | an undisturbed tick of pipeline steps handles exactly the oldest pending rows, each once |
| `OutboxRelayService.RelayDrains` | backend/src/messaging/outbox-relay.service.ts:39-104 | the drain bound for runs of pipeline steps, from every state with an idle relay |
| `OutboxRelayService.TwoRelaysReopenDispatchedRow` | backend/src/messaging/outbox-relay.service.ts:9-14 | with two relays there is a run that turns a dispatched row back to pending |
| `Consumers.RetriesTerminateAndConserve` | backend/src/consumers/consumer-runner.service.ts:69-116 | n fresh messages are all settled or dead-lettered after n * (maxRetries + 1) handles in any order, each copy (queue and event) in exactly one of the two ways, whatever makes `runOnce` throw; retry headers never exceed maxRetries |
| `Consumers.TurnIsHandling` | backend/src/consumers/consumer-runner.service.ts:48-116 | one handle of that count is receive, run, requeue or dead-letter, and acknowledge in the pipeline, for every way a transaction can end: same queue, same dead letter, no marker taken back, and a settled copy is applied or was dropped by a unique violation of its projector |
| `Consumers.WorkOffMirrors` | backend/src/consumers/consumer-runner.service.ts:48-116 | over whole sequences of handles: the pipeline's queue is the backlog's, its new dead letters are exactly the buried copies, and each settled event is applied, or dropped by a unique violation of its projector |
| `Consumers.WorkOffTerminatesAndConserves` | backend/src/consumers/consumer-runner.service.ts:48-116 | n * (maxRetries + 1) handles in the pipeline empty the queues, whatever each transaction does; each original copy, by its queue and its event, is settled or a new dead letter, exactly one of the two |
| `Consumers.IdempotencyService.RunOnce` | backend/src/consumers/idempotency.service.ts:24-47 | marker and projection are both written or neither is; when an error is thrown and when the delivery counts as a duplicate |
| `Consumers.IdempotencyService.ProjectInto` | backend/src/consumers/analytics.consumer.ts:57-102 | the tables after the consumer's projector ran on the event: an audit row that describes it, or notifications of its type for its recipients, or the counter moved |
| `Consumers.ConsumerRunner.RetryOrDeadLetter` | backend/src/consumers/consumer-runner.service.ts:69-116 | one copy with an incremented header below the limit, one dead letter at the limit, none if the publish fails, and a thrown error unless the publish is confirmed |
| `Consumers.ConsumerRunner.HandleDelivery` | backend/src/consumers/consumer-runner.service.ts:48-67 | a delivery is the pipeline's run and republish steps; it throws exactly when the broker gets the copy back |
| `Settling.SettledIsDecided` | backend/src/consumers/consumer-runner.service.ts:48-116 | once no row is pending, no copy queued and no worker busy, each event is FAILED, or applied or dead-lettered at each bound queue |
| `Settling.UndisturbedRunsSettle` | backend/src/messaging/outbox-relay.service.ts:38-104 | after any run that left the relay idle and the workers free, ceil(N / batchSize) * maxAttempts ticks and n * (maxRetries + 1) handles decide every event, whatever each publish and each transaction does |
| `Platform.RunProjects` | backend/src/messaging/event-publisher.service.ts:8-11 | a run of the platform is a run of the ticket aggregate and a run of the pipeline whose outbox holds exactly the aggregate's events, in commit order |
| `Platform.CreationsCountTickets` | backend/src/tickets/tickets.service.ts:67-81 | each organization has as many ticket.created events as tickets |
| `Platform.MetricsAgreeAtQuiescence` | backend/src/consumers/analytics.consumer.ts:57-102 | once quiet, an organization's counters summed over days are its numbers of tickets, committed assignments and committed closings |
| `Platform.AuditAgreesAtQuiescence` | backend/src/consumers/audit.consumer.ts:57-130 | once quiet, the audit log is exactly one describing row per event the services committed |
| `Platform.AuditStaysWithinTheTenant` | backend/src/consumers/audit.consumer.ts:75-121 | in every run each audit row has the routing key, entity and actor of a committed event and the organization of the ticket concerned |
| `Platform.MetricsStayWithinTheTenant` | backend/src/consumers/analytics.consumer.ts:64-101 | in every run a metrics row exists only for an organization and a day on which analytics applied an event that moves a counter and is about one of the organization's tickets |
| `Platform.NotificationsReachOnlyTheEntitled` | backend/src/consumers/notification.consumer.ts:63-178 | in every run each notification goes to a member of the ticket's organization who created the ticket or was assigned by `assign` |
| `Platform.NotificationsFollowTheRules` | backend/src/consumers/notification.consumer.ts:63-178 | in every run each notification was written by one step, which applied the row's own event, has the type of exactly that kind of event, and is due to that event and the ticket as it was at that step: never to the event's actor except for a creation, of an internal comment only to the assignee of that moment |
| `Platform.ExactlyTheOwedAreTold` | backend/src/consumers/notification.consumer.ts:63-178 | in every run, when the notification consumer applies an event, exactly the users owed one get a notification: by the event itself for creations and assignments, by creator and assignee of the ticket at that moment otherwise, without the actor, of an internal comment only the assignee |
| `Tokens.FamiliesAreChains` | backend/src/auth/token.service.ts:106-163 | in every run each family is a chain of rotations of one user's tokens, all but the last revoked |
| `Tokens.OneOwner` | backend/src/auth/token.service.ts:142-162 | two tokens of one family belong to one user |
| `Tokens.RotationReplacesOneToken` | backend/src/auth/token.service.ts:156-162 | a successful rotation needs a live token, revokes it, adds exactly its live successor, and leaves every other row alone |
| `Tokens.RotationSucceedsIff` | backend/src/auth/token.service.ts:106-162 | a rotation adds a live row if and only if the token verifies and is the stored one, its row is unrevoked and not past its expiry, and its user is active |
| `Tokens.LoginSucceedsIff` | backend/src/auth/auth.service.ts:83-85 | a login adds a row if and only if the user is active: a live one with the expiries asked for, alone in its family |
| `Tokens.DeactivatedUsersGetNoTokens` | backend/src/auth/token.service.ts:143-154 | once a user is deactivated, no sequence of calls of any clients gives the user a token until the user is activated again |
| `Tokens.FailedRotationChangesNothingElse` | backend/src/auth/token.service.ts:124-154 | a rotation refused as invalid, expired or inactive changes no row; one that detects reuse revokes the whole family and no other row |
| `Tokens.LogoutRevokesTheFamily` | backend/src/auth/token.service.ts:165-179 | revoking with a token that verifies revokes its whole family and no other row |
| `Tokens.DeadFamiliesStayDead` | backend/src/auth/token.service.ts:128-179 | once a family is revoked, no later calls make a token of it live or a rotation of one succeed |
| `Decimal.EveryNumeralIsPadded` | backend/src/auth/token.service.ts:36-41 | every string of digits is some printed number with leading zeros |
| `Tokens.LifetimesMeanWhatTheySay` | backend/src/auth/token.service.ts:34-49 | a lifetime written as a number, leading zeros allowed, and a unit is that many seconds, minutes, hours or days from now, in milliseconds; every other text is seven days |
| `TokenService.Service.IssueTokens` | backend/src/auth/token.service.ts:51-104 | one live row is added, with the user, the given or a fresh family, and both expiries in their places |
| `TokenService.Service.RevokeAll` | backend/src/auth/token.service.ts:131-134 | exactly the unrevoked rows of the family get the revocation time |
| `TokenService.Service.Rotate` | backend/src/auth/token.service.ts:106-163 | outcome and table are those of the rotation step of the token model; each refusal has exactly its condition, in the order of the checks: unknown token, revoked row, row past its expiry, inactive user; otherwise the row is revoked and its successor added |
| `TokenService.Service.Revoke` | backend/src/auth/token.service.ts:165-179 | the table is that of the revocation step: a token that verifies revokes the unrevoked rows of its family and no other, any other token changes nothing |
| `Interceptor.InterceptorLaws` | frontend/src/app/interceptors/auth.interceptor.ts:40-95 | in every run each request is sent at most twice and starts at most one refresh; each waiter is released at most once, by the first refresh to succeed after it queued and with its token; while refreshing the shared token is null |
| `Interceptor.OnlyGuarded401sJoin` | frontend/src/app/interceptors/auth.interceptor.ts:50-81 | over every run: a request starts a refresh or queues behind one if and only if its first attempt met a 401, it is not exempt from authentication, and a refresh token was stored at that moment |
| `Interceptor.SuccessReleasesAll` | frontend/src/app/interceptors/auth.interceptor.ts:71-88 | a successful refresh sends every waiter off with the new token |
| `Interceptor.WaitersOutliveFailures` | frontend/src/app/interceptors/auth.interceptor.ts:71-94 | over every run: a waiter is still waiting if and only if no refresh has succeeded, the page has not been reloaded and the waiter has not been unsubscribed since |
| `Interceptor.FailedRefreshStrandsWaiter` | frontend/src/app/interceptors/auth.interceptor.ts:71-94 | a reachable page on which a request waits although no refresh is in flight, nobody is signed in and every other request has ended |
| `Interceptor.CancelledLeaderWedges` | frontend/src/app/interceptors/auth.interceptor.ts:80-94 | a run that gets there: the leading request is unsubscribed while another waits |
| `Interceptor.FlagOutlivesLeaderIff` | frontend/src/app/interceptors/auth.interceptor.ts:65-94 | over every run: the flag is raised although no request leads if and only if some step unsubscribed the only leading request and, since then, the page was not reloaded and no replay of a former leader failed |
| `Interceptor.WedgedIff` | frontend/src/app/interceptors/auth.interceptor.ts:65-94 | over every run: the page is wedged if and only if the flag has outlived its leader in that way and no former leader is replaying |
| `Interceptor.WedgedIffRaisedForever` | frontend/src/app/interceptors/auth.interceptor.ts:65-94 | over every run: the page is wedged if and only if the flag is raised in every continuation without a reload |
| `Interceptor.WedgedUntilReload` | frontend/src/app/interceptors/auth.interceptor.ts:71-94 | over every run without a reload a wedged page stays wedged and starts no refresh, and its waiters wait until they are unsubscribed |
| `Interceptor.ReplaysUseOwnSessionIff` | frontend/src/app/interceptors/auth.interceptor.ts:71-88 | in every run a leader replays with a token of the sign-in under which it met its 401, and a waiter does if and only if the request that led the refresh releasing it had met its 401 under the waiter's sign-in |
| `Interceptor.NoSignInNoMixing` | frontend/src/app/interceptors/auth.interceptor.ts:71-88 | while nobody signs in anew, a request replays only with a token of its own sign-in |
| `Interceptor.StrandedWaiterReplaysForAnother` | frontend/src/app/interceptors/auth.interceptor.ts:71-88 | a run in which a request left waiting by a failed refresh is replayed with the token of the next sign-in |
| `AuthInterceptor.Page.Intercept` | frontend/src/app/interceptors/auth.interceptor.ts:40-50 | one request is added, sent once and not refreshed for; the others are untouched |
| `AuthInterceptor.Page.OnAnswer` | frontend/src/app/interceptors/auth.interceptor.ts:50-62 | exactly a 401 to a guarded request with a stored refresh token goes to `handle401`; any other answer ends the request |
| `AuthInterceptor.Page.HandleUnauthorized` | frontend/src/app/interceptors/auth.interceptor.ts:65-81 | the request queues behind the refresh in flight, or starts one and resets the shared token |
| `AuthInterceptor.Page.OnRefreshed` | frontend/src/app/interceptors/auth.interceptor.ts:83-88 | the pair is stored, the flag cleared, and the leader and every waiter replay with the new token |
| `AuthInterceptor.Page.OnLeaderError` | frontend/src/app/interceptors/auth.interceptor.ts:89-93 | a failed refresh, or a failed replay after it, clears the flag and signs out |
| `AuthInterceptor.Page.OnReplayed` | frontend/src/app/interceptors/auth.interceptor.ts:71-94 | the end of a replay: a failing one signs out exactly if its request had led a refresh |
| `AuthInterceptor.Page.OnUnsubscribed` | frontend/src/app/interceptors/auth.interceptor.ts:83-94 | the request ends, and the flag, the tokens and every other request stay as they are |
| `AuthInterceptor.Page.SignOutNow` | frontend/src/app/services/auth.service.ts:116-129 | the stored refresh token, if any, is sent to be revoked, and both tokens are forgotten |
| `AuthInterceptor.Page.ApplySession` | frontend/src/app/services/auth.service.ts:131-134 | both tokens of the session are stored, and requests, flag and shared token stay as they are |
| `Session.CalmRunsKeepSession` | frontend/src/app/interceptors/auth.interceptor.ts:65-95 | the invariant of page, refreshes in flight and server together, over every calm run |
| `Session.CalmSessionsAreNeverReported` | frontend/src/app/interceptors/auth.interceptor.ts:65-95 | in every calm run, among other clients, with logouts delayed or lost and refresh answers delayed, lost after serving or refused before it, the server reports no reuse of the page's families, no two refreshes in flight concern one family, and while none concerns the stored token, that token is live and the only live one of its family |
| `Session.SignOutOvertakes` | frontend/src/app/services/auth.service.ts:116-124 | a sign-out while the refresh of the stored token is in flight, answered or not, can lead to a reuse report |
| `Session.ReloadRepeats` | frontend/src/app/services/auth.service.ts:99-114 | a reload while the refresh of the stored token is in flight, answered or not, can lead to a reuse report |
| `Session.CancelParts` | frontend/src/app/interceptors/auth.interceptor.ts:83-94 | so can unsubscribing the leading request |
| `Session.EarlyErrorIsReported` | frontend/src/app/interceptors/auth.interceptor.ts:89-93 | so can an error that the page sees while the server may still serve the call |
| `Session.CalmIsExactlyWhatIsNeeded` | frontend/src/app/interceptors/auth.interceptor.ts:65-95 | in every state with that invariant in which a refresh in flight for the stored token, if any, is of use (the server would grant it, or has with a token that still verifies), and for every step: a later reuse report becomes possible if and only if the step parts the page from the refresh in flight for its stored token: a sign-out, a reload, a failing replay of a request that led a refresh, the unsubscribing of that refresh's leader, an error for it before the server has served it, or an error of another refresh, which signs out; with no such refresh in flight, as after a later sign-in, every step is harmless |

## Left out

- Replay of FAILED rows and of dead letters: the repository has none.
- Users, organizations and notification read endpoints: simple reads and writes. Of users only role, organization and active flag are kept.
- Description and category of tickets, body of comments, text of notifications, metadata of audit rows, correlation ids, message ids, timestamps other than a ticket's closing time, and the day number of the analytics projection, which is given to it instead of computed from a clock.
- How the database compares values: the table in each order and the case folding of the search are parameters, and ties in the order are not modelled.
- Validation of requests, guards, HTTP error bodies, health probes, configuration and wiring.
- Signing of tokens, hashing and password checks: a signed token is a record that cannot be forged.
- Parallel calls of `rotate` on one token: the code promises nothing about them.
- The answer to a sign-in is delivered at once; a login whose answer is lost leaves a live token that no page holds.
- Several pages or tabs sharing one token storage.
- The user and initialization signals of `AuthService`, navigation, and the access token that the first attempt of a request carries.
- Precision of JavaScript numbers: counts, retry headers and lifetimes are unbounded integers.
- OutboxRelayService.Service.FindPending: creation time is the row's position; equal creation times are not modelled here (a relay of the pipeline may pick any pending rows).
- OutboxRelayService.Service.DispatchPending: one undisturbed tick; interleaving with other processes is the pipeline's, not the method's.
- Consumers.ConsumerRunner.HandleDelivery: one delivery at a time; interleaving of workers, crashes and redelivery are the pipeline's.
- Settling.UndisturbedRunsSettle: ticks and handles are undisturbed from then on (relay updates and republishing work, nothing crashes, no new events), and no projector raises a unique violation.
- Consumers.RetriesTerminateAndConserve: assumes that republishing works and the broker does not redeliver, because otherwise copies multiply.
