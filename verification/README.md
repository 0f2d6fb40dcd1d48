# Message delivery: a verified model

This project models how an EdTech Platform and its Cells exchange messages, and proves what the design
promises about it. Each authority has a PostgreSQL database with a transactional outbox (immutable message
rows, mutable delivery rows) and an inbox of receipts. Workers claim outbox rows under leases, publish their
exact bytes to JetStream, mark them published, and on the other side commit one receipt per message together
with the reply they derive. A provisioner keeps the broker's streams and durables at their declared state, and
a supervisor runs the tasks of each process.

`dafny verify dfyconfig.toml` checks everything. The files, from the bottom up:

- Vocabulary: `Foundation`, `Text`, `Grammar`, `MessageNames`, `Decimal`, `UuidText`, `MessageDomain`.
- Store: `OutboxStore` says what each store operation means on tables; `Rows` is the column form;
  `MessageStore` has the operations as methods over the rows; `TableChecks` is the `CHECK` constraints;
  `LeaseFencing` and `ConcurrentClaims` are whole traces and races over one store.
- Databases: `AuthorityDatabase` is the transactions with their fences; `Databases` has them as methods that
  write rows and put them back.
- Transport: `Routing`, `Subjects`, `Headers`, `Fences`, `ReplyClosure`, and `Delivery` for one delivery
  through a worker.
- System: `Protocol` is the step machine of all authorities, the broker and the crashes between steps;
  `NoLoss`, `Effects`, `Conflicts` and `Publications` are its invariants over every run; `Progress` shows that
  messages do get through.
- Workers: `WorkerSpec` says what the publisher and consumer loops come to, state by state and error by error;
  `WorkerRuntime` has the loops as methods proved to come to exactly that by protocol actions alone; `WorkerRuns`
  says what whole turns achieve.
- Topology: `Topology`, `TopologyConvergence` and the methods of `TopologyAdmin`.
- Codec: `Calendar`, `Timestamp`, `Envelope`.
- `Retry` and `Supervisor`.

The Cell and the Platform crates are near copies of each other. One model covers both: an authority value says
which, and every step that only a Cell takes is under a test for it.

## How the environment enters

An action whose guard fails changes nothing, so a run of the protocol is any sequence of actions: every
interleaving, republication, redelivery, crash or timeout between two steps is one. A crash is an action that
forgets volatile state. A commit whose answer is lost is an action with `learned` false. Transaction times are
unrelated integers, since `now()` is the start of the calling transaction. In the methods, generated
identities, clock readings, broker and database answers, timeouts and cluster readiness arrive as scripts.

Assumptions: a database transaction is atomic; the broker stores the configuration it is given; generated
UUIDs are fresh (lease ids for fencing, the id a command attempt derives under); the parser, the typed payload
reader and the reply encoder are functions of the bytes, and the parser yields valid metadata only, which
`Envelope.AcceptedIsValid` proves of the modelled parser at tree level. The header check of a delivery appears
in the protocol as the comparison of its message id: `Headers.PublishedHeadersValidate` proves that this is all
it can find wrong in what a worker published.

## Where the code and its promises part

Each of these is stated with the exact condition under which the promise holds.

- No message is lost unless another authority sends a message of the same kind under its id, because the
  broker's duplicate window knows streams and ids and not publishers (`NoLoss.NoMessageIsLost`); and whenever two
  authorities may, some run loses the second (`Progress.SharedIdLosesMessage`). A Cell meets no integrity conflict
  at all; the Platform needs such ids distinct across Cells (`Conflicts.NoIntegrityFailure`).
- `apply` converges exactly when no stream carries the name of a declared durable that needs work, since
  `action_for` looks up by name alone (`ApplyConvergesIffNotShadowed`, `ForeignStreamBlocksApply`).
- A durable under a declared name on the wrong stream is not reported as unknown (`MisplacedDurablesAreInvisible`).
- A "safe capacity increase" tightens a stream exactly when one of its limits was unlimited
  (`SafeUpdateKeepsCapacityIffFinite`).
- A stream counts as converged even without its deletion guards (`StreamConvergedIff`).
- Publisher settings accept a retry base below one millisecond, and then every retry is a configuration failure
  (`RetryPlansIffBaseIsAMillisecond`).
- A failure during the supervisor's drain takes the place of the first failure and leaves tasks registered
  (`FirstFailureIsReportedIff`, `SecondFailureMasksFirst`).
- `ConsumerName` and `FailureCategory` accept names that the tables refuse: exactly those where a dot touches a
  hyphen (`SafeNameMatchesTable`).
- The Cell table's target check is unknown, and so passes, when the target Cell is null
  (`NullTargetPassesCellTable`); both tables let identities of another UUID variant through.
- The envelope parser also takes positional arrays and epoch texts such as `+7` and `007`, which the contract
  document and its schema exclude (`PositionalReadsByName`, `EpochTextIsLoose`, and `AcceptedIsWrittenIff` for the
  whole form).
- A duplicate header in another letter case goes unnoticed (`CaseVariantDuplicatePasses`).
- The inbound fences of the databases do not look at the source of an event; the workers' route fences do
  (`InboundFenceIsTheDestination`, `RouteFenceIsTheDestination`).

## Model

| member | source | states |
|---|---|---|
| NoLoss.NoMessageIsLost | crates/cell-message-runtime/src/lib.rs:308-541 | In every reachable state of the Platform, any Cells and the broker, a stored message is unpublished, still held by the broker for its destination, or received there byte for byte by the handler of its kind, unless another authority sends a message of the same kind under its id |
| NoLoss.RunFromKeepsInv | crates/cell-message-runtime/src/lib.rs:249-541 | From any sound state every sequence of actions leads to a sound state |
| NoLoss.RunKeepsInv | crates/cell-message-runtime/src/lib.rs:249-541 | So every run keeps the invariant behind it: accepted and published messages are covered, broker records carry stored messages to their routes, acknowledgeable deliveries have their receipt |
| NoLoss.StepKeepsInv | crates/cell-message-runtime/src/lib.rs:249-541 | Each single action, from any sound state, keeps that invariant |
| NoLoss.SharedIdIsLost | crates/nats-jetstream/src/lib.rs:1126-1157 | When the duplicate window remembers the key for another publisher, the suppressed publication is marked published and covered nowhere; in a sound state this is the exempted case |
| Progress.SharedIdLosesMessage | crates/nats-jetstream/src/lib.rs:1126-1157 | The exemption is needed: whenever two authorities may send messages of one kind under one id, eight actions (enqueue, claim, publish and mark for each) lose the second, if it is not covered already |
| Progress.CellEventIsLostFromTheStart | crates/nats-jetstream/src/lib.rs:1126-1157 | And it is reached from the initial state, by an event of the Platform and one of a Cell about that Cell |
| NoLoss.HeldRowExists | crates/postgres-message-store/src/lib.rs:704-719 | Settling a held claim never finds its delivery row missing |
| NoLoss.DeliverKeepsInv | crates/cell-message-runtime/src/lib.rs:488-541 | A delivery, timed out or not, keeps the invariant |
| NoLoss.PublishKeepsInv | crates/nats-jetstream/src/lib.rs:1126-1157 | A publication keeps the invariant whether stored, suppressed, refused or unacknowledged |
| NoLoss.AckKeepsInv | crates/nats-jetstream/src/lib.rs:944-950 | Removing an acknowledged record keeps every message covered, by its receipt |
| Effects.EffectOnce | crates/cell-postgres/src/lib.rs:585-653 | Over any run each (consumer, message id) commits exactly one receipt, by one delivery; for a command that step commits exactly one outbox row of all authorities, the reply to it, and for an event none |
| Effects.RepliesHaveReceipts | crates/cell-message-runtime/src/lib.rs:558-615 | Conversely every outbox row that a delivery ever commits is the one reply to the command whose receipt that same delivery commits, so redeliveries with new ids add none |
| Effects.EpochFence | crates/cell-postgres/src/lib.rs:377-653 | Over any run every canary row, receipt and tenant-scoped outbox row of a Cell, whichever action wrote it, was committed by exactly one step, before which the Cell served its tenant at exactly its epoch: the stored or received message's, or the canary writer's, whose message is stored with it under the same scope |
| Effects.EpochsNeverGoBack | crates/cell-postgres/src/lib.rs:852-890 | Per Cell and tenant these rows are committed in the order of their epochs |
| Effects.RunRecorded | crates/cell-postgres/src/lib.rs:377-653 | Every outbox, canary and receipt row of every run was committed by exactly one of its steps, whose action writes that row |
| Effects.StepRows | crates/cell-postgres/src/lib.rs:377-653 | Each step adds only rows of its own action, tenant rows of a Cell only while it serves the tenant and epoch they are written under, and a delivery only a receipt with its one reply or an event's receipt alone |
| Effects.StepTenants | crates/tenancy-domain/src/lib.rs:211-217 | No action removes a tenant from a Cell or takes its epoch back |
| Conflicts.NoIntegrityFailure | crates/postgres-message-store/src/lib.rs:774-819 | In no run does the inbox transaction of a delivery end in an inbox conflict, an identity conflict or corruption; for the Platform provided no other authority sends a message of the same kind under the id |
| Conflicts.OnlyRepliesAreFatal | crates/cell-message-runtime/src/lib.rs:510-541 | In every run a delivery whose identities could be generated is fatal to its worker only when the reply to a command cannot be constructed, encoded or bounded, under the same proviso |
| Conflicts.RunKeepsReceipts | crates/cell-message-runtime/src/lib.rs:648-667 | In every run each receipt holds the stored bytes of some publisher, which for a Cell is the Platform |
| Conflicts.ItemOrigin | crates/nats-jetstream/src/lib.rs:592-638 | A record for a Cell was stored by the Platform and a record for the Platform by a Cell, with exactly the stored bytes |
| Publications.PublicationsWithinAttempts | crates/cell-message-runtime/src/lib.rs:267-304 | In every run the broker holds at most as many records of a message as it accepted publications, and those, with what held claims can still publish, never exceed the attempt count |
| Progress.UndisturbedMessageIsDelivered | crates/cell-message-runtime/src/lib.rs:249-615 | From every sound state a message that its origin may enqueue and its destination welcomes is, by six actions, enqueued, claimed, published, marked, received with its reply in the destination's outbox, and acknowledged |
| Progress.PublisherHalf | crates/cell-message-runtime/src/lib.rs:249-327 | Four of them leave its row published and exactly one new record in the broker |
| Progress.ConsumerHalf | crates/cell-message-runtime/src/lib.rs:488-541 | Two of them leave the receipt of the destination's handler, the reply as a new pending row, and no record |
| Progress.HandlerCommits | crates/cell-message-runtime/src/lib.rs:558-646 | A welcome delivery commits its first receipt and, for a command, the reply metadata in its encoding, as a new pending row |
| LeaseFencing.LeaseSettlesOnce | crates/postgres-message-store/src/lib.rs:662-761 | Under fresh lease ids and unrelated clocks one lease succeeds at most once over markers and reschedules together |
| LeaseFencing.LaterClaimFences | crates/postgres-message-store/src/lib.rs:630-761 | After a later claim of the same row the earlier lease settles nothing |
| LeaseFencing.PublishedIsFinal | crates/postgres-message-store/src/lib.rs:630-761 | A published row is never claimed, settled or changed again |
| LeaseFencing.AttemptsAreClaims | crates/postgres-message-store/src/lib.rs:630-660 | The attempt count is the number of claims, and settles never exceed it |
| LeaseFencing.StoreInvariantHolds | crates/cell-migrations/migrations/0002_cell_message_store.sql:75-101 | In every state of every trace message and delivery rows pair up, lease columns are set together and never beside a publication, and pending, leased and published add up to all messages |
| LeaseFencing.StoredRowsAreImmutable | crates/postgres-message-store/src/lib.rs:552-628 | A stored message or receipt never changes for the rest of a trace |
| ConcurrentClaims.ClaimsAreExclusive | crates/postgres-message-store/src/lib.rs:630-660 | However claims interleave, open claims share no row, and what each selected stays eligible until it commits |
| ConcurrentClaims.MarksOfOneTransaction | tools/message-store-qualification/src/main.rs:1303-1319 | The batch is marked in one transaction: in whatever order, each marker answers published and the tables come to the same as the one act of the drain |
| ConcurrentClaims.DrainPublishesEachRowOnce | tools/message-store-qualification/src/main.rs:1262-1347 | Once all workers have stopped, every row eligible at the start is published, by exactly one successful marker |
| ConcurrentClaims.DrainTerminates | tools/message-store-qualification/src/main.rs:1262-1347 | A drain in which marks succeed takes at most three acts per unpublished row and per worker |
| ConcurrentClaims.DrainCanContinue | tools/message-store-qualification/src/main.rs:1262-1347 | Until every worker has stopped some act is possible, as long as the leases in hand are live |
| OutboxStore.SelectionIsUnique | crates/postgres-message-store/src/lib.rs:630-637 | The order and the limit leave a claim no choice of rows |
| OutboxStore.ClaimTakesTheFirstDue | crates/postgres-message-store/src/lib.rs:630-637 | A claim takes only due, unpublished, unlocked rows, and leaves another such row only when the batch is full of rows before it by availability, creation and id |
| OutboxStore.EnqueueIsIdempotent | crates/postgres-message-store/src/lib.rs:552-628 | Enqueueing a stored message again is already-present without change, and other content under its id always a conflict |
| OutboxStore.NextClaim | crates/postgres-message-store/src/lib.rs:630-761 | When each outcome lets a row be claimed again: at once, after its lease, after its delay, or never |
| OutboxStore.OpKeepsWellFormed | crates/cell-migrations/migrations/0002_cell_message_store.sql:75-101 | Every store operation keeps the table invariant |
| OutboxStore.OpKeepsRows | crates/postgres-message-store/src/lib.rs:552-819 | Every store operation only ever adds message and receipt rows |
| OutboxStore.DeliveryStatesPartition | crates/cell-migrations/migrations/0002_cell_message_store.sql:75-101 | Every stored message is in exactly one of the three delivery states |
| MessageStore.Store.Enqueue | crates/postgres-message-store/src/lib.rs:552-628 | Inserts message and delivery row or compares; all outcomes including the orphan, conflict, corruption and malformed row, and nothing changes unless inserted |
| MessageStore.Store.SelectCandidates | crates/postgres-message-store/src/lib.rs:630-637 | Finds the first unlocked eligible rows by availability, creation and id, up to the limit |
| MessageStore.Store.ReadClaimed | crates/postgres-message-store/src/lib.rs:821-833 | Returns each selected row once, or fails when any of them does not convert |
| MessageStore.Store.ClaimBatch | crates/postgres-message-store/src/lib.rs:639-660 | Leases exactly the selected rows and returns them as leased, or changes nothing |
| MessageStore.Store.MarkPublished | crates/postgres-message-store/src/lib.rs:674-702 | Succeeds exactly for the live lease that is still the row's own, and otherwise tells published from lost |
| MessageStore.Store.PublishedState | crates/postgres-message-store/src/lib.rs:704-719 | Whether the row is published, and no answer exactly when it is missing |
| MessageStore.Store.Reschedule | crates/postgres-message-store/src/lib.rs:729-761 | Under the live lease clears it and delays the row; otherwise nothing changes |
| MessageStore.Store.RecordInbox | crates/postgres-message-store/src/lib.rs:774-819 | Inserts the receipt once, and tells a duplicate from a conflict without overwriting |
| Rows.RowRoundTrip | crates/postgres-message-store/src/lib.rs:482-526 | A stored message reads back unchanged, for all scopes, the full epoch range and microsecond times |
| Rows.RowIsDetermined | crates/postgres-message-store/src/lib.rs:835-904 | A row that reads as a message is exactly the row that message is stored as |
| TableChecks.PlatformRowsReadIff | crates/platform-migrations/migrations/0002_platform_message_store.sql:18-90 | A row that passes the Platform table's checks reads back exactly when its identities have version 7 and its time is before year 10000 |
| TableChecks.CellRowsReadIff | crates/cell-migrations/migrations/0002_cell_message_store.sql:15-72 | For the Cell table the same, and a Cell target must not be null |
| TableChecks.EnqueuedRowsPassChecks | crates/cell-postgres/src/lib.rs:675-692 | What an authority may enqueue never violates a check of its own outbox table |
| TableChecks.NullTargetPassesCellTable | crates/cell-migrations/migrations/0002_cell_message_store.sql:54-58 | A null target Cell passes the Cell table, fails the Platform table and does not read back |
| MessageNames.MessageNameMatchesTable | crates/message-domain/src/lib.rs:119-176 | The message-name constructor accepts exactly what the outbox tables' pattern accepts |
| Grammar.CellIdMatchesTable | crates/tenancy-domain/src/lib.rs:112-139 | The Cell-id constructor accepts exactly what the tables' pattern accepts |
| Grammar.SafeNameMatchesTable | crates/postgres-message-store/src/lib.rs:57-72 | Of the safe names the constructor accepts, the tables take exactly those where no dot touches a hyphen |
| Grammar.TableNamesAreSafe | crates/cell-migrations/migrations/0002_cell_message_store.sql:107-113 | The tables take no name that the constructor rejects |
| Grammar.SafeNameTableGap | crates/postgres-message-store/src/lib.rs:57-72 | A name that the constructor accepts and the receipt table refuses |
| MessageDomain.CheckedAdvance | crates/tenancy-domain/src/lib.rs:211-217 | Advancing gives the next valid epoch, with none between, and fails only at the last one |
| MessageDomain.NewEmittedAt | crates/message-domain/src/lib.rs:265-278 | Exactly the instants from 1970 through 9999 are accepted, each truncated to its own microsecond |
| MessageDomain.AcceptedIffConsistent | crates/message-domain/src/lib.rs:504-549 | Metadata is accepted exactly when a command names a target and an event none, nothing causes itself, and a Cell as source or target is the Cell of the scope |
| AuthorityDatabase.FailureRollsBack | crates/cell-postgres/src/lib.rs:585-653 | A failed inbox or enqueue transaction leaves no trace |
| AuthorityDatabase.CanaryAndMessageTogether | crates/cell-postgres/src/lib.rs:438-477 | The canary row and its message are there together, under the active tenant epoch, or neither is; and they are there exactly when message, scope, tenant, payload, key and outbox allow |
| Databases.Database.FenceTenant | crates/cell-postgres/src/lib.rs:852-890 | Wrong Cell, absent, disabled, stale or active, in that order |
| Databases.Database.EnqueueOutboundMessage | crates/cell-postgres/src/lib.rs:377-430 | Gates, fences and store outcome of an outbound enqueue, and the whole new database |
| Databases.Database.WriteIsolationCanaryAndEnqueue | crates/cell-postgres/src/lib.rs:438-477 | The canary row and the message commit together or not at all |
| Databases.Database.ClaimOutboxBatch | crates/cell-postgres/src/lib.rs:484-514 | A worker leases the selected rows and gets each of them exactly once |
| Databases.Database.MarkOutboxPublished | crates/cell-postgres/src/lib.rs:521-544 | The marker behind the worker gates |
| Databases.Database.RescheduleOutboxMessage | crates/cell-postgres/src/lib.rs:551-578 | The reschedule behind the worker gates |
| Databases.Database.RecordInboxAndEnqueueDerived | crates/cell-postgres/src/lib.rs:585-653 | Fences, then receipt and derived message together; a conflict or failed enqueue takes the receipt back |
| Delivery.DeliveryEffect | crates/cell-message-runtime/src/lib.rs:488-615 | A committed delivery commits its own first receipt with its derived row and nothing else, or finds that receipt; in a Cell under the active tenant epoch |
| Delivery.InboxTransaction | crates/cell-postgres/src/lib.rs:585-653 | The whole effect of the inbox transaction for each of its outcomes |
| Delivery.ProbeContractsValid | crates/transport-probe-contracts/src/lib.rs:250-283 | The contracts of the four handlers are valid descriptors |
| WorkerRuntime.Broker.PublishExact | crates/nats-jetstream/src/lib.rs:1126-1157 | Role, subject and answer of a publication, and the record it adds |
| WorkerRuntime.Worker.PublishOne | crates/cell-message-runtime/src/lib.rs:308-362 | The whole new state and result: two protocol actions, the publication and then the marker, the reschedule or the end, and an error exactly when the row can neither be marked nor rescheduled |
| WorkerRuntime.Worker.PublishBatch | crates/cell-message-runtime/src/lib.rs:283-304 | Every claim is published in turn up to the first error, which drops the rest: the final state and result are those of the batch run; after success every claim is settled or had lost its lease |
| WorkerRuntime.Worker.TakeBatch | crates/cell-message-runtime/src/lib.rs:262-281 | The turn's claim takes exactly the rows the query selects, under its own lease, and returns each once |
| WorkerRuntime.Worker.ClaimAndPublish | crates/cell-message-runtime/src/lib.rs:262-304 | One turn claims exactly the selected rows and publishes every one of them |
| WorkerRuntime.Worker.RunOutboxPublisher | crates/cell-message-runtime/src/lib.rs:249-306 | Each turn, in order, claims exactly the rows the query selects under its lease and runs the publication of every one from the state the last turn left; the loop fails exactly on a missing lease id or the error of its last turn; it is a protocol run that keeps the no-loss invariant and leaves no claim held |
| WorkerRuntime.Worker.HandleMessage | crates/cell-message-runtime/src/lib.rs:558-646 | The typed handler commits, rejects or fails exactly as one delivery specifies, with exactly its error |
| WorkerRuntime.Worker.Accept | crates/cell-message-runtime/src/lib.rs:495-508 | The checks before the handler reject exactly what a delivery rejects there |
| WorkerRuntime.Worker.ProcessOne | crates/cell-message-runtime/src/lib.rs:465-541 | The whole new state, records and result: the delivery's commit, the acknowledgment after it, and an error exactly for a missing identity, a reply that cannot be built or an integrity failure |
| WorkerRuntime.Worker.Acknowledge | crates/nats-jetstream/src/lib.rs:944-950 | The record goes exactly when the broker answers the acknowledgment |
| WorkerRuntime.Worker.ProcessFetched | crates/cell-message-runtime/src/lib.rs:446-461 | Every fetched record that the broker still holds for the durable is processed once, in order, up to the first error |
| WorkerRuntime.Worker.RunConsumer | crates/cell-message-runtime/src/lib.rs:420-463 | The final state and result are those of processing every record of every fetch in turn, passing over transient fetch errors; it fails exactly on another fetch error or the first fatal delivery; every record that is gone has its receipt, and the no-loss invariant is kept |
| WorkerRuntime.CommitGrows | crates/cell-message-runtime/src/lib.rs:510-517 | A committed delivery leaves the receipt of its record and keeps every other receipt |
| WorkerRuntime.SettledRows | crates/cell-message-runtime/src/lib.rs:308-362 | Settling one claim touches its own row only and leaves it without that lease |
| WorkerRuntime.SettledUnlessError | crates/cell-message-runtime/src/lib.rs:308-362 | A publication fails exactly when it neither marks nor reschedules a row that is there |
| WorkerRuntime.TransientCategoryIsSafe | crates/nats-jetstream/src/lib.rs:99-135 | Every failure that is retried is a failure category that the delivery table takes |
| WorkerRuns.BatchSettles | crates/cell-message-runtime/src/lib.rs:283-304 | A batch comes through exactly when each of its publications does, and then every row is settled as by its own publication alone |
| WorkerRuns.BatchReaches | crates/cell-message-runtime/src/lib.rs:283-304 | Every stored publication of a batch that comes through is on record at its end |
| WorkerRuns.TurnSettles | crates/cell-message-runtime/src/lib.rs:262-304 | A turn fails exactly when a row it took can neither be marked nor rescheduled, and otherwise settles every row it took and touches no other |
| WorkerRuns.AcknowledgedTurnPublishes | crates/cell-message-runtime/src/lib.rs:262-327 | When the broker acknowledges inside the lease, every row the turn took is published with its message on record; with room in the batch, every eligible row was taken |
| WorkerRuns.RefusedTurnReschedules | crates/cell-message-runtime/src/lib.rs:328-360 | When the broker is out for a while, every row the turn took is unleased and due after the exact jittered exponential delay of one more attempt |
| WorkerRuns.PublishMoves | crates/cell-message-runtime/src/lib.rs:308-362 | One publication changes its own row, at most one record and one window key, and leaves the other claims held |
| WorkerRuns.DeliveryMoves | crates/cell-message-runtime/src/lib.rs:465-541 | One delivery changes the database by its commit alone and takes the record only with an answered acknowledgment |
| WorkerRuns.ErrorsAreFatal | crates/cell-message-runtime/src/lib.rs:510-541 | With its identity generated and its database answering, a delivery's error is its being fatal |
| WorkerRuns.FetchedSplit | crates/cell-message-runtime/src/lib.rs:446-461 | A fetched batch goes on from where any first part of it ends, and only removes records and adds receipts |
| WorkerRuns.ConsumerSplit | crates/cell-message-runtime/src/lib.rs:432-463 | So does the whole loop |
| WorkerRuns.AcknowledgedRecordIsReceived | crates/cell-message-runtime/src/lib.rs:446-517 | A fetched record that is held when its turn comes, commits in time and is acknowledged is gone when the loop ends, and its receipt is there |
| WorkerRuns.TransientFetchesArePassedOver | crates/cell-message-runtime/src/lib.rs:439-445 | Transient fetch errors make no difference to the loop |
| WorkerRuns.WelcomeCommits | crates/cell-message-runtime/src/lib.rs:510-646 | A record that its handler welcomes commits when identity, database and time allow |
| Subjects.RoutabilityIsExact | crates/nats-jetstream/src/lib.rs:592-676 | Valid metadata has a subject exactly when it is a command to the other authority or an event about a Cell; no route is rejected as a subject, and subjects stay within 252 characters |
| Subjects.RouteSubjectIsConcrete | crates/nats-jetstream/src/lib.rs:662-676 | The length, wildcard and token checks never reject the subject of a route |
| Subjects.SubjectReadsBack | crates/nats-jetstream/src/lib.rs:592-638 | A subject determines kind, direction, Cell and message name |
| Subjects.TokenIsInjective | crates/nats-jetstream/src/lib.rs:887-891 | Different Cells have different durable tokens |
| Subjects.TokenCharacters | crates/nats-jetstream/src/lib.rs:887-891 | A durable token has upper-case letters, digits and underscores only |
| Subjects.DurableNamesAreDistinct | crates/nats-jetstream/src/lib.rs:867-909 | No two declared bindings share a durable name, for any set of Cells |
| Subjects.FiltersAreDisjoint | crates/nats-jetstream/src/lib.rs:867-909 | No subject at all matches the filters of two declared bindings |
| Subjects.ExactlyOneBinding | crates/nats-jetstream/src/lib.rs:867-909 | The subject of a message for a declared Cell matches exactly the binding of its destination, on the stream of its kind |
| Subjects.BindingsBelongToOneWorker | crates/nats-jetstream/src/lib.rs:1340-1350 | The roles of different authorities share no binding |
| Fences.OnlyTheOriginSends | crates/nats-jetstream/src/lib.rs:1319-1338 | A routable message passes the outbound fence and the publish authority of exactly one authority, the origin of its route |
| Fences.InboundFenceIsTheDestination | crates/platform-postgres/src/lib.rs:553-565 | The inbound fence admits a command at its destination alone and an event at both ends of its route |
| Fences.RouteFenceIsTheDestination | crates/cell-message-runtime/src/lib.rs:648-667 | The route fence admits a routable tenant message exactly at its destination |
| Fences.OnlyTenantMessagesAreHandled | crates/platform-message-runtime/src/lib.rs:645-655 | Whatever commits is a tenant message at the destination of its route |
| Fences.HandledOutcome | crates/cell-message-runtime/src/lib.rs:510-541 | A handled message is rejected under the name of what is wrong with its tenant, redeliveries too; then a receipt of the same content makes it a duplicate, other content is fatal, and no receipt commits the first |
| Fences.CommittedIsHandled | crates/cell-message-runtime/src/lib.rs:488-517 | Nothing is committed past a failed check of envelope, header, subject, stream, route, contract, payload, reply or tenant |
| ReplyClosure.ReplyIsValid | crates/cell-message-runtime/src/lib.rs:573-599 | The reply to an accepted command is valid metadata under its new identity and time, from the replier, in the command's scope and correlation, with the command as its cause |
| ReplyClosure.ReplyReachesRequester | crates/platform-message-runtime/src/lib.rs:580-655 | That reply passes the outbound fence and publish authority, and its subject, binding, route fence, contract and inbound fence all accept it at the requester |
| Headers.FromPairs | crates/nats-jetstream/src/lib.rs:690-710 | The header set holds every value of every name in order, and exactly the bounded lists are accepted |
| Headers.ValidatesIff | crates/nats-jetstream/src/lib.rs:717-756 | Exactly which header lists pass for a message and a stream, by the names on the wire |
| Headers.PublishedValues | crates/nats-jetstream/src/lib.rs:1133-1139 | What is published under each of the three names |
| Headers.PublishedHeadersValidate | crates/nats-jetstream/src/lib.rs:1133-1139 | What is published passes for its own identity and stream and for no other |
| Headers.CaseVariantDuplicatePasses | crates/nats-jetstream/src/lib.rs:768-783 | A second content type in another letter case is not noticed |
| TopologyConvergence.ApplyConvergesIffNotShadowed | crates/nats-jetstream-admin/src/lib.rs:780-863 | From any broker state without a refused difference the applied plan converges exactly when no stream has the name of a durable that needs work, for any number of Cells |
| TopologyConvergence.ForeignStreamBlocksApply | crates/nats-jetstream-admin/src/lib.rs:565-570 | A fresh broker with one such stream never converges |
| TopologyConvergence.SecondApplyChangesNothing | crates/nats-jetstream-admin/src/lib.rs:780-863 | Applying to a converged broker changes nothing |
| TopologyConvergence.InterruptedApplyResumes | crates/nats-jetstream-admin/src/lib.rs:806-854 | An apply that stopped after any of its writes can be run again and converges |
| TopologyConvergence.UndeclaredAssetsAreUntouched | crates/nats-jetstream-admin/src/lib.rs:780-863 | Only declared assets ever change, and none is removed, even when interrupted |
| TopologyConvergence.NumbersNeverShrink | crates/nats-jetstream-admin/src/lib.rs:948-1018 | No stored limit of a stream is ever numerically lowered |
| TopologyConvergence.SafeUpdateKeepsCapacityIffFinite | crates/nats-jetstream-admin/src/lib.rs:969-1008 | A safe update keeps what a stream may hold exactly when none of its limits was unlimited |
| TopologyConvergence.UnlimitedStreamIsTightened | crates/nats-jetstream-admin/src/lib.rs:969-1008 | An unlimited command stream that a safe update tightens |
| TopologyConvergence.StreamConvergedIff | crates/nats-jetstream-admin/src/lib.rs:948-1018 | A stream is converged exactly when it is as declared up to its deletion guards |
| TopologyConvergence.ConsumerConvergedIff | crates/nats-jetstream-admin/src/lib.rs:1020-1081 | A consumer is converged exactly when it is as declared |
| TopologyConvergence.StreamRefusedIff | crates/nats-jetstream-admin/src/lib.rs:948-1018 | A stream is refused exactly when writing the declaration would do more than raise numbers |
| TopologyConvergence.ConsumerRefusedIff | crates/nats-jetstream-admin/src/lib.rs:1020-1081 | The same for consumers |
| TopologyConvergence.PlanVerdicts | crates/nats-jetstream-admin/src/lib.rs:546-563 | A plan is converged, or has a refused change, exactly as the declared assets are one by one |
| TopologyConvergence.StreamAction | crates/nats-jetstream-admin/src/lib.rs:565-570 | The action found for a stream is its own classification |
| TopologyConvergence.DurableAction | crates/nats-jetstream-admin/src/lib.rs:565-570 | The action found for a durable is its own classification unless a stream of its name is listed first |
| TopologyConvergence.DesiredAreDistinct | crates/nats-jetstream-admin/src/lib.rs:250-260 | The declared durables of a manifest have pairwise distinct names |
| TopologyConvergence.UnknownStreamsAreListed | crates/nats-jetstream-admin/src/lib.rs:699-708 | After the declared streams a plan lists exactly the undeclared streams with the reserved prefix, as unknown |
| TopologyConvergence.StreamsCaptureTheirKind | crates/nats-jetstream-admin/src/lib.rs:413-435 | The command stream captures exactly the subjects of commands and the event stream those of events |
| TopologyConvergence.UnknownConsumersAreListed | crates/nats-jetstream-admin/src/lib.rs:758-770 | Undeclared reserved consumers of a declared stream are listed, except misplaced durables |
| TopologyConvergence.MisplacedDurablesAreInvisible | crates/nats-jetstream-admin/src/lib.rs:758-770 | A declared durable's name on another stream leaves no trace in the plan |
| TopologyConvergence.PlatformEventsCanBeMisplaced | crates/nats-jetstream-admin/src/lib.rs:758-770 | Such a durable exists under every manifest |
| TopologyConvergence.ConvergedIsReady | crates/nats-jetstream/src/lib.rs:1202-1378 | A converged topology passes the checks of the Platform's worker and of every declared Cell's worker |
| TopologyAdmin.Admin.ManifestConsumers | crates/nats-jetstream-admin/src/lib.rs:250-260 | The declared durables in manifest order |
| TopologyAdmin.Admin.InOrder | crates/nats-jetstream-admin/src/lib.rs:674-682 | Names in the order of a sorted set |
| TopologyAdmin.Admin.PlanConsumers | crates/nats-jetstream-admin/src/lib.rs:711-770 | The items of one stream's durables, declared then unknown |
| TopologyAdmin.Admin.Plan | crates/nats-jetstream-admin/src/lib.rs:672-772 | The items of all streams and durables, in order |
| TopologyAdmin.Admin.ApplyStreams | crates/nats-jetstream-admin/src/lib.rs:806-827 | Writes the planned streams up to the first failure, and counts them |
| TopologyAdmin.Admin.ApplyConsumers | crates/nats-jetstream-admin/src/lib.rs:828-854 | Writes the planned durables up to the first failure, and counts them |
| TopologyAdmin.Admin.TopologyReady | crates/nats-jetstream-admin/src/lib.rs:894-920 | Ready only when every declared asset exists; a missing one is a provider failure |
| TopologyAdmin.Admin.WaitReady | crates/nats-jetstream-admin/src/lib.rs:877-892 | Succeeds only with every asset present, and does when some poll in time finds all ready |
| TopologyAdmin.Admin.Apply | crates/nats-jetstream-admin/src/lib.rs:780-863 | Writes nothing when anything is refused; otherwise only planned changes; on success exactly all of them, converged and counted; succeeds for a cooperative broker exactly when nothing is shadowed |
| TopologyAdmin.PrefixIsPartial | crates/nats-jetstream-admin/src/lib.rs:806-854 | Stopping after any number of writes leaves each asset as it was or as declared |
| Calendar.DateRoundTrip | crates/message-codec-json/src/lib.rs:417-422 | Every day number is the day number of its date |
| Calendar.DayRoundTrip | crates/message-codec-json/src/lib.rs:433-434 | The date of a day number is the only one |
| Calendar.MonthsInClosedForm | crates/message-codec-json/src/lib.rs:417-422 | The start of every month in arithmetic, without a table of month lengths |
| Calendar.DayNumberInClosedForm | crates/message-codec-json/src/lib.rs:417-440 | The day number of every date from 1970 on in arithmetic alone, which fixes the Gregorian calendar |
| Calendar.RangeEndsWithYear9999 | crates/message-domain/src/lib.rs:265-278 | The bound of emission times is exactly the start of year 10000 |
| Timestamp.EmittedAtRoundTrip | crates/message-codec-json/src/lib.rs:417-440 | The canonical text of every instant is read as that instant |
| Timestamp.AcceptsIffFormatted | crates/message-codec-json/src/lib.rs:424-440 | A text is accepted exactly when it is the canonical text of the instant it is read as |
| Timestamp.AcceptsIffStrict | crates/message-codec-json/src/lib.rs:424-440 | A text is accepted exactly when it has the strict layout and names a real time from 1970 through 9999, whatever else the RFC 3339 reader takes |
| UuidText.UuidRoundTrip | crates/message-domain/src/lib.rs:64-76 | Every identity survives its own text |
| UuidText.VersionIsTheThirteenthDigit | crates/message-domain/src/lib.rs:43-49 | An identity is of version 7 exactly when the thirteenth digit of its text is a seven |
| UuidText.WrittenFormIsHyphenatedLower | crates/message-domain/src/lib.rs:64-76 | Of the texts that are read, exactly the lower-case hyphenated ones are what would be written |
| Decimal.ParsePrint | crates/message-codec-json/src/lib.rs:359-364 | Every unsigned 64-bit number survives its own text |
| Decimal.PrintParse | crates/message-codec-json/src/lib.rs:359-364 | Of the texts that are read, exactly those without sign and leading zeros are what would be written |
| Envelope.EnvelopeRoundTrip | crates/message-codec-json/src/lib.rs:166-278 | Decoding an encoded envelope gives back metadata and payload, for every valid metadata |
| Envelope.EncodingIsInjective | crates/message-codec-json/src/lib.rs:166-194 | Different metadata or payloads never encode alike |
| Envelope.AcceptedIsValid | crates/message-codec-json/src/lib.rs:242-278 | Whatever is accepted is valid metadata with an object payload, and what would be written for it reads as the same |
| Envelope.RawDecodesIff | crates/message-codec-json/src/lib.rs:242-278 | An envelope decodes to metadata exactly when each field decodes to its part and the cross-field rules hold |
| Envelope.PartsAreNamedFields | crates/message-codec-json/src/lib.rs:120-135 | Every part of accepted metadata is what the field of its own name says, and so are the nested parts and the words of kinds, sources, scopes and targets |
| Envelope.WrittenFieldsAreNamed | crates/message-codec-json/src/lib.rs:172-194 | Exactly what is written under each of the twelve names, and inside sources, scopes and targets |
| Envelope.SourceRoundTrip | crates/message-codec-json/src/lib.rs:295-316 | Sources read back |
| Envelope.ScopeRoundTrip | crates/message-codec-json/src/lib.rs:318-374 | Scopes read back, with absent fields absent |
| Envelope.TargetRoundTrip | crates/message-codec-json/src/lib.rs:376-403 | Targets read back, the missing one as null |
| Envelope.StructReads | crates/message-codec-json/src/lib.rs:120-159 | Known fields under unique names, required ones present, read as their values and the others as null |
| Envelope.PositionalReadsByName | crates/message-codec-json/src/lib.rs:120-135 | An array is read exactly as the object with the same values under the twelve names, and rejected without twelve |
| Envelope.PositionalEnvelopeIsAccepted | crates/message-codec-json/src/lib.rs:120-135 | In particular the derived reader takes the twelve encoded values as an array |
| Envelope.AcceptedIsWrittenIff | crates/message-codec-json/src/lib.rs:166-278 | An accepted tree is what would be written for what it says exactly when it has the canonical form: fields in order, no null inside, lower-case hyphenated UUIDs, plain epochs, no name twice |
| Envelope.EpochTextIsLoose | crates/message-codec-json/src/lib.rs:345-374 | Which epoch texts are read, and that exactly the canonical ones are what would be written |
| Retry.NewPublisherSettings | crates/cell-message-runtime/src/lib.rs:54-87 | Settings are accepted exactly within all bounds and with whole lease seconds, and kept as given |
| Retry.CapIsExponential | crates/cell-message-runtime/src/lib.rs:733-736 | For every attempt count the saturating cap is the exact exponential cut at the maximum |
| Retry.CapGrows | crates/cell-message-runtime/src/lib.rs:733-736 | The cap is at least the base, never falls, and doubles until the maximum |
| Retry.CapReachesMaximum | crates/cell-message-runtime/src/lib.rs:733-736 | From the sixty-fourth attempt the cap is the maximum for any base |
| Retry.JitterSpansTheRange | crates/cell-message-runtime/src/lib.rs:737-743 | The jitter stays between base and cap for all entropy and reaches every point between |
| Retry.PlannedDelay | crates/cell-message-runtime/src/lib.rs:720-747 | The planned delay for every attempt count and all entropy: the point between base and exact exponential cap that the entropy picks, rounded up to seconds |
| Retry.EveryDelayIsPlanned | crates/cell-message-runtime/src/lib.rs:737-745 | Every whole millisecond between base and cap is the delay under some entropy |
| Retry.RetryPlansIffBaseIsAMillisecond | crates/cell-message-runtime/src/lib.rs:720-747 | Accepted settings plan every retry, within the bounds in seconds, exactly when the base is at least one millisecond |
| Retry.SubMillisecondBaseNeverRetries | crates/cell-message-runtime/src/lib.rs:54-87 | Accepted settings under which no retry is ever planned |
| Supervisor.TaskSupervisor.Spawn | crates/process-lifecycle/src/lib.rs:116-134 | No spawn after cancellation, none under an unsafe name, otherwise a new id under the name |
| Supervisor.TaskSupervisor.RemoveJoined | crates/process-lifecycle/src/lib.rs:228-232 | A joined id always has its name |
| Supervisor.TaskSupervisor.Drain | crates/process-lifecycle/src/lib.rs:188-216 | Joins until all are gone, a failure, or the deadline, and what is left |
| Supervisor.TaskSupervisor.FinishShutdown | crates/process-lifecycle/src/lib.rs:218-226 | Cancels, drains, and answers unless the drain failed |
| Supervisor.TaskSupervisor.RunUntilShutdown | crates/process-lifecycle/src/lib.rs:144-186 | Outcome, remaining tasks and cancellation for every order of events |
| Supervisor.RunSucceedsIff | crates/process-lifecycle/src/lib.rs:144-186 | A run returns a reason exactly when the source gave it first and every supervised task finished without failing, panicking or overrunning |
| Supervisor.EndedRunsAreEmpty | crates/process-lifecycle/src/lib.rs:188-216 | An orderly end and a timeout leave nothing registered, under a cancelled root |
| Supervisor.TimeoutIsReportedIff | crates/process-lifecycle/src/lib.rs:188-216 | After any undisturbed beginning a run reports a timeout exactly when the grace period expires before a failure and with a task still registered, or the source itself answered so |
| Supervisor.UndisturbedRunsGoOn | crates/process-lifecycle/src/lib.rs:144-186 | Before a shutdown or a failure a run has no outcome and keeps what has not ended |
| Supervisor.FirstFailureIsReportedIff | crates/process-lifecycle/src/lib.rs:163-181 | After any undisturbed beginning the first failure is what is reported exactly when all others then drain in time, or a namesake fails first in the same way |
| Supervisor.SecondFailureMasksFirst | crates/process-lifecycle/src/lib.rs:195-202 | Two failures of which the second is reported and a third task stays registered |

## Left out

- Supervision, argument parsing, logging and signals of the `apps/*` binaries: composition and I/O.
- SQL execution, pools, TLS, roles, migrations and contract-version negotiation: only the row-level meaning of the statements, the table checks and the version and role gates are modelled.
- The NATS client, credentials and server versions: the broker is an abstract component that stores, suppresses, redelivers and refuses as it likes.
- Publish acknowledgments that name another stream or sequence zero: they are among the errors that a publish script may give.
- Retention expiry: broker records leave only by acknowledgment, so no-loss is about messages within retention.
- Eventual delivery: stale epochs, disabled tenants, unsupported contracts and unroutable rows legitimately never finish, so nothing claims that every message is acknowledged or published.
- Concurrency inside the worker loops: `buffer_unordered` is modelled as one message after the other in any claim order; interleavings are the business of the protocol, whose actions are the atomic steps of those loops.
- WorkerRuntime.Worker.ProcessOne: a handler timeout falls before or after the commit of its transaction, since nothing else it does is visible.
- Binding a durable before the first fetch: a consumer run starts with its fetches.
- The kinds of fatal database errors: one error stands for identity conflict, corruption and any other failure of the database.
- The shared counter, identity lists and latencies of the qualification drain: the multiset of marked rows stands for the lists.
- JSON text, number syntax beyond integers, and typed payloads: envelopes are trees, and a payload is the tree it parses to.
- The 262,144-byte bound of encoded envelopes: checked where bytes are handled in deliveries and rows, not on trees.
- The internals of the `time` crate: the reader of RFC 3339 is any function that reads the canonical layout right.
- Lexical UUID variants: identities are numbers with a version digit; only the table checks look at the variant bits.
- The topology manifest's TOML: every fixed value is compared with the constants of the model; the model starts from the list of Cells.
- Consumer and fetch settings, credentials, runtime configuration, audit and provisioning domains: range checks and wrappers.
- Databases.Database.EnqueueOutboundMessage: a lost connection or failed commit is not an outcome of the method; the protocol has lost answers, and the worker scripts have databases that do not answer.
