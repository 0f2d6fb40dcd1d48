/**
 * What the publisher and consumer loops of a worker come to, as functions of the protocol state and of what
 * the environment answers: the actions of each publication and delivery, and the error that ends a loop.
 */
module WorkerSpec {
  import opened Foundation
  import opened MessageDomain
  import opened OutboxStore
  import opened AuthorityDatabase
  import opened Routing
  import opened Delivery
  import opened Protocol
  import Databases
  import Retry

  // ---- Errors ---------------------------------------------------------------------------------

  datatype TransportErrorKind =
    | Disconnected | Timeout | NoQuorum | Unavailable | Capacity | AckTimeout | Authentication | Authorization | Tls
    | ServerVersion | Topology | Subject | WrongStreamAck | InvalidCredential | InvalidConfig | HeaderMismatch
    | MalformedDelivery | ConsumerFetch
  {
    predicate IsTransient() {
      this in {Disconnected, Timeout, NoQuorum, Unavailable, Capacity, AckTimeout, ConsumerFetch}
    }

    function SafeCategory(): string {
      match this
      case Disconnected => "transport" + ['.'] + "disconnected"
      case Timeout => "transport" + ['.'] + "timeout"
      case NoQuorum => "transport" + ['.'] + "no-quorum"
      case Unavailable => "transport" + ['.'] + "unavailable"
      case Capacity => "transport" + ['.'] + "capacity"
      case AckTimeout => "transport" + ['.'] + "ack-timeout"
      case Authentication => "transport" + ['.'] + "authentication"
      case Authorization => "transport" + ['.'] + "authorization"
      case Tls => "transport" + ['.'] + "tls"
      case ServerVersion => "transport" + ['.'] + "server-version"
      case Topology => "transport" + ['.'] + "topology"
      case Subject => "transport" + ['.'] + "subject"
      case WrongStreamAck => "transport" + ['.'] + "wrong-stream-ack"
      case InvalidCredential => "transport" + ['.'] + "credential"
      case InvalidConfig => "transport" + ['.'] + "configuration"
      case HeaderMismatch => "delivery" + ['.'] + "header-mismatch"
      case MalformedDelivery => "delivery" + ['.'] + "transport-metadata"
      case ConsumerFetch => "consumer" + ['.'] + "fetch"
    }
  }

  /** `PublishErrorKind` of the NATS client. */
  datatype PublishFault =
    | TimedOut | BrokenPipe | MaxAckPending | MaxPayloadExceeded | StreamNotFound | WrongLastMessageId | WrongLastSequence | Other

  /** `map_publish_error`. */
  function MapPublishError(fault: PublishFault): TransportErrorKind {
    match fault
    case TimedOut => AckTimeout
    case BrokenPipe => Disconnected
    case MaxAckPending => Capacity
    case MaxPayloadExceeded => Capacity
    case StreamNotFound => Topology
    case WrongLastMessageId => Topology
    case WrongLastSequence => Topology
    case Other => Unavailable
  }

  datatype RuntimeError =
    | RuntimeConfiguration | Identity | CodecFailure | DatabaseFailed | TransportFailed(kind: TransportErrorKind)

  // ---- Broker answers -------------------------------------------------------------------------

  /** Whether the worker learns that the broker holds the message. */
  predicate Acknowledged(message: EncodedMessage, fate: PublishFate, window: map<WindowKey, MessageAuthority>) {
    match fate
    case Stored(acknowledged) => acknowledged
    case Suppressed(acknowledged) =>
      acknowledged && WindowKeyOf(message) in window
    case NotStored => false
  }

  function BrokerAnswer(self: MessageAuthority, message: EncodedMessage, fate: PublishFate,
    window: map<WindowKey, MessageAuthority>, error: TransportErrorKind): Result<(), TransportErrorKind>
  {
    if !AuthorizedToPublish(WorkerOf(self), message.metadata) then Failure(Authorization)
    else if DeriveSubject(message.metadata).None? then Failure(Subject)
    else if Acknowledged(message, fate, window) then Success(())
    else Failure(error)
  }

  // ---- Scripts --------------------------------------------------------------------------------

  /** What the environment answers while one claimed message is published and settled. */
  datatype PublishScript =
    PublishScript(fate: PublishFate, error: TransportErrorKind, databaseAnswers: bool, now: int, entropy: Option<nat>)

  /** The broker suppresses only what its window remembers. */
  function EffectiveFate(message: EncodedMessage, fate: PublishFate, window: map<WindowKey, MessageAuthority>): PublishFate {
    if fate.Suppressed? && WindowKeyOf(message) !in window then NotStored
    else fate
  }

  function PlannedRetry(claim: ClaimedMessage, script: PublishScript, settings: Retry.PublisherSettings): Result<nat,
    Retry.RetryError> {
    Retry.PlanRetryDelay(claim.attemptCount, settings.retryBase, settings.retryMax, script.entropy)
  }

  /** The marker runs: the broker accepted the message and the database is there. */
  predicate Marks(self: MessageAuthority, claim: ClaimedMessage, script: PublishScript, window: map<WindowKey,
    MessageAuthority>) {
    BrokerAnswer(self, claim.message, script.fate, window, script.error).Success? && script.databaseAnswers
  }

  /** The reschedule runs: the broker's answer was a transient failure and a delay could be planned. */
  predicate Reschedules(self: MessageAuthority, claim: ClaimedMessage, script: PublishScript, settings: Retry.PublisherSettings,
    window: map<WindowKey, MessageAuthority>)
  {
    var answer := BrokerAnswer(self, claim.message, script.fate, window, script.error);
    answer.Failure? && answer.error.IsTransient() && PlannedRetry(claim, script, settings).Success? && script.databaseAnswers
  }

  function SettledTables(t: Tables, self: MessageAuthority, claim: ClaimedMessage, script: PublishScript,
    settings: Retry.PublisherSettings, window: map<WindowKey, MessageAuthority>): Tables
  {
    var id := claim.message.Id();
    if Marks(self, claim, script, window) then MarkTables(t, id, claim.leaseId, script.now)
    else if Reschedules(self, claim, script, settings, window) then
      RescheduleTables(t, id, claim.leaseId, script.now, PlannedRetry(claim, script, settings).value,
        Some(BrokerAnswer(self, claim.message, script.fate, window, script.error).error.SafeCategory()))
    else t
  }

  /** One turn of the publisher loop: its generated lease id, its claim and the answers per claimed message. */
  datatype Cycle = Cycle(lease: Option<Uuid>, databaseAnswers: bool, now: int, locked: set<Uuid>, answers: Uuid -> PublishScript)

  /** Where the handler timeout strikes, if it does. */
  datatype Timing = InTime | TimedOutBeforeCommit | TimedOutAfterCommit

  /** Generated identity and time of a derived message. */
  datatype Generated = Generated(newId: Uuid, emittedAt: nat)

  datatype DeliveryScript =
    DeliveryScript(identity: Option<Generated>, now: int, timing: Timing, databaseAnswers: bool, ackAnswers: bool)

  /** One fetch: an error, or the sequences the broker hands out. */
  datatype Fetch = Fetch(error: Option<TransportErrorKind>, sequences: seq<nat>, scripts: nat -> DeliveryScript)

  // ---- Publishing -----------------------------------------------------------------------------

  /** The two protocol actions of `publish_one`: the publication, then the marker, the reschedule or the end. */
  function PublishActions(self: MessageAuthority, claim: ClaimedMessage, script: PublishScript,
    settings: Retry.PublisherSettings, window: map<WindowKey, MessageAuthority>): seq<Action>
  {
    var h := Held(self, claim, Unsent);
    var answer := BrokerAnswer(self, claim.message, script.fate, window, script.error);
    [Publish(h, EffectiveFate(claim.message, script.fate, window)),
     if Marks(self, claim, script, window) then Mark(h.(stage := Accepted), script.now)
     else if Reschedules(self, claim, script, settings, window) then
       Reschedule(h.(stage := Refused), script.now, PlannedRetry(claim, script, settings).value, Some(answer.error.SafeCategory()))
     else Forget(h.(stage := if answer.Success? then Accepted else Refused))]
  }

  /** How `publish_one` fails: it can neither mark the row nor reschedule it. */
  function PublishError(self: MessageAuthority, claim: ClaimedMessage, script: PublishScript,
    settings: Retry.PublisherSettings, t: Tables, window: map<WindowKey, MessageAuthority>): Option<RuntimeError>
  {
    var answer := BrokerAnswer(self, claim.message, script.fate, window, script.error);
    var settled := if script.databaseAnswers && claim.message.Id() in t.deliveries then None else Some(DatabaseFailed);
    if answer.Success? then settled
    else if !answer.error.IsTransient() then Some(TransportFailed(answer.error))
    else if PlannedRetry(claim, script, settings).Failure? then Some(RuntimeConfiguration)
    else settled
  }

  function TablesOf(s: State, self: MessageAuthority): Tables {
    if self in s.dbs then s.dbs[self].tables else EMPTY_TABLES
  }

  /** Unsent claims that their future takes with it. */
  function Dropped(self: MessageAuthority, s: State, claims: seq<ClaimedMessage>): State {
    s.(held := s.held - set claim | claim in claims :: Held(self, claim, Unsent))
  }

  /** One claimed batch, message after message: where it ends, and the first error, which drops what is left. */
  function BatchRun(codec: Codec, self: MessageAuthority, s: State, claims: seq<ClaimedMessage>,
    answers: Uuid -> PublishScript, settings: Retry.PublisherSettings): (State, Option<RuntimeError>)
    decreases |claims|
  {
    if claims == [] then (s, None)
    else
      var (claim, script) := (claims[0], answers(claims[0].message.Id()));
      var t := Run(codec, s, PublishActions(self, claim, script, settings, s.window));
      var error := PublishError(self, claim, script, settings, TablesOf(s, self), s.window);
      if error.Some? then (Dropped(self, t, claims[1..]), error)
      else BatchRun(codec, self, t, claims[1..], answers, settings)
  }

  predicate HasLease(cycle: Cycle) { cycle.lease.Some? && IsUuidV7(cycle.lease.value) }

  function ClaimAction(self: MessageAuthority, publisher: Uuid, settings: Retry.PublisherSettings, cycle: Cycle, taken: set<Uuid>):
    Action
    requires HasLease(cycle)
  {
    Claim(self, cycle.now, settings.claimBatchSize, cycle.locked, taken, publisher, cycle.lease.value, settings.leaseSeconds, true)
  }

  /** What one turn took, in the order in which the batch came back, and the error it ended with. */
  datatype Turn = Turn(taken: set<Uuid>, claims: seq<ClaimedMessage>, error: Option<RuntimeError>)

  /**
   * A turn takes exactly the rows that the claim query selects, under the lease of the turn, and publishes
   * every one of them. A database that does not answer makes it a turn of waiting.
   */
  ghost predicate TurnOf(codec: Codec, self: MessageAuthority, publisher: Uuid, settings: Retry.PublisherSettings, cycle: Cycle,
    s: State, turn: Turn, t: State)
  {
    && HasLease(cycle)
    && if !cycle.databaseAnswers then t == s && turn == Turn({}, [], None)
       else
         var claim := ClaimAction(self, publisher, settings, cycle, turn.taken);
         var claimed := Step(codec, s, claim);
         && ClaimSelects(TablesOf(s, self), cycle.now, settings.claimBatchSize, cycle.locked, turn.taken)
         && Databases.IsClaimOf(TablesOf(claimed, self), turn.claims, turn.taken, claim.lease,
           cycle.now + settings.leaseSeconds * MICROS_PER_SECOND)
         && (t, turn.error) == BatchRun(codec, self, claimed, turn.claims, cycle.answers, settings)
  }

  /** How the publisher loop ends after these turns of so many: with an error of the last, without a lease, or cancelled. */
  function PublisherResult(turns: seq<Turn>, cycles: nat): Result<(), RuntimeError> {
    if turns != [] && turns[|turns| - 1].error.Some? then Failure(turns[|turns| - 1].error.value)
    else if |turns| < cycles then Failure(Identity)
    else Success(())
  }

  /** Generated identities are time-ordered and fresh; one that is not counts as none. */
  function FreshIdentity(db: Db, identity: Option<Generated>): Option<Generated> {
    if identity.Some? && IsUuidV7(identity.value.newId) && ValidEmittedAt(identity.value.emittedAt)
      && identity.value.newId !in db.tables.messages then identity else None
  }

  /** The disposition of a delivery whose identity, if it needs one, could be generated. */
  function DispositionOf(codec: Codec, db: Db, item: BrokerItem, script: DeliveryScript): Disposition {
    var id := FreshIdentity(db, script.identity).GetOr(Generated(0, 0));
    ProcessDelivery(codec, db, item, id.newId, id.emittedAt, script.now)
  }

  predicate Commits(codec: Codec, db: Db, item: BrokerItem, script: DeliveryScript) {
    && !script.timing.TimedOutBeforeCommit? && script.databaseAnswers
    && (item.stream.Commands? ==> FreshIdentity(db, script.identity).Some?)
    && DispositionOf(codec, db, item, script).Committed?
  }

  /** The receipt that a record's destination holds once its delivery committed. */
  predicate HasReceiptFor(t: Tables, item: BrokerItem) {
    var key := ReceiptKeyOf(item.destination, item);
    key in t.receipts && t.receipts[key].envelope == item.bytes
  }

  // ---- Consuming ------------------------------------------------------------------------------

  /** The checks before the handler: envelope, message-id header, subject and stream. */
  predicate Addressed(codec: Codec, item: BrokerItem) {
    && DecodeEnvelope(codec, item.bytes).Some?
    && var m := DecodeEnvelope(codec, item.bytes).value.metadata;
    && item.headerId == m.messageId && DeriveSubject(m) == Some(item.subject) && item.stream == StreamForKind(m.descriptor.kind)
  }

  /** The fatal ends of a handler; everything else it turns down is rejected. */
  function HandlerFailure(codec: Codec, db: Db, stream: TransportStream, message: EncodedMessage, script: DeliveryScript):
    Option<RuntimeError>
  {
    var (self, contract) := (db.authority, HandledContract(db.authority, stream));
    var identity := FreshIdentity(db, script.identity);
    var id := identity.GetOr(Generated(0, 0));
    if !RouteFence(self, stream, message.metadata) || message.metadata.descriptor != contract
      || !codec.payloadFits(message.bytes, contract) then None
    else if stream.Commands? && identity.None? then Some(Identity)
    else if stream.Commands? && ReplyFails(codec, self, message.metadata, message.bytes, id.newId, id.emittedAt) then
      Some(CodecFailure)
    else if script.databaseAnswers && Handle(codec, db, stream, message, id.newId, id.emittedAt, script.now).Fatal? then
      Some(DatabaseFailed)
    else None
  }

  function DeliveryError(codec: Codec, db: Db, item: BrokerItem, script: DeliveryScript): Option<RuntimeError> {
    if script.timing.TimedOutBeforeCommit? || !Addressed(codec, item) then None
    else HandlerFailure(codec, db, item.stream, DecodeEnvelope(codec, item.bytes).value, script)
  }

  /** The protocol actions of one delivery: none without a commit, and an acknowledgment only of a handler that returned. */
  function DeliveryActions(codec: Codec, db: Db, sequence: nat, item: BrokerItem, script: DeliveryScript): seq<Action> {
    var id := FreshIdentity(db, script.identity).GetOr(Generated(0, 0));
    if !Commits(codec, db, item, script) then []
    else
      [Deliver(sequence, id.newId, id.emittedAt, script.now, script.timing.InTime?)]
      + if !script.timing.InTime? then [] else if script.ackAnswers then [Ack(sequence)] else [LoseAck(sequence)]
  }

  /** The broker holds this record for the durable. */
  predicate HandsOut(s: State, self: MessageAuthority, stream: TransportStream, n: nat) {
    self in s.dbs && n in s.broker && s.broker[n].destination == self && s.broker[n].stream == stream
  }

  /** One fetched batch, record after record: a record that is gone by now is not delivered, the first error ends it. */
  function FetchedRun(codec: Codec, self: MessageAuthority, s: State, stream: TransportStream, sequences: seq<nat>,
    scripts: nat -> DeliveryScript): (State, Option<RuntimeError>)
    decreases |sequences|
  {
    if sequences == [] then (s, None)
    else if !HandsOut(s, self, stream, sequences[0]) then FetchedRun(codec, self, s, stream, sequences[1..], scripts)
    else
      var n := sequences[0];
      var error := DeliveryError(codec, s.dbs[self], s.broker[n], scripts(n));
      var t := Run(codec, s, DeliveryActions(codec, s.dbs[self], n, s.broker[n], scripts(n)));
      if error.Some? then (t, error) else FetchedRun(codec, self, t, stream, sequences[1..], scripts)
  }

  /** The fetches of one durable: a transient fetch error is passed over, any other ends the loop. */
  function ConsumerRun(codec: Codec, self: MessageAuthority, s: State, stream: TransportStream, fetches: seq<Fetch>):
    (State, Option<RuntimeError>)
    decreases |fetches|
  {
    if fetches == [] then (s, None)
    else
      match fetches[0].error
      case Some(error) =>
        if error.IsTransient() then ConsumerRun(codec, self, s, stream, fetches[1..]) else (s, Some(TransportFailed(error)))
      case None =>
        var (t, error) := FetchedRun(codec, self, s, stream, fetches[0].sequences, fetches[0].scripts);
        if error.Some? then (t, error) else ConsumerRun(codec, self, t, stream, fetches[1..])
  }

  function ResultOf(error: Option<RuntimeError>): Result<(), RuntimeError> {
    match error case None => Success(()) case Some(e) => Failure(e)
  }
}
