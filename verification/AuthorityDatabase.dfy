/**
 * What the Cell and Platform database operations mean: role and contract gates, authority fences, the
 * tenant fence, and the transaction that joins an inbox receipt with its derived outbox message.
 */
module AuthorityDatabase {
  import opened Foundation
  import opened MessageDomain
  import opened OutboxStore

  datatype RuntimeRole = Api | Worker

  /** What a connection proved about itself when it opened. */
  datatype Session = Session(role: RuntimeRole, contractVersion: nat) {
    predicate MessageStoreAvailable() { contractVersion >= 2 }
  }

  const WORKER_SESSION := Session(Worker, 2)

  datatype DatabaseError =
    | MessageStoreCapabilityUnavailable | RoleCapabilityMismatch
    | InvalidOutboundAuthority | InvalidInboundTarget
    | MessageStoreFailure | IdentityConflict | Corruption | InboxConflict
    | WrongCell | TenantAbsent | TenantDisabled | StaleAssignmentEpoch
    | InvalidPayload | Operation

  datatype InboxOutcome = FirstReceipt | DuplicateReceipt

  datatype TenantRow = TenantRow(epoch: nat, serving: bool)

  datatype CanaryKey = CanaryKey(tenantId: Uuid, canaryId: Uuid)

  /** One authority's database. Only a Cell has tenant authority and canary rows. */
  datatype Db = Db(
    authority: MessageAuthority,
    tables: Tables,
    tenants: map<Uuid, TenantRow>,
    canaries: map<CanaryKey, string>)

  function FromStoreError(error: StoreError): DatabaseError {
    match error
    case ProviderFailure => MessageStoreFailure
    case MessageIdentityConflict => IdentityConflict
    case StoreCorruption => Corruption
    case InvalidStoredValue => Corruption
  }

  // ---- Fences ---------------------------------------------------------------------------------

  /** `tenant_scope_status()`: absent, then disabled, then stale; no error means active. */
  function TenantStatus(tenants: map<Uuid, TenantRow>, tenant: Uuid, epoch: nat): Option<DatabaseError> {
    if tenant !in tenants then Some(TenantAbsent)
    else if !tenants[tenant].serving then Some(TenantDisabled)
    else if tenants[tenant].epoch != epoch then Some(StaleAssignmentEpoch)
    else None
  }

  /** `validate_tenant_in_transaction` of a Cell, for scopes that name a tenant. */
  function TenantFence(authority: MessageAuthority, tenants: map<Uuid, TenantRow>, scope: MessageScope): Option<DatabaseError> {
    match scope
    case TenantScope(tenant, cell, epoch) =>
      if authority != Cell(cell) then Some(WrongCell) else TenantStatus(tenants, tenant, epoch)
    case _ => None
  }

  function ScopedTo(scope: MessageScope, authority: MessageAuthority): bool {
    authority.Cell? && scope.CellOf() == Some(authority.cellId)
  }

  /** `validate_cell_outbound` and `validate_platform_source`. */
  function OutboundFence(authority: MessageAuthority, message: EncodedMessage): Option<DatabaseError> {
    if message.metadata.source != authority then Some(InvalidOutboundAuthority)
    else if authority.Cell? && !ScopedTo(message.metadata.scope, authority) then Some(InvalidOutboundAuthority)
    else None
  }

  /** `validate_cell_inbound` and `validate_platform_inbound`. */
  function InboundFence(authority: MessageAuthority, message: EncodedMessage): Option<DatabaseError> {
    var m := message.metadata;
    var targeted :=
      if m.descriptor.kind.Event? then m.target.None?
      else m.target == Some(if authority.Platform? then PlatformTarget else CellTarget(authority.cellId));
    if targeted && (authority.Cell? ==> ScopedTo(m.scope, authority)) then None else Some(InvalidInboundTarget)
  }

  function FirstError(one: Option<DatabaseError>, two: Option<DatabaseError>): Option<DatabaseError> {
    if one.Some? then one else two
  }

  // ---- Enqueue --------------------------------------------------------------------------------

  /** Everything `enqueue_outbound_message` checks before the store: a Cell also fences tenant messages. */
  function EnqueueGate(db: Db, session: Session, message: EncodedMessage): Option<DatabaseError> {
    if !session.MessageStoreAvailable() then Some(MessageStoreCapabilityUnavailable)
    else
      var outbound := OutboundFence(db.authority, message);
      if outbound.Some? || db.authority.Platform? then outbound
      else TenantFence(db.authority, db.tenants, message.metadata.scope)
  }

  function EnqueueOutbound(db: Db, session: Session, message: EncodedMessage, now: int):
    (Result<EnqueueOutcome, DatabaseError>, Db)
  {
    match EnqueueGate(db, session, message)
    case Some(error) => (Failure(error), db)
    case None =>
      match EnqueueResult(db.tables, message)
      case Failure(error) => (Failure(FromStoreError(error)), db)
      case Success(outcome) => (Success(outcome), db.(tables := EnqueueTables(db.tables, message, now)))
  }

  const MAX_CANARY_PAYLOAD_CHARACTERS: nat := 4096

  /** `write_isolation_canary_and_enqueue`: the canary row and the message commit together or not at all. */
  function WriteCanaryAndEnqueue(db: Db, session: Session, scope: MessageScope, canaryId: Uuid, payload: string,
    message: EncodedMessage, now: int): (Result<EnqueueOutcome, DatabaseError>, Db)
    requires db.authority.Cell? && scope.TenantScope?
  {
    if !session.MessageStoreAvailable() then (Failure(MessageStoreCapabilityUnavailable), db)
    else if !(1 <= |payload| <= MAX_CANARY_PAYLOAD_CHARACTERS) then (Failure(InvalidPayload), db)
    else if OutboundFence(db.authority, message).Some? || message.metadata.scope != scope then
      (Failure(InvalidOutboundAuthority), db)
    else
      match TenantFence(db.authority, db.tenants, scope)
      case Some(error) => (Failure(error), db)
      case None =>
        var key := CanaryKey(scope.tenantId, canaryId);
        if key in db.canaries then (Failure(Operation), db)
        else
          match EnqueueResult(db.tables, message)
          case Failure(error) => (Failure(FromStoreError(error)), db)
          case Success(outcome) =>
            (Success(outcome),
             db.(tables := EnqueueTables(db.tables, message, now), canaries := db.canaries[key := payload]))
  }

  // ---- Inbox ----------------------------------------------------------------------------------

  /** Every check before the receipt. A Cell fences the inbound and then the derived tenant. */
  function InboxGate(db: Db, session: Session, inbound: EncodedMessage,
    derived: Option<EncodedMessage>): Option<DatabaseError> {
    if session.role != Worker then Some(RoleCapabilityMismatch)
    else if !session.MessageStoreAvailable() then Some(MessageStoreCapabilityUnavailable)
    else
      var fences := FirstError(
        InboundFence(db.authority, inbound),
        if derived.Some? then OutboundFence(db.authority, derived.value) else None);
      if fences.Some? || db.authority.Platform? then fences
      else
        FirstError(
          TenantFence(db.authority, db.tenants, inbound.metadata.scope),
          if derived.Some? then TenantFence(db.authority, db.tenants, derived.value.metadata.scope) else None)
  }

  /** `record_inbox_and_enqueue`: the receipt and the derived message commit together or not at all. */
  function RecordInboxAndEnqueue(db: Db, session: Session, consumer: string, inbound: EncodedMessage,
    derived: Option<EncodedMessage>, now: int): (Result<InboxOutcome, DatabaseError>, Db)
  {
    match InboxGate(db, session, inbound, derived)
    case Some(error) => (Failure(error), db)
    case None =>
      match InboxResult(db.tables, consumer, inbound)
      case ReceiptConflict => (Failure(InboxConflict), db)
      case ReceiptDuplicate => (Success(DuplicateReceipt), db)
      case ReceiptInserted =>
        var received := InboxTables(db.tables, consumer, inbound, now);
        if derived.None? then (Success(FirstReceipt), db.(tables := received))
        else
          match EnqueueResult(received, derived.value)
          case Failure(error) => (Failure(FromStoreError(error)), db)
          case Success(_) => (Success(FirstReceipt), db.(tables := EnqueueTables(received, derived.value, now)))
  }

  // ---- Worker gates ---------------------------------------------------------------------------

  /** The gate of claims, markers and reschedules: the worker role on contract 2. */
  function WorkerGate(session: Session): Option<DatabaseError> {
    if session.role != Worker then Some(RoleCapabilityMismatch)
    else if !session.MessageStoreAvailable() then Some(MessageStoreCapabilityUnavailable)
    else None
  }

  /** A failed database operation leaves no trace. */
  lemma FailureRollsBack(db: Db, session: Session, consumer: string, inbound: EncodedMessage,
    derived: Option<EncodedMessage>, now: int)
    ensures var (r, after) := RecordInboxAndEnqueue(db, session, consumer, inbound, derived, now);
      r.Failure? ==> after == db
    ensures var (r, after) := EnqueueOutbound(db, session, inbound, now);
      r.Failure? ==> after == db
  {
  }

  /**
   * The canary row and its message are there together, under the active tenant epoch, or neither is; and
   * they are there exactly when the message is the Cell's own under that scope, the tenant is served at its
   * epoch, the payload has a length in bounds, the key is free and the outbox takes the message.
   */
  lemma CanaryAndMessageTogether(db: Db, session: Session, scope: MessageScope, canaryId: Uuid, payload: string,
    message: EncodedMessage, now: int)
    requires db.authority.Cell? && scope.TenantScope?
    ensures var (r, after) := WriteCanaryAndEnqueue(db, session, scope, canaryId, payload, message, now);
      var key := CanaryKey(scope.tenantId, canaryId);
      && (r.Failure? ==> after == db)
      && (r.Success? ==>
        && key !in db.canaries && after.canaries == db.canaries[key := payload]
        && message.Id() in after.tables.messages && after.tables.messages[message.Id()].message == message
        && message.metadata.source == db.authority && message.metadata.scope == scope
        && scope.tenantId in db.tenants && db.tenants[scope.tenantId] == TenantRow(scope.assignmentEpoch, true))
    ensures var (id, t) := (message.Id(), db.tables);
      WriteCanaryAndEnqueue(db, session, scope, canaryId, payload, message, now).0.Success? <==>
        && session.contractVersion >= 2 && 1 <= |payload| <= 4096
        && message.metadata.source == db.authority && message.metadata.scope == scope
        && scope.tenantCell == db.authority.cellId
        && scope.tenantId in db.tenants && db.tenants[scope.tenantId] == TenantRow(scope.assignmentEpoch, true)
        && CanaryKey(scope.tenantId, canaryId) !in db.canaries
        && (id in t.messages <==> id in t.deliveries) && (id in t.messages ==> t.messages[id].message == message)
  {
  }
}
