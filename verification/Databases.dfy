/**
 * The Cell and Platform databases over their rows. Each call is one transaction: it writes rows in place
 * and, when a later step of it fails, puts the rows of the transaction back. The Platform takes the same
 * steps as a Cell without the tenant and Cell-scope fences, as `AuthorityDatabase` specifies.
 */
module Databases {
  import opened Foundation
  import opened MessageDomain
  import opened OutboxStore
  import opened AuthorityDatabase
  import MessageStore

  class Database {
    const authority: MessageAuthority
    const session: Session
    const store: MessageStore.Store
    var tenants: map<Uuid, TenantRow>
    var canaries: map<CanaryKey, string>

    constructor (authority: MessageAuthority, session: Session)
      ensures this.authority == authority && this.session == session && fresh(store)
      ensures Valid() && View() == Db(authority, EMPTY_TABLES, map[], map[])
    {
      this.authority, this.session := authority, session;
      tenants, canaries := map[], map[];
      store := new MessageStore.Store();
    }

    ghost predicate Valid()
      reads this, store
    { store.Decodes() }

    ghost function View(): Db
      requires Valid()
      reads this, store
    { Db(authority, store.View(), tenants, canaries) }

    /** `validate_tenant_in_transaction` for the tenant of a scope, if it names one. */
    method FenceTenant(scope: MessageScope) returns (error: Option<DatabaseError>)
      ensures error == TenantFence(authority, tenants, scope)
    {
      if scope.TenantScope? {
        if authority != Cell(scope.tenantCell) { return Some(WrongCell); }
        if scope.tenantId !in tenants { return Some(TenantAbsent); }
        var row := tenants[scope.tenantId];
        if !row.serving { return Some(TenantDisabled); }
        if row.epoch != scope.assignmentEpoch { return Some(StaleAssignmentEpoch); }
      }
      return None;
    }

    /** `enqueue_outbound_message`. */
    method EnqueueOutboundMessage(message: EncodedMessage, now: int) returns (r: Result<EnqueueOutcome, DatabaseError>)
      requires Valid() && message.Valid()
      modifies store
      ensures Valid() && (r, View()) == EnqueueOutbound(old(View()), session, message, now)
    {
      hide EncodedMessage.Valid, EnqueueTables, EnqueueResult;
      if !session.MessageStoreAvailable() { return Failure(MessageStoreCapabilityUnavailable); }
      var outbound := OutboundFence(authority, message);
      if outbound.Some? { return Failure(outbound.value); }
      if authority.Cell? {
        var fence := FenceTenant(message.metadata.scope);
        if fence.Some? { return Failure(fence.value); }
      }
      var stored := store.Enqueue(message, now);
      match stored
      case Failure(error) => return Failure(FromStoreError(error));
      case Success(outcome) => return Success(outcome);
    }

    /** `write_isolation_canary_and_enqueue`: a failing enqueue takes the canary row back out. */
    method WriteIsolationCanaryAndEnqueue(scope: MessageScope, canaryId: Uuid, payload: string, message: EncodedMessage,
      now: int)
      returns (r: Result<EnqueueOutcome, DatabaseError>)
      requires Valid() && message.Valid() && authority.Cell? && scope.TenantScope?
      modifies this, store
      ensures Valid()
      ensures (r, View()) == WriteCanaryAndEnqueue(old(View()), session, scope, canaryId, payload, message, now)
    {
      hide EncodedMessage.Valid, EnqueueTables, EnqueueResult;
      if !session.MessageStoreAvailable() { return Failure(MessageStoreCapabilityUnavailable); }
      if !(1 <= |payload| <= MAX_CANARY_PAYLOAD_CHARACTERS) { return Failure(InvalidPayload); }
      if OutboundFence(authority, message).Some? || message.metadata.scope != scope {
        return Failure(InvalidOutboundAuthority);
      }
      var fence := FenceTenant(scope);
      if fence.Some? { return Failure(fence.value); }
      var key := CanaryKey(scope.tenantId, canaryId);
      if key in canaries { return Failure(Operation); }
      var saved := canaries;
      canaries := canaries[key := payload];
      var stored := store.Enqueue(message, now);
      match stored
      case Failure(error) =>
        canaries := saved;
        return Failure(FromStoreError(error));
      case Success(outcome) => return Success(outcome);
    }

    /** `claim_outbox_batch`; `locked` are the rows that other open claims hold. */
    method ClaimOutboxBatch(now: int, batch: nat, locked: set<Uuid>, publisher: Uuid, lease: Uuid, seconds: nat)
      returns (r: Result<seq<ClaimedMessage>, DatabaseError>, ghost chosen: set<Uuid>)
      requires Valid()
      modifies store
      ensures Valid()
      ensures WorkerGate(session).Some? ==> r == Failure(WorkerGate(session).value) && View() == old(View())
      ensures WorkerGate(session).None? ==>
        && r.Success? && ClaimSelects(old(View()).tables, now, batch, locked, chosen)
        && View() == old(View()).(tables := ClaimTables(old(View()).tables, chosen, now, publisher, lease, seconds))
        && IsClaimOf(View().tables, r.value, chosen, lease, now + seconds * MICROS_PER_SECOND)
    {
      if session.role != Worker { return Failure(RoleCapabilityMismatch), {}; }
      if !session.MessageStoreAvailable() { return Failure(MessageStoreCapabilityUnavailable), {}; }
      var claimed;
      claimed, chosen := store.ClaimBatch(now, batch, locked, publisher, lease, seconds);
      r := Success(claimed.value);
    }

    /** `mark_outbox_published`. */
    method MarkOutboxPublished(id: Uuid, lease: Uuid, now: int) returns (r: Result<PublishMarkOutcome, DatabaseError>)
      requires Valid()
      modifies store
      ensures Valid()
      ensures WorkerGate(session).Some? ==> r == Failure(WorkerGate(session).value) && View() == old(View())
      ensures WorkerGate(session).None? ==>
        && r == MapStoreError(MarkResult(old(View()).tables, id, lease, now))
        && View() == old(View()).(tables := MarkTables(old(View()).tables, id, lease, now))
    {
      if session.role != Worker { return Failure(RoleCapabilityMismatch); }
      if !session.MessageStoreAvailable() { return Failure(MessageStoreCapabilityUnavailable); }
      var marked := store.MarkPublished(id, lease, now);
      r := MapStoreError(marked);
    }

    /** `reschedule_outbox_message`. */
    method RescheduleOutboxMessage(id: Uuid, lease: Uuid, now: int, delay: nat, failure: Option<string>)
      returns (r: Result<RescheduleOutcome, DatabaseError>)
      requires Valid()
      modifies store
      ensures Valid()
      ensures WorkerGate(session).Some? ==> r == Failure(WorkerGate(session).value) && View() == old(View())
      ensures WorkerGate(session).None? ==>
        && r == MapStoreError(RescheduleResult(old(View()).tables, id, lease, now))
        && View() == old(View()).(tables := RescheduleTables(old(View()).tables, id, lease, now, delay, failure))
    {
      if session.role != Worker { return Failure(RoleCapabilityMismatch); }
      if !session.MessageStoreAvailable() { return Failure(MessageStoreCapabilityUnavailable); }
      var rescheduled := store.Reschedule(id, lease, now, delay, failure);
      r := MapStoreError(rescheduled);
    }

    /** `record_inbox_and_enqueue`: a conflict or a failing enqueue takes the receipt back out. */
    method RecordInboxAndEnqueueDerived(consumer: string, inbound: EncodedMessage, derived: Option<EncodedMessage>, now: int)
      returns (r: Result<InboxOutcome, DatabaseError>)
      requires Valid() && (derived.Some? ==> derived.value.Valid())
      modifies store
      ensures Valid() && (r, View()) == RecordInboxAndEnqueue(old(View()), session, consumer, inbound, derived, now)
    {
      hide EncodedMessage.Valid, EnqueueTables, EnqueueResult, InboxResult, InboundFence, OutboundFence, TenantFence;
      if session.role != Worker { return Failure(RoleCapabilityMismatch); }
      if !session.MessageStoreAvailable() { return Failure(MessageStoreCapabilityUnavailable); }
      var inboundFence := InboundFence(authority, inbound);
      if inboundFence.Some? { return Failure(inboundFence.value); }
      if derived.Some? && OutboundFence(authority, derived.value).Some? {
        return Failure(OutboundFence(authority, derived.value).value);
      }
      if authority.Cell? {
        var fence := FenceTenant(inbound.metadata.scope);
        if fence.Some? { return Failure(fence.value); }
        if derived.Some? {
          fence := FenceTenant(derived.value.metadata.scope);
          if fence.Some? { return Failure(fence.value); }
        }
      }
      var saved := store.inboxReceipt;
      var receipt := store.RecordInbox(consumer, inbound, now);
      match receipt {
        case ReceiptConflict => return Failure(InboxConflict);
        case ReceiptDuplicate => return Success(DuplicateReceipt);
        case ReceiptInserted =>
          if derived.Some? {
            var stored := store.Enqueue(derived.value, now);
            if stored.Failure? {
              store.inboxReceipt := saved;
              return Failure(FromStoreError(stored.error));
            }
          }
          return Success(FirstReceipt);
      }
    }
  }

  function MapStoreError<T>(r: Result<T, StoreError>): Result<T, DatabaseError> {
    match r case Success(value) => Success(value) case Failure(error) => Failure(FromStoreError(error))
  }

  /** A returned batch holds each chosen row exactly once, as the leased row reads. */
  ghost predicate IsClaimOf(t: Tables, batch: seq<ClaimedMessage>, chosen: set<Uuid>, lease: Uuid, until: int) {
    && |batch| == |chosen|
    && (forall i | 0 <= i < |batch| ::
      var id := batch[i].message.Id();
      id in chosen && id in t.messages && id in t.deliveries
      && batch[i] == ClaimedMessage(t.messages[id].message, t.deliveries[id].attemptCount, lease, until))
    && (forall i, j | 0 <= i < j < |batch| :: batch[i].message.Id() != batch[j].message.Id())
  }
}
