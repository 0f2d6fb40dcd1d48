/**
 * The fences against the routes: the checks of the transport, the databases and the workers were written
 * one by one, and for a routable message they agree on who may send it and who may take it.
 */
module Fences {
  import opened Foundation
  import opened Grammar
  import opened MessageDomain
  import opened OutboxStore
  import opened AuthorityDatabase
  import opened Routing
  import opened Delivery
  import opened Subjects

  /** Only the origin of its route may enqueue a routable message, and only the origin's worker may publish it. */
  lemma OnlyTheOriginSends(at: MessageAuthority, message: EncodedMessage)
    requires message.metadata.Valid() && RouteOf(message.metadata).Some?
    ensures OutboundFence(at, message).None? <==> at == RouteOf(message.metadata).value.Origin()
    ensures AuthorizedToPublish(WorkerOf(at), message.metadata) <==> at == RouteOf(message.metadata).value.Origin()
  {
    hide MessageMetadata.ComponentsValid;
  }

  /**
   * The inbound fence admits a routable command at its destination alone. It does not look at the source,
   * so it admits a routable event at both ends of its route.
   */
  lemma InboundFenceIsTheDestination(at: MessageAuthority, message: EncodedMessage)
    requires message.metadata.Valid() && RouteOf(message.metadata).Some?
    ensures InboundFence(at, message).None? <==>
      || at == RouteOf(message.metadata).value.Destination()
      || (at == RouteOf(message.metadata).value.Origin() && message.metadata.descriptor.kind.Event?)
  {
    hide MessageMetadata.ComponentsValid;
  }

  /** The worker's route fence closes that gap: of the routable tenant messages it admits exactly its own. */
  lemma RouteFenceIsTheDestination(at: MessageAuthority, m: MessageMetadata)
    requires m.Valid() && RouteOf(m).Some? && m.scope.TenantScope?
    ensures RouteFence(at, StreamForKind(m.descriptor.kind), m) <==> at == RouteOf(m).value.Destination()
  {
    hide MessageMetadata.ComponentsValid;
  }

  /** Messages without a tenant never reach a handler: every worker rejects them. */
  lemma OnlyTenantMessagesAreHandled(codec: Codec, db: Db, item: BrokerItem, newId: Uuid, emittedAt: nat, now: int)
    requires ProcessDelivery(codec, db, item, newId, emittedAt, now).Committed? && codec.Valid()
    requires db.authority.Valid() && RouteOf(codec.parse(item.bytes).value).Some?
    ensures codec.parse(item.bytes).value.scope.TenantScope?
    ensures db.authority == RouteOf(codec.parse(item.bytes).value).value.Destination()
  {
    hide MessageMetadata.ComponentsValid, RecordInboxAndEnqueue, MessageMetadata.BrokenRule, DeriveSubject, RouteOf;
    var m := codec.parse(item.bytes).value;
    assert m.Valid();
    RouteFenceIsTheDestination(db.authority, m);
  }

  /** The handler of this durable takes the message, and its reply can be built. */
  predicate Handled(codec: Codec, db: Db, stream: TransportStream, message: EncodedMessage, newId: Uuid, emittedAt: nat) {
    && RouteFence(db.authority, stream, message.metadata)
    && message.metadata.descriptor == HandledContract(db.authority, stream)
    && codec.payloadFits(message.bytes, message.metadata.descriptor)
    && (stream.Commands? ==> !ReplyFails(codec, db.authority, message.metadata, message.bytes, newId, emittedAt))
  }

  /** The tenant of a handled message is served here at its epoch, which only a Cell asks. */
  predicate Served(db: Db, scope: MessageScope)
    requires scope.TenantScope?
  {
    db.authority.Cell? ==> scope.tenantId in db.tenants && db.tenants[scope.tenantId] == TenantRow(scope.assignmentEpoch, true)
  }

  /** The checks on a handled message find nothing but its tenant. */
  lemma HandledReachesReceipt(codec: Codec, db: Db, stream: TransportStream, message: EncodedMessage, newId: Uuid, emittedAt: nat,
    derived: Option<EncodedMessage>)
    requires Handled(codec, db, stream, message, newId, emittedAt)
    requires derived.Some? ==> derived.value.metadata == ReplyMetadata(db.authority, message.metadata, newId, emittedAt)
    ensures InboxGate(db, WORKER_SESSION, message, derived) ==
      if db.authority.Cell? then TenantFence(db.authority, db.tenants, message.metadata.scope) else None
  {
    hide ReplyFails;
  }

  lemma HandledRuns(codec: Codec, db: Db, stream: TransportStream, message: EncodedMessage, newId: Uuid, emittedAt: nat, now: int)
    returns (derived: Option<EncodedMessage>)
    requires Handled(codec, db, stream, message, newId, emittedAt)
    ensures derived.Some? <==> stream.Commands?
    ensures derived.Some? ==> derived.value.metadata == ReplyMetadata(db.authority, message.metadata, newId, emittedAt)
    ensures Handle(codec, db, stream, message, newId, emittedAt, now) == Finish(db.authority,
      RecordInboxAndEnqueue(db, WORKER_SESSION, HandlerName(db.authority, stream), message, derived, now), derived)
  {
    hide RecordInboxAndEnqueue, RouteFence, HandledContract, HandlerName;
    var reply := ReplyMetadata(db.authority, message.metadata, newId, emittedAt);
    derived := if stream.Events? then None else Some(EncodedMessage(reply, codec.replyBytes(reply, message.bytes).value));
  }

  /**
   * What becomes of a handled message: a tenant that is absent, disabled or at another epoch rejects it under
   * that name, redeliveries too; then a receipt of the same content makes it a duplicate, a receipt of other
   * content is fatal, and without a receipt it commits its first one.
   */
  lemma HandledOutcome(codec: Codec, db: Db, stream: TransportStream, message: EncodedMessage, newId: Uuid, emittedAt: nat, now: int)
    requires Handled(codec, db, stream, message, newId, emittedAt)
    ensures var d := Handle(codec, db, stream, message, newId, emittedAt, now);
      var (m, key) := (message.metadata, ReceiptKey(HandlerName(db.authority, stream), message.Id()));
      var (tenant, tenants, receipts) := (m.scope.tenantId, db.tenants, db.tables.receipts);
      && (db.authority.Cell? && tenant !in tenants ==> d == Nak("delivery.tenant-absent"))
      && (db.authority.Cell? && tenant in tenants && !tenants[tenant].serving ==> d == Nak("delivery.tenant-disabled"))
      && (db.authority.Cell? && tenant in tenants && tenants[tenant].serving && !Served(db, m.scope) ==>
        d == Nak("delivery.stale-epoch"))
      && (Served(db, m.scope) && key in receipts ==>
        if receipts[key] == ReceiptRow(m.descriptor.name, m.descriptor.schemaVersion, m.descriptor.kind, message.bytes,
          receipts[key].processedAt) then d.Committed? && d.outcome == DuplicateReceipt && d.db == db
        else d == Fatal)
      && (Served(db, m.scope) && key !in receipts
          && (stream.Commands? ==> newId !in db.tables.messages && newId !in db.tables.deliveries) ==>
        d.Committed? && d.outcome == FirstReceipt && d.db.tables.receipts == receipts[key := ReceiptOf(message, now)])
  {
    hide RouteFence, HandledContract, HandlerName, ReplyFails, Handle;
    var derived := HandledRuns(codec, db, stream, message, newId, emittedAt, now);
    HandledReachesReceipt(codec, db, stream, message, newId, emittedAt, derived);
    assert message.metadata.scope.TenantScope? by { TenantIsNamed(db.authority, stream, message.metadata); }
    ReceiptDecides(db, HandlerName(db.authority, stream), message, derived, now);
    assert db.authority.Cell? ==> db.authority == MessageAuthority.Cell(message.metadata.scope.tenantCell) by {
      TenantIsNamed(db.authority, stream, message.metadata);
    }
  }

  lemma TenantIsNamed(at: MessageAuthority, stream: TransportStream, m: MessageMetadata)
    requires RouteFence(at, stream, m)
    ensures m.scope.TenantScope? && (at.Cell? ==> at == MessageAuthority.Cell(m.scope.tenantCell))
  {
  }

  /** Past the gate the receipt decides. */
  lemma ReceiptDecides(db: Db, consumer: string, message: EncodedMessage, derived: Option<EncodedMessage>, now: int)
    ensures var (r, after) := RecordInboxAndEnqueue(db, WORKER_SESSION, consumer, message, derived, now);
      var (gate, key, receipts) := (InboxGate(db, WORKER_SESSION, message, derived), ReceiptKey(consumer, message.Id()), db.tables.receipts);
      var d := message.metadata.descriptor;
      && (gate.Some? ==> r == Failure(gate.value))
      && (gate.None? && key in receipts ==>
        if receipts[key] == ReceiptRow(d.name, d.schemaVersion, d.kind, message.bytes, receipts[key].processedAt) then
          r == Success(DuplicateReceipt) && after == db
        else r == Failure(InboxConflict))
      && (gate.None? && key !in receipts
          && (derived.Some? ==> derived.value.Id() !in db.tables.messages && derived.value.Id() !in db.tables.deliveries) ==>
        r == Success(FirstReceipt) && after.tables.receipts == receipts[key := ReceiptOf(message, now)])
  {
    hide InboxGate;
  }

  /** Only what its handler takes is committed: no check is passed over. */
  lemma CommittedIsHandled(codec: Codec, db: Db, item: BrokerItem, newId: Uuid, emittedAt: nat, now: int)
    requires ProcessDelivery(codec, db, item, newId, emittedAt, now).Committed?
    ensures 2 <= |item.bytes| <= 262_144 && codec.parse(item.bytes).Some?
    ensures var m := codec.parse(item.bytes).value;
      && m.messageId == item.headerId && DeriveSubject(m) == Some(item.subject) && StreamForKind(m.descriptor.kind) == item.stream
      && Handled(codec, db, item.stream, EncodedMessage(m, item.bytes), newId, emittedAt)
      && m.scope.TenantScope? && Served(db, m.scope)
  {
    hide DeriveSubject, RouteFence, HandledContract, HandlerName, ReplyFails, RecordInboxAndEnqueue;
    var message := DecodeEnvelope(codec, item.bytes).value;
    TenantIsNamed(db.authority, item.stream, message.metadata);
    HandledOutcome(codec, db, item.stream, message, newId, emittedAt, now);
  }
}
