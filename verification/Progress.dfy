/**
 * The safety theorems would hold of a system that does nothing. This one does something: from every sound
 * state, a message that its handler accepts gets through when nobody interferes, and its reply is enqueued.
 */
module Progress {
  import opened Foundation
  import opened MessageDomain
  import opened OutboxStore
  import opened AuthorityDatabase
  import opened Routing
  import opened Delivery
  import opened Protocol
  import opened NoLoss
  import opened Grammar
  import Subjects
  import Fences

  /** What the destination's handler needs to accept the message, and the identity and time of its reply. */
  ghost predicate Welcome(codec: Codec, db: Db, message: EncodedMessage, newId: Uuid, emittedAt: nat) {
    var (m, stream) := (message.metadata, StreamForKind(message.metadata.descriptor.kind));
    && RouteFence(db.authority, stream, m) && m.descriptor == HandledContract(db.authority, stream)
    && codec.parse(message.bytes) == Some(m) && codec.payloadFits(message.bytes, m.descriptor)
    && (db.authority.Cell? ==> TenantFence(db.authority, db.tenants, m.scope).None?)
    && ReceiptKey(HandlerName(db.authority, stream), m.messageId) !in db.tables.receipts
    && (stream.Commands? ==>
      && IsUuidV7(newId) && ValidEmittedAt(emittedAt) && newId != m.messageId
      && newId !in db.tables.messages && newId !in db.tables.deliveries
      && var bytes := codec.replyBytes(ReplyMetadata(db.authority, m, newId, emittedAt), message.bytes);
         bytes.Some? && 2 <= |bytes.value| <= MAX_ENCODED_MESSAGE_BYTES)
  }

  /** The outbox holds the reply to this command, encoded from it and waiting to be published since `now`. */
  predicate Replied(codec: Codec, t: Tables, self: MessageAuthority, command: EncodedMessage, newId: Uuid,
    emittedAt: nat, now: int)
  {
    var reply := ReplyMetadata(self, command.metadata, newId, emittedAt);
    && newId in t.messages && t.messages[newId].message.metadata == reply
    && codec.replyBytes(reply, command.bytes) == Some(t.messages[newId].message.bytes)
    && newId in t.deliveries && t.deliveries[newId] == NewDelivery(now)
  }

  /** The message is on record as published, received, answered if it is a command, and gone from the broker. */
  ghost predicate Delivered(codec: Codec, t: State, at: MessageAuthority, destination: MessageAuthority, message: EncodedMessage,
    newId: Uuid, emittedAt: nat, now: int, sequence: nat)
  {
    && at in t.dbs && destination in t.dbs
    && message.Id() in t.dbs[at].tables.deliveries && t.dbs[at].tables.deliveries[message.Id()].publishedAt.Some?
    && Received(t, destination, message)
    && (message.metadata.descriptor.kind.Command? ==>
      Replied(codec, t.dbs[destination].tables, destination, message, newId, emittedAt, now))
    && sequence !in t.broker
  }

  // ---- One step after another -----------------------------------------------------------------

  lemma EnqueueInserts(s: State, at: MessageAuthority, message: EncodedMessage, now: int)
    requires at in s.dbs && DbOk(at, s.dbs[at]) && message.Valid() && message.Id() !in s.dbs[at].tables.messages
    requires EnqueueGate(s.dbs[at], WORKER_SESSION, message).None?
    ensures var t := DoEnqueue(s, Enqueue(at, WORKER_SESSION, message, now));
      t == WithTables(s, at, EnqueueTables(s.dbs[at].tables, message, now))
    ensures EnqueueResult(s.dbs[at].tables, message) == Success(Inserted)
  {
    hide EncodedMessage.Valid, EnqueueGate, OutboundFence;
    assert s.dbs[at].tables.messages.Keys == s.dbs[at].tables.deliveries.Keys;
  }

  /** With every other row locked, a claim takes exactly this row. */
  lemma ClaimTakes(t: Tables, id: Uuid, now: int)
    requires id in t.messages && id in t.deliveries && RowEligible(t.deliveries[id], now)
    ensures ClaimSelects(t, now, 1, t.deliveries.Keys - {id}, {id})
  {
    assert EligibleIds(t, now, t.deliveries.Keys - {id}) == {id};
  }

  lemma ClaimHolds(s: State, at: MessageAuthority, id: Uuid, now: int, publisher: Uuid, lease: Uuid)
    requires at in s.dbs && id in s.dbs[at].tables.messages && id in s.dbs[at].tables.deliveries
    requires RowEligible(s.dbs[at].tables.deliveries[id], now)
    ensures var locked := s.dbs[at].tables.deliveries.Keys - {id};
      var t := DoClaim(s, Claim(at, now, 1, locked, {id}, publisher, lease, 1, true));
      var tables := ClaimTables(s.dbs[at].tables, {id}, now, publisher, lease, 1);
      && t == WithTables(s, at, tables).(held := t.held)
      && id in tables.deliveries
      && Held(at, ClaimedRow(tables, id, lease, now + MICROS_PER_SECOND), Unsent) in t.held
      && HoldsLease(tables, id, lease, now) == s.dbs[at].tables.deliveries[id].publishedAt.None?
  {
    ClaimTakes(s.dbs[at].tables, id, now);
    hide ClaimSelects;
    var tables := ClaimTables(s.dbs[at].tables, {id}, now, publisher, lease, 1);
    assert tables.deliveries[id] == LeasedRow(s.dbs[at].tables.deliveries[id], now, publisher, lease, 1);
  }

  lemma PublishStores(s: State, h: Held)
    requires h in s.held && h.stage.Unsent? && Publishable(h.owner, h.claim.message)
    ensures var t := DoPublish(s, Publish(h, PublishFate.Stored(true)));
      var message := h.claim.message;
      && t == s.(broker := t.broker, nextSequence := t.nextSequence, window := t.window, held := t.held,
        publications := t.publications)
      && t.broker == s.broker[s.nextSequence :=
        ItemOf(h.owner, message, RouteOf(message.metadata).value, DeriveSubject(message.metadata).value)]
      && t.window == s.window[WindowKeyOf(message) := h.owner]
      && h.(stage := Accepted) in t.held
  {
    hide DeriveSubject, RouteOf, AuthorizedToPublish;
  }

  /** The handler commits the first receipt and, for a command, the reply with it. */
  lemma HandlerCommits(codec: Codec, db: Db, item: BrokerItem, message: EncodedMessage, newId: Uuid, emittedAt: nat, now: int)
    requires db.authority.Valid() && message.Valid() && RouteOf(message.metadata).Some?
    requires RouteOf(message.metadata).value.Destination() == db.authority
    requires Welcome(codec, db, message, newId, emittedAt)
    requires item.bytes == message.bytes && item.headerId == message.Id()
    requires DeriveSubject(message.metadata) == Some(item.subject) && item.stream == StreamForKind(message.metadata.descriptor.kind)
    ensures var d := ProcessDelivery(codec, db, item, newId, emittedAt, now);
      && d.Committed? && d.outcome.FirstReceipt?
      && var key := ReceiptKeyOf(db.authority, item);
      && key in d.db.tables.receipts && d.db.tables.receipts[key].envelope == message.bytes
      && (item.stream.Commands? ==> Replied(codec, d.db.tables, db.authority, message, newId, emittedAt, now))
  {
    hide DeriveSubject, RouteOf, MessageMetadata.ComponentsValid;
    MetadataIsValid(message);
    assert DecodeEnvelope(codec, item.bytes) == Some(message);
    Fences.InboundFenceIsTheDestination(db.authority, message);
    if item.stream.Commands? {
      var reply := ReplyMetadata(db.authority, message.metadata, newId, emittedAt);
      ReplyPasses(db, message, newId, emittedAt);
      var derived := EncodedMessage(reply, codec.replyBytes(reply, message.bytes).value);
      InboxCommits(db, HandlerName(db.authority, item.stream), message, Some(derived), now);
    } else {
      InboxCommits(db, HandlerName(db.authority, item.stream), message, None, now);
    }
  }

  lemma MetadataIsValid(message: EncodedMessage)
    requires message.Valid()
    ensures message.metadata.Valid() && 2 <= |message.bytes| <= MAX_ENCODED_MESSAGE_BYTES
  {
  }

  lemma ReplyPasses(db: Db, message: EncodedMessage, newId: Uuid, emittedAt: nat)
    requires RouteFence(db.authority, Commands, message.metadata) && newId != message.metadata.messageId
    requires db.authority.Cell? ==> TenantFence(db.authority, db.tenants, message.metadata.scope).None?
    ensures var reply := ReplyMetadata(db.authority, message.metadata, newId, emittedAt);
      && reply.BrokenRule().None?
      && (forall bytes :: OutboundFence(db.authority, EncodedMessage(reply, bytes)).None?)
      && (db.authority.Cell? ==> TenantFence(db.authority, db.tenants, reply.scope).None?)
  {
  }

  lemma InboxCommits(db: Db, consumer: string, inbound: EncodedMessage, derived: Option<EncodedMessage>, now: int)
    requires InboundFence(db.authority, inbound).None?
    requires derived.Some? ==> OutboundFence(db.authority, derived.value).None?
    requires db.authority.Cell? ==> TenantFence(db.authority, db.tenants, inbound.metadata.scope).None?
    requires db.authority.Cell? && derived.Some? ==> TenantFence(db.authority, db.tenants, derived.value.metadata.scope).None?
    requires ReceiptKey(consumer, inbound.Id()) !in db.tables.receipts
    requires derived.Some? ==> derived.value.Id() !in db.tables.messages && derived.value.Id() !in db.tables.deliveries
    ensures var (r, after) := RecordInboxAndEnqueue(db, WORKER_SESSION, consumer, inbound, derived, now);
      && r == Success(FirstReceipt)
      && ReceiptKey(consumer, inbound.Id()) in after.tables.receipts
      && after.tables.receipts[ReceiptKey(consumer, inbound.Id())].envelope == inbound.bytes
      && (derived.Some? ==>
        && derived.value.Id() in after.tables.messages && after.tables.messages[derived.value.Id()].message == derived.value
        && derived.value.Id() in after.tables.deliveries && after.tables.deliveries[derived.value.Id()] == NewDelivery(now))
  {
    hide InboundFence, OutboundFence, TenantFence;
  }

  // ---- The whole way --------------------------------------------------------------------------

  /** A message that its origin may enqueue and its destination welcomes. */
  ghost predicate Deliverable(codec: Codec, s: State, at: MessageAuthority, message: EncodedMessage, newId: Uuid,
    emittedAt: nat) {
    && at in s.dbs && message.Valid() && message.Id() !in s.dbs[at].tables.messages
    && EnqueueGate(s.dbs[at], WORKER_SESSION, message).None?
    && RouteOf(message.metadata).Some?
    && var destination := RouteOf(message.metadata).value.Destination();
    && destination in s.dbs && Welcome(codec, s.dbs[destination], message, newId, emittedAt)
  }

  lemma OriginMayPublish(codec: Codec, s: State, at: MessageAuthority, message: EncodedMessage, newId: Uuid, emittedAt: nat)
    requires Inv(s) && Deliverable(codec, s, at, message, newId, emittedAt)
    ensures DbOk(at, s.dbs[at]) && at.Valid() && Publishable(at, message)
    ensures at == RouteOf(message.metadata).value.Origin() && at != RouteOf(message.metadata).value.Destination()
    ensures var destination := RouteOf(message.metadata).value.Destination();
      destination.Valid() && s.dbs[destination].authority == destination
  {
    hide Welcome, RouteOf, DeriveSubject, MessageMetadata.ComponentsValid, AuthorizedToPublish, WellFormed, HeldOk, PublishedOk,
      BrokerOk, AckableOk, WindowOk;
    MetadataIsValid(message);
    assert DbOk(at, s.dbs[at]);
    assert DbOk(RouteOf(message.metadata).value.Destination(), s.dbs[RouteOf(message.metadata).value.Destination()]);
    Fences.OnlyTheOriginSends(at, message);
    Subjects.RouteIsPlain(message.metadata);
    Subjects.RoutabilityIsExact(message.metadata);
  }

  /** Nothing of other authorities changed, and no receipt of this one. */
  predicate SameBut(s: State, t: State, at: MessageAuthority) {
    && t.dbs.Keys == s.dbs.Keys && (forall other | other in s.dbs && other != at :: t.dbs[other] == s.dbs[other])
    && (at in s.dbs ==> t.dbs[at].tables.receipts == s.dbs[at].tables.receipts)
  }

  /** Enqueued and claimed, with the lease in hand. */
  lemma ClaimedHalf(codec: Codec, s: State, at: MessageAuthority, message: EncodedMessage, now: int, publisher: Uuid, lease: Uuid)
    returns (actions: seq<Action>, h: Held)
    requires at in s.dbs && DbOk(at, s.dbs[at]) && message.Valid() && message.Id() !in s.dbs[at].tables.messages
    requires EnqueueGate(s.dbs[at], WORKER_SESSION, message).None?
    ensures |actions| == 2
    ensures var t := Run(codec, s, actions);
      && t == s.(dbs := t.dbs, held := t.held) && SameBut(s, t, at)
      && h in t.held && h == Held(at, h.claim, Unsent) && h.claim.message == message
      && HoldsLease(t.dbs[at].tables, message.Id(), h.claim.leaseId, now)
      && message.Id() in t.dbs[at].tables.messages && t.dbs[at].tables.messages[message.Id()].message == message
  {
    hide EncodedMessage.Valid, EnqueueGate, OutboundFence, DoEnqueue, DoClaim, Run, ClaimSelects, EnqueueTables, LeaseRows;
    var id := message.Id();
    var enqueue := Enqueue(at, WORKER_SESSION, message, now);
    var s1 := Step(codec, s, enqueue);
    EnqueueInserts(s, at, message, now);
    NewRowIsEligible(s.dbs[at].tables, message, now);
    EnqueueKeepsRows(s.dbs[at].tables, message, now);
    var claim := Claim(at, now, 1, s1.dbs[at].tables.deliveries.Keys - {id}, {id}, publisher, lease, 1, true);
    var s2 := Step(codec, s1, claim);
    ClaimHolds(s1, at, id, now, publisher, lease);
    h := Held(at, ClaimedRow(s2.dbs[at].tables, id, lease, now + MICROS_PER_SECOND), Unsent);
    ClaimKeepsMessages(s1.dbs[at].tables, {id}, now, publisher, lease);
    actions := [enqueue, claim];
    assert Run(codec, s, []) == s by { RunNothing(codec, s); }
    RunTwoMore(codec, s, [], enqueue, claim);
    assert [] + [enqueue] + [claim] == actions;
  }

  /** The publisher's half: enqueued, claimed, published and marked, with one new record in the broker. */
  lemma PublisherHalf(codec: Codec, s: State, at: MessageAuthority, message: EncodedMessage, now: int, publisher: Uuid,
    lease: Uuid)
    returns (actions: seq<Action>)
    requires at in s.dbs && DbOk(at, s.dbs[at]) && message.Valid() && message.Id() !in s.dbs[at].tables.messages
    requires EnqueueGate(s.dbs[at], WORKER_SESSION, message).None? && Publishable(at, message)
    ensures |actions| == 4
    ensures var t := Run(codec, s, actions);
      && SameBut(s, t, at) && t.window == s.window[WindowKeyOf(message) := at]
      && message.Id() in t.dbs[at].tables.deliveries && t.dbs[at].tables.deliveries[message.Id()].publishedAt.Some?
      && t.broker == s.broker[s.nextSequence :=
        ItemOf(at, message, RouteOf(message.metadata).value, DeriveSubject(message.metadata).value)]
  {
    hide DeriveSubject, RouteOf, AuthorizedToPublish, DoPublish, Run, EnqueueGate, EncodedMessage.Valid, Publishable, DbOk;
    var h;
    actions, h := ClaimedHalf(codec, s, at, message, now, publisher, lease);
    var middle := Run(codec, s, actions);
    var (publish, mark) := (Publish(h, PublishFate.Stored(true)), Mark(h.(stage := Accepted), now));
    PublishStores(middle, h);
    MarkedMoves(codec, Step(codec, middle, publish), h.(stage := Accepted), now);
    RunTwoMore(codec, s, actions, publish, mark);
    actions := actions + [publish] + [mark];
  }

  lemma NewRowIsEligible(t: Tables, message: EncodedMessage, now: int)
    requires EnqueueResult(t, message) == Success(Inserted)
    ensures var after := EnqueueTables(t, message, now);
      && message.Id() in after.messages && after.messages[message.Id()].message == message
      && message.Id() in after.deliveries && RowEligible(after.deliveries[message.Id()], now)
  {
  }

  lemma ClaimKeepsMessages(t: Tables, chosen: set<Uuid>, now: int, publisher: Uuid, lease: Uuid)
    ensures ClaimTables(t, chosen, now, publisher, lease, 1).messages == t.messages
  {
  }

  lemma RunNothing(codec: Codec, s: State)
    ensures Run(codec, s, []) == s
  {
  }

  /** The consumer's half: delivered, committed and acknowledged. */
  lemma ConsumerHalf(codec: Codec, s: State, at: MessageAuthority, message: EncodedMessage, sequence: nat, newId: Uuid,
    emittedAt: nat, now: int)
    requires message.Valid() && RouteOf(message.metadata).Some? && DeriveSubject(message.metadata).Some? && sequence in s.broker
    requires s.broker[sequence] == ItemOf(at, message, RouteOf(message.metadata).value, DeriveSubject(message.metadata).value)
    requires var destination := RouteOf(message.metadata).value.Destination();
      && destination in s.dbs && destination.Valid() && s.dbs[destination].authority == destination && destination != at
      && Welcome(codec, s.dbs[destination], message, newId, emittedAt)
    requires at in s.dbs && message.Id() in s.dbs[at].tables.deliveries
      && s.dbs[at].tables.deliveries[message.Id()].publishedAt.Some?
    ensures var t := Step(codec, Step(codec, s, Deliver(sequence, newId, emittedAt, now, true)), Ack(sequence));
      Delivered(codec, t, at, RouteOf(message.metadata).value.Destination(), message, newId, emittedAt, now, sequence)
  {
    hide DeriveSubject, RouteOf, ProcessDelivery, EncodedMessage.Valid, HandlerName, RouteFence;
    var destination := RouteOf(message.metadata).value.Destination();
    var (item, db) := (s.broker[sequence], s.dbs[destination]);
    HandlerCommits(codec, db, item, message, newId, emittedAt, now);
    var a := Deliver(sequence, newId, emittedAt, now, true);
    assert DeliverEnabled(s, a);
    var t := Step(codec, s, a);
    var d := ProcessDelivery(codec, db, item, newId, emittedAt, now);
    assert t.dbs == s.dbs[destination := d.db] && sequence in t.ackable;
    assert Received(t, destination, message) by {
      assert ReceiptKeyOf(destination, item) in t.dbs[destination].tables.receipts;
    }
    assert StreamForKind(message.metadata.descriptor.kind).Commands? <==> message.metadata.descriptor.kind.Command?;
  }

  /**
   * From every sound state, six actions take a deliverable message all the way: enqueued, claimed,
   * published, marked, received with its reply in the destination's outbox, and acknowledged.
   */
  lemma UndisturbedMessageIsDelivered(codec: Codec, s: State, at: MessageAuthority, message: EncodedMessage, now: int,
    publisher: Uuid,
    lease: Uuid, newId: Uuid, emittedAt: nat)
    returns (actions: seq<Action>)
    requires Inv(s) && Deliverable(codec, s, at, message, newId, emittedAt)
    ensures |actions| == 6
    ensures Delivered(codec, Run(codec, s, actions), at, RouteOf(message.metadata).value.Destination(), message, newId, emittedAt,
      now, s.nextSequence)
  {
    hide Inv, Welcome, Run, Step, DeriveSubject, RouteOf, EncodedMessage.Valid, EnqueueGate, Publishable, DbOk, Delivered;
    OriginMayPublish(codec, s, at, message, newId, emittedAt);
    PublishableRoute(at, message);
    actions := PublisherHalf(codec, s, at, message, now, publisher, lease);
    var middle := Run(codec, s, actions);
    var (deliver, ack) := (Deliver(s.nextSequence, newId, emittedAt, now, true), Ack(s.nextSequence));
    ConsumerHalf(codec, middle, at, message, s.nextSequence, newId, emittedAt, now);
    RunTwoMore(codec, s, actions, deliver, ack);
    actions := actions + [deliver] + [ack];
  }

  lemma PublishableRoute(at: MessageAuthority, message: EncodedMessage)
    ensures Publishable(at, message) ==> RouteOf(message.metadata).Some? && DeriveSubject(message.metadata).Some?
  {
  }

  lemma RunTwoMore(codec: Codec, s: State, actions: seq<Action>, a: Action, b: Action)
    ensures Run(codec, s, actions + [a] + [b]) == Step(codec, Step(codec, Run(codec, s, actions), a), b)
  {
    hide Step;
    assert (actions + [a] + [b])[..|actions| + 1] == actions + [a];
    assert (actions + [a])[..|actions|] == actions;
  }

  // ---- Where ids are shared -------------------------------------------------------------------

  /** The authority may enqueue the message now, and its worker may publish it. */
  predicate Sendable(s: State, at: MessageAuthority, message: EncodedMessage) {
    && at in s.dbs && DbOk(at, s.dbs[at]) && message.Valid() && message.Id() !in s.dbs[at].tables.messages
    && EnqueueGate(s.dbs[at], WORKER_SESSION, message).None? && Publishable(at, message)
  }

  /** The row says published, and the message is neither with the broker nor with its destination's handler. */
  ghost predicate Lost(s: State, at: MessageAuthority, message: EncodedMessage) {
    && NoLoss.Stored(s, at, message) && message.Id() in s.dbs[at].tables.deliveries
    && s.dbs[at].tables.deliveries[message.Id()].publishedAt.Some? && !Covered(s, at, message)
  }

  /**
   * The exception of no loss is a real one: whenever two authorities send messages of one kind under one id,
   * eight actions lose the second, since the duplicate window suppresses it as the first.
   */
  lemma SharedIdLosesMessage(codec: Codec, s: State, first: MessageAuthority, one: EncodedMessage, second: MessageAuthority,
    two: EncodedMessage, now: int, publisher: Uuid, lease: Uuid)
    returns (actions: seq<Action>)
    requires first != second && Sendable(s, first, one) && Sendable(s, second, two) && WindowKeyOf(one) == WindowKeyOf(two)
    requires !Covered(s, second, two)
    ensures |actions| == 8 && Lost(Run(codec, s, actions), second, two)
  {
    hide Run, Step, Covered, EnqueueGate, EncodedMessage.Valid, DeriveSubject, RouteOf, AuthorizedToPublish, DbOk, Publishable,
      ItemOf, HoldsLease, Lost;
    PublishableRoute(first, one);
    actions := PublisherHalf(codec, s, first, one, now, publisher, lease);
    var published := Run(codec, s, actions);
    StillUncovered(s, published, first, one, second, two);
    var more, h := ClaimedHalf(codec, published, second, two, now, publisher, lease);
    var claimed := Run(codec, published, more);
    NotCoveredYet(published, claimed, second, two);
    RunConcat(codec, s, actions, more);
    var (publish, mark) := (Publish(h, Suppressed(true)), Mark(h.(stage := Accepted), now));
    LostInTwoSteps(codec, claimed, h, now);
    RunTwoMore(codec, s, actions + more, publish, mark);
    actions := actions + more + [publish] + [mark];
  }

  lemma LostInTwoSteps(codec: Codec, s: State, h: Held, now: int)
    requires h in s.held && h.stage.Unsent? && h.owner in s.dbs && Publishable(h.owner, h.claim.message)
    requires WindowKeyOf(h.claim.message) in s.window && !Covered(s, h.owner, h.claim.message)
    requires HoldsLease(s.dbs[h.owner].tables, h.claim.message.Id(), h.claim.leaseId, now)
    requires NoLoss.Stored(s, h.owner, h.claim.message)
    ensures Lost(Step(codec, Step(codec, s, Publish(h, Suppressed(true))), Mark(h.(stage := Accepted), now)), h.owner, h.claim.message)
  {
    hide Step, Covered, Publishable, HoldsLease, WindowKeyOf;
    SharedIdIsLost(codec, s, h, now);
    StepGrows(codec, s, Publish(h, Suppressed(true)));
    StepGrows(codec, Step(codec, s, Publish(h, Suppressed(true))), Mark(h.(stage := Accepted), now));
  }

  /** The first publisher's record covers no message of the second. */
  lemma StillUncovered(s: State, t: State, first: MessageAuthority, one: EncodedMessage, second: MessageAuthority, two: EncodedMessage)
    requires first != second && !Covered(s, second, two) && SameBut(s, t, first) && first in s.dbs
    requires RouteOf(one.metadata).Some? && DeriveSubject(one.metadata).Some?
    requires t.broker == s.broker[s.nextSequence := ItemOf(first, one, RouteOf(one.metadata).value, DeriveSubject(one.metadata).value)]
    ensures !Covered(t, second, two)
  {
    hide RouteOf, DeriveSubject, HandlerName;
  }

  /** It is reached from the very start: the Platform and a Cell each send the other an event about the Cell. */
  lemma CellEventIsLostFromTheStart(codec: Codec, cells: set<string>, cell: string, one: EncodedMessage, two: EncodedMessage, now: int,
    publisher: Uuid, lease: Uuid)
    returns (actions: seq<Action>)
    requires ValidCells(cells) && cell in cells && one.Valid() && two.Valid() && one.Id() == two.Id()
    requires one.metadata.descriptor.kind.Event? && one.metadata.source == Platform && one.metadata.scope == CellScope(cell)
    requires two.metadata.descriptor.kind.Event? && two.metadata.source == Cell(cell) && two.metadata.scope == CellScope(cell)
    ensures Lost(Run(codec, Initial(cells), actions), Cell(cell), two)
  {
    hide Run, Lost, DeriveSubject, EncodedMessage.Valid;
    var s := Initial(cells);
    InitialInv(cells);
    EventIsSendable(s, Platform, one, cell);
    EventIsSendable(s, Cell(cell), two, cell);
    actions := SharedIdLosesMessage(codec, s, Platform, one, Cell(cell), two, now, publisher, lease);
  }

  lemma EventIsSendable(s: State, at: MessageAuthority, message: EncodedMessage, cell: string)
    requires at in s.dbs && DbOk(at, s.dbs[at]) && s.dbs[at].tables == EMPTY_TABLES && message.Valid()
    requires message.metadata.descriptor.kind.Event? && message.metadata.source == at && message.metadata.scope == CellScope(cell)
    requires at.Cell? ==> at.cellId == cell
    ensures Sendable(s, at, message)
  {
    hide DeriveSubject, MessageMetadata.ComponentsValid;
    MetadataIsValid(message);
    Subjects.RouteIsPlain(message.metadata);
    Subjects.RoutabilityIsExact(message.metadata);
  }
}
