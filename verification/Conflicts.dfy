/**
 * Integrity failures are unreachable: a stored message keeps its bytes, the broker carries exactly those
 * bytes, so no delivery meets a receipt of other content under its own id.
 */
module Conflicts {
  import opened Foundation
  import opened Grammar
  import opened MessageDomain
  import opened OutboxStore
  import opened AuthorityDatabase
  import opened Routing
  import opened Delivery
  import opened Protocol
  import opened NoLoss
  import opened Effects

  /** The authority sends exactly these bytes under this key. */
  predicate SendsBytes(s: State, origin: MessageAuthority, key: WindowKey, bytes: Bytes) {
    Sends(s, origin, key) && s.dbs[origin].tables.messages[key.id].message.bytes == bytes
  }

  /** The receipt is of the handler of this stream, and holds what the authority sends under the message's id. */
  predicate ReceivedFrom(s: State, at: MessageAuthority, key: ReceiptKey, origin: MessageAuthority, stream: TransportStream)
    requires HasRow(s, InboxRow(at, key))
  {
    && key.consumer == HandlerName(at, stream)
    && SendsBytes(s, origin, WindowKey(stream, key.messageId), s.dbs[at].tables.receipts[key].envelope)
  }

  /** Every receipt holds the stored bytes of some publisher, which for a Cell is the Platform. */
  ghost predicate ReceiptOk(codec: Codec, s: State, at: MessageAuthority, key: ReceiptKey)
    requires HasRow(s, InboxRow(at, key))
  {
    var row := s.dbs[at].tables.receipts[key];
    && ReceiptMatches(codec, row, row.envelope)
    && exists origin, stream :: ReceivedFrom(s, at, key, origin, stream) && (at.Cell? ==> origin == Platform)
  }

  ghost predicate ReceiptsOk(codec: Codec, s: State) {
    forall at, key | HasRow(s, InboxRow(at, key)) :: ReceiptOk(codec, s, at, key)
  }

  /** Only the Platform's outbox feeds a Cell, since a route fixes its origin. */
  lemma ItemOrigin(s: State, item: BrokerItem)
    requires DbsOk(s) && ItemOk(s, item)
    ensures SendsBytes(s, item.origin, WindowKey(item.stream, item.headerId), item.bytes)
    ensures item.destination.Cell? ==> item.origin == Platform
    ensures item.destination.Platform? ==> item.origin.Cell?
  {
    hide DeriveSubject, EncodedMessage.Valid;
    var message := s.dbs[item.origin].tables.messages[item.headerId].message;
    assert OutboundFence(item.origin, message).None?;
  }

  lemma DeliverKeepsReceipts(codec: Codec, s: State, a: Action)
    requires Inv(s) && ReceiptsOk(codec, s) && a.Deliver?
    ensures ReceiptsOk(codec, DoDeliver(codec, s, a))
  {
    hide DoDeliver, ReceiptOk, ItemOk;
    var t := DoDeliver(codec, s, a);
    DeliverGrows(codec, s, a);
    forall at, key | HasRow(t, InboxRow(at, key)) ensures ReceiptOk(codec, t, at, key) {
      if HasRow(s, InboxRow(at, key)) {
        KeptReceipt(codec, s, t, at, key);
      } else {
        NewReceipt(codec, s, a, at, key);
      }
    }
  }

  lemma KeptReceipt(codec: Codec, s: State, t: State, at: MessageAuthority, key: ReceiptKey)
    requires Grows(s, t) && HasRow(s, InboxRow(at, key)) && ReceiptOk(codec, s, at, key) && HasRow(t, InboxRow(at, key))
    ensures ReceiptOk(codec, t, at, key)
  {
    hide ReceiptMatches, RouteOf, HandlerName;
    var origin, stream :| ReceivedFrom(s, at, key, origin, stream) && (at.Cell? ==> origin == Platform);
    assert ReceivedFrom(t, at, key, origin, stream);
  }

  /** The receipt that a delivery adds is of the bytes that its record's publisher stored. */
  lemma NewReceipt(codec: Codec, s: State, a: Action, at: MessageAuthority, key: ReceiptKey)
    requires Inv(s) && a.Deliver? && HasRow(DoDeliver(codec, s, a), InboxRow(at, key)) && !HasRow(s, InboxRow(at, key))
    ensures ReceiptOk(codec, DoDeliver(codec, s, a), at, key)
  {
    hide ProcessDelivery, DeriveSubject, RouteOf, EnqueueTables, EnqueueResult, OutboundFence, MessageMetadata.BrokenRule,
      DbOk, ItemOk, HandlerName;
    var t := DoDeliver(codec, s, a);
    var item := s.broker[a.sequence];
    var db := s.dbs[item.destination];
    ItemOrigin(s, item);
    AuthorityOf(s, item.destination);
    DeliverGrows(codec, s, a);
    DeliveryEffect(codec, db, item, a.newId, a.emittedAt, a.now);
    assert ReceivedFrom(t, at, key, item.origin, item.stream);
  }

  lemma AuthorityOf(s: State, at: MessageAuthority)
    requires DbsOk(s) && at in s.dbs
    ensures s.dbs[at].authority == at
  {
    hide WellFormed, OutboundFence;
  }

  lemma OtherStepsKeepReceipts(codec: Codec, s: State, a: Action)
    requires ReceiptsOk(codec, s) && !a.Deliver?
    ensures ReceiptsOk(codec, Step(codec, s, a))
  {
    hide DoEnqueue, DoWriteCanary, DoClaim, DoPublish, DoMark, DoReschedule, DoDeliver, DoAck, DoTenant, ReceiptMatches;
    var t := Step(codec, s, a);
    StepGrows(codec, s, a);
    if a.Enqueue? || a.WriteCanary? { EnqueueSameReceipts(s, a); } else { OthersSameReceipts(codec, s, a); }
    assert SameReceipts(s, t);
    forall at, key | HasRow(t, InboxRow(at, key)) ensures ReceiptOk(codec, t, at, key) {
      assert ReceiptOk(codec, s, at, key);
      var row := s.dbs[at].tables.receipts[key];
      var origin, stream :| ReceivedFrom(s, at, key, origin, stream) && (at.Cell? ==> origin == Platform);
      assert ReceivedFrom(t, at, key, origin, stream);
    }
  }

  predicate SameReceipts(s: State, t: State) {
    s.dbs.Keys == t.dbs.Keys && forall at | at in s.dbs :: t.dbs[at].tables.receipts == s.dbs[at].tables.receipts
  }

  lemma EnqueueSameReceipts(s: State, a: Action)
    ensures a.Enqueue? ==> SameReceipts(s, DoEnqueue(s, a))
    ensures a.WriteCanary? ==> SameReceipts(s, DoWriteCanary(s, a))
  {
    hide EncodedMessage.Valid, OutboundFence, TenantFence, EnqueueTables, EnqueueResult;
    match a
    case Enqueue(at, _, message, now) => if at in s.dbs { EnqueueKeepsRows(s.dbs[at].tables, message, now); }
    case WriteCanary(at, _, _, _, _, message, now) => if at in s.dbs { EnqueueKeepsRows(s.dbs[at].tables, message, now); }
    case _ =>
  }

  lemma OthersSameReceipts(codec: Codec, s: State, a: Action)
    requires !a.Deliver? && !a.Enqueue? && !a.WriteCanary?
    ensures SameReceipts(s, Step(codec, s, a))
  {
    hide DoClaim, DoPublish, DoMark, DoReschedule, DoTenant;
    if a.Publish? { PublishSameDbs(s, a); }
    StoreSameReceipts(s, a);
    if a.AssignTenant? || a.AdvanceEpoch? || a.SetServing? { TenantSameReceipts(s, a); }
  }

  lemma StoreSameReceipts(s: State, a: Action)
    ensures a.Claim? ==> SameReceipts(s, DoClaim(s, a))
    ensures a.Mark? ==> SameReceipts(s, DoMark(s, a))
    ensures a.Reschedule? ==> SameReceipts(s, DoReschedule(s, a))
  {
    hide ClaimSelects, HoldsLease, LeaseRows, WithoutLease, ClaimedRow;
  }

  lemma TenantSameReceipts(s: State, a: Action)
    requires a.AssignTenant? || a.AdvanceEpoch? || a.SetServing?
    ensures SameReceipts(s, DoTenant(s, a))
  {
    hide CheckedAdvance, ValidEpoch;
  }

  lemma PublishSameDbs(s: State, a: Action)
    requires a.Publish?
    ensures DoPublish(s, a).dbs == s.dbs
  {
    hide DeriveSubject, RouteOf, AuthorizedToPublish, ItemOf;
  }

  lemma {:induction false} RunKeepsReceipts(codec: Codec, cells: set<string>, actions: seq<Action>)
    requires codec.Valid() && ValidCells(cells)
    ensures ReceiptsOk(codec, Run(codec, Initial(cells), actions))
    decreases |actions|
  {
    hide Inv, ReceiptsOk, DoEnqueue, DoWriteCanary, DoClaim, DoPublish, DoMark, DoReschedule, DoDeliver, DoAck, DoTenant;
    if actions == [] {
      InitialReceipts(codec, cells);
    } else {
      var (front, last) := (actions[..|actions| - 1], actions[|actions| - 1]);
      var before := Run(codec, Initial(cells), front);
      RunKeepsReceipts(codec, cells, front);
      RunKeepsInv(codec, cells, front);
      if last.Deliver? { DeliverKeepsReceipts(codec, before, last); } else { OtherStepsKeepReceipts(codec, before, last); }
    }
  }

  lemma InitialReceipts(codec: Codec, cells: set<string>)
    ensures ReceiptsOk(codec, Initial(cells))
  {
  }

  /** The result of the inbox transaction that this delivery runs, once its message is accepted. */
  function TransactionError(codec: Codec, s: State, a: Action, derived: Option<EncodedMessage>): Option<DatabaseError>
    requires a.Deliver? && DeliverEnabled(s, a) && DecodeEnvelope(codec, s.broker[a.sequence].bytes).Some?
  {
    var item := s.broker[a.sequence];
    var message := DecodeEnvelope(codec, item.bytes).value;
    match RecordInboxAndEnqueue(s.dbs[item.destination], WORKER_SESSION, HandlerName(item.destination, item.stream), message,
      derived, a.now).0
    case Success(_) => None
    case Failure(error) => Some(error)
  }

  /**
   * No delivery in any run ends in an inbox conflict, an identity conflict or store corruption. For the
   * Platform this asks that no other authority sends a message of the same kind under the publisher's id; a
   * Cell needs no such assumption.
   */
  lemma NoIntegrityFailure(codec: Codec, cells: set<string>, actions: seq<Action>, a: Action, derived: Option<EncodedMessage>)
    requires codec.Valid() && ValidCells(cells) && a.Deliver?
    requires DeliverEnabled(Run(codec, Initial(cells), actions), a)
    requires var item := Run(codec, Initial(cells), actions).broker[a.sequence];
      && DecodeEnvelope(codec, item.bytes).Some? && DecodeEnvelope(codec, item.bytes).value.Id() == item.headerId
      && (item.destination.Platform? ==> !Clashing(Run(codec, Initial(cells), actions), item.origin, WindowKey(item.stream, item.headerId)))
    requires derived.Some? ==>
      Run(codec, Initial(cells), actions).broker[a.sequence].stream.Commands? && derived.value.Id() == a.newId
    ensures var error := TransactionError(codec, Run(codec, Initial(cells), actions), a, derived);
      error.Some? ==> !IsIntegrityError(error.value)
  {
    hide Run, RecordInboxAndEnqueue, EncodedMessage.Valid, HandlerName, Clashing, WellFormed, Inv, ItemOk, ReceiptsOk;
    var s := Run(codec, Initial(cells), actions);
    RunKeepsInv(codec, cells, actions);
    RunKeepsReceipts(codec, cells, actions);
    var item := s.broker[a.sequence];
    var db := s.dbs[item.destination];
    SoundRecord(s, a.sequence);
    AuthorityOf(s, item.destination);
    var message := DecodeEnvelope(codec, item.bytes).value;
    var key := ReceiptKey(HandlerName(item.destination, item.stream), item.headerId);
    if key in db.tables.receipts { ReceiptIsSame(codec, s, item, key); }
    InboxErrorIsSafe(db, HandlerName(item.destination, item.stream), message, derived, a.now);
  }

  lemma SoundRecord(s: State, n: nat)
    requires Inv(s) && n in s.broker && s.broker[n].destination in s.dbs
    ensures DbsOk(s) && ItemOk(s, s.broker[n]) && WellFormed(s.dbs[s.broker[n].destination].tables)
  {
    hide ItemOk, WellFormed, HeldOk, PublishedOk, AckableOk, WindowOk, OutboundFence;
    assert DbOk(s.broker[n].destination, s.dbs[s.broker[n].destination]);
  }

  /** The inbox transaction fails for a fence only, unless a receipt or a stored id is in the way. */
  lemma InboxErrorIsSafe(db: Db, consumer: string, message: EncodedMessage, derived: Option<EncodedMessage>, now: int)
    requires WellFormed(db.tables)
    requires var key := ReceiptKey(consumer, message.Id());
      key in db.tables.receipts ==> db.tables.receipts[key].(processedAt := 0) == ReceiptOf(message, 0)
    requires derived.Some? ==> derived.value.Id() !in db.tables.messages
    ensures var r := RecordInboxAndEnqueue(db, WORKER_SESSION, consumer, message, derived, now).0;
      r.Failure? ==> !IsIntegrityError(r.error)
  {
    hide InboxGate, EncodedMessage.Valid, RowWellFormed, IsIntegrityError;
    FenceErrorsAreSafe(db, message, derived);
  }

  /** An existing receipt under the id of a record holds the bytes of that record. */
  lemma ReceiptIsSame(codec: Codec, s: State, item: BrokerItem, key: ReceiptKey)
    requires DbsOk(s) && ItemOk(s, item) && ReceiptsOk(codec, s)
    requires item.destination.Platform? ==> !Clashing(s, item.origin, WindowKey(item.stream, item.headerId))
    requires HasRow(s, InboxRow(item.destination, key)) && key == ReceiptKeyOf(item.destination, item)
    ensures ReceiptMatches(codec, s.dbs[item.destination].tables.receipts[key], item.bytes)
  {
    hide ItemOk, DbOk, ReceiptMatches, RouteOf, HandlerName;
    ItemOrigin(s, item);
    assert ReceiptOk(codec, s, item.destination, key);
    var origin, stream :| ReceivedFrom(s, item.destination, key, origin, stream) && (item.destination.Cell? ==> origin == Platform);
    HandlersDiffer(item.destination);
    assert stream == item.stream;
    assert origin == item.origin;
  }

  lemma FenceErrorsAreSafe(db: Db, inbound: EncodedMessage, derived: Option<EncodedMessage>)
    ensures var error := InboxGate(db, WORKER_SESSION, inbound, derived); error.Some? ==> !IsIntegrityError(error.value)
  {
  }

  // ---- Fatal deliveries -----------------------------------------------------------------------

  /** A fatal delivery passed every check before its handler. */
  lemma FatalShape(codec: Codec, db: Db, item: BrokerItem, newId: Uuid, emittedAt: nat, now: int)
    requires ProcessDelivery(codec, db, item, newId, emittedAt, now).Fatal?
    ensures DecodeEnvelope(codec, item.bytes).Some?
    ensures var message := DecodeEnvelope(codec, item.bytes).value;
      && message.Id() == item.headerId
      && (item.stream.Events? ==>
        var r := RecordInboxAndEnqueue(db, WORKER_SESSION, HandlerName(db.authority, item.stream), message, None, now).0;
        r.Failure? && IsIntegrityError(r.error))
      && (item.stream.Commands? && !ReplyFails(codec, db.authority, message.metadata, item.bytes, newId, emittedAt) ==>
        var reply := ReplyMetadata(db.authority, message.metadata, newId, emittedAt);
        var derived := EncodedMessage(reply, codec.replyBytes(reply, item.bytes).value);
        var r := RecordInboxAndEnqueue(db, WORKER_SESSION, HandlerName(db.authority, item.stream), message, Some(derived), now).0;
        r.Failure? && IsIntegrityError(r.error))
  {
    hide DeriveSubject, RecordInboxAndEnqueue, MessageMetadata.BrokenRule, HandlerName, IsIntegrityError;
  }

  /**
   * In every run a delivery stops its worker only because its reply cannot be built: no stored state does.
   * For the Platform this asks that no other authority sends a message of the same kind under that id.
   */
  lemma OnlyRepliesAreFatal(codec: Codec, cells: set<string>, actions: seq<Action>, a: Action)
    requires codec.Valid() && ValidCells(cells) && a.Deliver?
    requires DeliverEnabled(Run(codec, Initial(cells), actions), a)
    requires var item := Run(codec, Initial(cells), actions).broker[a.sequence];
      item.destination.Platform? ==> !Clashing(Run(codec, Initial(cells), actions), item.origin, WindowKey(item.stream, item.headerId))
    requires var s := Run(codec, Initial(cells), actions);
      var item := s.broker[a.sequence];
      ProcessDelivery(codec, s.dbs[item.destination], item, a.newId, a.emittedAt, a.now).Fatal?
    ensures var item := Run(codec, Initial(cells), actions).broker[a.sequence];
      && item.stream.Commands? && DecodeEnvelope(codec, item.bytes).Some?
      && ReplyFails(codec, item.destination, DecodeEnvelope(codec, item.bytes).value.metadata, item.bytes, a.newId, a.emittedAt)
  {
    hide Run, ProcessDelivery, DecodeEnvelope, RecordInboxAndEnqueue, ReplyFails, IsIntegrityError, HandlerName, Clashing, Inv;
    var s := Run(codec, Initial(cells), actions);
    var item := s.broker[a.sequence];
    var db := s.dbs[item.destination];
    RunKeepsInv(codec, cells, actions);
    assert DbsOk(s) by { InvGivesDbs(s); }
    AuthorityOf(s, item.destination);
    FatalShape(codec, db, item, a.newId, a.emittedAt, a.now);
    var message := DecodeEnvelope(codec, item.bytes).value;
    if item.stream.Events? {
      NoIntegrityFailure(codec, cells, actions, a, None);
    } else if !ReplyFails(codec, item.destination, message.metadata, item.bytes, a.newId, a.emittedAt) {
      var reply := ReplyMetadata(item.destination, message.metadata, a.newId, a.emittedAt);
      ReplyBuilt(codec, item.destination, message.metadata, item.bytes, a.newId, a.emittedAt);
      NoIntegrityFailure(codec, cells, actions, a, Some(EncodedMessage(reply, codec.replyBytes(reply, item.bytes).value)));
    }
  }

  lemma InvGivesDbs(s: State)
    requires Inv(s)
    ensures DbsOk(s)
  {
  }

  lemma ReplyBuilt(codec: Codec, authority: MessageAuthority, command: MessageMetadata, bytes: Bytes, newId: Uuid, emittedAt: nat)
    requires !ReplyFails(codec, authority, command, bytes, newId, emittedAt)
    ensures codec.replyBytes(ReplyMetadata(authority, command, newId, emittedAt), bytes).Some?
  {
  }
}
