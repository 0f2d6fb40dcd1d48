/**
 * No loss: in every reachable state each published row is still held by the broker for its destination or
 * has a receipt of exactly its bytes there, through crashes, timeouts and lost acknowledgments.
 */
module NoLoss {
  import opened Foundation
  import opened MessageDomain
  import opened OutboxStore
  import opened AuthorityDatabase
  import opened Routing
  import opened Delivery
  import opened Protocol
  import opened Grammar

  // ---- The invariant --------------------------------------------------------------------------

  predicate Stored(s: State, at: MessageAuthority, message: EncodedMessage) {
    && at in s.dbs && message.Id() in s.dbs[at].tables.messages
    && s.dbs[at].tables.messages[message.Id()].message == message
  }

  /** The authority stored a message that its route puts under this key of the duplicate window. */
  predicate Sends(s: State, at: MessageAuthority, key: WindowKey) {
    && at in s.dbs && key.id in s.dbs[at].tables.messages
    && var m := s.dbs[at].tables.messages[key.id].message.metadata;
    && RouteOf(m).Some? && StreamForKind(m.descriptor.kind) == key.stream
  }

  /** Another authority sends a message of the same kind under the same id, which generated identities rule out. */
  predicate Clashing(s: State, at: MessageAuthority, key: WindowKey) {
    exists other | other in s.dbs && other != at :: Sends(s, other, key)
  }

  ghost predicate InBroker(s: State, origin: MessageAuthority, destination: MessageAuthority, message: EncodedMessage) {
    exists n | n in s.broker ::
      && s.broker[n].origin == origin && s.broker[n].destination == destination
      && s.broker[n].stream == StreamForKind(message.metadata.descriptor.kind)
      && s.broker[n].headerId == message.Id() && s.broker[n].bytes == message.bytes
  }

  /** The destination's handler of this kind of message has its receipt. */
  predicate Received(s: State, destination: MessageAuthority, message: EncodedMessage) {
    var key := ReceiptKey(HandlerName(destination, StreamForKind(message.metadata.descriptor.kind)), message.Id());
    && destination in s.dbs && key in s.dbs[destination].tables.receipts
    && s.dbs[destination].tables.receipts[key].envelope == message.bytes
  }

  /** The message left its outbox and is not lost. */
  ghost predicate Covered(s: State, origin: MessageAuthority, message: EncodedMessage) {
    && RouteOf(message.metadata).Some?
    && var destination := RouteOf(message.metadata).value.Destination();
    && (InBroker(s, origin, destination, message) || Received(s, destination, message))
  }

  ghost predicate Safe(s: State, origin: MessageAuthority, message: EncodedMessage) {
    Covered(s, origin, message) || Clashing(s, origin, WindowKeyOf(message))
  }

  predicate DbOk(at: MessageAuthority, db: Db) {
    && db.authority == at && at.Valid() && WellFormed(db.tables)
    && forall id | id in db.tables.messages :: OutboundFence(at, db.tables.messages[id].message).None?
  }

  predicate DbsOk(s: State) { forall at | at in s.dbs :: DbOk(at, s.dbs[at]) }

  ghost predicate HeldOk(s: State) {
    forall h | h in s.held ::
      Stored(s, h.owner, h.claim.message) && (h.stage.Accepted? ==> Safe(s, h.owner, h.claim.message))
  }

  ghost predicate PublishedOk(s: State) {
    forall at, id | at in s.dbs && id in s.dbs[at].tables.deliveries && s.dbs[at].tables.deliveries[id].publishedAt.Some? ::
      id in s.dbs[at].tables.messages && Safe(s, at, s.dbs[at].tables.messages[id].message)
  }

  /** A broker record carries a stored message of its origin to that message's route. */
  ghost predicate ItemOk(s: State, item: BrokerItem) {
    && item.origin in s.dbs && item.headerId in s.dbs[item.origin].tables.messages
    && var message := s.dbs[item.origin].tables.messages[item.headerId].message;
    && RouteOf(message.metadata).Some? && DeriveSubject(message.metadata).Some?
    && item == ItemOf(item.origin, message, RouteOf(message.metadata).value, DeriveSubject(message.metadata).value)
  }

  ghost predicate BrokerOk(s: State) { forall n | n in s.broker :: n < s.nextSequence && ItemOk(s, s.broker[n]) }

  /** A delivery is acknowledged only when its destination holds the receipt of its bytes. */
  ghost predicate AckableOk(s: State) {
    forall n | n in s.ackable :: n < s.nextSequence && (n in s.broker ==>
      && s.broker[n].destination in s.dbs
      && var key := ReceiptKeyOf(s.broker[n].destination, s.broker[n]);
      && key in s.dbs[s.broker[n].destination].tables.receipts
      && s.dbs[s.broker[n].destination].tables.receipts[key].envelope == s.broker[n].bytes)
  }

  ghost predicate WindowOk(s: State) {
    forall key | key in s.window ::
      && Sends(s, s.window[key], key)
      && Covered(s, s.window[key], s.dbs[s.window[key]].tables.messages[key.id].message)
  }

  ghost predicate Inv(s: State) {
    DbsOk(s) && HeldOk(s) && PublishedOk(s) && BrokerOk(s) && AckableOk(s) && WindowOk(s)
  }

  // ---- What every step keeps ------------------------------------------------------------------

  predicate DbGrows(before: Db, after: Db) {
    && after.authority == before.authority
    && (forall id | id in before.tables.messages ::
      id in after.tables.messages && after.tables.messages[id] == before.tables.messages[id])
    && (forall key | key in before.tables.receipts ::
      key in after.tables.receipts && after.tables.receipts[key] == before.tables.receipts[key])
    && (forall key | key in before.canaries :: key in after.canaries && after.canaries[key] == before.canaries[key])
  }

  predicate Grows(s: State, t: State) {
    && s.dbs.Keys == t.dbs.Keys
    && forall at | at in s.dbs :: DbGrows(s.dbs[at], t.dbs[at])
  }

  predicate BrokerKeeps(s: State, t: State) {
    s.nextSequence <= t.nextSequence && forall n | n in s.broker :: n in t.broker && t.broker[n] == s.broker[n]
  }

  lemma CoveredPersists(s: State, t: State, origin: MessageAuthority, message: EncodedMessage)
    requires Grows(s, t) && BrokerKeeps(s, t) && Covered(s, origin, message)
    ensures Covered(t, origin, message)
  {
    hide RouteOf;
    var destination := RouteOf(message.metadata).value.Destination();
    if InBroker(s, origin, destination, message) {
      var n :| n in s.broker && s.broker[n].origin == origin && s.broker[n].destination == destination
        && s.broker[n].stream == StreamForKind(message.metadata.descriptor.kind)
        && s.broker[n].headerId == message.Id() && s.broker[n].bytes == message.bytes;
      assert n in t.broker;
    }
  }

  lemma SafePersists(s: State, t: State, origin: MessageAuthority, message: EncodedMessage)
    requires Grows(s, t) && BrokerKeeps(s, t) && Safe(s, origin, message)
    ensures Safe(t, origin, message)
  {
    hide Covered;
    if Covered(s, origin, message) { CoveredPersists(s, t, origin, message); }
  }

  lemma CoverPersists(s: State, t: State)
    requires Grows(s, t) && BrokerKeeps(s, t)
    ensures forall origin, message :: Covered(s, origin, message) ==> Covered(t, origin, message)
    ensures forall origin, message :: Safe(s, origin, message) ==> Safe(t, origin, message)
  {
    hide Covered, Safe, Grows, BrokerKeeps;
    forall origin, message | Covered(s, origin, message) ensures Covered(t, origin, message) {
      CoveredPersists(s, t, origin, message);
    }
    forall origin, message | Safe(s, origin, message) ensures Safe(t, origin, message) {
      SafePersists(s, t, origin, message);
    }
  }

  /** Rows that are published in `after` were published before, except for those in `marked`. */
  predicate PublishesOnly(before: Tables, after: Tables, marked: set<Uuid>) {
    forall id | id in after.deliveries && after.deliveries[id].publishedAt.Some? && id !in marked ::
      id in before.deliveries && before.deliveries[id].publishedAt.Some?
  }

  /** A step that changes one database and nothing the broker holds. */
  lemma DbStepKeepsInv(s: State, t: State, at: MessageAuthority, marked: set<Uuid>)
    requires Inv(s) && at in s.dbs && at in t.dbs
    requires t.dbs == s.dbs[at := t.dbs[at]] && t.broker == s.broker && t.nextSequence == s.nextSequence && t.window == s.window
    requires DbOk(at, t.dbs[at]) && DbGrows(s.dbs[at], t.dbs[at])
    requires PublishesOnly(s.dbs[at].tables, t.dbs[at].tables, marked)
    requires forall id | id in marked :: id in s.dbs[at].tables.messages && Safe(s, at, s.dbs[at].tables.messages[id].message)
    requires t.ackable == s.ackable
    requires forall h | h in t.held :: h in s.held || (h.stage != Accepted && Stored(t, h.owner, h.claim.message))
    ensures Inv(t)
  {
    hide DbOk, DeriveSubject, RouteOf, Covered, Safe;
    assert Grows(s, t) && BrokerKeeps(s, t);
    CoverPersists(s, t);
    assert DbsOk(t) && HeldOk(t) && BrokerOk(t) && AckableOk(t) && WindowOk(t);
    forall a, id | a in t.dbs && id in t.dbs[a].tables.deliveries && t.dbs[a].tables.deliveries[id].publishedAt.Some?
      ensures id in t.dbs[a].tables.messages && Safe(t, a, t.dbs[a].tables.messages[id].message)
    {
      if a != at { assert t.dbs[a] == s.dbs[a]; }
    }
  }

  // ---- Each action keeps the invariant --------------------------------------------------------

  lemma EnqueueKeepsInv(s: State, a: Action)
    requires Inv(s) && a.Enqueue?
    ensures Inv(DoEnqueue(s, a))
  {
    hide WellFormed, EncodedMessage.Valid, OutboundFence, TenantFence, EnqueueTables, EnqueueResult;
    var t := DoEnqueue(s, a);
    if t != s {
      EnqueueTablesOk(s.dbs[a.at].tables, a.message, a.now);
      DbStepKeepsInv(s, t, a.at, {});
    }
  }

  lemma EnqueueTablesOk(t: Tables, message: EncodedMessage, now: int)
    requires WellFormed(t) && message.Valid()
    ensures var after := EnqueueTables(t, message, now);
      && WellFormed(after)
      && PublishesOnly(t, after, {})
      && after.receipts == t.receipts
      && (forall id | id in t.messages :: id in after.messages && after.messages[id] == t.messages[id])
      && (forall id | id in after.messages :: id in t.messages || after.messages[id].message == message)
  {
    hide WellFormed, EncodedMessage.Valid;
    OpKeepsWellFormed(t, EnqueueOp(message), now);
  }

  lemma WriteCanaryKeepsInv(s: State, a: Action)
    requires Inv(s) && a.WriteCanary?
    ensures Inv(DoWriteCanary(s, a))
  {
    hide WellFormed, EncodedMessage.Valid, OutboundFence, TenantFence, EnqueueTables, EnqueueResult;
    var t := DoWriteCanary(s, a);
    if t != s {
      EnqueueTablesOk(s.dbs[a.at].tables, a.message, a.now);
      DbStepKeepsInv(s, t, a.at, {});
    }
  }

  lemma ClaimKeepsInv(s: State, a: Action)
    requires Inv(s) && a.Claim?
    ensures Inv(DoClaim(s, a))
  {
    hide EncodedMessage.Valid, OutboundFence, ClaimSelects;
    var t := DoClaim(s, a);
    if t != s {
      var before := s.dbs[a.at].tables;
      OpKeepsWellFormed(before, ClaimOp(a.chosen, a.batch, a.locked, a.publisher, a.lease, a.seconds), a.now);
      DbStepKeepsInv(s, t, a.at, {});
    }
  }

  /** A step that rewrites delivery rows of one database only. */
  lemma SettlingKeepsInv(s: State, t: State, at: MessageAuthority, after: Tables, marked: set<Uuid>)
    requires Inv(s) && at in s.dbs && WellFormed(after) && PublishesOnly(s.dbs[at].tables, after, marked)
    requires after.messages == s.dbs[at].tables.messages && after.receipts == s.dbs[at].tables.receipts
    requires t == WithTables(s, at, after).(held := t.held) && t.held <= s.held
    requires forall id | id in marked :: id in s.dbs[at].tables.messages && Safe(s, at, s.dbs[at].tables.messages[id].message)
    ensures Inv(t)
  {
    hide WellFormed, PublishesOnly, Safe, OutboundFence, HeldOk, PublishedOk, BrokerOk, AckableOk, WindowOk;
    assert DbOk(at, t.dbs[at]) by { assert DbOk(at, s.dbs[at]); }
    DbStepKeepsInv(s, t, at, marked);
  }

  lemma SettledTablesOk(t: Tables, id: Uuid, lease: Uuid, now: int, delay: nat, failure: Option<string>)
    requires WellFormed(t)
    ensures var after := MarkTables(t, id, lease, now);
      && WellFormed(after) && PublishesOnly(t, after, {id}) && after.messages == t.messages && after.receipts == t.receipts
    ensures var after := RescheduleTables(t, id, lease, now, delay, failure);
      && WellFormed(after) && PublishesOnly(t, after, {}) && after.messages == t.messages && after.receipts == t.receipts
  {
    hide WellFormed;
    OpKeepsWellFormed(t, MarkOp(id, lease), now);
    OpKeepsWellFormed(t, StoreOp.RescheduleOp(id, lease, delay, failure), now);
  }

  lemma HeldIsSafe(s: State, h: Held)
    requires Inv(s) && h in s.held && h.owner in s.dbs
    ensures WellFormed(s.dbs[h.owner].tables) && Stored(s, h.owner, h.claim.message)
    ensures h.stage.Accepted? ==> Safe(s, h.owner, h.claim.message)
  {
    hide WellFormed, Safe, OutboundFence, Stored, PublishedOk, BrokerOk, AckableOk, WindowOk;
    assert DbOk(h.owner, s.dbs[h.owner]);
  }

  lemma MarkKeepsInv(s: State, a: Action)
    requires Inv(s) && a.Mark?
    ensures Inv(DoMark(s, a))
  {
    hide Inv, WellFormed, Safe, MarkTables, PublishesOnly;
    var (t, h) := (DoMark(s, a), a.held);
    if h in s.held && h.stage.Accepted? && h.owner in s.dbs {
      var (before, id) := (s.dbs[h.owner].tables, h.claim.message.Id());
      HeldIsSafe(s, h);
      SettledTablesOk(before, id, h.claim.leaseId, a.now, 0, None);
      SettlingKeepsInv(s, t, h.owner, MarkTables(before, id, h.claim.leaseId, a.now), {id});
    }
  }

  lemma RescheduleKeepsInv(s: State, a: Action)
    requires Inv(s) && a.Reschedule?
    ensures Inv(DoReschedule(s, a))
  {
    hide Inv, WellFormed, Safe, RescheduleTables, PublishesOnly;
    var (t, h) := (DoReschedule(s, a), a.held);
    if h in s.held && h.stage.Refused? && h.owner in s.dbs {
      var (before, id) := (s.dbs[h.owner].tables, h.claim.message.Id());
      HeldIsSafe(s, h);
      SettledTablesOk(before, id, h.claim.leaseId, a.now, a.delay, a.failure);
      SettlingKeepsInv(s, t, h.owner, RescheduleTables(before, id, h.claim.leaseId, a.now, a.delay, a.failure), {});
    }
  }

  lemma TenantKeepsInv(s: State, a: Action)
    requires Inv(s) && (a.AssignTenant? || a.AdvanceEpoch? || a.SetServing?)
    ensures Inv(DoTenant(s, a))
  {
    var t := DoTenant(s, a);
    if t != s { DbStepKeepsInv(s, t, a.at, {}); }
  }

  lemma DeliverKeepsInv(codec: Codec, s: State, a: Action)
    requires codec.Valid() && Inv(s) && a.Deliver?
    ensures Inv(DoDeliver(codec, s, a))
  {
    hide DeriveSubject, RouteOf, ProcessDelivery, DbOk;
    var t := DoDeliver(codec, s, a);
    if DeliverEnabled(s, a) {
      var item := s.broker[a.sequence];
      var (at, db) := (item.destination, s.dbs[item.destination]);
      if ProcessDelivery(codec, db, item, a.newId, a.emittedAt, a.now).Committed? {
        var d := ProcessDelivery(codec, db, item, a.newId, a.emittedAt, a.now);
        var u := WithDb(s, at, d.db);
        CommitOk(codec, s, a);
        if d.outcome.FirstReceipt? { DbStepKeepsInv(s, u, at, {}); } else { assert u.dbs == s.dbs; }
        assert t == if a.learned then u.(ackable := u.ackable + {a.sequence}) else u;
        LearnedKeepsInv(u, a.sequence);
      }
    }
  }

  /** A committed delivery leaves its database sound and holding the receipt of the delivered bytes. */
  lemma CommitOk(codec: Codec, s: State, a: Action)
    requires codec.Valid() && Inv(s) && a.Deliver? && DeliverEnabled(s, a)
    requires var item := s.broker[a.sequence];
      ProcessDelivery(codec, s.dbs[item.destination], item, a.newId, a.emittedAt, a.now).Committed?
    ensures var item := s.broker[a.sequence];
      var d := ProcessDelivery(codec, s.dbs[item.destination], item, a.newId, a.emittedAt, a.now);
      && DbOk(item.destination, d.db) && DbGrows(s.dbs[item.destination], d.db)
      && PublishesOnly(s.dbs[item.destination].tables, d.db.tables, {})
      && (d.outcome.DuplicateReceipt? ==> d.db == s.dbs[item.destination])
      && ReceiptKeyOf(item.destination, item) in d.db.tables.receipts
      && d.db.tables.receipts[ReceiptKeyOf(item.destination, item)].envelope == item.bytes
  {
    hide DeriveSubject, RouteOf, ProcessDelivery, MessageMetadata.BrokenRule, MessageMetadata.ComponentsValid,
      TenantStatus, OutboundFence, WellFormed, EnqueueTables, EnqueueResult;
    var item := s.broker[a.sequence];
    var db := s.dbs[item.destination];
    var d := ProcessDelivery(codec, db, item, a.newId, a.emittedAt, a.now);
    DeliveryEffect(codec, db, item, a.newId, a.emittedAt, a.now);
    if d.outcome.FirstReceipt? {
      if d.derived.Some? {
        ReplyComponentsValid(item.destination, codec.parse(item.bytes).value, a.newId, a.emittedAt);
        EnqueueTablesOk(db.tables, d.derived.value, a.now);
        ReceiptsAside(EnqueueTables(db.tables, d.derived.value, a.now), d.db.tables);
      } else {
        ReceiptsAside(db.tables, d.db.tables);
      }
    }
  }

  lemma ReceiptsAside(t: Tables, after: Tables)
    requires after.messages == t.messages && after.deliveries == t.deliveries
    ensures WellFormed(after) <==> WellFormed(t)
  {
    hide EncodedMessage.Valid;
  }

  lemma LearnedKeepsInv(s: State, sequence: nat)
    requires Inv(s) && sequence in s.broker && s.broker[sequence].destination in s.dbs
    requires var item := s.broker[sequence];
      && ReceiptKeyOf(item.destination, item) in s.dbs[item.destination].tables.receipts
      && s.dbs[item.destination].tables.receipts[ReceiptKeyOf(item.destination, item)].envelope == item.bytes
    ensures Inv(s.(ackable := s.ackable + {sequence}))
  {
    hide DeriveSubject, RouteOf, DbOk, Covered, Safe, HandlerName;
    CoverPersists(s, s.(ackable := s.ackable + {sequence}));
  }

  lemma AckKeepsInv(s: State, a: Action)
    requires Inv(s) && a.Ack?
    ensures Inv(DoAck(s, a))
  {
    hide DbOk, DeriveSubject, RouteOf, Covered;
    var t := DoAck(s, a);
    forall origin, message | Covered(s, origin, message) ensures Covered(t, origin, message) {
      AckKeepsCover(s, a, origin, message);
    }
    assert HeldOk(t) && PublishedOk(t) && BrokerOk(t) && AckableOk(t) && WindowOk(t);
  }

  /** An acknowledged record leaves the broker, but its receipt is at its destination. */
  lemma AckKeepsCover(s: State, a: Action, origin: MessageAuthority, message: EncodedMessage)
    requires Inv(s) && a.Ack? && Covered(s, origin, message)
    ensures Covered(DoAck(s, a), origin, message)
  {
    hide DbOk, DeriveSubject, RouteOf;
    var t := DoAck(s, a);
    var destination := RouteOf(message.metadata).value.Destination();
    if InBroker(s, origin, destination, message) && a.sequence in s.ackable {
      var n :| n in s.broker && s.broker[n].origin == origin && s.broker[n].destination == destination
        && s.broker[n].stream == StreamForKind(message.metadata.descriptor.kind)
        && s.broker[n].headerId == message.Id() && s.broker[n].bytes == message.bytes;
      if n == a.sequence {
        assert ReceiptKeyOf(destination, s.broker[n]) in t.dbs[destination].tables.receipts;
        assert Received(t, destination, message);
      } else {
        assert n in t.broker;
      }
    }
  }

  /** A publish changes only what workers hold, the broker and its window. */
  predicate PublishStep(s: State, t: State, h: Held) {
    && t.dbs == s.dbs && t.ackable == s.ackable && BrokerKeeps(s, t)
    && forall other | other in t.held :: other in s.held || (other.owner == h.owner && other.claim == h.claim)
  }

  /** It keeps the invariant when an accepted message is covered and new records and window entries are sound. */
  lemma PublishStepKeepsInv(s: State, t: State, h: Held)
    requires Inv(s) && h in s.held && PublishStep(s, t, h)
    requires h.(stage := Accepted) in t.held && h.(stage := Accepted) !in s.held ==> Safe(t, h.owner, h.claim.message)
    requires forall n | n in t.broker :: n in s.broker || (s.nextSequence <= n < t.nextSequence && ItemOk(s, t.broker[n]))
    requires forall key | key in t.window ::
      || (key in s.window && t.window[key] == s.window[key])
      || (key == WindowKeyOf(h.claim.message) && t.window[key] == h.owner && Covered(t, h.owner, h.claim.message))
    ensures Inv(t)
  {
    hide Inv, BrokerKeeps, DbOk, Covered, Safe, HeldOk, PublishedOk, BrokerOk, AckableOk, WindowOk, ItemOk;
    PublishStepKeepsRows(s, t, h);
    PublishStepKeepsBroker(s, t, h);
    assert Inv(t) by { InvOf(t); }
  }

  lemma InvOf(t: State)
    requires DbsOk(t) && HeldOk(t) && PublishedOk(t) && BrokerOk(t) && AckableOk(t) && WindowOk(t)
    ensures Inv(t)
  {
  }

  lemma PublishStepKeepsRows(s: State, t: State, h: Held)
    requires Inv(s) && h in s.held && PublishStep(s, t, h)
    requires h.(stage := Accepted) in t.held && h.(stage := Accepted) !in s.held ==> Safe(t, h.owner, h.claim.message)
    ensures DbsOk(t) && HeldOk(t) && PublishedOk(t)
  {
    hide DbOk, RouteOf, Covered, Safe, BrokerOk, AckableOk, WindowOk;
    assert Grows(s, t);
    CoverPersists(s, t);
    assert Stored(s, h.owner, h.claim.message);
    forall other | other in t.held
      ensures Stored(t, other.owner, other.claim.message) && (other.stage.Accepted? ==> Safe(t, other.owner, other.claim.message))
    {
      if other !in s.held && other.stage.Accepted? { assert other == h.(stage := Accepted); }
    }
  }

  lemma PublishStepKeepsBroker(s: State, t: State, h: Held)
    requires Inv(s) && h in s.held && PublishStep(s, t, h)
    requires forall n | n in t.broker :: n in s.broker || (s.nextSequence <= n < t.nextSequence && ItemOk(s, t.broker[n]))
    requires forall key | key in t.window ::
      || (key in s.window && t.window[key] == s.window[key])
      || (key == WindowKeyOf(h.claim.message) && t.window[key] == h.owner && Covered(t, h.owner, h.claim.message))
    ensures BrokerOk(t) && AckableOk(t) && WindowOk(t)
  {
    hide DbOk, DeriveSubject, RouteOf, Covered, Safe, ItemOf, PublishedOk;
    assert Grows(s, t);
    CoverPersists(s, t);
    assert Stored(s, h.owner, h.claim.message);
    CoveredHasRoute(t, h.owner, h.claim.message);
    assert BrokerOk(t);
  }

  lemma CoveredHasRoute(s: State, origin: MessageAuthority, message: EncodedMessage)
    ensures Covered(s, origin, message) ==> RouteOf(message.metadata).Some?
  {
  }

  lemma StoredPublishKeepsInv(s: State, a: Action)
    requires Inv(s) && a.Publish? && a.fate.Stored? && Publishable(a.held.owner, a.held.claim.message)
    ensures Inv(DoPublish(s, a))
  {
    hide Inv, DeriveSubject, RouteOf, AuthorizedToPublish, Covered, ItemOf, ItemOk, Stored;
    var (t, h) := (DoPublish(s, a), a.held);
    if h in s.held && h.stage.Unsent? {
      var message := h.claim.message;
      var item := ItemOf(h.owner, message, RouteOf(message.metadata).value, DeriveSubject(message.metadata).value);
      HeldIsStored(s, h);
      FreshSequence(s);
      assert t.broker == s.broker[s.nextSequence := item];
      NewRecordCovers(t, s.nextSequence, h.owner, message);
      NewItemOk(s, h.owner, message);
      PublishStepKeepsInv(s, t, h);
    }
  }

  lemma SuppressedPublishKeepsInv(s: State, a: Action)
    requires Inv(s) && a.Publish? && a.fate.Suppressed? && Publishable(a.held.owner, a.held.claim.message)
    ensures Inv(DoPublish(s, a))
  {
    hide Inv, DeriveSubject, RouteOf, AuthorizedToPublish, Covered, ItemOf, ItemOk;
    var (t, h) := (DoPublish(s, a), a.held);
    if h in s.held && h.stage.Unsent? {
      var message := h.claim.message;
      var key := WindowKeyOf(message);
      if key in s.window {
        HeldIsStored(s, h);
        WindowIsCovered(s, key);
        assert Grows(s, t);
        if s.window[key] == h.owner { CoveredPersists(s, t, h.owner, message); }
        else { assert Clashing(t, h.owner, key); }
        PublishStepKeepsInv(s, t, h);
      }
    }
  }

  lemma PublishKeepsInv(s: State, a: Action)
    requires Inv(s) && a.Publish?
    ensures Inv(DoPublish(s, a))
  {
    hide *;
    if Publishable(a.held.owner, a.held.claim.message) && a.fate.Stored? {
      StoredPublishKeepsInv(s, a);
    } else if Publishable(a.held.owner, a.held.claim.message) && a.fate.Suppressed? {
      SuppressedPublishKeepsInv(s, a);
    } else {
      UnstoredPublishKeepsInv(s, a);
    }
  }

  lemma UnstoredPublishKeepsInv(s: State, a: Action)
    requires Inv(s) && a.Publish? && (a.fate.NotStored? || !Publishable(a.held.owner, a.held.claim.message))
    ensures Inv(DoPublish(s, a))
  {
    hide Inv, DeriveSubject, RouteOf, AuthorizedToPublish, Covered, ItemOf, ItemOk;
    var (t, h) := (DoPublish(s, a), a.held);
    if h in s.held && h.stage.Unsent? {
      assert t == s.(held := t.held) && t.held <= s.held - {h} + {h.(stage := Refused)};
      PublishStepKeepsInv(s, t, h);
    }
  }

  lemma NewRecordCovers(t: State, n: nat, origin: MessageAuthority, message: EncodedMessage)
    requires RouteOf(message.metadata).Some? && DeriveSubject(message.metadata).Some?
    requires n in t.broker
    requires t.broker[n] == ItemOf(origin, message, RouteOf(message.metadata).value, DeriveSubject(message.metadata).value)
    ensures Covered(t, origin, message)
  {
    hide RouteOf, DeriveSubject;
    assert InBroker(t, origin, RouteOf(message.metadata).value.Destination(), message);
  }

  lemma HeldIsStored(s: State, h: Held)
    requires Inv(s) && h in s.held
    ensures Stored(s, h.owner, h.claim.message)
  {
    hide Covered;
  }

  /** So settling a held claim never finds its delivery row missing. */
  lemma HeldRowExists(s: State, h: Held)
    requires Inv(s) && h in s.held
    ensures h.owner in s.dbs && h.claim.message.Id() in s.dbs[h.owner].tables.deliveries
  {
    hide Safe, EncodedMessage.Valid, OutboundFence;
    HeldIsStored(s, h);
    assert DbOk(h.owner, s.dbs[h.owner]);
  }

  lemma WindowIsCovered(s: State, key: WindowKey)
    requires Inv(s) && key in s.window
    ensures Sends(s, s.window[key], key)
    ensures Covered(s, s.window[key], s.dbs[s.window[key]].tables.messages[key.id].message)
  {
    hide Covered;
  }

  lemma NewItemOk(s: State, origin: MessageAuthority, message: EncodedMessage)
    requires Stored(s, origin, message) && RouteOf(message.metadata).Some? && DeriveSubject(message.metadata).Some?
    ensures ItemOk(s, ItemOf(origin, message, RouteOf(message.metadata).value, DeriveSubject(message.metadata).value))
  {
    hide RouteOf, DeriveSubject;
  }

  lemma FreshSequence(s: State)
    requires Inv(s)
    ensures s.nextSequence !in s.broker
  {
    hide ItemOk;
  }

  // ---- Whole runs -----------------------------------------------------------------------------

  /** No step loses a stored message or a receipt. */
  lemma StepGrows(codec: Codec, s: State, a: Action)
    ensures Grows(s, Step(codec, s, a))
  {
    hide DoEnqueue, DoWriteCanary, DoClaim, DoPublish, DoMark, DoReschedule, DoDeliver, DoAck, DoTenant, Grows;
    if a.Deliver? {
      DeliverGrows(codec, s, a);
    } else if a.Enqueue? || a.WriteCanary? {
      EnqueueGrows(s, a);
    } else if a.Claim? || a.Mark? || a.Reschedule? {
      SettleGrows(codec, s, a);
    } else {
      QuietGrows(codec, s, a);
    }
  }

  lemma EnqueueGrows(s: State, a: Action)
    ensures a.Enqueue? ==> Grows(s, DoEnqueue(s, a))
    ensures a.WriteCanary? ==> Grows(s, DoWriteCanary(s, a))
  {
    hide EncodedMessage.Valid, OutboundFence, TenantFence, EnqueueTables, EnqueueResult;
    match a
    case Enqueue(at, _, message, now) => if at in s.dbs { EnqueueKeepsRows(s.dbs[at].tables, message, now); }
    case WriteCanary(at, _, _, _, _, message, now) => if at in s.dbs { EnqueueKeepsRows(s.dbs[at].tables, message, now); }
    case _ =>
  }

  lemma SettleGrows(codec: Codec, s: State, a: Action)
    requires a.Claim? || a.Mark? || a.Reschedule?
    ensures Grows(s, Step(codec, s, a))
  {
    hide ClaimSelects, LeaseRows, HoldsLease, WithoutLease, ClaimedRow;
  }

  lemma QuietGrows(codec: Codec, s: State, a: Action)
    requires a.Publish? || a.Forget? || a.Ack? || a.LoseAck? || a.AssignTenant? || a.AdvanceEpoch? || a.SetServing?
    ensures Grows(s, Step(codec, s, a))
  {
    hide DeriveSubject, RouteOf, AuthorizedToPublish, ItemOf;
  }

  lemma DeliverGrows(codec: Codec, s: State, a: Action)
    requires a.Deliver?
    ensures Grows(s, DoDeliver(codec, s, a))
  {
    hide ProcessDelivery, DeriveSubject, RouteOf, EnqueueTables, EnqueueResult;
    if DeliverEnabled(s, a) {
      var item := s.broker[a.sequence];
      var db := s.dbs[item.destination];
      if ProcessDelivery(codec, db, item, a.newId, a.emittedAt, a.now).Committed? {
        DeliveryEffect(codec, db, item, a.newId, a.emittedAt, a.now);
        var d := ProcessDelivery(codec, db, item, a.newId, a.emittedAt, a.now);
        if d.outcome.FirstReceipt? && d.derived.Some? { EnqueueKeepsRows(db.tables, d.derived.value, a.now); }
      }
    }
  }

  lemma EnqueueKeepsRows(t: Tables, message: EncodedMessage, now: int)
    ensures forall id | id in t.messages ::
      id in EnqueueTables(t, message, now).messages && EnqueueTables(t, message, now).messages[id] == t.messages[id]
    ensures EnqueueTables(t, message, now).receipts == t.receipts
  {
  }

  lemma StepKeepsInv(codec: Codec, s: State, a: Action)
    requires codec.Valid() && Inv(s)
    ensures Inv(Step(codec, s, a))
  {
    hide Inv, DoEnqueue, DoWriteCanary, DoClaim, DoPublish, DoMark, DoReschedule, DoDeliver, DoAck, DoTenant;
    match a
    case Enqueue(_, _, _, _) => EnqueueKeepsInv(s, a);
    case WriteCanary(_, _, _, _, _, _, _) => WriteCanaryKeepsInv(s, a);
    case Claim(_, _, _, _, _, _, _, _, _) => ClaimKeepsInv(s, a);
    case Publish(_, _) => PublishKeepsInv(s, a);
    case Mark(_, _) => MarkKeepsInv(s, a);
    case Reschedule(_, _, _, _) => RescheduleKeepsInv(s, a);
    case Forget(h) => ForgetKeepsInv(s, h);
    case Deliver(_, _, _, _, _) => DeliverKeepsInv(codec, s, a);
    case Ack(_) => AckKeepsInv(s, a);
    case LoseAck(n) => LoseAckKeepsInv(s, n);
    case AssignTenant(_, _, _, _) => TenantKeepsInv(s, a);
    case AdvanceEpoch(_, _) => TenantKeepsInv(s, a);
    case SetServing(_, _, _) => TenantKeepsInv(s, a);
  }

  lemma ForgetKeepsInv(s: State, h: Held)
    requires Inv(s)
    ensures Inv(s.(held := s.held - {h}))
  {
    hide DbOk, DeriveSubject, RouteOf, Covered, Safe;
    CoverPersists(s, s.(held := s.held - {h}));
  }

  lemma LoseAckKeepsInv(s: State, n: nat)
    requires Inv(s)
    ensures Inv(s.(ackable := s.ackable - {n}))
  {
    hide DbOk, DeriveSubject, RouteOf, Covered, Safe;
    CoverPersists(s, s.(ackable := s.ackable - {n}));
  }

  lemma InitialInv(cells: set<string>)
    requires ValidCells(cells)
    ensures Inv(Initial(cells))
  {
  }

  /** From any sound state every sequence of actions leads to a sound state. */
  lemma {:induction false} RunFromKeepsInv(codec: Codec, s: State, actions: seq<Action>)
    ensures codec.Valid() && Inv(s) ==> Inv(Run(codec, s, actions))
    decreases |actions|
  {
    hide Step, Inv;
    if codec.Valid() && Inv(s) && actions != [] {
      var front := actions[..|actions| - 1];
      RunFromKeepsInv(codec, s, front);
      StepKeepsInv(codec, Run(codec, s, front), actions[|actions| - 1]);
    }
  }

  lemma RunKeepsInv(codec: Codec, cells: set<string>, actions: seq<Action>)
    requires codec.Valid() && ValidCells(cells)
    ensures Inv(Run(codec, Initial(cells), actions))
  {
    hide Inv, Run;
    InitialInv(cells);
    RunFromKeepsInv(codec, Initial(cells), actions);
  }

  /**
   * In every reachable state a stored message is unpublished in its outbox, or the broker still holds it
   * for its destination, or its destination has a receipt of its exact bytes. Only an id under which another
   * authority sends a message of the same kind can break this, through the broker's duplicate window.
   */
  lemma NoMessageIsLost(codec: Codec, cells: set<string>, actions: seq<Action>, at: MessageAuthority, id: Uuid)
    requires codec.Valid() && ValidCells(cells)
    requires var s := Run(codec, Initial(cells), actions);
      at in s.dbs && id in s.dbs[at].tables.messages
      && !Clashing(s, at, WindowKeyOf(s.dbs[at].tables.messages[id].message))
    ensures var s := Run(codec, Initial(cells), actions);
      && id in s.dbs[at].tables.deliveries
      && (s.dbs[at].tables.deliveries[id].publishedAt.None? || Covered(s, at, s.dbs[at].tables.messages[id].message))
  {
    hide DeriveSubject, RouteOf, Covered, Run, EncodedMessage.Valid, OutboundFence;
    RunKeepsInv(codec, cells, actions);
  }

  /**
   * Why the ids must be distinct: when the duplicate window remembers the id for another publisher, the
   * broker acknowledges without storing, the row is marked published, and the message is nowhere.
   */
  lemma SharedIdIsLost(codec: Codec, s: State, h: Held, now: int)
    requires h in s.held && h.stage.Unsent? && h.owner in s.dbs && Publishable(h.owner, h.claim.message)
    requires WindowKeyOf(h.claim.message) in s.window
    requires !Covered(s, h.owner, h.claim.message)
    requires HoldsLease(s.dbs[h.owner].tables, h.claim.message.Id(), h.claim.leaseId, now)
    ensures var t := Step(codec, Step(codec, s, Publish(h, Suppressed(true))), Mark(h.(stage := Accepted), now));
      && h.owner in t.dbs && h.claim.message.Id() in t.dbs[h.owner].tables.deliveries
      && t.dbs[h.owner].tables.deliveries[h.claim.message.Id()].publishedAt == Some(now)
      && !Covered(t, h.owner, h.claim.message)
    ensures Inv(s) ==> Clashing(s, h.owner, WindowKeyOf(h.claim.message))
  {
    hide DeriveSubject, RouteOf, AuthorizedToPublish, Inv, Covered, Step;
    var accepted := h.(stage := Accepted);
    SuppressedMoves(codec, s, h);
    MarkedMoves(codec, Step(codec, s, Publish(h, Suppressed(true))), accepted, now);
    var t := Step(codec, Step(codec, s, Publish(h, Suppressed(true))), Mark(accepted, now));
    NotCoveredYet(s, t, h.owner, h.claim.message);
    if Inv(s) { WindowHolderClashes(s, h); }
  }

  lemma SuppressedMoves(codec: Codec, s: State, h: Held)
    requires h in s.held && h.stage.Unsent? && Publishable(h.owner, h.claim.message)
    requires WindowKeyOf(h.claim.message) in s.window
    ensures var t := Step(codec, s, Publish(h, Suppressed(true)));
      t.dbs == s.dbs && t.broker == s.broker && h.(stage := Accepted) in t.held
  {
    hide DeriveSubject, RouteOf, AuthorizedToPublish;
  }

  lemma MarkedMoves(codec: Codec, s: State, h: Held, now: int)
    requires h in s.held && h.stage.Accepted? && h.owner in s.dbs
    requires HoldsLease(s.dbs[h.owner].tables, h.claim.message.Id(), h.claim.leaseId, now)
    ensures var t := Step(codec, s, Mark(h, now));
      && t.broker == s.broker && t.dbs.Keys == s.dbs.Keys
      && (forall at | at in s.dbs :: t.dbs[at].tables.receipts == s.dbs[at].tables.receipts)
      && h.claim.message.Id() in t.dbs[h.owner].tables.deliveries
      && t.dbs[h.owner].tables.deliveries[h.claim.message.Id()].publishedAt == Some(now)
  {
  }

  lemma NotCoveredYet(s: State, t: State, origin: MessageAuthority, message: EncodedMessage)
    requires t.broker == s.broker && t.dbs.Keys == s.dbs.Keys
    requires forall at | at in s.dbs :: t.dbs[at].tables.receipts == s.dbs[at].tables.receipts
    ensures Covered(t, origin, message) <==> Covered(s, origin, message)
  {
    hide RouteOf;
  }

  lemma WindowHolderClashes(s: State, h: Held)
    requires Inv(s) && h in s.held && !Covered(s, h.owner, h.claim.message)
    requires WindowKeyOf(h.claim.message) in s.window
    ensures Clashing(s, h.owner, WindowKeyOf(h.claim.message))
  {
    hide Inv, Covered;
    WindowIsCovered(s, WindowKeyOf(h.claim.message));
    HeldIsStored(s, h);
  }
}
