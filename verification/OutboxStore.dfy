/**
 * What one transactional message store means: the outbox, delivery and inbox tables of one authority and
 * the effect of each store operation on them. `now` is the start time of the calling transaction, so
 * nothing orders it between transactions. Times are microseconds.
 */
module OutboxStore {
  import opened Foundation
  import opened MessageDomain

  datatype StoredMessage = StoredMessage(message: EncodedMessage, createdAt: int)

  datatype DeliveryRow = DeliveryRow(
    availableAt: int,
    attemptCount: nat,
    publisher: Option<Uuid>,
    leaseId: Option<Uuid>,
    leasedUntil: Option<int>,
    lastAttemptAt: Option<int>,
    publishedAt: Option<int>,
    lastFailure: Option<string>)

  datatype ReceiptKey = ReceiptKey(consumer: string, messageId: Uuid)

  datatype ReceiptRow =
    ReceiptRow(name: string, schemaVersion: nat, kind: MessageKind, envelope: Bytes, processedAt: int)

  datatype Tables = Tables(
    messages: map<Uuid, StoredMessage>,
    deliveries: map<Uuid, DeliveryRow>,
    receipts: map<ReceiptKey, ReceiptRow>)

  const EMPTY_TABLES := Tables(map[], map[], map[])

  datatype StoreError = ProviderFailure | MessageIdentityConflict | StoreCorruption | InvalidStoredValue

  datatype EnqueueOutcome = Inserted | AlreadyPresent
  datatype InboxReceiptOutcome = ReceiptInserted | ReceiptDuplicate | ReceiptConflict
  datatype PublishMarkOutcome = Published | MarkAlreadyPublished | MarkLeaseLost
  datatype RescheduleOutcome = Rescheduled | RescheduleAlreadyPublished | RescheduleLeaseLost

  // ---- Enqueue --------------------------------------------------------------------------------

  function EnqueueResult(t: Tables, message: EncodedMessage): Result<EnqueueOutcome, StoreError> {
    var id := message.Id();
    if id !in t.messages then
      // the delivery row of a new message collides only with an orphan row
      if id in t.deliveries then Failure(ProviderFailure) else Success(Inserted)
    else if t.messages[id].message != message then Failure(MessageIdentityConflict)
    else if id !in t.deliveries then Failure(StoreCorruption)
    else Success(AlreadyPresent)
  }

  function NewDelivery(now: int): DeliveryRow { DeliveryRow(now, 0, None, None, None, None, None, None) }

  function EnqueueTables(t: Tables, message: EncodedMessage, now: int): Tables {
    if EnqueueResult(t, message) == Success(Inserted) then
      t.(messages := t.messages[message.Id() := StoredMessage(message, now)],
         deliveries := t.deliveries[message.Id() := NewDelivery(now)])
    else t
  }

  // ---- Claim ----------------------------------------------------------------------------------

  predicate RowEligible(row: DeliveryRow, now: int) {
    && row.publishedAt.None? && row.availableAt <= now
    && (row.leasedUntil.None? || row.leasedUntil.value <= now)
  }

  function EligibleIds(t: Tables, now: int, locked: set<Uuid>): set<Uuid> {
    set id | id in t.deliveries && id in t.messages && id !in locked && RowEligible(t.deliveries[id], now)
  }

  /** The columns of `ORDER BY available_at, created_at, message_id`. */
  datatype ClaimKey = ClaimKey(availableAt: int, createdAt: int, id: Uuid)

  predicate Before(a: ClaimKey, b: ClaimKey) {
    a.availableAt < b.availableAt
    || (a.availableAt == b.availableAt
        && (a.createdAt < b.createdAt || (a.createdAt == b.createdAt && a.id < b.id)))
  }

  function ClaimKeys(t: Tables): map<Uuid, ClaimKey> {
    map id | id in t.deliveries && id in t.messages ::
      ClaimKey(t.deliveries[id].availableAt, t.messages[id].createdAt, id)
  }

  /** `chosen` holds the `batch` first of `candidates`, or all of them when there are fewer. */
  predicate FirstOf(keys: map<Uuid, ClaimKey>, candidates: set<Uuid>, batch: nat, chosen: set<Uuid>)
    requires candidates <= keys.Keys
  {
    && chosen <= candidates
    && |chosen| == Min(batch, |candidates|)
    && forall c, other | c in chosen && other in candidates - chosen :: Before(keys[c], keys[other])
  }

  /** The rows one claim takes: the first unlocked eligible rows, `SKIP LOCKED LIMIT batch`. */
  predicate ClaimSelects(t: Tables, now: int, batch: nat, locked: set<Uuid>, chosen: set<Uuid>) {
    FirstOf(ClaimKeys(t), EligibleIds(t, now, locked), batch, chosen)
  }

  function LeasedRow(row: DeliveryRow, now: int, publisher: Uuid, lease: Uuid, seconds: nat): DeliveryRow {
    row.(publisher := Some(publisher), leaseId := Some(lease), leasedUntil := Some(now + seconds * MICROS_PER_SECOND),
         lastAttemptAt := Some(now), attemptCount := row.attemptCount + 1)
  }

  function LeaseRows(deliveries: map<Uuid, DeliveryRow>, chosen: set<Uuid>, now: int, publisher: Uuid, lease: Uuid,
    seconds: nat):
    map<Uuid, DeliveryRow>
  {
    map id | id in deliveries ::
      if id in chosen then LeasedRow(deliveries[id], now, publisher, lease, seconds) else deliveries[id]
  }

  function ClaimTables(t: Tables, chosen: set<Uuid>, now: int, publisher: Uuid, lease: Uuid, seconds: nat): Tables {
    t.(deliveries := LeaseRows(t.deliveries, chosen, now, publisher, lease, seconds))
  }

  datatype ClaimedMessage =
    ClaimedMessage(message: EncodedMessage, attemptCount: nat, leaseId: Uuid, leasedUntil: int)

  // ---- Settle ---------------------------------------------------------------------------------

  /** The common `WHERE` of the marker and the reschedule: a live lease that is still the row's own. */
  predicate HoldsLease(t: Tables, id: Uuid, lease: Uuid, now: int) {
    && id in t.deliveries
    && var row := t.deliveries[id];
    && row.publishedAt.None? && row.leaseId == Some(lease) && row.leasedUntil.Some? && row.leasedUntil.value > now
  }

  function WithoutLease(row: DeliveryRow): DeliveryRow {
    row.(publisher := None, leaseId := None, leasedUntil := None)
  }

  function MarkResult(t: Tables, id: Uuid, lease: Uuid, now: int): Result<PublishMarkOutcome, StoreError> {
    if HoldsLease(t, id, lease, now) then Success(Published)
    else if id !in t.deliveries then Failure(StoreCorruption)
    else if t.deliveries[id].publishedAt.Some? then Success(MarkAlreadyPublished)
    else Success(MarkLeaseLost)
  }

  function MarkTables(t: Tables, id: Uuid, lease: Uuid, now: int): Tables {
    if HoldsLease(t, id, lease, now) then
      t.(deliveries := t.deliveries[id := WithoutLease(t.deliveries[id]).(publishedAt := Some(now))])
    else t
  }

  function RescheduleResult(t: Tables, id: Uuid, lease: Uuid, now: int): Result<RescheduleOutcome, StoreError> {
    if HoldsLease(t, id, lease, now) then Success(Rescheduled)
    else if id !in t.deliveries then Failure(StoreCorruption)
    else if t.deliveries[id].publishedAt.Some? then Success(RescheduleAlreadyPublished)
    else Success(RescheduleLeaseLost)
  }

  function RescheduleTables(t: Tables, id: Uuid, lease: Uuid, now: int, delay: nat, failure: Option<string>): Tables {
    if HoldsLease(t, id, lease, now) then
      t.(deliveries := t.deliveries[id := WithoutLease(t.deliveries[id])
        .(availableAt := now + delay * MICROS_PER_SECOND, lastFailure := failure)])
    else t
  }

  // ---- Inbox ----------------------------------------------------------------------------------

  function ReceiptOf(message: EncodedMessage, now: int): ReceiptRow {
    var d := message.metadata.descriptor;
    ReceiptRow(d.name, d.schemaVersion, d.kind, message.bytes, now)
  }

  function InboxResult(t: Tables, consumer: string, message: EncodedMessage): InboxReceiptOutcome {
    var key := ReceiptKey(consumer, message.Id());
    if key !in t.receipts then ReceiptInserted
    else if t.receipts[key].(processedAt := 0) == ReceiptOf(message, 0) then ReceiptDuplicate
    else ReceiptConflict
  }

  function InboxTables(t: Tables, consumer: string, message: EncodedMessage, now: int): Tables {
    if InboxResult(t, consumer, message).ReceiptInserted? then
      t.(receipts := t.receipts[ReceiptKey(consumer, message.Id()) := ReceiptOf(message, now)])
    else t
  }

  // ---- Table invariant ------------------------------------------------------------------------

  predicate RowWellFormed(row: DeliveryRow) {
    && row.publisher.Some? == row.leaseId.Some? == row.leasedUntil.Some?
    && (row.publishedAt.Some? ==> row.leaseId.None?)
  }

  /** What the constraints and foreign keys of the tables promise in every committed state. */
  predicate WellFormed(t: Tables) {
    && t.messages.Keys == t.deliveries.Keys
    && (forall id | id in t.messages :: t.messages[id].message.Valid() && t.messages[id].message.Id() == id)
    && (forall id | id in t.deliveries :: RowWellFormed(t.deliveries[id]))
  }

  /** The operations of a store; a claim names the rows it takes. */
  datatype StoreOp =
    | EnqueueOp(message: EncodedMessage)
    | ClaimOp(chosen: set<Uuid>, batch: nat, locked: set<Uuid>, publisher: Uuid, lease: Uuid, seconds: nat)
    | MarkOp(id: Uuid, lease: Uuid)
    | RescheduleOp(id: Uuid, lease: Uuid, delay: nat, failure: Option<string>)
    | InboxOp(consumer: string, inbound: EncodedMessage)

  /** A claim takes the rows the query gives it; every other operation is free. */
  predicate OpTakesItsRows(t: Tables, op: StoreOp, now: int) {
    op.ClaimOp? ==> ClaimSelects(t, now, op.batch, op.locked, op.chosen)
  }

  function OpTables(t: Tables, op: StoreOp, now: int): Tables {
    match op
    case EnqueueOp(message) => EnqueueTables(t, message, now)
    case ClaimOp(chosen, _, _, publisher, lease, seconds) => ClaimTables(t, chosen, now, publisher, lease, seconds)
    case MarkOp(id, lease) => MarkTables(t, id, lease, now)
    case RescheduleOp(id, lease, delay, failure) => RescheduleTables(t, id, lease, now, delay, failure)
    case InboxOp(consumer, inbound) => InboxTables(t, consumer, inbound, now)
  }

  lemma OpKeepsWellFormed(t: Tables, op: StoreOp, now: int)
    requires WellFormed(t) && OpTakesItsRows(t, op, now)
    requires op.EnqueueOp? ==> op.message.Valid()
    ensures WellFormed(OpTables(t, op, now))
  {
    hide EncodedMessage.Valid, ClaimSelects, HoldsLease, RowWellFormed, LeaseRows;
    match op
    case EnqueueOp(_) => NewRowWellFormed(now);
    case ClaimOp(_, _, _, _, _, _) => LeasedRowsWellFormed(t, op, now);
    case MarkOp(id, lease) => if HoldsLease(t, id, lease, now) { SettledRowWellFormed(t, id, lease, now); }
    case RescheduleOp(id, lease, _, _) => if HoldsLease(t, id, lease, now) { SettledRowWellFormed(t, id, lease, now); }
    case InboxOp(_, _) =>
  }

  lemma LeasedRowsWellFormed(t: Tables, op: StoreOp, now: int)
    requires WellFormed(t) && op.ClaimOp? && OpTakesItsRows(t, op, now)
    ensures var rows := LeaseRows(t.deliveries, op.chosen, now, op.publisher, op.lease, op.seconds);
      rows.Keys == t.deliveries.Keys && forall id | id in rows :: RowWellFormed(rows[id])
  {
    hide EncodedMessage.Valid;
  }

  lemma NewRowWellFormed(now: int)
    ensures RowWellFormed(NewDelivery(now))
  {
  }

  lemma SettledRowWellFormed(t: Tables, id: Uuid, lease: Uuid, now: int)
    requires HoldsLease(t, id, lease, now)
    ensures id in t.deliveries
    ensures var row := WithoutLease(t.deliveries[id]);
      && RowWellFormed(row.(publishedAt := Some(now)))
      && forall at, failure :: RowWellFormed(row.(availableAt := at, lastFailure := failure))
  {
  }

  /** Stored messages and receipts are immutable: an operation only ever adds rows. */
  lemma OpKeepsRows(t: Tables, op: StoreOp, now: int)
    requires OpTakesItsRows(t, op, now)
    ensures forall id | id in t.messages ::
      id in OpTables(t, op, now).messages && OpTables(t, op, now).messages[id] == t.messages[id]
    ensures forall key | key in t.receipts ::
      key in OpTables(t, op, now).receipts && OpTables(t, op, now).receipts[key] == t.receipts[key]
    ensures forall id | id in t.deliveries :: id in OpTables(t, op, now).deliveries
  {
  }

  // ---- What the outcomes say ------------------------------------------------------------------

  lemma NoCrossover(keys: map<Uuid, ClaimKey>, candidates: set<Uuid>, batch: nat, one: set<Uuid>, two: set<Uuid>,
    a: Uuid, b: Uuid)
    requires candidates <= keys.Keys && FirstOf(keys, candidates, batch, one) && FirstOf(keys, candidates, batch, two)
    requires a in one && a in candidates - two && b in two
    ensures b !in candidates - one
  {
  }

  /** The order and the limit leave a claim no choice of rows. */
  lemma SelectionIsUnique(t: Tables, now: int, batch: nat, locked: set<Uuid>, one: set<Uuid>, two: set<Uuid>)
    requires ClaimSelects(t, now, batch, locked, one) && ClaimSelects(t, now, batch, locked, two)
    ensures one == two
  {
    if one != two {
      if one - two == {} {
        forall x | x in one ensures x in two { assert x !in one - two; }
        SmallerSubset(one, two);
      } else if two - one == {} {
        forall x | x in two ensures x in one { assert x !in two - one; }
        SmallerSubset(two, one);
      } else {
        var a :| a in one - two;
        var b :| b in two - one;
        var (keys, candidates) := (ClaimKeys(t), EligibleIds(t, now, locked));
        assert a in candidates - two && b in candidates - one;
        NoCrossover(keys, candidates, batch, one, two, a, b);
      }
    }
  }

  lemma SmallerSubset(a: set<Uuid>, b: set<Uuid>)
    requires a <= b && |a| == |b|
    ensures a == b
  {
    if b - a == {} {
      assert b <= a;
    } else {
      var x :| x in b - a;
      SubsetSize(a, b - {x});
    }
  }

  /** Enqueueing a stored message changes nothing; other content under its id is always a conflict. */
  lemma EnqueueIsIdempotent(t: Tables, message: EncodedMessage, other: EncodedMessage, now: int, later: int)
    requires WellFormed(t) && message.Valid() && EnqueueResult(t, message).Success?
    requires other.Id() == message.Id()
    ensures var after := EnqueueTables(t, message, now);
      && EnqueueResult(after, other)
         == (if other == message then Success(AlreadyPresent) else Failure(MessageIdentityConflict))
      && EnqueueTables(after, other, later) == after
  {
  }

  /**
   * When each outcome lets a row be claimed again: a new row at once, a leased one when its lease ends, a
   * rescheduled one after its delay, a published one never.
   */
  lemma NextClaim(t: Tables, id: Uuid, message: EncodedMessage, lease: Uuid, publisher: Uuid, seconds: nat, delay: nat,
    failure: Option<string>, now: int, later: int)
    requires WellFormed(t)
    ensures EnqueueResult(t, message) == Success(Inserted) ==>
      (RowEligible(EnqueueTables(t, message, now).deliveries[message.Id()], later) <==> later >= now)
    ensures id in t.deliveries && RowEligible(t.deliveries[id], now) && now <= later ==>
      var row := ClaimTables(t, {id}, now, publisher, lease, seconds).deliveries[id];
      RowEligible(row, later) <==> later >= now + seconds * MICROS_PER_SECOND
    ensures HoldsLease(t, id, lease, now) ==>
      var row := RescheduleTables(t, id, lease, now, delay, failure).deliveries[id];
      RowEligible(row, later) <==> later >= now + delay * MICROS_PER_SECOND
    ensures HoldsLease(t, id, lease, now) ==> !RowEligible(MarkTables(t, id, lease, now).deliveries[id], later)
  {
    hide EncodedMessage.Valid;
  }

  // ---- Conservation ---------------------------------------------------------------------------

  function PendingIds(t: Tables): set<Uuid> {
    set id | id in t.deliveries && t.deliveries[id].publishedAt.None? && t.deliveries[id].leaseId.None?
  }

  function LeasedIds(t: Tables): set<Uuid> {
    set id | id in t.deliveries && t.deliveries[id].leaseId.Some?
  }

  function PublishedIds(t: Tables): set<Uuid> {
    set id | id in t.deliveries && t.deliveries[id].publishedAt.Some?
  }

  /** Every stored message is in exactly one delivery state. */
  lemma DeliveryStatesPartition(t: Tables)
    requires WellFormed(t)
    ensures |PendingIds(t)| + |LeasedIds(t)| + |PublishedIds(t)| == |t.messages|
  {
    hide EncodedMessage.Valid;
    var (pending, leased, published) := (PendingIds(t), LeasedIds(t), PublishedIds(t));
    EachRowInOneState(t);
    assert |pending + leased| == |pending| + |leased|;
    assert |pending + leased + published| == |pending + leased| + |published|;
    assert |t.messages| == |t.messages.Keys|;
  }

  lemma EachRowInOneState(t: Tables)
    requires WellFormed(t)
    ensures PendingIds(t) + LeasedIds(t) + PublishedIds(t) == t.messages.Keys
    ensures PendingIds(t) !! LeasedIds(t) && PendingIds(t) + LeasedIds(t) !! PublishedIds(t)
  {
    hide EncodedMessage.Valid;
    forall id | id in t.deliveries ensures RowWellFormed(t.deliveries[id]) {}
  }

  /** Which rows a claim takes, column by column: the first due ones by availability, creation and id. */
  lemma ClaimTakesTheFirstDue(t: Tables, now: int, batch: nat, locked: set<Uuid>, chosen: set<Uuid>, id: Uuid, other: Uuid)
    requires ClaimSelects(t, now, batch, locked, chosen) && id in chosen
    ensures |chosen| <= batch && id !in locked && id in t.messages && id in t.deliveries
    ensures var row := t.deliveries[id];
      row.publishedAt.None? && row.availableAt <= now && (row.leasedUntil.Some? ==> row.leasedUntil.value <= now)
    ensures
      && other in t.messages && other in t.deliveries && other !in locked && other !in chosen
      && t.deliveries[other].publishedAt.None? && t.deliveries[other].availableAt <= now
      && (t.deliveries[other].leasedUntil.Some? ==> t.deliveries[other].leasedUntil.value <= now)
      ==>
      && |chosen| == batch
      && var (a, b) := (t.deliveries[id].availableAt, t.deliveries[other].availableAt);
      var (c, d) := (t.messages[id].createdAt, t.messages[other].createdAt);
      a < b || (a == b && c < d) || (a == b && c == d && id < other)
  {
    var eligible := EligibleIds(t, now, locked);
    if other in eligible && other !in chosen {
      if |chosen| != batch { SmallerSubset(chosen, eligible); }
      assert other in eligible - chosen;
      assert Before(ClaimKeys(t)[id], ClaimKeys(t)[other]);
    }
  }
}
