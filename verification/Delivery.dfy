/**
 * One delivery through a worker: decode, header and subject checks, the route fence, the typed handler and
 * the inbox transaction. Platform and Cell workers differ only in their fences and their handlers.
 */
module Delivery {
  import opened Foundation
  import opened MessageDomain
  import opened OutboxStore
  import opened AuthorityDatabase
  import opened Routing
  import opened Grammar
  import opened Text

  /** What the worker computes from bytes alone: the envelope parse, the payload parse and the reply encoding. */
  datatype Codec = Codec(
    parse: Bytes -> Option<MessageMetadata>,
    payloadFits: (Bytes, ContractDescriptor) -> bool,
    replyBytes: (MessageMetadata, Bytes) -> Option<Bytes>)
  {
    ghost predicate Valid() { forall bytes :: parse(bytes).Some? ==> parse(bytes).value.Valid() }
  }

  /** A stream record as one durable consumer still sees it; `origin` is the publishing authority. */
  datatype BrokerItem = BrokerItem(
    origin: MessageAuthority,
    destination: MessageAuthority,
    stream: TransportStream,
    subject: string,
    headerId: Uuid,
    bytes: Bytes)

  /** `edtech.transport.<probe>.<word>`. */
  function ProbeName(probe: string, word: string): string {
    "edtech" + (['.'] + ("transport" + ['.'] + (probe + ['.'] + word)))
  }

  const CELL_PROBE_REQUESTED := ContractDescriptor(Command, ProbeName("cell-probe", "requested"), 1)
  const CELL_PROBE_OBSERVED := ContractDescriptor(Event, ProbeName("cell-probe", "observed"), 1)
  const PLATFORM_PROBE_REQUESTED := ContractDescriptor(Command, ProbeName("platform-probe", "requested"), 1)
  const PLATFORM_PROBE_OBSERVED := ContractDescriptor(Event, ProbeName("platform-probe", "observed"), 1)

  /** The contract a durable's handler accepts. */
  function HandledContract(authority: MessageAuthority, stream: TransportStream): ContractDescriptor {
    match (authority, stream)
    case (Cell(_), Commands) => CELL_PROBE_REQUESTED
    case (Cell(_), Events) => PLATFORM_PROBE_OBSERVED
    case (Platform, Commands) => PLATFORM_PROBE_REQUESTED
    case (Platform, Events) => CELL_PROBE_OBSERVED
  }

  function ReplyContract(authority: MessageAuthority): ContractDescriptor {
    if authority.Cell? then CELL_PROBE_OBSERVED else PLATFORM_PROBE_OBSERVED
  }

  /** The stable inbox identity of a durable's handler. */
  function HandlerName(authority: MessageAuthority, stream: TransportStream): string {
    match (authority, stream)
    case (Cell(_), Commands) => "cell.transport-cell-probe-requested-v1"
    case (Cell(_), Events) => "cell.transport-platform-probe-observed-v1"
    case (Platform, Commands) => "platform.transport-platform-probe-requested-v1"
    case (Platform, Events) => "platform.transport-cell-probe-observed-v1"
  }

  /** `valid_platform_to_cell_*` and `valid_cell_to_platform_*`. */
  predicate RouteFence(authority: MessageAuthority, stream: TransportStream, m: MessageMetadata) {
    && m.scope.TenantScope?
    && (if authority.Cell? then m.source.Platform? && m.scope.tenantCell == authority.cellId else m.source.Cell?)
    && m.target ==
      (if stream.Events? then None
       else if authority.Platform? then Some(PlatformTarget)
       else Some(CellTarget(authority.cellId)))
  }

  datatype Disposition =
    | Committed(outcome: InboxOutcome, db: Db, derived: Option<EncodedMessage>)
    | Nak(category: string)
    | Fatal

  predicate IsIntegrityError(error: DatabaseError) {
    error in {InboxConflict, IdentityConflict, Corruption}
  }

  /** `tenant_fence_category`: reported by Cell workers only. */
  function NakCategory(authority: MessageAuthority, error: DatabaseError): string {
    if authority.Platform? then "database.transient"
    else match error
      case WrongCell => "delivery.wrong-cell"
      case InvalidInboundTarget => "delivery.wrong-cell"
      case TenantAbsent => "delivery.tenant-absent"
      case TenantDisabled => "delivery.tenant-disabled"
      case StaleAssignmentEpoch => "delivery.stale-epoch"
      case _ => "database.transient"
  }

  function DecodeEnvelope(codec: Codec, bytes: Bytes): Option<EncodedMessage> {
    if !(2 <= |bytes| <= MAX_ENCODED_MESSAGE_BYTES) then None
    else
      var metadata :- codec.parse(bytes);
      Some(EncodedMessage(metadata, bytes))
  }

  /** The event a command handler derives, under the identity and time of this attempt. */
  function ReplyMetadata(authority: MessageAuthority, command: MessageMetadata, newId: Uuid, emittedAt: nat): MessageMetadata {
    MessageMetadata(newId, ReplyContract(authority), emittedAt, authority, command.scope, None,
      command.correlationId, Some(command.messageId))
  }

  /** The reply to this command cannot be constructed, encoded or bounded. */
  predicate ReplyFails(codec: Codec, authority: MessageAuthority, command: MessageMetadata, bytes: Bytes, newId: Uuid,
    emittedAt: nat)
  {
    var reply := ReplyMetadata(authority, command, newId, emittedAt);
    var encoded := codec.replyBytes(reply, bytes);
    reply.BrokenRule().Some? || encoded.None? || !(2 <= |encoded.value| <= MAX_ENCODED_MESSAGE_BYTES)
  }

  function Finish(authority: MessageAuthority, result: (Result<InboxOutcome, DatabaseError>, Db),
    derived: Option<EncodedMessage>): Disposition {
    match result.0
    case Success(outcome) => Committed(outcome, result.1, derived)
    case Failure(error) => if IsIntegrityError(error) then Fatal else Nak(NakCategory(authority, error))
  }

  /** `handle_*_command` and `handle_*_event`. */
  function Handle(codec: Codec, db: Db, stream: TransportStream, message: EncodedMessage, newId: Uuid, emittedAt: nat,
    now: int): Disposition {
    var (self, contract) := (db.authority, HandledContract(db.authority, stream));
    if !RouteFence(self, stream, message.metadata) then
      Nak(if self.Cell? then "delivery.wrong-cell" else "delivery.unsupported-contract")
    else if message.metadata.descriptor != contract || !codec.payloadFits(message.bytes, contract) then
      Nak("delivery.unsupported-contract")
    else if stream.Events? then
      Finish(self, RecordInboxAndEnqueue(db, WORKER_SESSION, HandlerName(self, stream), message, None, now), None)
    else
      var reply := ReplyMetadata(self, message.metadata, newId, emittedAt);
      var bytes := codec.replyBytes(reply, message.bytes);
      if ReplyFails(codec, self, message.metadata, message.bytes, newId, emittedAt) then Fatal
      else
        var derived := Some(EncodedMessage(reply, bytes.value));
        Finish(self, RecordInboxAndEnqueue(db, WORKER_SESSION, HandlerName(self, stream), message, derived, now), derived)
  }

  /** `process_delivery_inner`. */
  function ProcessDelivery(codec: Codec, db: Db, item: BrokerItem, newId: Uuid, emittedAt: nat, now: int): Disposition {
    match DecodeEnvelope(codec, item.bytes)
    case None => Nak("delivery.malformed-envelope")
    case Some(message) =>
      if item.headerId != message.Id() then Nak("delivery.header-mismatch")
      else if DeriveSubject(message.metadata) != Some(item.subject)
        || item.stream != StreamForKind(message.metadata.descriptor.kind) then Nak("delivery.subject-mismatch")
      else Handle(codec, db, item.stream, message, newId, emittedAt, now)
  }

  // ---- What a committed delivery did ----------------------------------------------------------

  /** The key of the one receipt this delivery can commit. */
  function ReceiptKeyOf(authority: MessageAuthority, item: BrokerItem): ReceiptKey {
    ReceiptKey(HandlerName(authority, item.stream), item.headerId)
  }

  /** The receipt is of exactly these bytes, and of what they parse to. */
  predicate ReceiptMatches(codec: Codec, row: ReceiptRow, bytes: Bytes) {
    && row.envelope == bytes && codec.parse(bytes).Some?
    && var d := codec.parse(bytes).value.descriptor;
    && row.name == d.name && row.schemaVersion == d.schemaVersion && row.kind == d.kind
  }

  /** The whole effect of a first receipt: one receipt row and, for a command, one derived outbox row. */
  predicate FirstCommit(codec: Codec, before: Db, item: BrokerItem, now: int, after: Db, derived: Option<EncodedMessage>) {
    var key := ReceiptKeyOf(before.authority, item);
    && codec.parse(item.bytes).Some?
    && key !in before.tables.receipts
    && key in after.tables.receipts
    && ReceiptMatches(codec, after.tables.receipts[key], item.bytes)
    && after == before.(tables := after.tables)
    && after.tables.receipts == before.tables.receipts[key := after.tables.receipts[key]]
    && after.tables.messages ==
      (if derived.None? then before.tables.messages
       else EnqueueTables(before.tables, derived.value, now).messages)
    && after.tables.deliveries ==
      (if derived.None? then before.tables.deliveries
       else EnqueueTables(before.tables, derived.value, now).deliveries)
    && (derived.Some? ==> EnqueueResult(before.tables, derived.value).Success?)
  }

  predicate RepeatCommit(codec: Codec, before: Db, item: BrokerItem, after: Db) {
    var key := ReceiptKeyOf(before.authority, item);
    after == before && key in before.tables.receipts && ReceiptMatches(codec, before.tables.receipts[key], item.bytes)
  }

  lemma InboxTransaction(db: Db, consumer: string, inbound: EncodedMessage, derived: Option<EncodedMessage>, now: int)
    ensures var (r, after) := RecordInboxAndEnqueue(db, WORKER_SESSION, consumer, inbound, derived, now);
      var key := ReceiptKey(consumer, inbound.Id());
      && (r == Success(FirstReceipt) ==>
        && key !in db.tables.receipts
        && after.tables.receipts == db.tables.receipts[key := ReceiptOf(inbound, now)]
        && after == db.(tables := after.tables)
        && (derived.None? ==> after.tables.messages == db.tables.messages && after.tables.deliveries == db.tables.deliveries)
        && (derived.Some? ==>
          && EnqueueResult(db.tables, derived.value).Success?
          && after.tables.messages == EnqueueTables(db.tables, derived.value, now).messages
          && after.tables.deliveries == EnqueueTables(db.tables, derived.value, now).deliveries
          && OutboundFence(db.authority, derived.value).None?))
      && (r == Success(DuplicateReceipt) ==>
        after == db && key in db.tables.receipts
        && db.tables.receipts[key].(processedAt := 0) == ReceiptOf(inbound, 0))
      && (r.Failure? ==> after == db)
      && (r.Success? && db.authority.Cell? ==>
        TenantFence(db.authority, db.tenants, inbound.metadata.scope).None?)
  {
  }

  /** A delivery commits its own first receipt with its derived row, or finds that receipt already there. */
  lemma DeliveryEffect(codec: Codec, db: Db, item: BrokerItem, newId: Uuid, emittedAt: nat, now: int)
    requires ProcessDelivery(codec, db, item, newId, emittedAt, now).Committed?
    ensures var d := ProcessDelivery(codec, db, item, newId, emittedAt, now);
      && (if d.outcome.FirstReceipt? then FirstCommit(codec, db, item, now, d.db, d.derived)
          else RepeatCommit(codec, db, item, d.db))
      && d.derived.Some? == item.stream.Commands?
      && codec.parse(item.bytes).Some?
      && var inbound := codec.parse(item.bytes).value;
      && inbound.messageId == item.headerId && inbound.scope.TenantScope?
      && (db.authority.Cell? ==>
        && inbound.scope.tenantCell == db.authority.cellId
        && TenantStatus(db.tenants, inbound.scope.tenantId, inbound.scope.assignmentEpoch).None?)
      && (d.derived.Some? ==>
        && d.derived.value.metadata == ReplyMetadata(db.authority, inbound, newId, emittedAt)
        && codec.replyBytes(d.derived.value.metadata, item.bytes) == Some(d.derived.value.bytes)
        && d.derived.value.metadata.BrokenRule().None?
        && 2 <= |d.derived.value.bytes| <= MAX_ENCODED_MESSAGE_BYTES)
      && (d.derived.Some? && d.outcome.FirstReceipt? ==> OutboundFence(db.authority, d.derived.value).None?)
  {
    hide DeriveSubject, RecordInboxAndEnqueue, EnqueueTables, EnqueueResult, MessageMetadata.BrokenRule, HandlerName,
      HandledContract, IsIntegrityError, NakCategory;
    var message := DecodeEnvelope(codec, item.bytes).value;
    var name := HandlerName(db.authority, item.stream);
    if item.stream.Events? {
      InboxTransaction(db, name, message, None, now);
    } else {
      var reply := ReplyMetadata(db.authority, message.metadata, newId, emittedAt);
      var derived := Some(EncodedMessage(reply, codec.replyBytes(reply, message.bytes).value));
      InboxTransaction(db, name, message, derived, now);
    }
  }

  // ---- The contracts are well formed ----------------------------------------------------------

  lemma FourParts(a: string, b: string, c: string)
    requires '.' !in a && '.' !in b && '.' !in c
    ensures Split("edtech" + (['.'] + (a + ['.'] + (b + ['.'] + c))), '.') == ["edtech", a, b, c]
  {
    hide Split;
    var tail := b + ['.'] + c;
    var rest := a + ['.'] + tail;
    assert "edtech" + (['.'] + rest) == "edtech" + ['.'] + rest;
    SplitConcat("edtech", rest, '.');
    SplitConcat(a, tail, '.');
    SplitConcat(b, c, '.');
    SplitPlain("edtech", '.');
    SplitPlain(a, '.');
    SplitPlain(b, '.');
    SplitPlain(c, '.');
  }

  lemma SegmentText(segment: string)
    requires NameSegment(segment)
    ensures '.' !in segment && IsAscii(segment) && 1 <= |segment| <= 40
  {
  }

  lemma JoinedAscii(a: string, b: string, c: string)
    requires IsAscii(a) && IsAscii(b) && IsAscii(c)
    ensures IsAscii("edtech" + (['.'] + (a + ['.'] + (b + ['.'] + c))))
  {
    assert IsAscii(b + ['.'] + c);
    assert IsAscii(a + ['.'] + (b + ['.'] + c));
  }

  lemma PrefixOf(rest: string)
    ensures StartsWith("edtech" + (['.'] + rest), NAME_PREFIX)
  {
    assert ("edtech" + (['.'] + rest))[..7] == "edtech" + ['.'];
  }

  lemma EdtechSegment()
    ensures NameSegment("edtech")
  {
  }

  /** A name of four plain words passes the name grammar. */
  lemma FourWords(a: string, b: string, c: string)
    requires NameSegment(a) && NameSegment(b) && NameSegment(c) && !IsVersionSuffix(c)
    ensures ValidMessageName("edtech" + (['.'] + (a + ['.'] + (b + ['.'] + c))))
  {
    hide NameSegment, IsVersionSuffix, Split, StartsWith, Utf8Length, IsAscii;
    var tail := b + ['.'] + c;
    var rest := a + ['.'] + tail;
    var name := "edtech" + (['.'] + rest);
    SegmentText(a);
    SegmentText(b);
    SegmentText(c);
    FourParts(a, b, c);
    JoinedAscii(a, b, c);
    AsciiLength(name);
    PrefixOf(rest);
    EdtechSegment();
  }

  lemma ProbeWords()
    ensures NameSegment("transport") && NameSegment("cell-probe") && NameSegment("platform-probe")
    ensures NameSegment("requested") && NameSegment("observed")
    ensures !IsVersionSuffix("requested") && !IsVersionSuffix("observed")
  {
    assert "requested"[0] == 'r' && "observed"[0] == 'o';
    assert "v"[0] == 'v' && "version-"[0] == 'v';
  }

  lemma ProbeContractsValid()
    ensures CELL_PROBE_REQUESTED.Valid() && CELL_PROBE_OBSERVED.Valid()
    ensures PLATFORM_PROBE_REQUESTED.Valid() && PLATFORM_PROBE_OBSERVED.Valid()
  {
    hide NewMessageName, NameSegment, IsVersionSuffix;
    ProbeWords();
    FourWords("transport", "cell-probe", "requested");
    FourWords("transport", "cell-probe", "observed");
    FourWords("transport", "platform-probe", "requested");
    FourWords("transport", "platform-probe", "observed");
  }

  lemma ReplyComponentsValid(authority: MessageAuthority, command: MessageMetadata, newId: Uuid, emittedAt: nat)
    requires authority.Valid() && command.Valid() && IsUuidV7(newId) && ValidEmittedAt(emittedAt)
    ensures ReplyMetadata(authority, command, newId, emittedAt).ComponentsValid()
  {
    hide ContractDescriptor.Valid, MessageScope.Valid;
    ProbeContractsValid();
  }
}
