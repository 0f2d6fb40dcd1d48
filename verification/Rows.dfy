/** The column form of a stored message and its closed conversion back. */
module Rows {
  import opened Foundation
  import opened Grammar
  import opened MessageDomain
  import opened OutboxStore
  import Decimal

  datatype MessageRow = MessageRow(
    messageId: Uuid,
    messageKind: string,
    messageName: string,
    schemaVersion: int,
    emittedAt: int,
    sourceKind: string,
    sourceCell: Option<string>,
    scopeKind: string,
    scopeCell: Option<string>,
    tenantId: Option<Uuid>,
    assignmentEpoch: Option<nat>,
    targetKind: Option<string>,
    targetCell: Option<string>,
    correlationId: Uuid,
    causationId: Option<Uuid>,
    envelope: Bytes,
    createdAt: int)

  function KindText(kind: MessageKind): string {
    match kind
    case Command => "command"
    case Event => "event"
  }

  /** `u32::cast_signed`. */
  function CastSigned(value: nat): int { if value < 0x8000_0000 then value else value - 0x1_0000_0000 }

  /** The text of an epoch bound as `numeric` and the column read back as `text`. */
  function EpochColumn(text: string): nat
    requires Text.AllDigits(text)
  { Decimal.Value(text) }

  function EpochText(column: nat): string { Decimal.Print(column) }

  /** `DatabaseMetadata::from_message` and the insert that binds it. */
  function RowOf(message: EncodedMessage, createdAt: int): MessageRow {
    var m := message.metadata;
    MessageRow(
      messageId := m.messageId,
      messageKind := KindText(m.descriptor.kind),
      messageName := m.descriptor.name,
      schemaVersion := CastSigned(m.descriptor.schemaVersion),
      emittedAt := m.emittedAt,
      sourceKind := if m.source.Platform? then "platform" else "cell",
      sourceCell := if m.source.Platform? then None else Some(m.source.cellId),
      scopeKind := (match m.scope case PlatformScope => "platform" case CellScope(_) => "cell" case TenantScope(_, _, _) => "tenant"),
      scopeCell := m.scope.CellOf(),
      tenantId := if m.scope.TenantScope? then Some(m.scope.tenantId) else None,
      assignmentEpoch := if m.scope.TenantScope? then Some(EpochColumn(Decimal.Print(m.scope.assignmentEpoch))) else None,
      targetKind := (match m.target
        case None => None
        case Some(PlatformTarget) => Some("platform")
        case Some(CellTarget(_)) => Some("cell")),
      targetCell := (match m.target case Some(CellTarget(cell)) => Some(cell) case _ => None),
      correlationId := m.correlationId,
      causationId := m.causationId,
      envelope := message.bytes,
      createdAt := createdAt)
  }

  function NewUuidV7(value: Uuid): Result<Uuid, StoreError> {
    if IsUuidV7(value) then Success(value) else Failure(InvalidStoredValue)
  }

  function StoredCell(value: string): Result<string, StoreError> {
    if NewCellId(value).Success? then Success(value) else Failure(InvalidStoredValue)
  }

  /** `assignment_epoch_from_database_text`. */
  function EpochFromText(text: string): Result<nat, StoreError> {
    match Decimal.ParseU64(text)
    case Some(value) => if value != 0 then Success(value) else Failure(InvalidStoredValue)
    case None => Failure(InvalidStoredValue)
  }

  function KindFromText(text: string): Result<MessageKind, StoreError> {
    if text == "command" then Success(Command)
    else if text == "event" then Success(Event)
    else Failure(InvalidStoredValue)
  }

  function SourceFromRow(row: MessageRow): Result<MessageAuthority, StoreError> {
    if row.sourceKind == "platform" && row.sourceCell.None? then Success(Platform)
    else if row.sourceKind == "cell" && row.sourceCell.Some? then
      var cell :- StoredCell(row.sourceCell.value);
      Success(Cell(cell))
    else Failure(InvalidStoredValue)
  }

  function ScopeFromRow(row: MessageRow): Result<MessageScope, StoreError> {
    if row.scopeKind == "platform" && row.scopeCell.None? && row.tenantId.None? && row.assignmentEpoch.None? then
      Success(PlatformScope)
    else if row.scopeKind == "cell" && row.scopeCell.Some? && row.tenantId.None? && row.assignmentEpoch.None? then
      var cell :- StoredCell(row.scopeCell.value);
      Success(CellScope(cell))
    else if row.scopeKind == "tenant" && row.scopeCell.Some? && row.tenantId.Some? && row.assignmentEpoch.Some? then
      var epoch :- EpochFromText(EpochText(row.assignmentEpoch.value));
      var tenant :- NewUuidV7(row.tenantId.value);
      var cell :- StoredCell(row.scopeCell.value);
      Success(TenantScope(tenant, cell, epoch))
    else Failure(InvalidStoredValue)
  }

  function TargetFromRow(row: MessageRow): Result<Option<MessageTarget>, StoreError> {
    if row.targetKind.None? && row.targetCell.None? then Success(None)
    else if row.targetKind == Some("platform") && row.targetCell.None? then Success(Some(PlatformTarget))
    else if row.targetKind == Some("cell") && row.targetCell.Some? then
      var cell :- StoredCell(row.targetCell.value);
      Success(Some(CellTarget(cell)))
    else Failure(InvalidStoredValue)
  }

  function DescriptorFromRow(row: MessageRow): Result<ContractDescriptor, StoreError> {
    var kind :- KindFromText(row.messageKind);
    if NewMessageName(row.messageName).Failure? then Failure(InvalidStoredValue)
    else if !(1 <= row.schemaVersion <= 65_535) then Failure(InvalidStoredValue)
    else Success(ContractDescriptor(kind, row.messageName, row.schemaVersion))
  }

  /** `message_from_row`. */
  function MessageFromRow(row: MessageRow): (r: Result<EncodedMessage, StoreError>)
    ensures r.Failure? ==> r.error == InvalidStoredValue
    ensures r.Success? ==> r.value.Id() == row.messageId
  {
    var id :- NewUuidV7(row.messageId);
    var descriptor :- DescriptorFromRow(row);
    var emittedAt := NewEmittedAt(row.emittedAt * 1000);
    if emittedAt.Failure? then Failure(InvalidStoredValue) else
    var source :- SourceFromRow(row);
    var scope :- ScopeFromRow(row);
    var target :- TargetFromRow(row);
    var correlation :- NewUuidV7(row.correlationId);
    if row.causationId.Some? && !IsUuidV7(row.causationId.value) then Failure(InvalidStoredValue) else
    var candidate := MessageMetadata(id, descriptor, emittedAt.value, source, scope, target, correlation, row.causationId);
    if candidate.BrokenRule().Some? then Failure(InvalidStoredValue)
    else if !(2 <= |row.envelope| <= MAX_ENCODED_MESSAGE_BYTES) then Failure(InvalidStoredValue)
    else Success(EncodedMessage(candidate, row.envelope))
  }

  lemma ScopeColumns(message: EncodedMessage, createdAt: int)
    requires message.metadata.scope.Valid()
    ensures ScopeFromRow(RowOf(message, createdAt)) == Success(message.metadata.scope)
  {
    var scope := message.metadata.scope;
    if scope.TenantScope? {
      Decimal.ValueOfPrint(scope.assignmentEpoch);
      Decimal.ParsePrint(scope.assignmentEpoch);
      CellIdAccepts(scope.tenantCell);
    } else if scope.CellScope? {
      CellIdAccepts(scope.scopeCell);
    }
  }

  lemma AuthorityColumns(message: EncodedMessage, createdAt: int)
    requires message.metadata.source.Valid()
    requires message.metadata.target.Some? ==> message.metadata.target.value.Valid()
    ensures SourceFromRow(RowOf(message, createdAt)) == Success(message.metadata.source)
    ensures TargetFromRow(RowOf(message, createdAt)) == Success(message.metadata.target)
  {
    if message.metadata.source.Cell? { CellIdAccepts(message.metadata.source.cellId); }
    match message.metadata.target
    case Some(CellTarget(cell)) => CellIdAccepts(cell);
    case _ =>
  }

  /** A stored message reads back unchanged: every scope, the whole `u64` epoch range, microsecond time. */
  lemma RowRoundTrip(message: EncodedMessage, createdAt: int)
    requires message.Valid()
    ensures MessageFromRow(RowOf(message, createdAt)) == Success(message)
  {
    hide ScopeFromRow, SourceFromRow, TargetFromRow, Decimal.Print, MessageMetadata.BrokenRule, IsUuidV7;
    ScopeColumns(message, createdAt);
    AuthorityColumns(message, createdAt);
    assert DescriptorFromRow(RowOf(message, createdAt)) == Success(message.metadata.descriptor);
  }

  lemma ScopeReadsItsColumns(row: MessageRow, message: EncodedMessage)
    requires ScopeFromRow(row) == Success(message.metadata.scope)
    ensures message.metadata.scope.Valid()
    ensures var again := RowOf(message, row.createdAt);
      && again.scopeKind == row.scopeKind && again.scopeCell == row.scopeCell
      && again.tenantId == row.tenantId && again.assignmentEpoch == row.assignmentEpoch
  {
    if row.scopeCell.Some? { CellIdAccepts(row.scopeCell.value); }
    if row.assignmentEpoch.Some? { Decimal.ValueOfPrint(row.assignmentEpoch.value); }
  }

  /** And conversely: whatever row reads as a message is exactly the row that message would be stored as. */
  lemma RowIsDetermined(row: MessageRow)
    requires MessageFromRow(row).Success?
    ensures MessageFromRow(row).value.Valid()
    ensures RowOf(MessageFromRow(row).value, row.createdAt) == row
  {
    var message := MessageFromRow(row).value;
    ScopeReadsItsColumns(row, message);
    if row.sourceCell.Some? { CellIdAccepts(row.sourceCell.value); }
    if row.targetCell.Some? { CellIdAccepts(row.targetCell.value); }
  }
}
