/**
 * The `CHECK` constraints of the two outbox message tables, in the three-valued logic of SQL, against the
 * constructors: what is enqueued passes them, and what passes them is nearly all that reads back.
 */
module TableChecks {
  import opened Foundation
  import opened Grammar
  import opened MessageDomain
  import opened MessageNames
  import opened OutboxStore
  import opened AuthorityDatabase
  import opened Rows

  // ---- Three-valued logic ---------------------------------------------------------------------

  datatype Truth = Yes | No | Unknown

  function Of(b: bool): Truth { if b then Yes else No }

  function And(a: Truth, b: Truth): Truth {
    if a.No? || b.No? then No else if a.Yes? && b.Yes? then Yes else Unknown
  }

  function Or(a: Truth, b: Truth): Truth {
    if a.Yes? || b.Yes? then Yes else if a.No? && b.No? then No else Unknown
  }

  function Equal<T(==)>(a: Option<T>, b: Option<T>): Truth {
    if a.None? || b.None? then Unknown else Of(a.value == b.value)
  }

  function Differ<T(==)>(a: Option<T>, b: Option<T>): Truth {
    if a.None? || b.None? then Unknown else Of(a.value != b.value)
  }

  function IsNull<T>(a: Option<T>): Truth { Of(a.None?) }

  function NotNull<T>(a: Option<T>): Truth { Of(a.Some?) }

  function OneOf(a: Option<string>, values: set<string>): Truth { if a.None? then Unknown else Of(a.value in values) }

  /** A check is violated only by a definite no. */
  predicate Passes(t: Truth) { !t.No? }

  // ---- Columns --------------------------------------------------------------------------------

  /** The variant bits of the standard: the top two bits of the ninth octet are `10`. */
  predicate StandardVariant(id: Uuid) { id / 0x4000_0000_0000_0000 % 4 == 2 }

  /** `uuid_extract_version`: null for other variants. */
  function ExtractVersion(id: Uuid): Option<nat> { if StandardVariant(id) then Some(UuidVersion(id)) else None }

  function IsVersion7(id: Uuid): Truth { Equal(ExtractVersion(id), Some(7)) }

  ghost predicate CellIdColumn(cell: Option<string>) { cell.Some? ==> StoredCellId(cell.value) }

  /** The checks that both tables share, one column or column pair at a time. */
  ghost predicate CommonChecks(row: MessageRow) {
    && Passes(IsVersion7(row.messageId))
    && row.messageKind in {"command", "event"}
    && StoredMessageName(row.messageName)
    && 1 <= row.schemaVersion <= 65_535
    && row.emittedAt >= 0
    && (row.tenantId.Some? ==> Passes(IsVersion7(row.tenantId.value)))
    && (row.assignmentEpoch.Some? ==> ValidEpoch(row.assignmentEpoch.value))
    && Passes(OneOf(row.targetKind, {"platform", "cell"}))
    && Passes(IsVersion7(row.correlationId))
    && (row.causationId.Some? ==> Passes(And(IsVersion7(row.causationId.value), Of(row.causationId.value != row.messageId))))
    && 2 <= |row.envelope| <= MAX_ENCODED_MESSAGE_BYTES
    && Passes(Or(
      And(Of(row.messageKind == "command"), NotNull(row.targetKind)),
      And(Of(row.messageKind == "event"), And(IsNull(row.targetKind), IsNull(row.targetCell)))))
    && CellIdColumn(row.sourceCell) && CellIdColumn(row.scopeCell) && CellIdColumn(row.targetCell)
  }

  ghost predicate PlatformChecks(row: MessageRow) {
    && CommonChecks(row)
    && row.sourceKind in {"platform", "cell"}
    && row.scopeKind in {"platform", "cell", "tenant"}
    && Passes(Or(
      And(Of(row.sourceKind == "platform"), IsNull(row.sourceCell)),
      And(Of(row.sourceKind == "cell"), NotNull(row.sourceCell))))
    && Passes(Or(Or(
      And(Of(row.scopeKind == "platform"), And(IsNull(row.scopeCell), And(IsNull(row.tenantId), IsNull(row.assignmentEpoch)))),
      And(Of(row.scopeKind == "cell"), And(NotNull(row.scopeCell), And(IsNull(row.tenantId), IsNull(row.assignmentEpoch))))),
      And(Of(row.scopeKind == "tenant"), And(NotNull(row.scopeCell), And(NotNull(row.tenantId), NotNull(row.assignmentEpoch))))))
    && Passes(Or(Or(
      IsNull(row.targetKind),
      And(Equal(row.targetKind, Some("platform")), IsNull(row.targetCell))),
      And(Equal(row.targetKind, Some("cell")), NotNull(row.targetCell))))
    && Passes(Or(
      Of(row.sourceKind != "cell"),
      And(Of(row.scopeKind in {"cell", "tenant"}), Equal(row.sourceCell, row.scopeCell))))
    && Passes(Or(
      Differ(row.targetKind, Some("cell")),
      And(Of(row.scopeKind in {"cell", "tenant"}), Equal(row.targetCell, row.scopeCell))))
  }

  ghost predicate CellChecks(row: MessageRow) {
    && CommonChecks(row)
    && row.sourceKind == "cell" && row.sourceCell.Some?
    && row.scopeKind in {"cell", "tenant"} && row.scopeCell.Some?
    && Passes(Or(
      And(Of(row.scopeKind == "cell"), And(IsNull(row.tenantId), IsNull(row.assignmentEpoch))),
      And(Of(row.scopeKind == "tenant"), And(NotNull(row.tenantId), NotNull(row.assignmentEpoch)))))
    && Passes(Equal(row.sourceCell, row.scopeCell))
    && Passes(Or(Or(
      IsNull(row.targetKind),
      And(Equal(row.targetKind, Some("platform")), IsNull(row.targetCell))),
      And(Equal(row.targetKind, Some("cell")), Equal(row.targetCell, row.scopeCell))))
  }

  ghost predicate TableChecks(at: MessageAuthority, row: MessageRow) {
    if at.Platform? then PlatformChecks(row) else CellChecks(row)
  }

  // ---- What the checks leave open -------------------------------------------------------------

  /** Every identity column has version 7, whatever its variant bits are. */
  predicate AllVersion7(row: MessageRow) {
    && IsUuidV7(row.messageId) && IsUuidV7(row.correlationId)
    && (row.tenantId.Some? ==> IsUuidV7(row.tenantId.value)) && (row.causationId.Some? ==> IsUuidV7(row.causationId.value))
  }

  predicate BeforeYear10000(emittedAt: int) { emittedAt < SECONDS_TO_YEAR_10000 * MICROS_PER_SECOND }

  /** What a row must have besides the checks to read back. */
  predicate BeyondChecks(row: MessageRow) {
    && AllVersion7(row) && BeforeYear10000(row.emittedAt)
    && (row.targetKind == Some("cell") ==> row.targetCell.Some?)
  }

  // ---- Parts of a row -------------------------------------------------------------------------

  lemma DescriptorAgrees(row: MessageRow)
    ensures DescriptorFromRow(row).Success? <==>
      row.messageKind in {"command", "event"} && StoredMessageName(row.messageName) && 1 <= row.schemaVersion <= 65_535
  {
    hide NewMessageName, StoredMessageName;
    MessageNameMatchesTable(row.messageName);
  }

  lemma EpochAgrees(epoch: nat)
    ensures EpochFromText(EpochText(epoch)).Success? <==> ValidEpoch(epoch)
    ensures ValidEpoch(epoch) ==> EpochFromText(EpochText(epoch)).value == epoch
  {
    Decimal.ValueOfPrint(epoch);
    assert Decimal.Unsigned(Decimal.Print(epoch)) == Decimal.Print(epoch);
  }

  lemma EmittedAtAgrees(emittedAt: int)
    ensures NewEmittedAt(emittedAt * 1000).Success? <==> emittedAt >= 0 && BeforeYear10000(emittedAt)
  {
  }

  /** The scope columns as the two tables describe them together. */
  ghost predicate ScopeShape(row: MessageRow) {
    match row.scopeKind
    case "platform" => row.scopeCell.None? && row.tenantId.None? && row.assignmentEpoch.None?
    case "cell" => row.scopeCell.Some? && row.tenantId.None? && row.assignmentEpoch.None?
    case "tenant" => row.scopeCell.Some? && row.tenantId.Some? && row.assignmentEpoch.Some?
    case _ => false
  }

  lemma ScopeAgrees(row: MessageRow)
    ensures ScopeFromRow(row).Success? <==>
      && ScopeShape(row) && CellIdColumn(row.scopeCell)
      && (row.tenantId.Some? ==> IsUuidV7(row.tenantId.value))
      && (row.assignmentEpoch.Some? ==> ValidEpoch(row.assignmentEpoch.value))
    ensures ScopeFromRow(row).Success? ==>
      ScopeFromRow(row).value.CellOf() == row.scopeCell && (ScopeFromRow(row).value.PlatformScope? <==> row.scopeKind == "platform")
  {
    hide EpochFromText, EpochText, NewCellId, StoredCellId, IsUuidV7, ValidEpoch;
    if row.scopeCell.Some? { CellIdMatchesTable(row.scopeCell.value); }
    if row.assignmentEpoch.Some? { EpochAgrees(row.assignmentEpoch.value); }
  }

  lemma SourceAgrees(row: MessageRow)
    ensures SourceFromRow(row).Success? <==>
      && CellIdColumn(row.sourceCell)
      && ((row.sourceKind == "platform" && row.sourceCell.None?) || (row.sourceKind == "cell" && row.sourceCell.Some?))
    ensures SourceFromRow(row).Success? ==>
      SourceFromRow(row).value == if row.sourceKind == "platform" then Platform else Cell(row.sourceCell.value)
  {
    hide NewCellId, StoredCellId;
    if row.sourceCell.Some? { CellIdMatchesTable(row.sourceCell.value); }
  }

  lemma TargetAgrees(row: MessageRow)
    ensures TargetFromRow(row).Success? <==>
      && CellIdColumn(row.targetCell)
      && ((row.targetKind.None? && row.targetCell.None?) || (row.targetKind == Some("platform") && row.targetCell.None?)
        || (row.targetKind == Some("cell") && row.targetCell.Some?))
    ensures TargetFromRow(row).Success? ==>
      TargetFromRow(row).value ==
        match row.targetKind
        case None => None
        case Some(kind) => if kind == "platform" then Some(PlatformTarget) else Some(CellTarget(row.targetCell.value))
  {
    hide NewCellId, StoredCellId;
    if row.targetCell.Some? { CellIdMatchesTable(row.targetCell.value); }
  }

  /** The parts of a row that each read back on their own. */
  predicate PartsRead(row: MessageRow) {
    && IsUuidV7(row.messageId) && IsUuidV7(row.correlationId) && (row.causationId.Some? ==> IsUuidV7(row.causationId.value))
    && DescriptorFromRow(row).Success? && NewEmittedAt(row.emittedAt * 1000).Success?
    && SourceFromRow(row).Success? && ScopeFromRow(row).Success? && TargetFromRow(row).Success?
    && 2 <= |row.envelope| <= MAX_ENCODED_MESSAGE_BYTES
  }

  /** The cross-field rules, on columns. */
  predicate RulesHold(row: MessageRow) {
    && (row.messageKind == "command" ==> row.targetKind.Some?)
    && (row.messageKind == "event" ==> row.targetKind.None?)
    && row.causationId != Some(row.messageId)
    && (row.sourceKind == "cell" ==> row.scopeKind != "platform" && row.scopeCell == row.sourceCell)
    && (row.targetKind == Some("cell") ==> row.scopeCell == row.targetCell)
  }

  lemma ReadsIffPartsAndRules(row: MessageRow)
    ensures MessageFromRow(row).Success? <==> PartsRead(row) && RulesHold(row)
  {
    hide DescriptorFromRow, NewEmittedAt, SourceFromRow, ScopeFromRow, TargetFromRow, IsUuidV7, MessageMetadata.BrokenRule;
    SourceAgrees(row);
    ScopeAgrees(row);
    TargetAgrees(row);
    if PartsRead(row) {
      KindIs(row);
      var candidate := MessageMetadata(row.messageId, DescriptorFromRow(row).value, NewEmittedAt(row.emittedAt * 1000).value,
        SourceFromRow(row).value, ScopeFromRow(row).value, TargetFromRow(row).value, row.correlationId, row.causationId);
      RulesOnColumns(row, candidate);
    }
  }

  lemma KindIs(row: MessageRow)
    requires DescriptorFromRow(row).Success?
    ensures row.messageKind == KindText(DescriptorFromRow(row).value.kind)
  {
    hide NewMessageName;
  }

  lemma RulesOnColumns(row: MessageRow, m: MessageMetadata)
    requires row.messageKind == KindText(m.descriptor.kind) && m.messageId == row.messageId && m.causationId == row.causationId
    requires m.scope.CellOf() == row.scopeCell && (m.scope.PlatformScope? <==> row.scopeKind == "platform")
    requires (row.sourceKind == "platform" && m.source == Platform)
      || (row.sourceKind == "cell" && row.sourceCell.Some? && m.source == Cell(row.sourceCell.value))
    requires (row.targetKind == None && m.target == None) || (row.targetKind == Some("platform") && m.target == Some(PlatformTarget))
      || (row.targetKind == Some("cell") && row.targetCell.Some? && m.target == Some(CellTarget(row.targetCell.value)))
    ensures m.BrokenRule().None? <==> RulesHold(row)
  {
  }

  // ---- The theorems ---------------------------------------------------------------------------

  lemma PlatformParts(row: MessageRow)
    ensures PlatformChecks(row) && BeyondChecks(row) <==> PlatformChecks(row) && PartsRead(row) && RulesHold(row)
    ensures PartsRead(row) && RulesHold(row) ==> PlatformChecks(row)
  {
    hide DescriptorFromRow, NewEmittedAt, SourceFromRow, ScopeFromRow, TargetFromRow, IsUuidV7, StoredMessageName, BeforeYear10000,
      StoredCellId, ExtractVersion, ValidEpoch;
    DescriptorAgrees(row);
    EmittedAtAgrees(row.emittedAt);
    SourceAgrees(row);
    ScopeAgrees(row);
    TargetAgrees(row);
    VersionsPass(row);
  }

  /** An identity of version 7 passes its check under every variant. */
  lemma VersionsPass(row: MessageRow)
    ensures IsUuidV7(row.messageId) ==> Passes(IsVersion7(row.messageId))
    ensures IsUuidV7(row.correlationId) ==> Passes(IsVersion7(row.correlationId))
    ensures row.tenantId.Some? && IsUuidV7(row.tenantId.value) ==> Passes(IsVersion7(row.tenantId.value))
    ensures row.causationId.Some? && IsUuidV7(row.causationId.value) ==> Passes(IsVersion7(row.causationId.value))
  {
  }

  /** The Platform table's checks leave open exactly the identity versions of odd variants and the far future. */
  lemma PlatformRowsReadIff(row: MessageRow)
    requires PlatformChecks(row)
    ensures MessageFromRow(row).Success? <==> BeyondChecks(row)
  {
    hide PlatformChecks, BeyondChecks, PartsRead, RulesHold, MessageFromRow;
    ReadsIffPartsAndRules(row);
    PlatformParts(row);
  }

  lemma CellParts(row: MessageRow)
    ensures CellChecks(row) && BeyondChecks(row) <==> CellChecks(row) && PartsRead(row) && RulesHold(row)
    ensures PartsRead(row) && RulesHold(row) && row.sourceKind == "cell" ==> CellChecks(row)
  {
    hide DescriptorFromRow, NewEmittedAt, SourceFromRow, ScopeFromRow, TargetFromRow, IsUuidV7, StoredMessageName, BeforeYear10000,
      StoredCellId, ExtractVersion, ValidEpoch;
    DescriptorAgrees(row);
    EmittedAtAgrees(row.emittedAt);
    SourceAgrees(row);
    ScopeAgrees(row);
    TargetAgrees(row);
    VersionsPass(row);
  }

  /** The Cell table's checks leave open the same, and a target Cell that is null. */
  lemma CellRowsReadIff(row: MessageRow)
    requires CellChecks(row)
    ensures MessageFromRow(row).Success? <==> BeyondChecks(row)
  {
    hide CellChecks, BeyondChecks, PartsRead, RulesHold, MessageFromRow;
    ReadsIffPartsAndRules(row);
    CellParts(row);
  }

  /** What an authority may enqueue never violates a check of its own outbox table. */
  lemma EnqueuedRowsPassChecks(at: MessageAuthority, message: EncodedMessage, createdAt: int)
    requires message.Valid() && OutboundFence(at, message).None?
    ensures TableChecks(at, RowOf(message, createdAt))
  {
    hide MessageFromRow, PartsRead, RulesHold, PlatformChecks, CellChecks, EncodedMessage.Valid;
    var row := RowOf(message, createdAt);
    RowRoundTrip(message, createdAt);
    ReadsIffPartsAndRules(row);
    PlatformParts(row);
    CellParts(row);
  }

  /** A null target Cell slips through the Cell table: the comparison is unknown, which is not a violation. */
  lemma NullTargetPassesCellTable(row: MessageRow)
    requires CellChecks(row) && row.targetKind == Some("cell")
    ensures CellChecks(row.(targetCell := None)) && MessageFromRow(row.(targetCell := None)).Failure?
    ensures !PlatformChecks(row.(targetCell := None))
  {
    hide StoredMessageName, IsVersion7, StoredCellId;
    CellRowsReadIff(row.(targetCell := None));
  }
}
