/**
 * Message identities, authorities, scopes and the cross-field rules of envelope metadata. In the Rust crates
 * the fields are private and only the constructors fill them, so `Valid()` is the type invariant.
 */
module MessageDomain {
  import opened Foundation
  import opened Grammar

  // ---- Identities -----------------------------------------------------------------------------

  const UUID_LIMIT: nat := 0x1_0000_0000_0000_0000_0000_0000_0000_0000

  /** A 128-bit identity; database and Rust order both compare its bytes, which is its value order. */
  type Uuid = nat

  /** `Uuid::get_version_num`: the thirteenth of the 32 hexadecimal digits. */
  function UuidVersion(id: Uuid): nat { id / 0x1000_0000_0000_0000_0000 % 16 }

  predicate IsUuidV7(id: Uuid) { id < UUID_LIMIT && UuidVersion(id) == 7 }

  lemma IdentityBound(id: Uuid)
    requires IsUuidV7(id)
    ensures id < UUID_LIMIT
  {
  }

  // ---- Tenancy --------------------------------------------------------------------------------

  datatype AssignmentEpochOverflow = AssignmentEpochOverflow

  predicate ValidEpoch(epoch: nat) { 1 <= epoch <= U64_MAX }

  /** `AssignmentEpoch::checked_advance`. */
  function CheckedAdvance(epoch: nat): (r: Result<nat, AssignmentEpochOverflow>)
    requires ValidEpoch(epoch)
    ensures r.Success? <==> epoch < U64_MAX
    ensures r.Success? ==> r.value > epoch && ValidEpoch(r.value)
    ensures r.Success? ==> forall between: nat :: ValidEpoch(between) && between > epoch ==> between >= r.value
  {
    if epoch == U64_MAX then Failure(AssignmentEpochOverflow) else Success(epoch + 1)
  }

  // ---- Time -----------------------------------------------------------------------------------

  const MICROS_PER_SECOND: nat := 1_000_000
  /** Seconds from the Unix epoch to the start of year 10000. */
  const SECONDS_TO_YEAR_10000: nat := 253_402_300_800

  datatype EmittedAtError = BeforeUnixEpoch | OutOfRange

  /** Whole microseconds since the Unix epoch, up to the end of year 9999. */
  predicate ValidEmittedAt(micros: nat) { micros < SECONDS_TO_YEAR_10000 * MICROS_PER_SECOND }

  /** `EmittedAt::new` of an instant given in nanoseconds since the Unix epoch. */
  function NewEmittedAt(unixNanos: int): (r: Result<nat, EmittedAtError>)
    ensures r.Success? <==> 0 <= unixNanos < SECONDS_TO_YEAR_10000 * 1_000_000_000
    ensures r.Success? ==> ValidEmittedAt(r.value) && 1000 * r.value <= unixNanos < 1000 * (r.value + 1)
    ensures r.Failure? ==> (r.error.BeforeUnixEpoch? <==> unixNanos < 0)
  {
    if unixNanos < 0 then Failure(BeforeUnixEpoch)
    else if unixNanos >= SECONDS_TO_YEAR_10000 * 1_000_000_000 then Failure(OutOfRange)
    else Success(unixNanos / 1000)
  }

  // ---- Metadata -------------------------------------------------------------------------------

  datatype MessageKind = Command | Event

  datatype MessageAuthority = Platform | Cell(cellId: string) {
    predicate Valid() { Cell? ==> ValidCellId(cellId) }
  }

  datatype MessageScope =
    | PlatformScope
    | CellScope(scopeCell: string)
    | TenantScope(tenantId: Uuid, tenantCell: string, assignmentEpoch: nat)
  {
    predicate Valid() {
      match this
      case PlatformScope => true
      case CellScope(cell) => ValidCellId(cell)
      case TenantScope(tenant, cell, epoch) => IsUuidV7(tenant) && ValidCellId(cell) && ValidEpoch(epoch)
    }

    /** The Cell fence of a Cell-local scope. */
    function CellOf(): Option<string> {
      match this
      case PlatformScope => None
      case CellScope(cell) => Some(cell)
      case TenantScope(_, cell, _) => Some(cell)
    }
  }

  datatype MessageTarget = PlatformTarget | CellTarget(targetCell: string) {
    predicate Valid() { CellTarget? ==> ValidCellId(targetCell) }
  }

  datatype ContractDescriptor = ContractDescriptor(kind: MessageKind, name: string, schemaVersion: nat) {
    predicate Valid() { ValidMessageName(name) && 1 <= schemaVersion <= 65_535 }
  }

  datatype MessageMetadataError =
    CommandTargetRequired | EventTargetForbidden | SelfCausation | CellScopeMismatch | InvalidCellSourceScope

  datatype MessageMetadata = MessageMetadata(
    messageId: Uuid,
    descriptor: ContractDescriptor,
    emittedAt: nat,
    source: MessageAuthority,
    scope: MessageScope,
    target: Option<MessageTarget>,
    correlationId: Uuid,
    causationId: Option<Uuid>)
  {
    /** Every component came out of its own constructor. */
    predicate ComponentsValid() {
      && IsUuidV7(messageId) && descriptor.Valid() && ValidEmittedAt(emittedAt)
      && source.Valid() && scope.Valid() && (target.Some? ==> target.value.Valid())
      && IsUuidV7(correlationId) && (causationId.Some? ==> IsUuidV7(causationId.value))
    }

    /** The checks of `MessageMetadata::new`, in their order: the first rule that is broken. */
    function BrokenRule(): Option<MessageMetadataError> {
      if descriptor.kind.Command? && target.None? then Some(CommandTargetRequired)
      else if descriptor.kind.Event? && target.Some? then Some(EventTargetForbidden)
      else if causationId == Some(messageId) then Some(SelfCausation)
      else if source.Cell? && scope.PlatformScope? then Some(InvalidCellSourceScope)
      else if source.Cell? && scope.CellOf() != Some(source.cellId) then Some(CellScopeMismatch)
      else if target.Some? && target.value.CellTarget? && scope.CellOf() != Some(target.value.targetCell) then
        Some(CellScopeMismatch)
      else None
    }

    predicate Valid() { ComponentsValid() && BrokenRule() == None }
  }

  /** `MessageMetadata::new` over validated components. */
  function NewMetadata(candidate: MessageMetadata): (r: Result<MessageMetadata, MessageMetadataError>)
    requires candidate.ComponentsValid()
    ensures r.Success? ==> r.value == candidate && candidate.Valid()
  {
    match candidate.BrokenRule()
    case None => Success(candidate)
    case Some(rule) => Failure(rule)
  }

  /**
   * The rules without their order: a command names a target and an event none, nothing causes itself, and a
   * Cell as source or target is the Cell of the scope.
   */
  lemma AcceptedIffConsistent(candidate: MessageMetadata)
    requires candidate.ComponentsValid()
    ensures NewMetadata(candidate).Success? <==>
      && (candidate.descriptor.kind.Command? <==> candidate.target.Some?)
      && candidate.causationId != Some(candidate.messageId)
      && (candidate.source.Cell? ==> candidate.scope.CellOf() == Some(candidate.source.cellId))
      && (candidate.target.Some? && candidate.target.value.CellTarget? ==>
        candidate.scope.CellOf() == Some(candidate.target.value.targetCell))
    ensures NewMetadata(candidate) == Failure(InvalidCellSourceScope) ==> candidate.source.Cell? && candidate.scope.PlatformScope?
    ensures NewMetadata(candidate) == Failure(CellScopeMismatch) ==> candidate.source.Cell? || candidate.target.Some?
  {
    hide MessageMetadata.ComponentsValid;
  }

  // ---- Encoded messages -----------------------------------------------------------------------

  const MESSAGE_CONTENT_TYPE := "application/vnd.edtech.message+json;version=1"
  const MAX_ENCODED_MESSAGE_BYTES: nat := 262_144

  type Bytes = seq<bv8>

  /** Validated metadata paired with the exact immutable envelope bytes. */
  datatype EncodedMessage = EncodedMessage(metadata: MessageMetadata, bytes: Bytes) {
    predicate Valid() { metadata.Valid() && 2 <= |bytes| <= MAX_ENCODED_MESSAGE_BYTES }

    function Id(): Uuid { metadata.messageId }
  }
}
