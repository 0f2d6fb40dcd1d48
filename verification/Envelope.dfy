/**
 * Envelope version 1 between metadata and JSON trees: what the encoder writes, what the strict decoder
 * accepts, and that decoding undoes encoding. JSON text, numbers beyond integers and typed payloads are
 * outside; an object is the sequence of its fields as written.
 */
module Envelope {
  import opened Foundation
  import opened Grammar
  import opened Decimal
  import opened MessageDomain
  import opened UuidText
  import opened Timestamp

  datatype Json =
    | Null
    | Bool(truth: bool)
    | Int(number: int)
    | Fraction
    | Str(text: string)
    | Arr(items: seq<Json>)
    | Obj(fields: seq<(string, Json)>)

  datatype CodecError =
    | InvalidEnvelope | UnsupportedEnvelopeVersion | InvalidField(field: string) | InvalidPayloadRoot

  const ENVELOPE_VERSION: int := 1
  const U32_LIMIT: int := 0x1_0000_0000

  const ENVELOPE_FIELDS := ["envelope_version", "message_id", "message_kind", "message_name", "message_schema_version",
    "emitted_at", "source", "scope", "target", "correlation_id", "causation_id", "payload"]
  const AUTHORITY_FIELDS := ["kind", "cell_id"]
  const SCOPE_FIELDS := ["kind", "cell_id", "tenant_id", "assignment_epoch"]

  // ---- Encoding -------------------------------------------------------------------------------

  /** An optional field that is skipped when there is nothing to write. */
  function Optional(name: string, value: Option<string>): seq<(string, Json)> {
    if value.None? then [] else [(name, Str(value.value))]
  }

  function AuthorityTree(kind: string, cellId: Option<string>): Json {
    Obj([("kind", Str(kind))] + Optional("cell_id", cellId))
  }

  function EncodeSource(source: MessageAuthority): Json {
    match source
    case Platform => AuthorityTree("platform", None)
    case Cell(cell) => AuthorityTree("cell", Some(cell))
  }

  function EncodeScope(scope: MessageScope): Json {
    match scope
    case PlatformScope => Obj([("kind", Str("platform"))])
    case CellScope(cell) => Obj([("kind", Str("cell")), ("cell_id", Str(cell))])
    case TenantScope(tenant, cell, epoch) =>
      Obj([("kind", Str("tenant")), ("cell_id", Str(cell)), ("tenant_id", Str(FormatUuid(tenant))),
           ("assignment_epoch", Str(Print(epoch)))])
  }

  function EncodeTarget(target: Option<MessageTarget>): Json {
    match target
    case None => Null
    case Some(PlatformTarget) => AuthorityTree("platform", None)
    case Some(CellTarget(cell)) => AuthorityTree("cell", Some(cell))
  }

  function EncodeKind(kind: MessageKind): string { if kind.Command? then "command" else "event" }

  /** The field values in canonical order. */
  function EncodedValues(m: MessageMetadata, payload: Json): (values: seq<Json>)
    ensures |values| == |ENVELOPE_FIELDS|
  {
    [Int(ENVELOPE_VERSION), Str(FormatUuid(m.messageId)), Str(EncodeKind(m.descriptor.kind)), Str(m.descriptor.name),
     Int(m.descriptor.schemaVersion), Str(FormatEmittedAt(m.emittedAt)), EncodeSource(m.source), EncodeScope(m.scope),
     EncodeTarget(m.target), Str(FormatUuid(m.correlationId)),
     if m.causationId.None? then Null else Str(FormatUuid(m.causationId.value)), payload]
  }

  function Labelled(names: seq<string>, values: seq<Json>): seq<(string, Json)>
    requires |names| == |values|
  { seq(|names|, i requires 0 <= i < |names| => (names[i], values[i])) }

  /** `encode`, up to the JSON tree. */
  function Encode(m: MessageMetadata, payload: Json): Result<Json, CodecError> {
    if !payload.Obj? then Failure(InvalidPayloadRoot) else Success(Obj(Labelled(ENVELOPE_FIELDS, EncodedValues(m, payload))))
  }

  // ---- Reading structures ---------------------------------------------------------------------

  /** The value of the first field of that name. */
  function FieldNamed(fields: seq<(string, Json)>, name: string): Option<Json> {
    if fields == [] then None
    else if fields[0].0 == name then Some(fields[0].1)
    else FieldNamed(fields[1..], name)
  }

  predicate UniqueNames(fields: seq<(string, Json)>) {
    forall i, j | 0 <= i < j < |fields| :: fields[i].0 != fields[j].0
  }

  predicate KnownNames(fields: seq<(string, Json)>, names: seq<string>) {
    forall i | 0 <= i < |fields| :: fields[i].0 in names
  }

  /**
   * A derived structure with `deny_unknown_fields`, as the values of its fields: an object without
   * duplicate or unknown names whose required fields are there, or an array with one item per field.
   */
  function ReadStruct(tree: Json, names: seq<string>, required: nat): (r: Option<seq<Json>>)
    ensures r.Some? ==> |r.value| == |names|
  {
    match tree
    case Arr(items) => if |items| == |names| then Some(items) else None
    case Obj(fields) =>
      if !UniqueNames(fields) || !KnownNames(fields, names)
        || (exists i | 0 <= i < |names| && i < required :: FieldNamed(fields, names[i]).None?) then None
      else Some(seq(|names|, i requires 0 <= i < |names| => FieldNamed(fields, names[i]).GetOr(Null)))
    case _ => None
  }

  /** Of fields with the same name the last one stays. */
  function LastWins(fields: seq<(string, Json)>): (r: seq<(string, Json)>)
  {
    if fields == [] then []
    else
      var rest := LastWins(fields[1..]);
      if exists i | 0 <= i < |rest| :: rest[i].0 == fields[0].0 then rest else [fields[0]] + rest
  }

  /** A tree as a generic value, whose objects hold each name once. */
  function AsValue(tree: Json): Json {
    match tree
    case Arr(items) => Arr(seq(|items|, i requires 0 <= i < |items| => AsValue(items[i])))
    case Obj(fields) => Obj(LastWins(seq(|fields|, i requires 0 <= i < |fields| => (fields[i].0, AsValue(fields[i].1)))))
    case _ => tree
  }

  function ReadString(tree: Json): Option<string> { if tree.Str? then Some(tree.text) else None }

  /** An optional string: null and a missing field both mean absent. */
  function ReadOptional(tree: Json): Option<Option<string>> {
    match tree
    case Null => Some(None)
    case Str(text) => Some(Some(text))
    case _ => None
  }

  function ReadU32(tree: Json): Option<nat> {
    if tree.Int? && 0 <= tree.number < U32_LIMIT then Some(tree.number) else None
  }

  // ---- Decoding -------------------------------------------------------------------------------

  function ReadCell(text: string): Option<string> { if NewCellId(text).Success? then Some(text) else None }

  datatype RawAuthority = RawAuthority(kind: string, cellId: Option<string>)

  function ReadAuthority(tree: Json): Option<RawAuthority> {
    var values :- ReadStruct(tree, AUTHORITY_FIELDS, 1);
    var kind :- ReadString(values[0]);
    var cellId :- ReadOptional(values[1]);
    Some(RawAuthority(kind, cellId))
  }

  datatype RawScope = RawScope(kind: string, cellId: Option<string>, tenantId: Option<string>, epoch: Option<string>)

  function ReadScope(tree: Json): Option<RawScope> {
    var values :- ReadStruct(tree, SCOPE_FIELDS, 1);
    var kind :- ReadString(values[0]);
    var cellId :- ReadOptional(values[1]);
    var tenantId :- ReadOptional(values[2]);
    var epoch :- ReadOptional(values[3]);
    Some(RawScope(kind, cellId, tenantId, epoch))
  }

  datatype RawEnvelope = RawEnvelope(
    version: nat, messageId: string, kind: string, name: string, schemaVersion: nat, emittedAt: string,
    source: RawAuthority, scope: RawScope, target: Json, correlationId: string, causationId: Json, payload: Json)

  function ReadEnvelope(tree: Json): Option<RawEnvelope> {
    var v :- ReadStruct(tree, ENVELOPE_FIELDS, |ENVELOPE_FIELDS|);
    var version :- ReadU32(v[0]);
    var messageId :- ReadString(v[1]);
    var kind :- ReadString(v[2]);
    var name :- ReadString(v[3]);
    var schemaVersion :- ReadU32(v[4]);
    var emittedAt :- ReadString(v[5]);
    var source :- ReadAuthority(v[6]);
    var scope :- ReadScope(v[7]);
    var correlationId :- ReadString(v[9]);
    Some(RawEnvelope(version, messageId, kind, name, schemaVersion, emittedAt, source, scope, AsValue(v[8]), correlationId,
      AsValue(v[10]), AsValue(v[11])))
  }

  function DecodeKind(text: string): Option<MessageKind> {
    if text == "command" then Some(Command) else if text == "event" then Some(Event) else None
  }

  function DecodeSource(raw: RawAuthority): Result<MessageAuthority, CodecError> {
    match (raw.kind, raw.cellId)
    case (kind, None) => if kind == "platform" then Success(Platform) else Failure(InvalidField("source"))
    case (kind, Some(text)) =>
      if kind != "cell" then Failure(InvalidField("source"))
      else if ReadCell(text).None? then Failure(InvalidField("source.cell_id"))
      else Success(Cell(text))
  }

  function DecodeScope(raw: RawScope): Result<MessageScope, CodecError> {
    match (raw.cellId, raw.tenantId, raw.epoch)
    case (None, None, None) => if raw.kind == "platform" then Success(PlatformScope) else Failure(InvalidField("scope"))
    case (Some(cell), None, None) =>
      if raw.kind != "cell" then Failure(InvalidField("scope"))
      else if ReadCell(cell).None? then Failure(InvalidField("scope.cell_id"))
      else Success(CellScope(cell))
    case (Some(cell), Some(tenant), Some(epoch)) =>
      if raw.kind != "tenant" then Failure(InvalidField("scope"))
      else if ReadCell(cell).None? then Failure(InvalidField("scope.cell_id"))
      else if ParseIdentifier(tenant).None? then Failure(InvalidField("scope.tenant_id"))
      else if ParseU64(epoch).None? || !ValidEpoch(ParseU64(epoch).value) then Failure(InvalidField("scope.assignment_epoch"))
      else Success(TenantScope(ParseIdentifier(tenant).value, cell, ParseU64(epoch).value))
    case _ => Failure(InvalidField("scope"))
  }

  function DecodeTarget(tree: Json): Result<Option<MessageTarget>, CodecError> {
    if tree.Null? then Success(None)
    else
      match ReadAuthority(tree)
      case None => Failure(InvalidField("target"))
      case Some(raw) =>
        match (raw.kind, raw.cellId)
        case (kind, None) => if kind == "platform" then Success(Some(PlatformTarget)) else Failure(InvalidField("target"))
        case (kind, Some(text)) =>
          if kind != "cell" then Failure(InvalidField("target"))
          else if ReadCell(text).None? then Failure(InvalidField("target.cell_id"))
          else Success(Some(CellTarget(text)))
  }

  function DecodeCausation(tree: Json): Result<Option<Uuid>, CodecError> {
    match tree
    case Null => Success(None)
    case Str(text) =>
      if ParseIdentifier(text).None? then Failure(InvalidField("causation_id")) else Success(Some(ParseIdentifier(text).value))
    case _ => Failure(InvalidField("causation_id"))
  }

  function OrInvalid<T>(value: Option<T>, field: string): Result<T, CodecError> {
    if value.None? then Failure(InvalidField(field)) else Success(value.value)
  }

  /** The checks of `parse` after the structure is read, in their order. */
  function DecodeRaw(read: string -> Option<int>, raw: RawEnvelope): Result<(MessageMetadata, Json), CodecError> {
    if raw.version != ENVELOPE_VERSION then Failure(UnsupportedEnvelopeVersion)
    else if !raw.payload.Obj? then Failure(InvalidPayloadRoot)
    else
      var messageId :- OrInvalid(ParseIdentifier(raw.messageId), "message_id");
      var kind :- OrInvalid(DecodeKind(raw.kind), "message_kind");
      if NewMessageName(raw.name).Failure? then Failure(InvalidField("message_name"))
      else if !(1 <= raw.schemaVersion <= 65_535) then Failure(InvalidField("message_schema_version"))
      else if ParseEmittedAt(read, raw.emittedAt).Failure? then Failure(InvalidField("emitted_at"))
      else
        var source :- DecodeSource(raw.source);
        var scope :- DecodeScope(raw.scope);
        var target :- DecodeTarget(raw.target);
        var correlationId :- OrInvalid(ParseIdentifier(raw.correlationId), "correlation_id");
        var causationId :- DecodeCausation(raw.causationId);
        var candidate := MessageMetadata(messageId, ContractDescriptor(kind, raw.name, raw.schemaVersion),
          ParseEmittedAt(read, raw.emittedAt).value, source, scope, target, correlationId, causationId);
        if candidate.BrokenRule().Some? then Failure(InvalidField("metadata")) else Success((candidate, raw.payload))
  }

  /** `parse`: the metadata and the payload of an envelope. */
  function Parse(read: string -> Option<int>, tree: Json): Result<(MessageMetadata, Json), CodecError> {
    match ReadEnvelope(tree)
    case None => Failure(InvalidEnvelope)
    case Some(raw) => DecodeRaw(read, raw)
  }

  // ---- Structures read back -------------------------------------------------------------------

  lemma {:induction false} NamedField(fields: seq<(string, Json)>, i: nat)
    requires UniqueNames(fields) && i < |fields|
    ensures FieldNamed(fields, fields[i].0) == Some(fields[i].1)
  {
    if i > 0 {
      forall j, k | 0 <= j < k < |fields[1..]| ensures fields[1..][j].0 != fields[1..][k].0 {
        assert fields[1..][j] == fields[j + 1] && fields[1..][k] == fields[k + 1];
      }
      assert fields[1..][i - 1] == fields[i];
      NamedField(fields[1..], i - 1);
    }
  }

  lemma {:induction false} NoField(fields: seq<(string, Json)>, name: string)
    requires forall i | 0 <= i < |fields| :: fields[i].0 != name
    ensures FieldNamed(fields, name) == None
  {
    if fields != [] { NoField(fields[1..], name); }
  }

  predicate DistinctNames(names: seq<string>) { forall i, j | 0 <= i < j < |names| :: names[i] != names[j] }

  predicate Carries(fields: seq<(string, Json)>, name: string, value: Json, optional: bool) {
    || (exists k | 0 <= k < |fields| :: fields[k] == (name, value))
    || (optional && value == Null && forall k | 0 <= k < |fields| :: fields[k].0 != name)
  }

  /** Some fields of a structure, each under its own name, read back with null for the others. */
  lemma StructReads(names: seq<string>, required: nat, fields: seq<(string, Json)>, values: seq<Json>)
    requires DistinctNames(names) && |values| == |names| && UniqueNames(fields) && KnownNames(fields, names)
    requires forall i | 0 <= i < |names| :: Carries(fields, names[i], values[i], i >= required)
    ensures ReadStruct(Obj(fields), names, required) == Some(values)
  {
    forall i | 0 <= i < |names|
      ensures FieldNamed(fields, names[i]).GetOr(Null) == values[i]
      ensures i < required ==> FieldNamed(fields, names[i]).Some?
    {
      assert Carries(fields, names[i], values[i], i >= required);
      if k :| 0 <= k < |fields| && fields[k] == (names[i], values[i]) {
        NamedField(fields, k);
      } else {
        NoField(fields, names[i]);
      }
    }
    assert seq(|names|, i requires 0 <= i < |names| => FieldNamed(fields, names[i]).GetOr(Null)) == values;
  }

  lemma LabelledReads(names: seq<string>, values: seq<Json>)
    requires DistinctNames(names) && |values| == |names|
    ensures ReadStruct(Obj(Labelled(names, values)), names, |names|) == Some(values)
  {
    var fields := Labelled(names, values);
    forall i | 0 <= i < |names| ensures Carries(fields, names[i], values[i], i >= |names|) {
      assert fields[i] == (names[i], values[i]);
    }
    StructReads(names, |names|, fields, values);
  }

  lemma EnvelopeNamesAreDistinct()
    ensures DistinctNames(ENVELOPE_FIELDS)
  {
    var names := ENVELOPE_FIELDS;
    forall i, j | 0 <= i < j < |names| ensures names[i] != names[j] {
      if |names[i]| == |names[j]| {
        assert (i, j) in {(1, 5), (2, 3), (2, 10), (3, 10), (6, 8)};
        assert names[1][0] != names[5][0] && names[2][8] != names[3][8] && names[2][0] != names[10][0];
        assert names[3][0] != names[10][0] && names[6][0] != names[8][0];
      }
    }
  }

  lemma SmallNamesAreDistinct()
    ensures DistinctNames(AUTHORITY_FIELDS) && DistinctNames(SCOPE_FIELDS)
  {
    assert |"kind"| != |"cell_id"| && |"tenant_id"| != |"assignment_epoch"| && |"cell_id"| != |"tenant_id"|;
  }

  lemma AuthorityReads(kind: string, cellId: Option<string>)
    ensures ReadAuthority(AuthorityTree(kind, cellId)) == Some(RawAuthority(kind, cellId))
  {
    SmallNamesAreDistinct();
    var fields := [("kind", Str(kind))] + Optional("cell_id", cellId);
    var values := [Str(kind), if cellId.None? then Null else Str(cellId.value)];
    assert fields[0] == (AUTHORITY_FIELDS[0], values[0]);
    if cellId.Some? { assert fields[1] == (AUTHORITY_FIELDS[1], values[1]); }
    StructReads(AUTHORITY_FIELDS, 1, fields, values);
  }

  lemma SourceRoundTrip(source: MessageAuthority)
    requires source.Valid()
    ensures ReadAuthority(EncodeSource(source)).Some?
    ensures DecodeSource(ReadAuthority(EncodeSource(source)).value) == Success(source)
  {
    AuthorityReads(if source.Cell? then "cell" else "platform", if source.Cell? then Some(source.cellId) else None);
    if source.Cell? { CellIdAccepts(source.cellId); }
  }

  /** The first `n` fields of a structure carry its first values and leave the others absent. */
  lemma PrefixCarries(names: seq<string>, all: seq<(string, Json)>, values: seq<Json>, n: nat)
    requires DistinctNames(names) && |all| == |values| == |names| && 1 <= n <= |names|
    requires forall i | 0 <= i < |names| :: all[i].0 == names[i] && values[i] == if i < n then all[i].1 else Null
    ensures UniqueNames(all[..n]) && KnownNames(all[..n], names)
    ensures forall i | 0 <= i < |names| :: Carries(all[..n], names[i], values[i], i >= 1)
  {
    forall k | 0 <= k < n ensures all[..n][k] == (names[k], values[k]) {}
    forall i | 0 <= i < |names| ensures Carries(all[..n], names[i], values[i], i >= 1) {
      if i < n { assert all[..n][i] == (names[i], values[i]); }
    }
  }

  /** A scope tree whose fields are the first `n` of the scope's. */
  lemma ScopePrefixReads(n: nat, kind: string, cell: string, tenant: string, epoch: string)
    requires 1 <= n <= 4
    ensures var all := [("kind", Str(kind)), ("cell_id", Str(cell)), ("tenant_id", Str(tenant)), ("assignment_epoch", Str(epoch))];
      ReadScope(Obj(all[..n])) == Some(RawScope(kind, if n < 2 then None else Some(cell), if n < 3 then None else Some(tenant),
        if n < 4 then None else Some(epoch)))
  {
    hide Carries, ReadStruct, KnownNames, UniqueNames;
    SmallNamesAreDistinct();
    var all := [("kind", Str(kind)), ("cell_id", Str(cell)), ("tenant_id", Str(tenant)), ("assignment_epoch", Str(epoch))];
    var values := [Str(kind), if n < 2 then Null else Str(cell), if n < 3 then Null else Str(tenant), if n < 4 then Null else Str(epoch)];
    PrefixCarries(SCOPE_FIELDS, all, values, n);
    StructReads(SCOPE_FIELDS, 1, all[..n], values);
  }

  lemma ScopeReads(scope: MessageScope)
    ensures ReadScope(EncodeScope(scope)) == Some(match scope
      case PlatformScope => RawScope("platform", None, None, None)
      case CellScope(cell) => RawScope("cell", Some(cell), None, None)
      case TenantScope(tenant, cell, epoch) => RawScope("tenant", Some(cell), Some(FormatUuid(tenant)), Some(Print(epoch))))
  {
    hide FormatUuid, Print, ReadScope;
    var fields := EncodeScope(scope).fields;
    match scope
    case PlatformScope =>
      ScopePrefixReads(1, "platform", "", "", "");
      assert fields == [("kind", Str("platform")), ("cell_id", Str("")), ("tenant_id", Str("")), ("assignment_epoch", Str(""))][..1];
    case CellScope(cell) =>
      ScopePrefixReads(2, "cell", cell, "", "");
      assert fields == [("kind", Str("cell")), ("cell_id", Str(cell)), ("tenant_id", Str("")), ("assignment_epoch", Str(""))][..2];
    case TenantScope(tenant, cell, epoch) =>
      ScopePrefixReads(4, "tenant", cell, FormatUuid(tenant), Print(epoch));
      assert fields == fields[..4];
  }

  lemma ScopeRoundTrip(scope: MessageScope)
    requires scope.Valid()
    ensures ReadScope(EncodeScope(scope)).Some?
    ensures DecodeScope(ReadScope(EncodeScope(scope)).value) == Success(scope)
  {
    hide EncodeScope, ReadScope, FormatUuid, Print, ParseIdentifier, ParseU64, NewCellId;
    ScopeReads(scope);
    match scope
    case PlatformScope =>
    case CellScope(cell) => CellIdAccepts(cell);
    case TenantScope(tenant, cell, epoch) =>
      CellIdAccepts(cell);
      UuidRoundTrip(tenant);
      ParsePrint(epoch);
  }

  // ---- Values ---------------------------------------------------------------------------------

  /** No object of the tree repeats a name. */
  predicate Plain(tree: Json) {
    match tree
    case Arr(items) => forall i | 0 <= i < |items| :: Plain(items[i])
    case Obj(fields) => UniqueNames(fields) && forall i | 0 <= i < |fields| :: Plain(fields[i].1)
    case _ => true
  }

  lemma {:induction false} UniqueIsOwnLast(fields: seq<(string, Json)>)
    requires UniqueNames(fields)
    ensures LastWins(fields) == fields
  {
    if fields != [] {
      var rest := fields[1..];
      forall i | 0 <= i < |rest| ensures rest[i] == fields[i + 1] {}
      UniqueIsOwnLast(rest);
      assert [fields[0]] + rest == fields;
    }
  }

  /** A tree without duplicate names is its own value. */
  lemma {:induction false} PlainIsOwnValue(tree: Json)
    requires Plain(tree)
    ensures AsValue(tree) == tree
    decreases tree
  {
    match tree
    case Arr(items) =>
      forall i | 0 <= i < |items| ensures AsValue(items[i]) == items[i] { PlainIsOwnValue(items[i]); }
      assert AsValue(tree).items == items;
    case Obj(fields) =>
      forall i | 0 <= i < |fields| ensures AsValue(fields[i].1) == fields[i].1 { PlainIsOwnValue(fields[i].1); }
      assert seq(|fields|, i requires 0 <= i < |fields| => (fields[i].0, AsValue(fields[i].1))) == fields;
      UniqueIsOwnLast(fields);
    case _ =>
  }

  lemma {:induction false} LastWinsIsUnique(fields: seq<(string, Json)>)
    ensures UniqueNames(LastWins(fields)) && forall field | field in LastWins(fields) :: field in fields
  {
    if fields != [] {
      var rest := LastWins(fields[1..]);
      LastWinsIsUnique(fields[1..]);
      assert forall field | field in fields[1..] :: field in fields;
      if !(exists i | 0 <= i < |rest| :: rest[i].0 == fields[0].0) {
        var all := [fields[0]] + rest;
        forall i, j | 0 <= i < j < |all| ensures all[i].0 != all[j].0 { assert all[j] == rest[j - 1]; }
      }
    }
  }

  /** A value never repeats a name. */
  lemma {:induction false} AsValueIsPlain(tree: Json)
    ensures Plain(AsValue(tree))
    decreases tree
  {
    match tree
    case Arr(items) =>
      forall i | 0 <= i < |items| ensures Plain(AsValue(items[i])) { AsValueIsPlain(items[i]); }
    case Obj(fields) =>
      var values := seq(|fields|, i requires 0 <= i < |fields| => (fields[i].0, AsValue(fields[i].1)));
      LastWinsIsUnique(values);
      var last := LastWins(values);
      forall k | 0 <= k < |last| ensures Plain(last[k].1) {
        assert last[k] in values;
        var i :| 0 <= i < |values| && values[i] == last[k];
        AsValueIsPlain(fields[i].1);
      }
    case _ =>
  }

  lemma TargetRoundTrip(target: Option<MessageTarget>)
    requires target.Some? ==> target.value.Valid()
    ensures DecodeTarget(AsValue(EncodeTarget(target))) == Success(target)
  {
    hide AsValue, ReadAuthority, AuthorityTree;
    match target
    case None => PlainIsOwnValue(Null);
    case Some(PlatformTarget) =>
      AuthorityIsPlain("platform", None);
      AuthorityReads("platform", None);
    case Some(CellTarget(cell)) =>
      AuthorityIsPlain("cell", Some(cell));
      AuthorityReads("cell", Some(cell));
      CellIdAccepts(cell);
  }

  lemma AuthorityIsPlain(kind: string, cellId: Option<string>)
    ensures AsValue(AuthorityTree(kind, cellId)) == AuthorityTree(kind, cellId) && AuthorityTree(kind, cellId) != Null
  {
    assert |"kind"| != |"cell_id"|;
    PlainIsOwnValue(AuthorityTree(kind, cellId));
  }

  // ---- The theorems ---------------------------------------------------------------------------

  /** The raw fields of the twelve encoded values. */
  function EncodedRaw(m: MessageMetadata, payload: Json): RawEnvelope
    requires ReadAuthority(EncodeSource(m.source)).Some? && ReadScope(EncodeScope(m.scope)).Some?
  {
    RawEnvelope(1, FormatUuid(m.messageId), EncodeKind(m.descriptor.kind), m.descriptor.name, m.descriptor.schemaVersion,
      FormatEmittedAt(m.emittedAt), ReadAuthority(EncodeSource(m.source)).value, ReadScope(EncodeScope(m.scope)).value,
      AsValue(EncodeTarget(m.target)), FormatUuid(m.correlationId),
      AsValue(if m.causationId.None? then Null else Str(FormatUuid(m.causationId.value))), AsValue(payload))
  }

  lemma EncodedRawReads(tree: Json, m: MessageMetadata, payload: Json)
    requires ReadStruct(tree, ENVELOPE_FIELDS, |ENVELOPE_FIELDS|) == Some(EncodedValues(m, payload))
    requires ReadAuthority(EncodeSource(m.source)).Some? && ReadScope(EncodeScope(m.scope)).Some?
    requires m.descriptor.schemaVersion <= 65_535
    ensures ReadEnvelope(tree) == Some(EncodedRaw(m, payload))
  {
    hide ReadStruct, ReadAuthority, ReadScope, EncodeSource, EncodeScope, EncodeTarget, FormatUuid, FormatEmittedAt, AsValue;
  }

  /** What the decoder makes of the twelve encoded values, in whichever structure they arrive. */
  lemma EncodedValuesParse(read: string -> Option<int>, tree: Json, m: MessageMetadata, payload: Json)
    requires ReadsStrictTexts(read) && m.Valid() && payload.Obj?
    requires ReadStruct(tree, ENVELOPE_FIELDS, |ENVELOPE_FIELDS|) == Some(EncodedValues(m, payload))
    ensures Parse(read, tree) == Success((m, AsValue(payload)))
  {
    hide ReadStruct, ReadEnvelope, ReadAuthority, ReadScope, DecodeRaw, DecodeSource, DecodeScope, DecodeTarget, EncodeSource,
      EncodeScope, EncodeTarget, EncodedValues, FormatUuid, FormatEmittedAt, ParseIdentifier, ParseEmittedAt, NewMessageName, AsValue,
      MessageMetadata.BrokenRule, MessageMetadata.Valid, IsUuidV7, ValidEmittedAt, MessageScope.Valid, MessageAuthority.Valid,
      MessageTarget.Valid, DecodeCausation, ReadsStrictTexts;
    FieldsAreValid(m);
    SourceRoundTrip(m.source);
    ScopeRoundTrip(m.scope);
    TargetRoundTrip(m.target);
    EncodedRawReads(tree, m, payload);
    UuidRoundTrip(m.messageId);
    UuidRoundTrip(m.correlationId);
    CausationRoundTrip(m.causationId);
    EmittedAtRoundTrip(read, m.emittedAt);
    ObjectStaysObject(payload);
    KindRoundTrip(m.descriptor.kind);
    RawDecodesIff(read, EncodedRaw(m, payload), m, AsValue(payload));
  }

  lemma KindRoundTrip(kind: MessageKind)
    ensures DecodeKind(EncodeKind(kind)) == Some(kind)
  {
    assert |"command"| != |"event"|;
  }

  /** Each raw field decodes to its part of `m`, and the cross-field rules hold. */
  predicate FieldsDecodeTo(read: string -> Option<int>, raw: RawEnvelope, m: MessageMetadata) {
    && raw.version == ENVELOPE_VERSION && raw.payload.Obj? && m.BrokenRule() == None
    && ParseIdentifier(raw.messageId) == Some(m.messageId) && ParseIdentifier(raw.correlationId) == Some(m.correlationId)
    && DecodeKind(raw.kind) == Some(m.descriptor.kind) && raw.name == m.descriptor.name && NewMessageName(raw.name).Success?
    && raw.schemaVersion == m.descriptor.schemaVersion && 1 <= raw.schemaVersion <= 65_535
    && ParseEmittedAt(read, raw.emittedAt) == Success(m.emittedAt)
    && DecodeSource(raw.source) == Success(m.source) && DecodeScope(raw.scope) == Success(m.scope)
    && DecodeTarget(raw.target) == Success(m.target) && DecodeCausation(raw.causationId) == Success(m.causationId)
  }

  /** An envelope decodes to metadata exactly when each of its fields decodes to its part. */
  lemma RawDecodesIff(read: string -> Option<int>, raw: RawEnvelope, m: MessageMetadata, payload: Json)
    ensures DecodeRaw(read, raw) == Success((m, payload)) <==> FieldsDecodeTo(read, raw, m) && payload == raw.payload
  {
    hide ParseIdentifier, DecodeKind, NewMessageName, ParseEmittedAt, DecodeSource, DecodeScope, DecodeTarget, DecodeCausation,
      MessageMetadata.BrokenRule;
  }

  lemma CausationRoundTrip(causationId: Option<Uuid>)
    requires causationId.Some? ==> causationId.value < UUID_LIMIT && IsUuidV7(causationId.value)
    ensures DecodeCausation(AsValue(if causationId.None? then Null else Str(FormatUuid(causationId.value)))) == Success(causationId)
  {
    hide FormatUuid, ParseIdentifier, IsUuidV7;
    if causationId.Some? { UuidRoundTrip(causationId.value); }
  }

  lemma FieldsAreValid(m: MessageMetadata)
    requires m.Valid()
    ensures m.messageId < UUID_LIMIT && m.correlationId < UUID_LIMIT && (m.causationId.Some? ==> m.causationId.value < UUID_LIMIT)
    ensures IsUuidV7(m.messageId) && IsUuidV7(m.correlationId) && (m.causationId.Some? ==> IsUuidV7(m.causationId.value))
    ensures NewMessageName(m.descriptor.name).Success? && 1 <= m.descriptor.schemaVersion <= 65_535
    ensures ValidEmittedAt(m.emittedAt) && m.source.Valid() && m.scope.Valid() && (m.target.Some? ==> m.target.value.Valid())
    ensures m.BrokenRule() == None
  {
  }

  lemma ObjectStaysObject(payload: Json)
    requires payload.Obj?
    ensures AsValue(payload).Obj?
  {
  }

  /** Decoding an encoded envelope gives back its metadata and its payload, for every valid metadata. */
  lemma EnvelopeRoundTrip(read: string -> Option<int>, m: MessageMetadata, payload: Json)
    requires ReadsStrictTexts(read) && m.Valid() && payload.Obj?
    ensures Encode(m, payload).Success?
    ensures Parse(read, Encode(m, payload).value) == Success((m, AsValue(payload)))
    ensures Plain(payload) ==> Parse(read, Encode(m, payload).value) == Success((m, payload))
  {
    hide EncodedValues, Parse, MessageMetadata.Valid, AsValue;
    EnvelopeNamesAreDistinct();
    LabelledReads(ENVELOPE_FIELDS, EncodedValues(m, payload));
    EncodedValuesParse(read, Encode(m, payload).value, m, payload);
    if Plain(payload) { PlainIsOwnValue(payload); }
  }

  /** Different metadata or payload never encode alike. */
  lemma EncodingIsInjective(read: string -> Option<int>, a: MessageMetadata, b: MessageMetadata, one: Json, two: Json)
    requires ReadsStrictTexts(read) && a.Valid() && b.Valid() && one.Obj? && two.Obj? && Plain(one) && Plain(two)
    requires Encode(a, one) == Encode(b, two)
    ensures a == b && one == two
  {
    hide Encode, Parse;
    EnvelopeRoundTrip(read, a, one);
    EnvelopeRoundTrip(read, b, two);
  }

  /** Whatever is accepted is valid metadata with an object payload, and what would be written for it reads the same. */
  lemma AcceptedIsValid(read: string -> Option<int>, tree: Json)
    requires ReadsStrictTexts(read) && Parse(read, tree).Success?
    ensures var (m, payload) := Parse(read, tree).value;
      && m.Valid() && payload.Obj?
      && Encode(m, payload).Success? && Parse(read, Encode(m, payload).value) == Success((m, payload))
  {
    hide Parse, Encode, AsValue;
    AcceptedMetadata(read, tree);
    AcceptedPayload(read, tree);
    var (m, payload) := Parse(read, tree).value;
    EnvelopeRoundTrip(read, m, payload);
  }

  lemma AcceptedPayload(read: string -> Option<int>, tree: Json)
    requires Parse(read, tree).Success?
    ensures Parse(read, tree).value.1.Obj? && Plain(Parse(read, tree).value.1)
  {
    hide DecodeRaw, ReadEnvelope, AsValue, Plain;
    var raw := ReadEnvelope(tree).value;
    var (m, payload) := Parse(read, tree).value;
    RawDecodesIff(read, raw, m, payload);
    RawPayloadIsPlain(tree);
  }

  lemma RawPayloadIsPlain(tree: Json)
    requires ReadEnvelope(tree).Some?
    ensures Plain(ReadEnvelope(tree).value.payload)
  {
    hide ReadStruct, ReadAuthority, ReadScope, AsValue, Plain;
    AsValueIsPlain(ReadStruct(tree, ENVELOPE_FIELDS, |ENVELOPE_FIELDS|).value[11]);
  }

  lemma AcceptedMetadata(read: string -> Option<int>, tree: Json)
    requires ReadsStrictTexts(read) && Parse(read, tree).Success?
    ensures Parse(read, tree).value.0.Valid()
  {
    hide ReadEnvelope, DecodeSource, DecodeScope, DecodeTarget, ParseIdentifier, MessageMetadata.BrokenRule, NewMessageName,
      ParseEmittedAt, IsUuidV7, DecodeCausation;
    var raw := ReadEnvelope(tree).value;
    assert ParseIdentifier(raw.messageId).Some? && ParseIdentifier(raw.correlationId).Some?;
    IdentifierIsV7(raw.messageId);
    IdentifierIsV7(raw.correlationId);
    CausationIsV7(raw.causationId);
    SourceIsValid(raw.source);
    ScopeIsValid(raw.scope);
    TargetIsValid(raw.target);
    AcceptsIffFormatted(read, raw.emittedAt, ParseEmittedAt(read, raw.emittedAt).value);
  }

  lemma IdentifierIsV7(text: string)
    ensures ParseIdentifier(text).Some? ==> IsUuidV7(ParseIdentifier(text).value)
  {
  }

  lemma CausationIsV7(tree: Json)
    ensures DecodeCausation(tree).Success? && DecodeCausation(tree).value.Some? ==> IsUuidV7(DecodeCausation(tree).value.value)
  {
    hide ParseIdentifier, IsUuidV7;
    if tree.Str? { IdentifierIsV7(tree.text); }
  }

  lemma SourceIsValid(raw: RawAuthority)
    ensures DecodeSource(raw).Success? ==> DecodeSource(raw).value.Valid()
  {
    if raw.cellId.Some? { CellIdAccepts(raw.cellId.value); }
  }

  lemma ScopeIsValid(raw: RawScope)
    ensures DecodeScope(raw).Success? ==> DecodeScope(raw).value.Valid()
  {
    hide ParseIdentifier, IsUuidV7, NewCellId;
    if raw.cellId.Some? { CellIdAccepts(raw.cellId.value); }
    if raw.tenantId.Some? { IdentifierIsV7(raw.tenantId.value); }
  }

  lemma TargetIsValid(tree: Json)
    ensures DecodeTarget(tree).Success? && DecodeTarget(tree).value.Some? ==> DecodeTarget(tree).value.value.Valid()
  {
    hide ReadAuthority, NewCellId;
    if ReadAuthority(tree).Some? && ReadAuthority(tree).value.cellId.Some? { CellIdAccepts(ReadAuthority(tree).value.cellId.value); }
  }

  // ---- Texts the decoder takes beyond the encoder's -------------------------------------------

  /** The derived reader takes a positional array for the envelope too, although only objects are written. */
  lemma PositionalEnvelopeIsAccepted(read: string -> Option<int>, m: MessageMetadata, payload: Json)
    requires ReadsStrictTexts(read) && m.Valid() && payload.Obj?
    ensures Parse(read, Arr(EncodedValues(m, payload))) == Success((m, AsValue(payload)))
  {
    hide EncodedValues, Parse, MessageMetadata.Valid;
    EncodedValuesParse(read, Arr(EncodedValues(m, payload)), m, payload);
  }

  /**
   * The epoch of a tenant scope is read from any text that parses to an epoch; it is the text the encoder
   * writes exactly when it has no sign and no leading zeros.
   */
  lemma EpochTextIsLoose(tenant: Uuid, cell: string, text: string)
    requires IsUuidV7(tenant) && ValidCellId(cell)
    ensures var scope := DecodeScope(RawScope("tenant", Some(cell), Some(FormatUuid(tenant)), Some(text)));
      && (scope.Success? <==> ParseU64(text).Some? && ValidEpoch(ParseU64(text).value))
      && (scope.Success? ==> scope.value == TenantScope(tenant, cell, ParseU64(text).value))
      && (scope.Success? ==> (Print(scope.value.assignmentEpoch) == text <==> Canonical(text)))
  {
    hide FormatUuid, Print, ParseIdentifier, ParseU64, NewCellId, IsUuidV7;
    IdentityBound(tenant);
    UuidRoundTrip(tenant);
    CellIdAccepts(cell);
    if ParseU64(text).Some? { PrintParse(text); }
  }

  /** An array is read as the object with the same values under the twelve names, and not at all without twelve. */
  lemma PositionalReadsByName(read: string -> Option<int>, values: seq<Json>)
    ensures Parse(read, Arr(values)) ==
      if |values| != |ENVELOPE_FIELDS| then Failure(InvalidEnvelope) else Parse(read, Obj(Labelled(ENVELOPE_FIELDS, values)))
  {
    hide DecodeRaw, ReadAuthority, ReadScope, AsValue, Labelled;
    if |values| == |ENVELOPE_FIELDS| {
      EnvelopeNamesAreDistinct();
      LabelledReads(ENVELOPE_FIELDS, values);
    }
  }

  // ---- The written form -----------------------------------------------------------------------

  predicate CanonicalUuid(tree: Json) {
    tree.Str? && |tree.text| == 36 && DigitsOf(tree.text).Some? && AllLowerHex(DigitsOf(tree.text).value)
  }

  /** The first fields of a structure in their order, each a string. */
  predicate LeadingStrings(tree: Json, names: seq<string>) {
    && tree.Obj? && 1 <= |tree.fields| <= |names|
    && forall i | 0 <= i < |tree.fields| :: tree.fields[i].0 == names[i] && tree.fields[i].1.Str?
  }

  predicate CanonicalScope(tree: Json) {
    && LeadingStrings(tree, SCOPE_FIELDS)
    && (|tree.fields| > 2 ==> CanonicalUuid(tree.fields[2].1))
    && (|tree.fields| > 3 ==> Canonical(tree.fields[3].1.text))
  }

  /** Objects with their fields in order and no null inside, lower-case hyphenated UUIDs, plain epochs, no name twice. */
  predicate CanonicalTree(tree: Json) {
    && tree.Obj? && |tree.fields| == |ENVELOPE_FIELDS|
    && (forall i | 0 <= i < |tree.fields| :: tree.fields[i].0 == ENVELOPE_FIELDS[i])
    && CanonicalValues(seq(|tree.fields|, i requires 0 <= i < |tree.fields| => tree.fields[i].1))
  }

  predicate CanonicalValues(v: seq<Json>)
    requires |v| == |ENVELOPE_FIELDS|
  {
    && CanonicalUuid(v[1]) && LeadingStrings(v[6], AUTHORITY_FIELDS) && CanonicalScope(v[7])
    && (v[8].Null? || LeadingStrings(v[8], AUTHORITY_FIELDS))
    && CanonicalUuid(v[9]) && (v[10].Null? || CanonicalUuid(v[10])) && Plain(v[11])
  }

  lemma UuidWrittenIff(text: string)
    requires ParseIdentifier(text).Some?
    ensures FormatUuid(ParseIdentifier(text).value) == text <==> CanonicalUuid(Str(text))
  {
    hide FormatUuid, HexValue;
    WrittenFormIsHyphenatedLower(text);
  }

  /** Leading strings of an authority are its own tree. */
  lemma AuthorityIs(tree: Json)
    requires LeadingStrings(tree, AUTHORITY_FIELDS)
    ensures var cellId := if |tree.fields| == 1 then None else Some(tree.fields[1].1.text);
      tree == AuthorityTree(tree.fields[0].1.text, cellId)
      && ReadAuthority(tree) == Some(RawAuthority(tree.fields[0].1.text, cellId))
  {
    hide ReadAuthority;
    var cellId := if |tree.fields| == 1 then None else Some(tree.fields[1].1.text);
    assert tree.fields == AuthorityTree(tree.fields[0].1.text, cellId).fields;
    AuthorityReads(tree.fields[0].1.text, cellId);
  }

  lemma AuthorityIsValue(tree: Json)
    requires LeadingStrings(tree, AUTHORITY_FIELDS)
    ensures AsValue(tree) == tree && tree.Obj?
  {
    hide AsValue, ReadAuthority;
    AuthorityIs(tree);
    AuthorityIsPlain(tree.fields[0].1.text, if |tree.fields| == 1 then None else Some(tree.fields[1].1.text));
  }

  lemma AuthorityLeads(kind: string, cellId: Option<string>)
    ensures LeadingStrings(AuthorityTree(kind, cellId), AUTHORITY_FIELDS)
  {
  }

  lemma SourceWrittenIff(tree: Json, source: MessageAuthority)
    requires ReadAuthority(tree).Some? && DecodeSource(ReadAuthority(tree).value) == Success(source)
    ensures EncodeSource(source) == tree <==> LeadingStrings(tree, AUTHORITY_FIELDS)
  {
    hide ReadAuthority, AuthorityTree, LeadingStrings;
    if LeadingStrings(tree, AUTHORITY_FIELDS) { AuthorityIs(tree); }
    AuthorityLeads(if source.Cell? then "cell" else "platform", if source.Cell? then Some(source.cellId) else None);
  }

  lemma TargetWrittenIff(tree: Json, target: Option<MessageTarget>)
    requires DecodeTarget(AsValue(tree)) == Success(target)
    ensures EncodeTarget(target) == tree <==> tree.Null? || LeadingStrings(tree, AUTHORITY_FIELDS)
  {
    hide ReadAuthority, AuthorityTree, LeadingStrings, AsValue;
    ValueKeepsNull(tree);
    if LeadingStrings(tree, AUTHORITY_FIELDS) {
      AuthorityIs(tree);
      AuthorityIsValue(tree);
    }
    AuthorityLeads("platform", None);
    if target.Some? && target.value.CellTarget? { AuthorityLeads("cell", Some(target.value.targetCell)); }
  }

  lemma ValueKeepsNull(tree: Json)
    ensures AsValue(tree).Null? <==> tree.Null?
    ensures tree.Str? ==> AsValue(tree) == tree
    ensures AsValue(tree).Str? ==> AsValue(tree) == tree
  {
  }

  /** Leading strings of a scope are read as they stand. */
  lemma ScopeIs(tree: Json)
    requires LeadingStrings(tree, SCOPE_FIELDS)
    ensures var (n, f) := (|tree.fields|, tree.fields);
      ReadScope(tree) == Some(RawScope(f[0].1.text, if n < 2 then None else Some(f[1].1.text),
        if n < 3 then None else Some(f[2].1.text), if n < 4 then None else Some(f[3].1.text)))
  {
    hide ReadScope;
    var (n, f) := (|tree.fields|, tree.fields);
    var (cell, tenant, epoch) := (if n < 2 then "" else f[1].1.text, if n < 3 then "" else f[2].1.text,
      if n < 4 then "" else f[3].1.text);
    ScopePrefixReads(n, f[0].1.text, cell, tenant, epoch);
    var all := [("kind", Str(f[0].1.text)), ("cell_id", Str(cell)), ("tenant_id", Str(tenant)), ("assignment_epoch", Str(epoch))];
    forall i | 0 <= i < n ensures f[i] == all[..n][i] { LeadingField(tree, i); }
    assert f == all[..n];
  }

  lemma LeadingField(tree: Json, i: nat)
    requires LeadingStrings(tree, SCOPE_FIELDS) && i < |tree.fields|
    ensures tree.fields[i] == (SCOPE_FIELDS[i], Str(tree.fields[i].1.text))
  {
  }

  lemma ScopeWrittenIff(tree: Json, scope: MessageScope)
    requires ReadScope(tree).Some? && DecodeScope(ReadScope(tree).value) == Success(scope)
    ensures EncodeScope(scope) == tree <==> CanonicalScope(tree)
  {
    hide ReadScope, NewCellId, ParseIdentifier, ParseU64, FormatUuid, Print, ReadCell, CanonicalUuid, Canonical;
    if LeadingStrings(tree, SCOPE_FIELDS) {
      ScopeIs(tree);
      if scope.TenantScope? { TenantTextsWritten(tree, scope); }
      assert EncodeScope(scope) == tree ==> CanonicalScope(tree);
      if CanonicalScope(tree) { assert EncodeScope(scope).fields == tree.fields; }
    } else {
      ScopeLeads(scope);
    }
  }

  lemma ScopeLeads(scope: MessageScope)
    ensures LeadingStrings(EncodeScope(scope), SCOPE_FIELDS)
  {
  }

  lemma TenantTextsWritten(tree: Json, scope: MessageScope)
    requires LeadingStrings(tree, SCOPE_FIELDS) && scope.TenantScope? && |tree.fields| == 4
    requires ParseIdentifier(tree.fields[2].1.text) == Some(scope.tenantId)
    requires ParseU64(tree.fields[3].1.text) == Some(scope.assignmentEpoch)
    ensures FormatUuid(scope.tenantId) == tree.fields[2].1.text <==> CanonicalUuid(tree.fields[2].1)
    ensures Print(scope.assignmentEpoch) == tree.fields[3].1.text <==> Canonical(tree.fields[3].1.text)
  {
    UuidWrittenIff(tree.fields[2].1.text);
    PrintParse(tree.fields[3].1.text);
  }

  /** The values of an accepted envelope are what would be written exactly when they are canonical. */
  lemma ValuesWrittenIff(read: string -> Option<int>, v: seq<Json>, raw: RawEnvelope, m: MessageMetadata)
    requires ReadsStrictTexts(read) && |v| == |ENVELOPE_FIELDS| && FieldsDecodeTo(read, raw, m)
    requires IsRawOf(v, raw)
    ensures EncodedValues(m, raw.payload) == v <==> CanonicalValues(v)
  {
    hide ReadAuthority, ReadScope, DecodeSource, DecodeScope, DecodeTarget, EncodeSource, EncodeScope, EncodeTarget, FormatUuid,
      FormatEmittedAt, ParseIdentifier, ParseEmittedAt, NewMessageName, AsValue, MessageMetadata.BrokenRule, CanonicalUuid,
      LeadingStrings, CanonicalScope, Plain, ReadsStrictTexts;
    UuidWrittenIff(raw.messageId);
    UuidWrittenIff(raw.correlationId);
    SourceWrittenIff(v[6], m.source);
    ScopeWrittenIff(v[7], m.scope);
    TargetWrittenIff(v[8], m.target);
    CausationWrittenIff(v[10], m.causationId);
    AcceptsIffFormatted(read, raw.emittedAt, m.emittedAt);
    AsValueIsPlain(v[11]);
    if Plain(v[11]) { PlainIsOwnValue(v[11]); }
    KindWritten(raw.kind);
    if CanonicalValues(v) {
      var w := EncodedValues(m, raw.payload);
      assert w[0] == v[0] && w[1] == v[1] && w[2] == v[2] && w[3] == v[3] && w[4] == v[4] && w[5] == v[5];
      assert w[6] == v[6] && w[7] == v[7] && w[8] == v[8] && w[9] == v[9] && w[10] == v[10] && w[11] == v[11];
    }
  }

  /** The raw envelope that the reader makes of twelve values. */
  predicate IsRawOf(v: seq<Json>, raw: RawEnvelope)
    requires |v| == |ENVELOPE_FIELDS|
  {
    && v[0] == Int(raw.version) && v[1] == Str(raw.messageId) && v[2] == Str(raw.kind) && v[3] == Str(raw.name)
    && v[4] == Int(raw.schemaVersion) && v[5] == Str(raw.emittedAt)
    && ReadAuthority(v[6]) == Some(raw.source) && ReadScope(v[7]) == Some(raw.scope) && raw.target == AsValue(v[8])
    && v[9] == Str(raw.correlationId) && raw.causationId == AsValue(v[10]) && raw.payload == AsValue(v[11])
  }

  lemma KindWritten(text: string)
    ensures DecodeKind(text).Some? ==> EncodeKind(DecodeKind(text).value) == text
  {
  }

  lemma CausationWrittenIff(tree: Json, causationId: Option<Uuid>)
    requires DecodeCausation(AsValue(tree)) == Success(causationId)
    ensures (if causationId.None? then Null else Str(FormatUuid(causationId.value))) == tree <==> tree.Null? || CanonicalUuid(tree)
  {
    hide FormatUuid, ParseIdentifier, AsValue;
    ValueKeepsNull(tree);
    if AsValue(tree).Str? { UuidWrittenIff(AsValue(tree).text); }
  }

  /** An accepted tree is what would be written for what it says exactly when it has the canonical form. */
  lemma AcceptedIsWrittenIff(read: string -> Option<int>, tree: Json)
    requires ReadsStrictTexts(read) && Parse(read, tree).Success?
    ensures var (m, payload) := Parse(read, tree).value;
      Encode(m, payload) == Success(tree) <==> CanonicalTree(tree)
  {
    hide DecodeRaw, ReadAuthority, ReadScope, AsValue, EncodedValues, FieldsDecodeTo, CanonicalValues, ReadsStrictTexts, IsRawOf;
    var (m, payload) := Parse(read, tree).value;
    var raw := ReadEnvelope(tree).value;
    var v := ReadStruct(tree, ENVELOPE_FIELDS, |ENVELOPE_FIELDS|).value;
    RawDecodesIff(read, raw, m, payload);
    assert payload.Obj? by { AcceptedPayload(read, tree); }
    assert IsRawOf(v, raw) by { RawIsOf(tree); }
    ValuesWrittenIff(read, v, raw, m);
    EnvelopeNamesAreDistinct();
    LabelledReads(ENVELOPE_FIELDS, EncodedValues(m, payload));
    if CanonicalTree(tree) {
      var values := seq(|tree.fields|, i requires 0 <= i < |tree.fields| => tree.fields[i].1);
      LabelledReads(ENVELOPE_FIELDS, values);
      assert tree.fields == Labelled(ENVELOPE_FIELDS, values);
      assert v == values;
    }
    if Encode(m, payload) == Success(tree) {
      assert v == EncodedValues(m, payload);
      assert seq(|tree.fields|, i requires 0 <= i < |tree.fields| => tree.fields[i].1) == v;
    }
  }

  lemma RawIsOf(tree: Json)
    requires ReadEnvelope(tree).Some?
    ensures ReadStruct(tree, ENVELOPE_FIELDS, |ENVELOPE_FIELDS|).Some?
    ensures IsRawOf(ReadStruct(tree, ENVELOPE_FIELDS, |ENVELOPE_FIELDS|).value, ReadEnvelope(tree).value)
  {
    hide ReadStruct, ReadAuthority, ReadScope, AsValue;
  }

  // ---- Fields by their names ------------------------------------------------------------------

  function Field(fields: seq<(string, Json)>, name: string): Json { FieldNamed(fields, name).GetOr(Null) }

  function OrNull(text: Option<string>): Json { if text.None? then Null else Str(text.value) }

  /** The two parts of an authority, under their names or by position. */
  predicate AuthorityParts(tree: Json, kind: string, cell: Option<string>) {
    || (tree.Obj? && Field(tree.fields, "kind") == Str(kind) && Field(tree.fields, "cell_id") == OrNull(cell))
    || tree == Arr([Str(kind), OrNull(cell)])
  }

  predicate SourceParts(tree: Json, source: MessageAuthority) {
    match source
    case Platform => AuthorityParts(tree, "platform", None)
    case Cell(cell) => AuthorityParts(tree, "cell", Some(cell))
  }

  predicate TargetParts(tree: Json, target: Option<MessageTarget>) {
    match target
    case None => tree == Null
    case Some(PlatformTarget) => AuthorityParts(tree, "platform", None)
    case Some(CellTarget(cell)) => AuthorityParts(tree, "cell", Some(cell))
  }

  predicate RawScopeParts(tree: Json, kind: string, cell: Option<string>, tenant: Option<string>, epoch: Option<string>) {
    || (tree.Obj?
        && Field(tree.fields, "kind") == Str(kind) && Field(tree.fields, "cell_id") == OrNull(cell)
        && Field(tree.fields, "tenant_id") == OrNull(tenant) && Field(tree.fields, "assignment_epoch") == OrNull(epoch))
    || tree == Arr([Str(kind), OrNull(cell), OrNull(tenant), OrNull(epoch)])
  }

  ghost predicate ScopeParts(tree: Json, scope: MessageScope) {
    match scope
    case PlatformScope => RawScopeParts(tree, "platform", None, None, None)
    case CellScope(cell) => RawScopeParts(tree, "cell", Some(cell), None, None)
    case TenantScope(tenant, cell, epoch) =>
      exists id, number :: RawScopeParts(tree, "tenant", Some(cell), Some(id), Some(number))
        && ParseIdentifier(id) == Some(tenant) && ParseU64(number) == Some(epoch)
  }

  predicate IdentifierText(tree: Json, id: Uuid) { tree.Str? && ParseIdentifier(tree.text) == Some(id) }

  lemma AuthorityIsNamed(tree: Json)
    requires ReadAuthority(tree).Some?
    ensures AuthorityParts(tree, ReadAuthority(tree).value.kind, ReadAuthority(tree).value.cellId)
  {
    var values := ReadStruct(tree, AUTHORITY_FIELDS, 1).value;
    assert AUTHORITY_FIELDS[0] == "kind" && AUTHORITY_FIELDS[1] == "cell_id";
    if tree.Obj? {
      assert values[0] == Field(tree.fields, AUTHORITY_FIELDS[0]) && values[1] == Field(tree.fields, AUTHORITY_FIELDS[1]);
    } else {
      assert tree.items == [values[0], values[1]];
    }
  }

  lemma ScopeIsNamed(tree: Json)
    requires ReadScope(tree).Some?
    ensures var raw := ReadScope(tree).value; RawScopeParts(tree, raw.kind, raw.cellId, raw.tenantId, raw.epoch)
  {
    var values := ReadStruct(tree, SCOPE_FIELDS, 1).value;
    assert SCOPE_FIELDS[0] == "kind" && SCOPE_FIELDS[1] == "cell_id" && SCOPE_FIELDS[2] == "tenant_id";
    assert SCOPE_FIELDS[3] == "assignment_epoch";
    if tree.Obj? {
      forall i | 0 <= i < 4 ensures values[i] == Field(tree.fields, SCOPE_FIELDS[i]) {}
    } else {
      assert tree.items == [values[0], values[1], values[2], values[3]];
    }
  }

  lemma SourceIsNamed(tree: Json, source: MessageAuthority)
    requires ReadAuthority(tree).Some? && DecodeSource(ReadAuthority(tree).value) == Success(source)
    ensures SourceParts(tree, source)
  {
    hide ReadAuthority, AuthorityParts, NewCellId;
    AuthorityIsNamed(tree);
  }

  lemma TargetIsNamed(tree: Json, target: Option<MessageTarget>)
    requires DecodeTarget(tree) == Success(target)
    ensures TargetParts(tree, target)
  {
    hide ReadAuthority, AuthorityParts, NewCellId;
    if !tree.Null? { AuthorityIsNamed(tree); }
  }

  lemma ScopePartsAreNamed(tree: Json, scope: MessageScope)
    requires ReadScope(tree).Some? && DecodeScope(ReadScope(tree).value) == Success(scope)
    ensures ScopeParts(tree, scope)
  {
    hide ReadScope, RawScopeParts, NewCellId, ParseIdentifier, ParseU64;
    ScopeIsNamed(tree);
  }

  /** The values of an envelope object are the fields under these names, and all are there. */
  lemma NamedValues(fields: seq<(string, Json)>)
    requires ReadStruct(Obj(fields), ENVELOPE_FIELDS, |ENVELOPE_FIELDS|).Some?
    ensures ReadStruct(Obj(fields), ENVELOPE_FIELDS, |ENVELOPE_FIELDS|).value ==
      [Field(fields, "envelope_version"), Field(fields, "message_id"), Field(fields, "message_kind"), Field(fields, "message_name"),
       Field(fields, "message_schema_version"), Field(fields, "emitted_at"), Field(fields, "source"), Field(fields, "scope"),
       Field(fields, "target"), Field(fields, "correlation_id"), Field(fields, "causation_id"), Field(fields, "payload")]
    ensures FieldNamed(fields, "target").Some? && FieldNamed(fields, "causation_id").Some?
  {
    hide FieldNamed;
    var v := ReadStruct(Obj(fields), ENVELOPE_FIELDS, |ENVELOPE_FIELDS|).value;
    var names := ["envelope_version", "message_id", "message_kind", "message_name", "message_schema_version", "emitted_at",
      "source", "scope", "target", "correlation_id", "causation_id", "payload"];
    forall i | 0 <= i < 12 ensures v[i] == Field(fields, names[i]) && FieldNamed(fields, names[i]).Some? {
      assert names[i] == ENVELOPE_FIELDS[i];
    }
    assert names[8] == "target" && names[10] == "causation_id";
  }

  /** Every part of accepted metadata is what the field of its name says. */
  lemma PartsAreNamedFields(read: string -> Option<int>, fields: seq<(string, Json)>)
    requires Parse(read, Obj(fields)).Success?
    ensures var (m, payload) := Parse(read, Obj(fields)).value;
      && Field(fields, "envelope_version") == Int(1)
      && IdentifierText(Field(fields, "message_id"), m.messageId)
      && Field(fields, "message_kind") == Str(if m.descriptor.kind.Command? then "command" else "event")
      && Field(fields, "message_name") == Str(m.descriptor.name)
      && Field(fields, "message_schema_version") == Int(m.descriptor.schemaVersion)
      && (Field(fields, "emitted_at").Str? && ParseEmittedAt(read, Field(fields, "emitted_at").text) == Success(m.emittedAt))
      && SourceParts(Field(fields, "source"), m.source)
      && ScopeParts(Field(fields, "scope"), m.scope)
      && (FieldNamed(fields, "target").Some? && TargetParts(AsValue(Field(fields, "target")), m.target))
      && IdentifierText(Field(fields, "correlation_id"), m.correlationId)
      && (FieldNamed(fields, "causation_id").Some?
          && if m.causationId.None? then Field(fields, "causation_id") == Null
             else IdentifierText(Field(fields, "causation_id"), m.causationId.value))
      && payload == AsValue(Field(fields, "payload"))
  {
    hide ReadStruct, ReadAuthority, ReadScope, DecodeRaw, DecodeSource, DecodeScope, DecodeTarget, ParseIdentifier, ParseEmittedAt,
      NewMessageName, AsValue, MessageMetadata.BrokenRule, SourceParts, ScopeParts, TargetParts, FieldNamed, Field;
    var (m, payload) := Parse(read, Obj(fields)).value;
    var raw := ReadEnvelope(Obj(fields)).value;
    RawDecodesIff(read, raw, m, payload);
    RawIsOf(Obj(fields));
    NamedValues(fields);
    KindWritten(raw.kind);
    SourceIsNamed(Field(fields, "source"), m.source);
    ScopePartsAreNamed(Field(fields, "scope"), m.scope);
    TargetIsNamed(AsValue(Field(fields, "target")), m.target);
    ValueKeepsNull(Field(fields, "causation_id"));
  }

  /** What is written under each name. */
  lemma WrittenFieldsAreNamed(m: MessageMetadata, payload: Json)
    requires payload.Obj?
    ensures Encode(m, payload).Success? && Encode(m, payload).value.Obj?
    ensures var fields := Encode(m, payload).value.fields;
      && |fields| == 12 && UniqueNames(fields)
      && Field(fields, "envelope_version") == Int(1)
      && Field(fields, "message_id") == Str(FormatUuid(m.messageId))
      && Field(fields, "message_kind") == Str(if m.descriptor.kind.Command? then "command" else "event")
      && Field(fields, "message_name") == Str(m.descriptor.name)
      && Field(fields, "message_schema_version") == Int(m.descriptor.schemaVersion)
      && Field(fields, "emitted_at") == Str(FormatEmittedAt(m.emittedAt))
      && Field(fields, "source") == (match m.source
        case Platform => Obj([("kind", Str("platform"))])
        case Cell(cell) => Obj([("kind", Str("cell")), ("cell_id", Str(cell))]))
      && Field(fields, "scope") == (match m.scope
        case PlatformScope => Obj([("kind", Str("platform"))])
        case CellScope(cell) => Obj([("kind", Str("cell")), ("cell_id", Str(cell))])
        case TenantScope(tenant, cell, epoch) =>
          Obj([("kind", Str("tenant")), ("cell_id", Str(cell)), ("tenant_id", Str(FormatUuid(tenant))),
               ("assignment_epoch", Str(Print(epoch)))]))
      && Field(fields, "target") == (match m.target
        case None => Null
        case Some(PlatformTarget) => Obj([("kind", Str("platform"))])
        case Some(CellTarget(cell)) => Obj([("kind", Str("cell")), ("cell_id", Str(cell))]))
      && Field(fields, "correlation_id") == Str(FormatUuid(m.correlationId))
      && Field(fields, "causation_id") == (if m.causationId.None? then Null else Str(FormatUuid(m.causationId.value)))
      && Field(fields, "payload") == payload
  {
    hide FormatUuid, FormatEmittedAt, Print, FieldNamed, Field, ReadStruct;
    EnvelopeNamesAreDistinct();
    LabelledReads(ENVELOPE_FIELDS, EncodedValues(m, payload));
    NamedValues(Encode(m, payload).value.fields);
  }
}
