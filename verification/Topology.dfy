/**
 * The JetStream topology: desired and actual assets, their classification, what a plan lists and what
 * applying it changes. Durations are seconds; a broker stores the configuration it is given.
 */
module Topology {
  import opened Foundation
  import opened Grammar
  import opened Text
  import opened Routing

  const COMMAND_MAX_MESSAGES: int := 1_000_000
  const COMMAND_MAX_BYTES: int := 1_073_741_824
  const COMMAND_MAX_AGE: nat := 604_800
  const EVENT_MAX_MESSAGES: int := 2_000_000
  const EVENT_MAX_BYTES: int := 2_147_483_648
  const EVENT_MAX_AGE: nat := 2_592_000
  const MAX_MESSAGE_SIZE: int := 270_336
  const MAX_CONSUMERS: int := 2_048
  const DUPLICATE_WINDOW: nat := 120
  const STREAM_REPLICAS: nat := 3
  const CONSUMER_REPLICAS: nat := 3
  const ACK_WAIT: nat := 30
  const MAX_ACK_PENDING: int := 1_024
  const MAX_WAITING: int := 64
  const MAX_BATCH: int := 200
  const MAX_EXPIRES: nat := 5

  // ---- Assets ---------------------------------------------------------------------------------

  datatype Retention = WorkQueue | Limits | Interest
  datatype Storage = File | Memory
  datatype Discard = DiscardNew | DiscardOld

  datatype StreamConfig = StreamConfig(
    description: Option<string>,
    subjects: seq<string>,
    retention: Retention,
    storage: Storage,
    replicas: nat,
    discard: Discard,
    maxMessageSize: int,
    maxMessages: int,
    maxBytes: int,
    maxAge: nat,
    maxConsumers: int,
    duplicateWindow: nat,
    noAck: bool,
    allowDirect: bool,
    denyDelete: bool,
    denyPurge: bool,
    republish: bool,
    mirror: bool,
    sources: bool,
    allowBatchPublish: bool)

  datatype DeliverPolicy = DeliverAll | DeliverOther
  datatype AckPolicy = AckExplicit | AckOther
  datatype ReplayPolicy = ReplayInstant | ReplayOriginal

  datatype ConsumerConfig = ConsumerConfig(
    durableName: Option<string>,
    name: Option<string>,
    description: Option<string>,
    deliverSubject: Option<string>,
    deliverPolicy: DeliverPolicy,
    ackPolicy: AckPolicy,
    ackWait: nat,
    maxDeliver: int,
    filterSubject: string,
    replayPolicy: ReplayPolicy,
    maxWaiting: int,
    maxAckPending: int,
    maxBatch: int,
    maxExpires: nat,
    replicas: nat,
    memoryStorage: bool,
    inactiveThreshold: nat,
    rateLimit: nat,
    sampleFrequency: nat,
    backoff: seq<nat>)

  datatype ConsumerKey = ConsumerKey(stream: string, name: string)

  datatype Assets = Assets(streams: map<string, StreamConfig>, consumers: map<ConsumerKey, ConsumerConfig>) {
    /** A consumer belongs to a stream. */
    predicate Valid() { forall key | key in consumers :: key.stream in streams }
  }

  // ---- Manifest -------------------------------------------------------------------------------

  predicate ValidManifest(cells: seq<string>) {
    && 1 <= |cells| <= 1_000
    && (forall i | 0 <= i < |cells| :: ValidCellId(cells[i]))
    && forall i, j | 0 <= i < j < |cells| :: cells[i] != cells[j]
  }

  datatype DesiredStream =
    DesiredStream(name: string, subject: string, retention: string, maxMessages: int, maxBytes: int, maxAge: nat)
  {
    function TransportStream(): TransportStream { if name == Commands.Name() then Commands else Events }

    function ExpectedRetention(): Retention { if TransportStream().Commands? then WorkQueue else Limits }

    function Description(): string { "EdTech " + retention + " transport v1" }

    function ProviderConfig(): StreamConfig {
      StreamConfig(Some(Description()), [subject], ExpectedRetention(), File, STREAM_REPLICAS, DiscardNew, MAX_MESSAGE_SIZE,
        maxMessages, maxBytes, maxAge, MAX_CONSUMERS, DUPLICATE_WINDOW, false, false, true, true, false, false, false, false)
    }
  }

  const DESIRED_COMMANDS := DesiredStream("EDTECH_COMMANDS_V1", "edtech.v1.command.>", "work_queue",
    COMMAND_MAX_MESSAGES, COMMAND_MAX_BYTES, COMMAND_MAX_AGE)
  const DESIRED_EVENTS := DesiredStream("EDTECH_EVENTS_V1", "edtech.v1.event.>", "limits",
    EVENT_MAX_MESSAGES, EVENT_MAX_BYTES, EVENT_MAX_AGE)
  const DESIRED_STREAMS: seq<DesiredStream> := [DESIRED_COMMANDS, DESIRED_EVENTS]

  const CONSUMER_DESCRIPTION := "EdTech durable pull consumer v1"

  /** `DesiredConsumer`, which copies the binding. */
  function ConsumerConfigOf(binding: ConsumerBinding): ConsumerConfig {
    ConsumerConfig(Some(binding.durableName), Some(binding.durableName), Some(CONSUMER_DESCRIPTION), None, DeliverAll,
      AckExplicit, ACK_WAIT, -1, binding.filterSubject, ReplayInstant, MAX_WAITING, MAX_ACK_PENDING, MAX_BATCH, MAX_EXPIRES,
      CONSUMER_REPLICAS, false, 0, 0, 0, [])
  }

  function KeyOf(binding: ConsumerBinding): ConsumerKey { ConsumerKey(binding.stream.Name(), binding.durableName) }

  /** `TopologyManifest::consumers`, in manifest order. */
  function DesiredConsumers(cells: seq<string>): seq<ConsumerBinding> {
    if cells == [] then [PlatformCommandBinding(), PlatformEventBinding()]
    else
      DesiredConsumers(cells[..|cells| - 1])
      + [CellCommandBinding(cells[|cells| - 1]), CellEventBinding(cells[|cells| - 1])]
  }

  // ---- Classification -------------------------------------------------------------------------

  datatype TopologyAction = Create | SafeUpdate | NoChange | Refused | UnknownAsset

  datatype DriftCategory =
    | Missing | SafeCapacityIncrease | Converged | SubjectChange | RetentionChange | StorageChange | ReplicaChange
    | LimitDecrease | ConsumerIdentityChange | ForbiddenFeature | UnknownEdtechAsset

  datatype PlanItem = PlanItem(asset: string, action: TopologyAction, category: DriftCategory)

  function Drift(category: DriftCategory): TopologyAction {
    match category
    case Missing => Create
    case SafeCapacityIncrease => SafeUpdate
    case Converged => NoChange
    case UnknownEdtechAsset => UnknownAsset
    case _ => Refused
  }

  function Item(asset: string, category: DriftCategory): PlanItem { PlanItem(asset, Drift(category), category) }

  /** `classify_stream`. */
  function ClassifyStream(desired: DesiredStream, actual: StreamConfig): DriftCategory {
    if actual.subjects != [desired.subject] then SubjectChange
    else if actual.retention != desired.ExpectedRetention() then RetentionChange
    else if actual.storage != File then StorageChange
    else if actual.replicas > STREAM_REPLICAS then ReplicaChange
    else if actual.maxMessages > desired.maxMessages || actual.maxBytes > desired.maxBytes || actual.maxAge > desired.maxAge
      || actual.maxConsumers > MAX_CONSUMERS || actual.maxMessageSize > MAX_MESSAGE_SIZE
      || actual.duplicateWindow > DUPLICATE_WINDOW then LimitDecrease
    else if actual.discard != DiscardNew || actual.noAck || actual.allowDirect || actual.republish || actual.mirror
      || actual.sources || actual.allowBatchPublish then ForbiddenFeature
    else if actual.replicas < STREAM_REPLICAS || actual.maxMessages < desired.maxMessages || actual.maxBytes < desired.maxBytes
      || actual.maxAge < desired.maxAge || actual.maxConsumers < MAX_CONSUMERS || actual.maxMessageSize < MAX_MESSAGE_SIZE
      || actual.duplicateWindow != DUPLICATE_WINDOW || actual.description != Some(desired.Description()) then
      SafeCapacityIncrease
    else Converged
  }

  /** `classify_consumer`. */
  function ClassifyConsumer(desired: ConsumerBinding, actual: ConsumerConfig): DriftCategory {
    if !(actual.durableName == Some(desired.durableName) && actual.name == Some(desired.durableName)
      && actual.deliverSubject.None? && actual.filterSubject == desired.filterSubject && actual.deliverPolicy.DeliverAll?
      && actual.ackPolicy.AckExplicit? && actual.replayPolicy.ReplayInstant? && actual.ackWait == ACK_WAIT
      && actual.maxDeliver == -1 && actual.inactiveThreshold == 0) then ConsumerIdentityChange
    else if actual.replicas > CONSUMER_REPLICAS then ReplicaChange
    else if actual.maxAckPending > MAX_ACK_PENDING || actual.maxWaiting > MAX_WAITING || actual.maxBatch > MAX_BATCH
      || actual.maxExpires > MAX_EXPIRES then LimitDecrease
    else if actual.memoryStorage || actual.rateLimit != 0 || actual.sampleFrequency != 0 || actual.backoff != [] then
      ForbiddenFeature
    else if actual.replicas < CONSUMER_REPLICAS || actual.maxAckPending < MAX_ACK_PENDING || actual.maxWaiting < MAX_WAITING
      || actual.maxBatch < MAX_BATCH || actual.maxExpires < MAX_EXPIRES || actual.description != Some(CONSUMER_DESCRIPTION) then
      SafeCapacityIncrease
    else Converged
  }

  function StreamCategory(b: Assets, desired: DesiredStream): DriftCategory {
    if desired.name in b.streams then ClassifyStream(desired, b.streams[desired.name]) else Missing
  }

  /** The category of a declared durable; all durables of a missing stream are missing. */
  function ConsumerCategory(b: Assets, desired: ConsumerBinding): DriftCategory {
    if desired.stream.Name() in b.streams && KeyOf(desired) in b.consumers then
      ClassifyConsumer(desired, b.consumers[KeyOf(desired)])
    else Missing
  }

  // ---- Names in order -------------------------------------------------------------------------

  /** The order of `BTreeSet<String>`. */
  predicate NameBefore(a: string, b: string) {
    b != "" && (a == "" || a[0] < b[0] || (a[0] == b[0] && NameBefore(a[1..], b[1..])))
  }

  lemma {:induction false} NamesAreOrdered(a: string, b: string)
    ensures a == b || NameBefore(a, b) || NameBefore(b, a)
    ensures !(NameBefore(a, b) && NameBefore(b, a)) && !NameBefore(a, a)
  {
    if a != "" {
      if b != "" {
        NamesAreOrdered(a[1..], b[1..]);
        assert a == [a[0]] + a[1..] && b == [b[0]] + b[1..];
      }
      NamesAreOrdered(a[1..], a[1..]);
    }
  }

  lemma {:induction false} OrderIsTransitive(a: string, b: string, c: string)
    requires NameBefore(a, b) && NameBefore(b, c)
    ensures NameBefore(a, c)
  {
    if a != "" && a[0] == b[0] && b[0] == c[0] { OrderIsTransitive(a[1..], b[1..], c[1..]); }
  }

  ghost function Least(names: set<string>): (least: string)
    requires names != {}
    ensures least in names && forall other | other in names && other != least :: NameBefore(least, other)
  {
    var name :| name in names;
    if names == {name} then name
    else
      assert names - {name} != {};
      var rest := Least(names - {name});
      NamesAreOrdered(name, rest);
      assert forall other | other in names && NameBefore(name, rest) && NameBefore(rest, other) :: NameBefore(name, other) by {
        forall other | other in names && NameBefore(name, rest) && NameBefore(rest, other) ensures NameBefore(name, other) {
          OrderIsTransitive(name, rest, other);
        }
      }
      if NameBefore(name, rest) then name else rest
  }

  ghost function Sorted(names: set<string>): (list: seq<string>)
    ensures forall name :: name in list <==> name in names
  {
    if names == {} then [] else [Least(names)] + Sorted(names - {Least(names)})
  }

  // ---- Plans ----------------------------------------------------------------------------------

  const EDTECH_PREFIX := "EDTECH_"

  predicate IsDesiredStream(name: string) { exists i | 0 <= i < |DESIRED_STREAMS| :: DESIRED_STREAMS[i].name == name }

  predicate IsDesiredDurable(cells: seq<string>, name: string) {
    exists i | 0 <= i < |DesiredConsumers(cells)| :: DesiredConsumers(cells)[i].durableName == name
  }

  function UndeclaredStreams(b: Assets): set<string> {
    set name | name in b.streams && StartsWith(name, EDTECH_PREFIX) && !IsDesiredStream(name)
  }

  /** Undeclared means declared for neither stream, whichever stream the consumer is on. */
  function UndeclaredConsumers(b: Assets, cells: seq<string>, stream: string): set<string> {
    set key | key in b.consumers && key.stream == stream && StartsWith(key.name, EDTECH_PREFIX)
      && !IsDesiredDurable(cells, key.name) :: key.name
  }

  function Unknowns(names: seq<string>): seq<PlanItem> { seq(|names|, i requires 0 <= i < |names| => Item(names[i],
    UnknownEdtechAsset)) }

  function StreamItems(b: Assets, desired: seq<DesiredStream>): seq<PlanItem> {
    seq(|desired|, i requires 0 <= i < |desired| => Item(desired[i].name, StreamCategory(b, desired[i])))
  }

  /** The items of the declared durables of one stream, in manifest order. */
  function ConsumerItems(b: Assets, desired: seq<ConsumerBinding>, stream: string): seq<PlanItem> {
    if desired == [] then []
    else
      var last := desired[|desired| - 1];
      ConsumerItems(b, desired[..|desired| - 1], stream)
      + if last.stream.Name() == stream then [Item(last.durableName, ConsumerCategory(b, last))] else []
  }

  ghost function StreamConsumerItems(b: Assets, cells: seq<string>, stream: string): seq<PlanItem> {
    ConsumerItems(b, DesiredConsumers(cells), stream)
    + if stream in b.streams then Unknowns(Sorted(UndeclaredConsumers(b, cells, stream))) else []
  }

  /** `plan`. */
  ghost function PlanOf(b: Assets, cells: seq<string>): seq<PlanItem> {
    StreamItems(b, DESIRED_STREAMS)
    + Unknowns(Sorted(UndeclaredStreams(b)))
    + StreamConsumerItems(b, cells, DESIRED_COMMANDS.name)
    + StreamConsumerItems(b, cells, DESIRED_EVENTS.name)
  }

  predicate HasRefusedChange(items: seq<PlanItem>) { exists i | 0 <= i < |items| :: items[i].action == Refused }

  predicate IsConverged(items: seq<PlanItem>) {
    forall i | 0 <= i < |items| :: items[i].action == NoChange || items[i].action == UnknownAsset
  }

  /** `action_for`: the first item of that name, whatever kind of asset it is about. */
  function ActionFor(items: seq<PlanItem>, asset: string): Option<TopologyAction> {
    if items == [] then None
    else if items[0].asset == asset then Some(items[0].action)
    else ActionFor(items[1..], asset)
  }

  // ---- Applying -------------------------------------------------------------------------------

  predicate Changes(items: seq<PlanItem>, asset: string) {
    ActionFor(items, asset) == Some(Create) || ActionFor(items, asset) == Some(SafeUpdate)
  }

  function WithStream(b: Assets, desired: DesiredStream): Assets {
    b.(streams := b.streams[desired.name := desired.ProviderConfig()])
  }

  function WithConsumer(b: Assets, desired: ConsumerBinding): Assets {
    b.(consumers := b.consumers[KeyOf(desired) := ConsumerConfigOf(desired)])
  }

  /** The streams among `desired` that the plan creates or updates. */
  function WithStreams(b: Assets, items: seq<PlanItem>, desired: seq<DesiredStream>): Assets {
    if desired == [] then b
    else
      var last := desired[|desired| - 1];
      var rest := WithStreams(b, items, desired[..|desired| - 1]);
      if Changes(items, last.name) then WithStream(rest, last) else rest
  }

  function WithConsumers(b: Assets, items: seq<PlanItem>, desired: seq<ConsumerBinding>): Assets {
    if desired == [] then b
    else
      var last := desired[|desired| - 1];
      var rest := WithConsumers(b, items, desired[..|desired| - 1]);
      if Changes(items, last.durableName) then WithConsumer(rest, last) else rest
  }

  /** Everything the mutation phase of `apply` writes, if no broker call fails. */
  function Applied(b: Assets, cells: seq<string>, items: seq<PlanItem>): Assets {
    WithConsumers(WithStreams(b, items, DESIRED_STREAMS), items, DesiredConsumers(cells))
  }
}
