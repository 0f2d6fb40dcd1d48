/**
 * What applying a plan achieves: it converges exactly when no stream shadows a durable that needs work, it
 * leaves every other asset alone, it can be repeated and resumed, and what it reaches is what workers check.
 */
module TopologyConvergence {
  import opened Foundation
  import opened Grammar
  import opened MessageDomain
  import opened Text
  import opened Routing
  import opened Topology
  import Subjects

  // ---- Declared names -------------------------------------------------------------------------

  lemma {:induction false} DesiredAreDeclared(cells: seq<string>, i: nat)
    requires i < |DesiredConsumers(cells)|
    ensures Subjects.Declared((set c | c in cells), DesiredConsumers(cells)[i])
    decreases |cells|
  {
    if cells != [] && i < |DesiredConsumers(cells[..|cells| - 1])| {
      DesiredAreDeclared(cells[..|cells| - 1], i);
    } else if cells != [] {
      assert cells[|cells| - 1] in cells;
    }
  }

  /** Durable names of a manifest are distinct as a list, not only as a set. */
  lemma {:induction false} DesiredAreDistinct(cells: seq<string>, i: nat, j: nat)
    requires ValidManifest(cells) && i < j < |DesiredConsumers(cells)|
    ensures DesiredConsumers(cells)[i].durableName != DesiredConsumers(cells)[j].durableName
  {
    var all := DesiredConsumers(cells);
    var names := set c | c in cells;
    DesiredAreDeclared(cells, i);
    DesiredAreDeclared(cells, j);
    if all[i].durableName == all[j].durableName {
      Subjects.DurableNamesAreDistinct(names, all[i], all[j]);
      SameBindingOnce(cells, i, j);
    }
  }

  /** The list holds each binding once, since Cells are distinct and their filters name them. */
  lemma {:induction false} SameBindingOnce(cells: seq<string>, i: nat, j: nat)
    requires forall k | 0 <= k < |cells| :: ValidCellId(cells[k])
    requires forall k, l | 0 <= k < l < |cells| :: cells[k] != cells[l]
    requires i < j < |DesiredConsumers(cells)|
    ensures DesiredConsumers(cells)[i] != DesiredConsumers(cells)[j]
    decreases |cells|
  {
    if cells == [] {
      assert |PlatformCommandBinding().durableName| != |PlatformEventBinding().durableName|;
    } else {
      var (front, last) := (cells[..|cells| - 1], cells[|cells| - 1]);
      var before := DesiredConsumers(front);
      if j < |before| {
        SameBindingOnce(front, i, j);
      } else if i >= |before| {
        assert CellCommandBinding(last).stream != CellEventBinding(last).stream;
      } else {
        NotAmongEarlier(front, last, i);
      }
    }
  }

  lemma NotAmongEarlier(cells: seq<string>, cell: string, i: nat)
    requires forall k | 0 <= k < |cells| :: ValidCellId(cells[k])
    requires ValidCellId(cell) && cell !in cells && i < |DesiredConsumers(cells)|
    ensures DesiredConsumers(cells)[i] !in {CellCommandBinding(cell), CellEventBinding(cell)}
  {
    var names := set c | c in cells;
    var binding := DesiredConsumers(cells)[i];
    DesiredAreDeclared(cells, i);
    if binding in {CellCommandBinding(cell), CellEventBinding(cell)} {
      Subjects.BindingsBelongToOneWorker(Owner(names, binding), MessageDomain.Cell(cell), binding);
    }
  }

  /** The authority whose worker binds a declared durable. */
  ghost function Owner(cells: set<string>, binding: ConsumerBinding): (owner: MessageDomain.MessageAuthority)
    requires ValidCells(cells) && Subjects.Declared(cells, binding)
    ensures owner.Valid() && RoleAllowsBinding(WorkerOf(owner), binding)
    ensures owner.Cell? ==> owner.cellId in cells
  {
    if binding == PlatformCommandBinding() || binding == PlatformEventBinding() then MessageDomain.Platform
    else
      var cell :| cell in cells && (binding == CellCommandBinding(cell) || binding == CellEventBinding(cell));
      MessageDomain.Cell(cell)
  }

  /** Durable names carry the reserved prefix and are no stream's declared name. */
  lemma DurableNameShape(cells: seq<string>, i: nat)
    requires i < |DesiredConsumers(cells)|
    ensures StartsWith(DesiredConsumers(cells)[i].durableName, EDTECH_PREFIX)
    ensures !IsDesiredStream(DesiredConsumers(cells)[i].durableName)
    ensures DesiredConsumers(cells)[i].stream.Name() in {DESIRED_COMMANDS.name, DESIRED_EVENTS.name}
  {
    var names := set c | c in cells;
    var binding := DesiredConsumers(cells)[i];
    DesiredAreDeclared(cells, i);
    var name := binding.durableName;
    PrefixOfNames(binding);
    assert name[7] == 'P' || (name[7] == 'C' && name[8] == 'E');
    assert DESIRED_COMMANDS.name[8] == 'O' && DESIRED_EVENTS.name[7] == 'E';
  }

  lemma PrefixOfNames(binding: ConsumerBinding)
    requires || binding == PlatformCommandBinding() || binding == PlatformEventBinding()
      || exists cell :: binding == CellCommandBinding(cell) || binding == CellEventBinding(cell)
    ensures |binding.durableName| >= 9
    ensures StartsWith(binding.durableName, EDTECH_PREFIX)
    ensures binding.durableName[7] == 'P' || (binding.durableName[7] == 'C' && binding.durableName[8] == 'E')
  {
    var name := binding.durableName;
    assert "EDTECH_PLATFORM_COMMANDS_V1"[..7] == EDTECH_PREFIX && "EDTECH_PLATFORM_EVENTS_V1"[..7] == EDTECH_PREFIX;
    if binding != PlatformCommandBinding() && binding != PlatformEventBinding() {
      var cell :| binding == CellCommandBinding(cell) || binding == CellEventBinding(cell);
      assert "EDTECH_CELL_"[..7] == EDTECH_PREFIX;
      assert name[..7] == "EDTECH_CELL_"[..7];
      assert name[7] == "EDTECH_CELL_"[7] && name[8] == "EDTECH_CELL_"[8];
    }
  }

  // ---- Reading a plan -------------------------------------------------------------------------

  lemma {:induction false} ActionForConcat(a: seq<PlanItem>, b: seq<PlanItem>, asset: string)
    ensures ActionFor(a + b, asset) == if ActionFor(a, asset).Some? then ActionFor(a, asset) else ActionFor(b, asset)
  {
    if a == [] {
      assert a + b == b;
    } else {
      assert (a + b)[1..] == a[1..] + b;
      ActionForConcat(a[1..], b, asset);
    }
  }

  lemma {:induction false} ActionForUnknowns(names: seq<string>, asset: string)
    ensures ActionFor(Unknowns(names), asset) == if asset in names then Some(UnknownAsset) else None
  {
    if names != [] {
      assert Unknowns(names)[1..] == Unknowns(names[1..]);
      ActionForUnknowns(names[1..], asset);
    }
  }

  predicate DistinctDurables(desired: seq<ConsumerBinding>) {
    forall i, j | 0 <= i < j < |desired| :: desired[i].durableName != desired[j].durableName
  }

  lemma {:induction false} ActionForDurables(b: Assets, desired: seq<ConsumerBinding>, stream: string, i: nat)
    requires DistinctDurables(desired) && i < |desired|
    ensures ActionFor(ConsumerItems(b, desired, stream), desired[i].durableName)
      == if desired[i].stream.Name() == stream then Some(Drift(ConsumerCategory(b, desired[i]))) else None
  {
    var (front, last) := (desired[..|desired| - 1], desired[|desired| - 1]);
    var items := ConsumerItems(b, front, stream);
    var tail := if last.stream.Name() == stream then [Item(last.durableName, ConsumerCategory(b, last))] else [];
    ActionForConcat(items, tail, desired[i].durableName);
    if i < |front| {
      ActionForDurables(b, front, stream, i);
      assert desired[i].durableName != last.durableName;
    } else {
      OtherDurable(b, front, stream, last.durableName);
    }
  }

  lemma {:induction false} OtherDurable(b: Assets, desired: seq<ConsumerBinding>, stream: string, name: string)
    requires forall i | 0 <= i < |desired| :: desired[i].durableName != name
    ensures ActionFor(ConsumerItems(b, desired, stream), name) == None
  {
    if desired != [] {
      var (front, last) := (desired[..|desired| - 1], desired[|desired| - 1]);
      OtherDurable(b, front, stream, name);
      ActionForConcat(ConsumerItems(b, front, stream),
        if last.stream.Name() == stream then [Item(last.durableName, ConsumerCategory(b, last))] else [], name);
    }
  }

  /** A stream's action is its own classification: stream items come first. */
  lemma StreamAction(b: Assets, cells: seq<string>, k: nat)
    requires k < |DESIRED_STREAMS|
    ensures ActionFor(PlanOf(b, cells), DESIRED_STREAMS[k].name) == Some(Drift(StreamCategory(b, DESIRED_STREAMS[k])))
  {
    hide StreamCategory, ClassifyStream, StreamConsumerItems, UndeclaredStreams;
    var items := StreamItems(b, DESIRED_STREAMS);
    assert DESIRED_COMMANDS.name != DESIRED_EVENTS.name;
    assert items[1..][0] == items[1];
    var rest := Unknowns(Sorted(UndeclaredStreams(b))) + StreamConsumerItems(b, cells, DESIRED_COMMANDS.name)
      + StreamConsumerItems(b, cells, DESIRED_EVENTS.name);
    assert PlanOf(b, cells) == items + rest;
    ActionForConcat(items, rest, DESIRED_STREAMS[k].name);
  }

  /** A durable's action is its own classification, unless a stream of that name is listed before it. */
  lemma DurableAction(b: Assets, cells: seq<string>, i: nat)
    requires ValidManifest(cells) && i < |DesiredConsumers(cells)|
    ensures var c := DesiredConsumers(cells)[i];
      ActionFor(PlanOf(b, cells), c.durableName)
      == Some(if c.durableName in b.streams then UnknownAsset else Drift(ConsumerCategory(b, c)))
  {
    hide StreamCategory, ConsumerCategory, DesiredConsumers, StartsWith, IsDesiredStream;
    var all := DesiredConsumers(cells);
    var c := all[i];
    DurableNameShape(cells, i);
    forall k, l | 0 <= k < l < |all| ensures all[k].durableName != all[l].durableName { DesiredAreDistinct(cells, k, l); }
    var (streams, extras) := (StreamItems(b, DESIRED_STREAMS), Unknowns(Sorted(UndeclaredStreams(b))));
    NoStreamItem(b, c.durableName);
    ActionForUnknowns(Sorted(UndeclaredStreams(b)), c.durableName);
    var (commands, events) := (StreamConsumerItems(b, cells, DESIRED_COMMANDS.name), StreamConsumerItems(b, cells, DESIRED_EVENTS.name));
    StreamDurableAction(b, cells, i, DESIRED_COMMANDS.name);
    StreamDurableAction(b, cells, i, DESIRED_EVENTS.name);
    ActionForConcat(streams + extras + commands, events, c.durableName);
    ActionForConcat(streams + extras, commands, c.durableName);
    ActionForConcat(streams, extras, c.durableName);
  }

  lemma NoStreamItem(b: Assets, name: string)
    requires !IsDesiredStream(name)
    ensures ActionFor(StreamItems(b, DESIRED_STREAMS), name) == None
  {
    hide StreamCategory;
    var items := StreamItems(b, DESIRED_STREAMS);
    assert DESIRED_STREAMS[0].name != name && DESIRED_STREAMS[1].name != name;
    assert items[1..][1..] == [];
    assert ActionFor(items[1..], name) == ActionFor(items[1..][1..], name);
  }

  lemma StreamDurableAction(b: Assets, cells: seq<string>, i: nat, stream: string)
    requires i < |DesiredConsumers(cells)| && DistinctDurables(DesiredConsumers(cells))
    ensures var c := DesiredConsumers(cells)[i];
      ActionFor(StreamConsumerItems(b, cells, stream), c.durableName)
      == if c.stream.Name() == stream then Some(Drift(ConsumerCategory(b, c))) else None
  {
    hide ConsumerCategory, DesiredConsumers;
    var name := DesiredConsumers(cells)[i].durableName;
    ActionForDurables(b, DesiredConsumers(cells), stream, i);
    var extras := if stream in b.streams then Unknowns(Sorted(UndeclaredConsumers(b, cells, stream))) else [];
    ActionForConcat(ConsumerItems(b, DesiredConsumers(cells), stream), extras, name);
    if stream in b.streams { ActionForUnknowns(Sorted(UndeclaredConsumers(b, cells, stream)), name); }
  }

  // ---- Converged and refused plans ------------------------------------------------------------

  lemma {:induction false} ConsumerItemsAre(b: Assets, desired: seq<ConsumerBinding>, stream: string, item: PlanItem)
    ensures item in ConsumerItems(b, desired, stream) <==>
      exists i | 0 <= i < |desired| :: desired[i].stream.Name() == stream
        && item == Item(desired[i].durableName, ConsumerCategory(b, desired[i]))
  {
    if desired != [] {
      var front := desired[..|desired| - 1];
      ConsumerItemsAre(b, front, stream, item);
      if item in ConsumerItems(b, front, stream) {
        var i :| 0 <= i < |front| && front[i].stream.Name() == stream
          && item == Item(front[i].durableName, ConsumerCategory(b, front[i]));
        assert desired[i] == front[i];
      }
      forall i | 0 <= i < |front| ensures front[i] == desired[i] {}
    }
  }

  ghost predicate Lists(items: seq<PlanItem>, action: TopologyAction) { exists item | item in items :: item.action == action }

  /** Some declared asset calls for this action. */
  ghost predicate Calls(b: Assets, cells: seq<string>, action: TopologyAction) {
    || (exists k | 0 <= k < |DESIRED_STREAMS| :: Drift(StreamCategory(b, DESIRED_STREAMS[k])) == action)
    || (exists i | 0 <= i < |DesiredConsumers(cells)| :: Drift(ConsumerCategory(b, DesiredConsumers(cells)[i])) == action)
  }

  /** A plan holds one item per declared asset, and no other action than unknown besides. */
  lemma PlanLists(b: Assets, cells: seq<string>, action: TopologyAction)
    requires action != UnknownAsset
    ensures Lists(PlanOf(b, cells), action) <==> Calls(b, cells, action)
  {
    hide StreamCategory, ConsumerCategory, DesiredConsumers, IsDesiredDurable, UndeclaredStreams, UndeclaredConsumers;
    var all := DesiredConsumers(cells);
    var plan := PlanOf(b, cells);
    if k :| 0 <= k < |DESIRED_STREAMS| && Drift(StreamCategory(b, DESIRED_STREAMS[k])) == action {
      assert StreamItems(b, DESIRED_STREAMS)[k] in plan;
    }
    if i :| 0 <= i < |all| && Drift(ConsumerCategory(b, all[i])) == action {
      DurableIsListed(b, cells, i);
    }
    if Lists(plan, action) {
      var item :| item in plan && item.action == action;
      ListedIsDeclared(b, cells, item);
    }
  }

  lemma DurableIsListed(b: Assets, cells: seq<string>, i: nat)
    requires i < |DesiredConsumers(cells)|
    ensures var c := DesiredConsumers(cells)[i]; Item(c.durableName, ConsumerCategory(b, c)) in PlanOf(b, cells)
  {
    hide StreamCategory, ConsumerCategory, DesiredConsumers, IsDesiredDurable, UndeclaredStreams, UndeclaredConsumers;
    var c := DesiredConsumers(cells)[i];
    DurableNameShape(cells, i);
    ConsumerItemsAre(b, DesiredConsumers(cells), c.stream.Name(), Item(c.durableName, ConsumerCategory(b, c)));
  }

  lemma ListedIsDeclared(b: Assets, cells: seq<string>, item: PlanItem)
    requires item in PlanOf(b, cells) && item.action != UnknownAsset
    ensures
      || (exists k | 0 <= k < |DESIRED_STREAMS| :: item.action == Drift(StreamCategory(b, DESIRED_STREAMS[k])))
      || (exists i | 0 <= i < |DesiredConsumers(cells)| :: item.action == Drift(ConsumerCategory(b, DesiredConsumers(cells)[i])))
  {
    hide StreamCategory, ConsumerCategory, DesiredConsumers, IsDesiredDurable, UndeclaredStreams, UndeclaredConsumers;
    hide Sorted, Unknowns, ConsumerItems, StreamItems, StreamConsumerItems;
    if item in StreamItems(b, DESIRED_STREAMS) {
      StreamItemIs(b, item);
    } else if item in Unknowns(Sorted(UndeclaredStreams(b))) {
      UnknownsAreUnknown(Sorted(UndeclaredStreams(b)), item);
    } else if item in StreamConsumerItems(b, cells, DESIRED_COMMANDS.name) {
      StreamConsumerItemIs(b, cells, DESIRED_COMMANDS.name, item);
    } else {
      StreamConsumerItemIs(b, cells, DESIRED_EVENTS.name, item);
    }
  }

  lemma StreamItemIs(b: Assets, item: PlanItem)
    requires item in StreamItems(b, DESIRED_STREAMS)
    ensures exists k | 0 <= k < |DESIRED_STREAMS| :: item == Item(DESIRED_STREAMS[k].name, StreamCategory(b, DESIRED_STREAMS[k]))
  {
    hide StreamCategory;
    var k :| 0 <= k < |DESIRED_STREAMS| && item == StreamItems(b, DESIRED_STREAMS)[k];
  }

  lemma UnknownsAreUnknown(names: seq<string>, item: PlanItem)
    requires item in Unknowns(names)
    ensures item.action == UnknownAsset && item == Item(item.asset, UnknownEdtechAsset) && item.asset in names
  {
    var k :| 0 <= k < |names| && item == Unknowns(names)[k];
  }

  lemma StreamConsumerItemIs(b: Assets, cells: seq<string>, stream: string, item: PlanItem)
    requires item in StreamConsumerItems(b, cells, stream) && item.action != UnknownAsset
    ensures exists i | 0 <= i < |DesiredConsumers(cells)| ::
      item == Item(DesiredConsumers(cells)[i].durableName, ConsumerCategory(b, DesiredConsumers(cells)[i]))
  {
    hide ConsumerCategory, DesiredConsumers, Sorted, Unknowns, ConsumerItems, UndeclaredConsumers;
    ConsumerItemsAre(b, DesiredConsumers(cells), stream, item);
    if stream in b.streams && item in Unknowns(Sorted(UndeclaredConsumers(b, cells, stream))) {
      UnknownsAreUnknown(Sorted(UndeclaredConsumers(b, cells, stream)), item);
    }
  }

  /** Every declared asset is there exactly as declared. */
  predicate AllConverged(b: Assets, cells: seq<string>) {
    && (forall k | 0 <= k < |DESIRED_STREAMS| :: StreamCategory(b, DESIRED_STREAMS[k]) == Converged)
    && (forall i | 0 <= i < |DesiredConsumers(cells)| :: ConsumerCategory(b, DesiredConsumers(cells)[i]) == Converged)
  }

  predicate NoneRefused(b: Assets, cells: seq<string>) {
    && (forall k | 0 <= k < |DESIRED_STREAMS| :: Drift(StreamCategory(b, DESIRED_STREAMS[k])) != Refused)
    && (forall i | 0 <= i < |DesiredConsumers(cells)| :: Drift(ConsumerCategory(b, DesiredConsumers(cells)[i])) != Refused)
  }

  lemma VerdictsAreLists(items: seq<PlanItem>)
    ensures HasRefusedChange(items) <==> Lists(items, Refused)
    ensures IsConverged(items) <==> !Lists(items, Refused) && !Lists(items, Create) && !Lists(items, SafeUpdate)
  {
    if HasRefusedChange(items) {
      var i :| 0 <= i < |items| && items[i].action == Refused;
      assert items[i] in items;
    }
    if !IsConverged(items) {
      var i :| 0 <= i < |items| && items[i].action != NoChange && items[i].action != UnknownAsset;
      assert items[i] in items;
    }
  }

  lemma PlanVerdicts(b: Assets, cells: seq<string>)
    ensures IsConverged(PlanOf(b, cells)) <==> AllConverged(b, cells)
    ensures HasRefusedChange(PlanOf(b, cells)) <==> !NoneRefused(b, cells)
  {
    hide Calls, PlanOf, IsConverged, HasRefusedChange, Lists, AllConverged, NoneRefused;
    PlanLists(b, cells, Refused);
    PlanLists(b, cells, Create);
    PlanLists(b, cells, SafeUpdate);
    VerdictsAreLists(PlanOf(b, cells));
    DeclaredVerdicts(b, cells);
  }

  /** A category that is not unknown asks for nothing exactly when it is converged. */
  lemma NothingToDo(category: DriftCategory)
    requires category != UnknownEdtechAsset
    ensures category == Converged <==> Drift(category) != Refused && Drift(category) != Create && Drift(category) != SafeUpdate
  {
  }

  lemma DeclaredVerdicts(b: Assets, cells: seq<string>)
    ensures NoneRefused(b, cells) <==> !Calls(b, cells, Refused)
    ensures AllConverged(b, cells) <==> !Calls(b, cells, Refused) && !Calls(b, cells, Create) && !Calls(b, cells, SafeUpdate)
  {
    hide StreamCategory, ConsumerCategory, DesiredConsumers, Drift;
    forall k | 0 <= k < |DESIRED_STREAMS|
      ensures var d := Drift(StreamCategory(b, DESIRED_STREAMS[k]));
        StreamCategory(b, DESIRED_STREAMS[k]) == Converged <==> d != Refused && d != Create && d != SafeUpdate
    {
      KnownStream(b, DESIRED_STREAMS[k]);
      NothingToDo(StreamCategory(b, DESIRED_STREAMS[k]));
    }
    forall i | 0 <= i < |DesiredConsumers(cells)|
      ensures var d := Drift(ConsumerCategory(b, DesiredConsumers(cells)[i]));
        ConsumerCategory(b, DesiredConsumers(cells)[i]) == Converged <==> d != Refused && d != Create && d != SafeUpdate
    {
      KnownConsumer(b, DesiredConsumers(cells)[i]);
      NothingToDo(ConsumerCategory(b, DesiredConsumers(cells)[i]));
    }
  }

  /** A declared asset is never classified as unknown. */
  lemma KnownStream(b: Assets, desired: DesiredStream)
    ensures StreamCategory(b, desired) != UnknownEdtechAsset
  {
  }

  lemma KnownConsumer(b: Assets, desired: ConsumerBinding)
    ensures ConsumerCategory(b, desired) != UnknownEdtechAsset
  {
  }

  lemma CategoriesOfDeclared(b: Assets, cells: seq<string>)
    ensures forall k | 0 <= k < |DESIRED_STREAMS| :: Drift(StreamCategory(b, DESIRED_STREAMS[k])) != UnknownAsset
    ensures forall i | 0 <= i < |DesiredConsumers(cells)| :: Drift(ConsumerCategory(b, DesiredConsumers(cells)[i])) != UnknownAsset
  {
    hide StreamCategory, ConsumerCategory, DesiredConsumers;
    forall k | 0 <= k < |DESIRED_STREAMS| ensures Drift(StreamCategory(b, DESIRED_STREAMS[k])) != UnknownAsset {
      KnownStream(b, DESIRED_STREAMS[k]);
    }
    forall i | 0 <= i < |DesiredConsumers(cells)|
      ensures Drift(ConsumerCategory(b, DesiredConsumers(cells)[i])) != UnknownAsset
    {
      KnownConsumer(b, DesiredConsumers(cells)[i]);
    }
  }

  // ---- What the mutation phase writes ---------------------------------------------------------

  predicate SameConsumer(b: Assets, after: Assets, key: ConsumerKey) {
    (key in after.consumers <==> key in b.consumers) && (key in b.consumers ==> after.consumers[key] == b.consumers[key])
  }

  predicate SameStream(b: Assets, after: Assets, name: string) {
    (name in after.streams <==> name in b.streams) && (name in b.streams ==> after.streams[name] == b.streams[name])
  }

  predicate StreamWritten(b: Assets, after: Assets, items: seq<PlanItem>, d: DesiredStream) {
    if Changes(items, d.name) then d.name in after.streams && after.streams[d.name] == d.ProviderConfig()
    else SameStream(b, after, d.name)
  }

  predicate ConsumerWritten(b: Assets, after: Assets, items: seq<PlanItem>, c: ConsumerBinding) {
    if Changes(items, c.durableName) then KeyOf(c) in after.consumers && after.consumers[KeyOf(c)] == ConsumerConfigOf(c)
    else SameConsumer(b, after, KeyOf(c))
  }

  lemma StreamsWritten(b: Assets, items: seq<PlanItem>)
    ensures var after := WithStreams(b, items, DESIRED_STREAMS);
      && after.consumers == b.consumers
      && (forall name | name in b.streams :: name in after.streams)
      && (forall name | !IsDesiredStream(name) :: SameStream(b, after, name))
      && forall k | 0 <= k < |DESIRED_STREAMS| :: StreamWritten(b, after, items, DESIRED_STREAMS[k])
  {
    hide ActionFor;
    assert DESIRED_STREAMS[..1] == [DESIRED_COMMANDS] && DESIRED_STREAMS[..1][..0] == [];
    assert DESIRED_COMMANDS.name != DESIRED_EVENTS.name;
    assert DESIRED_STREAMS[0].name == DESIRED_COMMANDS.name && DESIRED_STREAMS[1].name == DESIRED_EVENTS.name;
    var first := WithStreams(b, items, [DESIRED_COMMANDS]);
    assert first == if Changes(items, DESIRED_COMMANDS.name) then WithStream(b, DESIRED_COMMANDS) else b by {
      assert [DESIRED_COMMANDS][..0] == [];
      assert WithStreams(b, items, []) == b;
    }
  }

  predicate DistinctKeys(desired: seq<ConsumerBinding>) {
    forall i, j | 0 <= i < j < |desired| :: KeyOf(desired[i]) != KeyOf(desired[j])
  }

  predicate IsDesiredKey(desired: seq<ConsumerBinding>, key: ConsumerKey) {
    exists i | 0 <= i < |desired| :: KeyOf(desired[i]) == key
  }

  /** After the consumer phase a changed durable is as declared and every other consumer is as it was. */
  lemma {:induction false} ConsumersWritten(b: Assets, items: seq<PlanItem>, desired: seq<ConsumerBinding>)
    requires DistinctKeys(desired)
    ensures var after := WithConsumers(b, items, desired);
      && after.streams == b.streams
      && (forall key | !IsDesiredKey(desired, key) :: SameConsumer(b, after, key))
      && forall i | 0 <= i < |desired| :: ConsumerWritten(b, after, items, desired[i])
  {
    hide ActionFor;
    if desired != [] {
      var (front, last) := (desired[..|desired| - 1], desired[|desired| - 1]);
      assert forall i | 0 <= i < |front| :: front[i] == desired[i];
      ConsumersWritten(b, items, front);
      forall key | !IsDesiredKey(desired, key) ensures !IsDesiredKey(front, key) && key != KeyOf(last) {
        forall i | 0 <= i < |front| ensures KeyOf(front[i]) != key { assert KeyOf(desired[i]) != key; }
        assert KeyOf(desired[|desired| - 1]) != key;
      }
      assert !IsDesiredKey(front, KeyOf(last));
    }
  }

  lemma KeysAreDistinct(cells: seq<string>)
    requires ValidManifest(cells)
    ensures DistinctKeys(DesiredConsumers(cells))
  {
    var all := DesiredConsumers(cells);
    forall i, j | 0 <= i < j < |all| ensures KeyOf(all[i]) != KeyOf(all[j]) { DesiredAreDistinct(cells, i, j); }
  }

  // ---- The theorems ---------------------------------------------------------------------------

  /** A declared durable that needs work, and a stream of its name that the plan lists before it. */
  predicate Shadowed(b: Assets, cells: seq<string>, i: nat)
    requires i < |DesiredConsumers(cells)|
  {
    DesiredConsumers(cells)[i].durableName in b.streams && ConsumerCategory(b, DesiredConsumers(cells)[i]) != Converged
  }

  ghost predicate SomeShadowed(b: Assets, cells: seq<string>) {
    exists i: nat :: i < |DesiredConsumers(cells)| && Shadowed(b, cells, i)
  }

  lemma StreamConverges(b: Assets, cells: seq<string>, k: nat)
    requires k < |DESIRED_STREAMS| && NoneRefused(b, cells)
    ensures StreamCategory(Applied(b, cells, PlanOf(b, cells)), DESIRED_STREAMS[k]) == Converged
  {
    hide PlanOf, WithStreams, ClassifyStream;
    var (items, d) := (PlanOf(b, cells), DESIRED_STREAMS[k]);
    StreamAction(b, cells, k);
    StreamsWritten(b, items);
    AppliedStreams(b, cells, items);
    ProviderStreamIsConverged(d);
    CategoriesOfDeclared(b, cells);
  }

  lemma {:induction false} ConsumersLeaveStreams(b: Assets, items: seq<PlanItem>, desired: seq<ConsumerBinding>)
    ensures WithConsumers(b, items, desired).streams == b.streams
  {
    if desired != [] { ConsumersLeaveStreams(b, items, desired[..|desired| - 1]); }
  }

  lemma AppliedStreams(b: Assets, cells: seq<string>, items: seq<PlanItem>)
    ensures Applied(b, cells, items).streams == WithStreams(b, items, DESIRED_STREAMS).streams
  {
    ConsumersLeaveStreams(WithStreams(b, items, DESIRED_STREAMS), items, DesiredConsumers(cells));
  }

  lemma ProviderStreamIsConverged(d: DesiredStream)
    ensures ClassifyStream(d, d.ProviderConfig()) == Converged
  {
  }

  lemma ProviderConsumerIsConverged(c: ConsumerBinding)
    ensures ClassifyConsumer(c, ConsumerConfigOf(c)) == Converged
  {
  }

  /** A durable is as declared afterwards exactly when it was before or no stream shadows it. */
  lemma ConsumerConverges(b: Assets, cells: seq<string>, i: nat)
    requires ValidManifest(cells) && b.Valid() && i < |DesiredConsumers(cells)| && NoneRefused(b, cells)
    ensures ConsumerCategory(Applied(b, cells, PlanOf(b, cells)), DesiredConsumers(cells)[i]) == Converged <==> !Shadowed(b, cells, i)
  {
    hide PlanOf, WithStreams, WithConsumers, ClassifyConsumer, ClassifyStream, DesiredConsumers, ConsumerConfigOf;
    var (items, c) := (PlanOf(b, cells), DesiredConsumers(cells)[i]);
    var middle := WithStreams(b, items, DESIRED_STREAMS);
    var after := Applied(b, cells, items);
    DurableAction(b, cells, i);
    DurableNameShape(cells, i);
    StreamsWritten(b, items);
    KeysAreDistinct(cells);
    ConsumersWritten(middle, items, DesiredConsumers(cells));
    ProviderConsumerIsConverged(c);
    CategoriesOfDeclared(b, cells);
    StreamIsThere(b, cells, c.stream);
    if !Changes(items, c.durableName) { assert SameConsumer(middle, after, KeyOf(c)); }
  }

  lemma StreamIsThere(b: Assets, cells: seq<string>, stream: TransportStream)
    requires NoneRefused(b, cells)
    ensures stream.Name() in Applied(b, cells, PlanOf(b, cells)).streams
  {
    hide PlanOf, WithStreams, Applied;
    assert DESIRED_STREAMS[0].name == Commands.Name() && DESIRED_STREAMS[1].name == Events.Name();
    StreamConverges(b, cells, if stream.Commands? then 0 else 1);
  }

  /**
   * From any broker state without a refused difference, applying the plan converges exactly when no
   * stream has the name of a declared durable that is missing or needs an update.
   */
  lemma ApplyConvergesIffNotShadowed(b: Assets, cells: seq<string>)
    requires ValidManifest(cells) && b.Valid() && !HasRefusedChange(PlanOf(b, cells))
    ensures IsConverged(PlanOf(Applied(b, cells, PlanOf(b, cells)), cells)) <==> !SomeShadowed(b, cells)
  {
    hide PlanOf, Applied, StreamCategory, ConsumerCategory, DesiredConsumers, Shadowed;
    PlanVerdicts(b, cells);
    var after := Applied(b, cells, PlanOf(b, cells));
    PlanVerdicts(after, cells);
    forall k | 0 <= k < |DESIRED_STREAMS| ensures StreamCategory(after, DESIRED_STREAMS[k]) == Converged { StreamConverges(b, cells, k); }
    forall i: nat | i < |DesiredConsumers(cells)|
      ensures ConsumerCategory(after, DesiredConsumers(cells)[i]) == Converged <==> !Shadowed(b, cells, i)
    {
      ConsumerConverges(b, cells, i);
    }
  }

  /** A second apply changes nothing: a converged state is its own result. */
  lemma SecondApplyChangesNothing(b: Assets, cells: seq<string>)
    requires ValidManifest(cells) && IsConverged(PlanOf(b, cells))
    ensures Applied(b, cells, PlanOf(b, cells)) == b
    ensures forall k | 0 <= k < |DESIRED_STREAMS| :: !Changes(PlanOf(b, cells), DESIRED_STREAMS[k].name)
    ensures forall i | 0 <= i < |DesiredConsumers(cells)| :: !Changes(PlanOf(b, cells), DesiredConsumers(cells)[i].durableName)
  {
    hide PlanOf, StreamCategory, ConsumerCategory, DesiredConsumers;
    var items := PlanOf(b, cells);
    PlanVerdicts(b, cells);
    forall k | 0 <= k < |DESIRED_STREAMS| ensures !Changes(items, DESIRED_STREAMS[k].name) { StreamAction(b, cells, k); }
    forall i | 0 <= i < |DesiredConsumers(cells)| ensures !Changes(items, DesiredConsumers(cells)[i].durableName) {
      DurableAction(b, cells, i);
    }
    UnchangedStreams(b, items, DESIRED_STREAMS);
    UnchangedConsumers(b, items, DesiredConsumers(cells));
  }

  lemma {:induction false} UnchangedStreams(b: Assets, items: seq<PlanItem>, desired: seq<DesiredStream>)
    requires forall k | 0 <= k < |desired| :: !Changes(items, desired[k].name)
    ensures WithStreams(b, items, desired) == b
  {
    if desired != [] { UnchangedStreams(b, items, desired[..|desired| - 1]); }
  }

  lemma {:induction false} UnchangedConsumers(b: Assets, items: seq<PlanItem>, desired: seq<ConsumerBinding>)
    requires forall i | 0 <= i < |desired| :: !Changes(items, desired[i].durableName)
    ensures WithConsumers(b, items, desired) == b
  {
    if desired != [] { UnchangedConsumers(b, items, desired[..|desired| - 1]); }
  }

  // ---- What the classification says -----------------------------------------------------------

  /** A stream counts as converged exactly when it is as declared, except that its deletion guards may be off. */
  lemma StreamConvergedIff(d: DesiredStream, actual: StreamConfig)
    ensures ClassifyStream(d, actual) == Converged <==>
      actual == d.ProviderConfig().(denyDelete := actual.denyDelete, denyPurge := actual.denyPurge)
  {
  }

  /** A consumer counts as converged exactly when it is as declared. */
  lemma ConsumerConvergedIff(c: ConsumerBinding, actual: ConsumerConfig)
    ensures ClassifyConsumer(c, actual) == Converged <==> actual == ConsumerConfigOf(c)
  {
  }

  /** `after` raises numbers of `before`, rewrites its description and guards, and leaves the rest alone. */
  predicate StreamOnlyGrows(before: StreamConfig, after: StreamConfig) {
    && LimitsGrow(before, after)
    && after == before.(description := after.description, replicas := after.replicas, maxMessageSize := after.maxMessageSize,
        maxMessages := after.maxMessages, maxBytes := after.maxBytes, maxAge := after.maxAge, maxConsumers := after.maxConsumers,
        duplicateWindow := after.duplicateWindow, denyDelete := after.denyDelete, denyPurge := after.denyPurge)
  }

  predicate ConsumerOnlyGrows(before: ConsumerConfig, after: ConsumerConfig) {
    && before.replicas <= after.replicas && before.maxAckPending <= after.maxAckPending && before.maxWaiting <= after.maxWaiting
    && before.maxBatch <= after.maxBatch && before.maxExpires <= after.maxExpires
    && after == before.(description := after.description, replicas := after.replicas, maxAckPending := after.maxAckPending,
        maxWaiting := after.maxWaiting, maxBatch := after.maxBatch, maxExpires := after.maxExpires)
  }

  /** A difference is refused exactly when writing the declared stream would do more than raise its numbers. */
  lemma StreamRefusedIff(d: DesiredStream, actual: StreamConfig)
    ensures Drift(ClassifyStream(d, actual)) == Refused <==> !StreamOnlyGrows(actual, d.ProviderConfig())
  {
  }

  lemma ConsumerRefusedIff(c: ConsumerBinding, actual: ConsumerConfig)
    ensures Drift(ClassifyConsumer(c, actual)) == Refused <==> !ConsumerOnlyGrows(actual, ConsumerConfigOf(c))
  {
  }

  // ---- Interrupted and repeated applies -------------------------------------------------------

  predicate StreamMoved(b: Assets, items: seq<PlanItem>, after: Assets, name: string) {
    || SameStream(b, after, name)
    || (exists k | 0 <= k < |DESIRED_STREAMS| ::
      && DESIRED_STREAMS[k].name == name && Changes(items, name)
      && name in after.streams && after.streams[name] == DESIRED_STREAMS[k].ProviderConfig())
  }

  predicate ConsumerMoved(b: Assets, items: seq<PlanItem>, desired: seq<ConsumerBinding>, after: Assets, key: ConsumerKey) {
    || SameConsumer(b, after, key)
    || (exists i | 0 <= i < |desired| ::
      && KeyOf(desired[i]) == key && Changes(items, key.name)
      && key in after.consumers && after.consumers[key] == ConsumerConfigOf(desired[i]))
  }

  /** Wherever a failure interrupts: each asset is as it was, or is declared, changed by the plan and as declared. */
  ghost predicate PartlyApplied(b: Assets, cells: seq<string>, after: Assets) {
    && (forall name :: StreamMoved(b, PlanOf(b, cells), after, name))
    && (forall key :: ConsumerMoved(b, PlanOf(b, cells), DesiredConsumers(cells), after, key))
  }

  /** Only declared assets ever change, and none is ever removed. */
  lemma UndeclaredAssetsAreUntouched(b: Assets, cells: seq<string>, after: Assets, name: string, key: ConsumerKey)
    requires PartlyApplied(b, cells, after)
    ensures !IsDesiredStream(name) ==> SameStream(b, after, name)
    ensures !IsDesiredKey(DesiredConsumers(cells), key) ==> SameConsumer(b, after, key)
    ensures name in b.streams ==> name in after.streams
    ensures key in b.consumers ==> key in after.consumers
  {
    hide PlanOf, DesiredConsumers, Changes;
    assert StreamMoved(b, PlanOf(b, cells), after, name);
    assert ConsumerMoved(b, PlanOf(b, cells), DesiredConsumers(cells), after, key);
  }

  lemma MovedStreamCategory(b: Assets, cells: seq<string>, after: Assets, k: nat)
    requires k < |DESIRED_STREAMS| && PartlyApplied(b, cells, after)
    ensures StreamCategory(after, DESIRED_STREAMS[k]) in {StreamCategory(b, DESIRED_STREAMS[k]), Converged}
  {
    hide PlanOf, DesiredConsumers, ClassifyStream, Changes;
    var d := DESIRED_STREAMS[k];
    assert StreamMoved(b, PlanOf(b, cells), after, d.name);
    if !SameStream(b, after, d.name) {
      assert DESIRED_STREAMS[0].name != DESIRED_STREAMS[1].name;
      ProviderStreamIsConverged(d);
    }
  }

  lemma MovedConsumerCategory(b: Assets, cells: seq<string>, after: Assets, i: nat)
    requires ValidManifest(cells) && b.Valid() && i < |DesiredConsumers(cells)| && PartlyApplied(b, cells, after) && after.Valid()
    ensures ConsumerCategory(after, DesiredConsumers(cells)[i]) in {ConsumerCategory(b, DesiredConsumers(cells)[i]), Converged}
    ensures DesiredConsumers(cells)[i].durableName in after.streams <==> DesiredConsumers(cells)[i].durableName in b.streams
  {
    hide PlanOf, DesiredConsumers, ClassifyConsumer, Changes, IsDesiredStream, StartsWith;
    var c := DesiredConsumers(cells)[i];
    DurableNameShape(cells, i);
    UndeclaredAssetsAreUntouched(b, cells, after, c.durableName, KeyOf(c));
    UndeclaredAssetsAreUntouched(b, cells, after, c.stream.Name(), KeyOf(c));
    assert ConsumerMoved(b, PlanOf(b, cells), DesiredConsumers(cells), after, KeyOf(c));
    if !SameConsumer(b, after, KeyOf(c)) {
      var j :| 0 <= j < |DesiredConsumers(cells)| && KeyOf(DesiredConsumers(cells)[j]) == KeyOf(c)
        && KeyOf(c) in after.consumers && after.consumers[KeyOf(c)] == ConsumerConfigOf(DesiredConsumers(cells)[j]);
      KeysAreDistinct(cells);
      assert j == i;
      ProviderConsumerIsConverged(c);
    }
  }

  /** An apply that stopped anywhere can be run again: nothing new is refused and nothing new is shadowed. */
  lemma InterruptedApplyResumes(b: Assets, cells: seq<string>, after: Assets)
    requires ValidManifest(cells) && b.Valid() && after.Valid() && PartlyApplied(b, cells, after)
    requires !HasRefusedChange(PlanOf(b, cells)) && !SomeShadowed(b, cells)
    ensures !HasRefusedChange(PlanOf(after, cells)) && !SomeShadowed(after, cells)
    ensures IsConverged(PlanOf(Applied(after, cells, PlanOf(after, cells)), cells))
  {
    hide PlanOf, StreamCategory, ConsumerCategory, DesiredConsumers, PartlyApplied, Applied;
    PlanVerdicts(b, cells);
    PlanVerdicts(after, cells);
    forall k | 0 <= k < |DESIRED_STREAMS| ensures Drift(StreamCategory(after, DESIRED_STREAMS[k])) != Refused {
      MovedStreamCategory(b, cells, after, k);
    }
    forall i: nat | i < |DesiredConsumers(cells)|
      ensures Drift(ConsumerCategory(after, DesiredConsumers(cells)[i])) != Refused && !Shadowed(after, cells, i)
    {
      MovedConsumerCategory(b, cells, after, i);
      assert !Shadowed(b, cells, i);
    }
    ApplyConvergesIffNotShadowed(after, cells);
  }

  // ---- Limits ---------------------------------------------------------------------------------

  /** No limit of a stream is numerically lower than before. */
  predicate LimitsGrow(before: StreamConfig, after: StreamConfig) {
    && before.maxMessages <= after.maxMessages && before.maxBytes <= after.maxBytes && before.maxAge <= after.maxAge
    && before.maxConsumers <= after.maxConsumers && before.maxMessageSize <= after.maxMessageSize
    && before.duplicateWindow <= after.duplicateWindow && before.replicas <= after.replicas
  }

  /** A plan without refusals never lowers a stored number of a stream, not even when it is interrupted. */
  lemma NumbersNeverShrink(b: Assets, cells: seq<string>, after: Assets, name: string)
    requires PartlyApplied(b, cells, after) && !HasRefusedChange(PlanOf(b, cells)) && name in b.streams
    ensures name in after.streams && LimitsGrow(b.streams[name], after.streams[name])
  {
    hide PlanOf, DesiredConsumers, Changes;
    assert StreamMoved(b, PlanOf(b, cells), after, name);
    if !SameStream(b, after, name) {
      PlanVerdicts(b, cells);
      var k :| 0 <= k < |DESIRED_STREAMS| && DESIRED_STREAMS[k].name == name && after.streams[name] == DESIRED_STREAMS[k].ProviderConfig();
      assert Drift(StreamCategory(b, DESIRED_STREAMS[k])) != Refused;
    }
  }

  /** The server reads zero and negative limits as no limit at all. */
  predicate Unlimited(limit: int) { limit <= 0 }

  predicate NotTighter(before: int, after: int) { Unlimited(after) || (!Unlimited(before) && before <= after) }

  /** What a stream may hold does not shrink. */
  predicate CapacityKept(before: StreamConfig, after: StreamConfig) {
    && NotTighter(before.maxMessages, after.maxMessages) && NotTighter(before.maxBytes, after.maxBytes)
    && NotTighter(before.maxAge, after.maxAge) && NotTighter(before.maxConsumers, after.maxConsumers)
    && NotTighter(before.maxMessageSize, after.maxMessageSize)
  }

  predicate AllFinite(config: StreamConfig) {
    && !Unlimited(config.maxMessages) && !Unlimited(config.maxBytes) && !Unlimited(config.maxAge)
    && !Unlimited(config.maxConsumers) && !Unlimited(config.maxMessageSize)
  }

  /** The comparison is numeric, so an update that counts as safe keeps the capacity exactly of bounded streams. */
  lemma SafeUpdateKeepsCapacityIffFinite(d: DesiredStream, actual: StreamConfig)
    requires d in DESIRED_STREAMS && Drift(ClassifyStream(d, actual)) == SafeUpdate
    ensures CapacityKept(actual, d.ProviderConfig()) <==> AllFinite(actual)
  {
  }

  /** An unlimited command stream is classified as a safe capacity increase and loses its room. */
  lemma UnlimitedStreamIsTightened()
    ensures var unlimited := DESIRED_COMMANDS.ProviderConfig().(maxMessages := -1);
      && ClassifyStream(DESIRED_COMMANDS, unlimited) == SafeCapacityIncrease
      && !CapacityKept(unlimited, DESIRED_COMMANDS.ProviderConfig())
  {
  }

  // ---- What a plan does not show --------------------------------------------------------------

  /** A consumer under a declared durable's name, but on a declared stream that is not its own. */
  predicate Misplaced(cells: seq<string>, key: ConsumerKey) {
    !IsDesiredKey(DesiredConsumers(cells), key) && IsDesiredDurable(cells, key.name)
  }

  /** The undeclared reserved streams are listed, each under its own name and after every declared one. */
  lemma UnknownStreamsAreListed(b: Assets, cells: seq<string>, name: string)
    ensures var unknown := Sorted(UndeclaredStreams(b));
      && PlanOf(b, cells)[..2 + |unknown|] == StreamItems(b, DESIRED_STREAMS) + Unknowns(unknown)
      && (name in unknown <==>
        name in b.streams && StartsWith(name, "EDTECH_") && name != DESIRED_COMMANDS.name && name != DESIRED_EVENTS.name)
      && (name in unknown <==> Item(name, UnknownEdtechAsset) in Unknowns(unknown))
  {
    hide StreamConsumerItems;
    var unknown := Sorted(UndeclaredStreams(b));
    var listed := StreamItems(b, DESIRED_STREAMS) + Unknowns(unknown);
    assert PlanOf(b, cells) == listed
      + (StreamConsumerItems(b, cells, DESIRED_COMMANDS.name) + StreamConsumerItems(b, cells, DESIRED_EVENTS.name));
    assert DESIRED_STREAMS[0] == DESIRED_COMMANDS && DESIRED_STREAMS[1] == DESIRED_EVENTS;
    if name in unknown {
      var n :| 0 <= n < |unknown| && unknown[n] == name;
      assert Unknowns(unknown)[n] == Item(name, UnknownEdtechAsset);
    }
  }

  /** The undeclared reserved consumers of a declared stream are listed, except the misplaced ones. */
  lemma UnknownConsumersAreListed(b: Assets, cells: seq<string>, key: ConsumerKey)
    requires b.Valid() && key in b.consumers && key.stream in {DESIRED_COMMANDS.name, DESIRED_EVENTS.name}
    requires StartsWith(key.name, EDTECH_PREFIX) && !IsDesiredKey(DesiredConsumers(cells), key) && !Misplaced(cells, key)
    ensures Item(key.name, UnknownEdtechAsset) in PlanOf(b, cells)
  {
    hide DesiredConsumers, StreamItems, ConsumerItems, StartsWith;
    var names := Sorted(UndeclaredConsumers(b, cells, key.stream));
    assert key.name in names;
    var n :| 0 <= n < |names| && names[n] == key.name;
    assert Unknowns(names)[n] == Item(key.name, UnknownEdtechAsset);
    assert Item(key.name, UnknownEdtechAsset) in StreamConsumerItems(b, cells, key.stream);
  }

  /** A misplaced durable leaves no trace in the plan: it is neither declared there nor reported as unknown. */
  lemma MisplacedDurablesAreInvisible(b: Assets, cells: seq<string>, key: ConsumerKey, config: ConsumerConfig)
    requires Misplaced(cells, key) && key !in b.consumers
    ensures PlanOf(b.(consumers := b.consumers[key := config]), cells) == PlanOf(b, cells)
  {
    hide DesiredConsumers, ClassifyStream, ClassifyConsumer, Sorted, Unknowns;
    var with := b.(consumers := b.consumers[key := config]);
    assert StreamItems(with, DESIRED_STREAMS) == StreamItems(b, DESIRED_STREAMS);
    assert UndeclaredStreams(with) == UndeclaredStreams(b);
    SameConsumerItems(b, with, DesiredConsumers(cells), key, DESIRED_COMMANDS.name);
    SameConsumerItems(b, with, DesiredConsumers(cells), key, DESIRED_EVENTS.name);
    assert UndeclaredConsumers(with, cells, DESIRED_COMMANDS.name) == UndeclaredConsumers(b, cells, DESIRED_COMMANDS.name);
    assert UndeclaredConsumers(with, cells, DESIRED_EVENTS.name) == UndeclaredConsumers(b, cells, DESIRED_EVENTS.name);
  }

  lemma {:induction false} SameConsumerItems(b: Assets, with: Assets, desired: seq<ConsumerBinding>, key: ConsumerKey,
    stream: string)
    requires with.streams == b.streams && !IsDesiredKey(desired, key)
    requires forall other | other != key :: SameConsumer(b, with, other)
    ensures ConsumerItems(with, desired, stream) == ConsumerItems(b, desired, stream)
  {
    hide ClassifyConsumer;
    if desired != [] {
      var front := desired[..|desired| - 1];
      forall i | 0 <= i < |front| ensures KeyOf(front[i]) != key { assert KeyOf(desired[i]) != key; }
      SameConsumerItems(b, with, front, key, stream);
      assert KeyOf(desired[|desired| - 1]) != key;
      assert SameConsumer(b, with, KeyOf(desired[|desired| - 1]));
    }
  }

  // ---- Readiness of the workers ---------------------------------------------------------------

  /** `verify_streams`. */
  predicate VerifyStreams(b: Assets) {
    forall stream: TransportStream ::
      && stream.Name() in b.streams
      && var config := b.streams[stream.Name()];
      && config.storage == File && config.replicas == 3 && config.discard == DiscardNew && !config.allowDirect
      && config.retention == (if stream.Commands? then WorkQueue else Limits)
  }

  /** `bind_consumer` with `verify_consumer`, for a role. */
  predicate BindConsumer(b: Assets, role: TransportRole, binding: ConsumerBinding) {
    && RoleAllowsBinding(role, binding)
    && binding.stream.Name() in b.streams
    && KeyOf(binding) in b.consumers
    && var config := b.consumers[KeyOf(binding)];
    && config.durableName == Some(binding.durableName) && config.deliverSubject.None?
    && config.filterSubject == binding.filterSubject && config.ackPolicy.AckExplicit? && config.deliverPolicy.DeliverAll?
    && config.replayPolicy.ReplayInstant? && config.ackWait == 30 && config.maxDeliver == -1 && config.maxAckPending == 1_024
    && config.maxWaiting == 64 && config.maxBatch == 200 && config.maxExpires == 5 && config.replicas == 3
    && !config.memoryStorage && config.inactiveThreshold == 0
  }

  /** `verify_role_topology`. */
  predicate VerifyRoleTopology(b: Assets, role: TransportRole) {
    match role
    case PlatformWorker =>
      VerifyStreams(b) && BindConsumer(b, role, PlatformCommandBinding()) && BindConsumer(b, role, PlatformEventBinding())
    case CellWorker(cell) =>
      VerifyStreams(b) && BindConsumer(b, role, CellCommandBinding(cell)) && BindConsumer(b, role, CellEventBinding(cell))
    case _ => true
  }

  lemma {:induction false} DesiredHolds(cells: seq<string>, role: TransportRole, binding: ConsumerBinding)
    requires RoleAllowsBinding(role, binding) && (role.CellWorker? ==> role.workerCell in cells)
    ensures exists i | 0 <= i < |DesiredConsumers(cells)| :: DesiredConsumers(cells)[i] == binding
    decreases |cells|
  {
    var all := DesiredConsumers(cells);
    if cells == [] {
      assert all[0] == PlatformCommandBinding() && all[1] == PlatformEventBinding();
    } else {
      var (front, last) := (cells[..|cells| - 1], cells[|cells| - 1]);
      var before := DesiredConsumers(front);
      if role == CellWorker(last) {
        assert all[|before|] == CellCommandBinding(last) && all[|before| + 1] == CellEventBinding(last);
      } else {
        DesiredHolds(front, role, binding);
        var i :| 0 <= i < |before| && before[i] == binding;
        assert all[i] == binding;
      }
    }
  }

  lemma ConvergedBinds(b: Assets, cells: seq<string>, role: TransportRole, binding: ConsumerBinding)
    requires AllConverged(b, cells) && RoleAllowsBinding(role, binding) && (role.CellWorker? ==> role.workerCell in cells)
    ensures BindConsumer(b, role, binding)
  {
    hide DesiredConsumers, RoleAllowsBinding;
    DesiredHolds(cells, role, binding);
    var i :| 0 <= i < |DesiredConsumers(cells)| && DesiredConsumers(cells)[i] == binding;
    assert ConsumerCategory(b, DesiredConsumers(cells)[i]) == Converged;
  }

  /** A converged topology passes the workers' own checks, for the Platform and for every declared Cell. */
  lemma ConvergedIsReady(b: Assets, cells: seq<string>, role: TransportRole)
    requires IsConverged(PlanOf(b, cells)) && (role.CellWorker? ==> role.workerCell in cells)
    ensures VerifyRoleTopology(b, role)
  {
    hide PlanOf, DesiredConsumers, BindConsumer, ClassifyConsumer;
    PlanVerdicts(b, cells);
    assert VerifyStreams(b) by { ConvergedStreams(b, cells); }
    match role
    case PlatformWorker =>
      ConvergedBinds(b, cells, role, PlatformCommandBinding());
      ConvergedBinds(b, cells, role, PlatformEventBinding());
    case CellWorker(cell) =>
      ConvergedBinds(b, cells, role, CellCommandBinding(cell));
      ConvergedBinds(b, cells, role, CellEventBinding(cell));
    case _ =>
  }

  lemma ConvergedStreams(b: Assets, cells: seq<string>)
    requires AllConverged(b, cells)
    ensures VerifyStreams(b)
  {
    hide DesiredConsumers, ClassifyConsumer;
    assert StreamCategory(b, DESIRED_STREAMS[0]) == Converged && StreamCategory(b, DESIRED_STREAMS[1]) == Converged;
    assert DESIRED_STREAMS[0].name == Commands.Name() && DESIRED_STREAMS[1].name == Events.Name();
    assert DESIRED_COMMANDS.name != DESIRED_EVENTS.name;
  }

  // ---- Concrete states ------------------------------------------------------------------------

  /** The Platform's event durable on the command stream is misplaced under every manifest. */
  lemma PlatformEventsCanBeMisplaced(cells: seq<string>)
    requires ValidManifest(cells)
    ensures Misplaced(cells, ConsumerKey(DESIRED_COMMANDS.name, PlatformEventBinding().durableName))
  {
    hide DesiredConsumers;
    var key := ConsumerKey(DESIRED_COMMANDS.name, PlatformEventBinding().durableName);
    DesiredHolds(cells, PlatformWorker, PlatformEventBinding());
    var e :| 0 <= e < |DesiredConsumers(cells)| && DesiredConsumers(cells)[e] == PlatformEventBinding();
    assert DESIRED_COMMANDS.name != DESIRED_EVENTS.name;
    forall i | 0 <= i < |DesiredConsumers(cells)| ensures KeyOf(DesiredConsumers(cells)[i]) != key {
      if i < e { DesiredAreDistinct(cells, i, e); }
      if e < i { DesiredAreDistinct(cells, e, i); }
    }
  }

  /** A fresh broker with one foreign stream named like the Platform's event durable never converges. */
  lemma ForeignStreamBlocksApply(cells: seq<string>, foreign: StreamConfig)
    requires ValidManifest(cells)
    ensures var b := Assets(map[PlatformEventBinding().durableName := foreign], map[]);
      && !HasRefusedChange(PlanOf(b, cells))
      && !IsConverged(PlanOf(Applied(b, cells, PlanOf(b, cells)), cells))
  {
    hide DesiredConsumers, PlanOf, Applied;
    var b := Assets(map[PlatformEventBinding().durableName := foreign], map[]);
    DesiredHolds(cells, PlatformWorker, PlatformEventBinding());
    var e :| 0 <= e < |DesiredConsumers(cells)| && DesiredConsumers(cells)[e] == PlatformEventBinding();
    DurableNameShape(cells, e);
    assert !IsDesiredStream(PlatformEventBinding().durableName);
    assert NoneRefused(b, cells) by {
      forall k | 0 <= k < |DESIRED_STREAMS| ensures StreamCategory(b, DESIRED_STREAMS[k]) == Missing {
        assert DESIRED_STREAMS[k].name != PlatformEventBinding().durableName;
      }
    }
    PlanVerdicts(b, cells);
    assert Shadowed(b, cells, e);
    ApplyConvergesIffNotShadowed(b, cells);
  }

  // ---- What the streams capture ---------------------------------------------------------------

  lemma StreamFilterText(kind: string)
    requires kind == "command" || kind == "event"
    ensures (if kind == "command" then DESIRED_COMMANDS.subject else DESIRED_EVENTS.subject)
         == "edtech" + ['.'] + ("v1" + ['.'] + (kind + ['.'] + ">"))
  {
  }

  lemma StreamFilterSplits(kind: string)
    requires kind == "command" || kind == "event"
    ensures Split(if kind == "command" then DESIRED_COMMANDS.subject else DESIRED_EVENTS.subject, '.')
         == ["edtech", "v1", kind] + [">"]
  {
    hide Split;
    StreamFilterText(kind);
    SplitPlain("edtech", '.');
    SplitPlain("v1", '.');
    SplitPlain(kind, '.');
    SplitPlain(">", '.');
    SplitConcat(kind, ">", '.');
    SplitConcat("v1", kind + ['.'] + ">", '.');
    SplitConcat("edtech", "v1" + ['.'] + (kind + ['.'] + ">"), '.');
  }

  lemma RouteWord(m: MessageMetadata)
    requires RouteOf(m).Some?
    ensures Subjects.RouteTokens(RouteOf(m).value)[..3] == ["edtech", "v1", if m.descriptor.kind.Command? then "command" else "event"]
  {
  }

  /** The command stream captures exactly the subjects of commands, the event stream exactly those of events. */
  lemma StreamsCaptureTheirKind(m: MessageMetadata)
    requires m.Valid() && DeriveSubject(m).Some?
    ensures Matches(DESIRED_COMMANDS.subject, DeriveSubject(m).value) <==> m.descriptor.kind.Command?
    ensures Matches(DESIRED_EVENTS.subject, DeriveSubject(m).value) <==> m.descriptor.kind.Event?
    ensures StreamForKind(m.descriptor.kind).Name() ==
      if m.descriptor.kind.Command? then DESIRED_COMMANDS.name else DESIRED_EVENTS.name
  {
    hide MessageMetadata.Valid, ConcreteSubject, Split, SubjectText, TokensMatch;
    var route := RouteOf(m).value;
    var suffix := m.descriptor.name[|NAME_PREFIX|..];
    Subjects.RouteIsPlain(m);
    Subjects.SubjectSplits(route, suffix);
    RouteWord(m);
    var tokens := Subjects.RouteTokens(route) + Split(suffix, '.');
    assert tokens[..3] == Subjects.RouteTokens(route)[..3];
    StreamFilterSplits("command");
    StreamFilterSplits("event");
    Subjects.TailMatch(["edtech", "v1", "command"], tokens);
    Subjects.TailMatch(["edtech", "v1", "event"], tokens);
    assert ["edtech", "v1", "command"][2] != ["edtech", "v1", "event"][2];
  }
}
