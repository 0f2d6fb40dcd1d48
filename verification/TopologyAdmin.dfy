/**
 * The provisioner over a broker's assets: `plan` inspects, `apply` writes the changes the plan allows,
 * waits for the clusters and plans again. The broker's answers and the readiness polls are a script.
 */
module TopologyAdmin {
  import opened Foundation
  import opened Text
  import opened Routing
  import opened Topology
  import opened TopologyConvergence

  datatype AdminError = Configuration | UnsafeDrift | Provider | Timeout

  datatype ApplyReport = ApplyReport(
    createdStreams: nat,
    updatedStreams: nat,
    createdConsumers: nat,
    updatedConsumers: nat,
    unknownAssets: nat,
    converged: bool)

  /** One readiness poll: an asset whose cluster is not ready yet, if any, and whether the broker answers. */
  datatype Poll = Poll(waitingFor: Option<string>, answers: bool)

  /** The broker's side of one `apply`; the deadline falls after the last poll. */
  datatype ApplyScript = ApplyScript(
    planAnswers: bool,
    streamAnswers: string -> bool,
    consumerAnswers: string -> bool,
    polls: seq<Poll>,
    finalPlanAnswers: bool)

  const MAX_APPLY_SECONDS: nat := 300

  // ---- Specification of the counters ----------------------------------------------------------

  function CountItems(items: seq<PlanItem>, action: TopologyAction): nat {
    if items == [] then 0
    else CountItems(items[..|items| - 1], action) + if items[|items| - 1].action == action then 1 else 0
  }

  function CountStreams(items: seq<PlanItem>, desired: seq<DesiredStream>, action: TopologyAction): nat {
    if desired == [] then 0
    else
      CountStreams(items, desired[..|desired| - 1], action)
      + if ActionFor(items, desired[|desired| - 1].name) == Some(action) then 1 else 0
  }

  function CountConsumers(items: seq<PlanItem>, desired: seq<ConsumerBinding>, action: TopologyAction): nat {
    if desired == [] then 0
    else
      CountConsumers(items, desired[..|desired| - 1], action)
      + if ActionFor(items, desired[|desired| - 1].durableName) == Some(action) then 1 else 0
  }

  predicate AllPresent(b: Assets, cells: seq<string>) {
    && (forall k | 0 <= k < |DESIRED_STREAMS| :: DESIRED_STREAMS[k].name in b.streams)
    && (forall i | 0 <= i < |DesiredConsumers(cells)| :: KeyOf(DesiredConsumers(cells)[i]) in b.consumers)
  }

  lemma EarlierThanAll(names: set<string>, least: string, other: string)
    requires least in names && NameBefore(other, least)
    requires forall name | name in names && name != least :: NameBefore(least, name)
    ensures forall name | name in names && name != other :: NameBefore(other, name)
  {
    forall name | name in names && name != other ensures NameBefore(other, name) {
      if name != least { OrderIsTransitive(other, least, name); }
    }
  }

  // ---- The provisioner ------------------------------------------------------------------------

  class Admin {
    var streams: map<string, StreamConfig>
    var consumers: map<ConsumerKey, ConsumerConfig>

    constructor (assets: Assets)
      ensures View() == assets
    {
      streams, consumers := assets.streams, assets.consumers;
    }

    function View(): Assets
      reads this
    { Assets(streams, consumers) }

    /** `TopologyManifest::consumers`. */
    static method ManifestConsumers(cells: seq<string>) returns (desired: seq<ConsumerBinding>)
      ensures desired == DesiredConsumers(cells)
    {
      desired := [PlatformCommandBinding(), PlatformEventBinding()];
      var i := 0;
      while i < |cells|
        invariant 0 <= i <= |cells|
        invariant desired == DesiredConsumers(cells[..i])
      {
        assert cells[..i + 1][..i] == cells[..i];
        desired := desired + [CellCommandBinding(cells[i])] + [CellEventBinding(cells[i])];
        i := i + 1;
      }
      assert cells[..i] == cells;
    }

    static method LeastOf(names: set<string>) returns (least: string)
      requires names != {}
      ensures least == Least(names)
    {
      least :| least in names;
      var others := names - {least};
      while others != {}
        invariant others <= names && least in names - others
        invariant forall name | name in names - others && name != least :: NameBefore(least, name)
      {
        var other :| other in others;
        NamesAreOrdered(least, other);
        if NameBefore(other, least) {
          EarlierThanAll(names - others, least, other);
          least := other;
        }
        others := others - {other};
      }
      NamesAreOrdered(least, Least(names));
    }

    /** Iteration over a `BTreeSet`. */
    static method InOrder(names: set<string>) returns (list: seq<string>)
      ensures list == Sorted(names)
    {
      hide Least;
      list := [];
      var rest := names;
      while rest != {}
        invariant list + Sorted(rest) == Sorted(names)
      {
        var least := LeastOf(rest);
        assert list + Sorted(rest) == (list + [least]) + Sorted(rest - {least});
        list := list + [least];
        rest := rest - {least};
      }
    }

    /** The items that report undeclared assets. */
    static method ReportUnknown(names: set<string>) returns (items: seq<PlanItem>)
      ensures items == Unknowns(Sorted(names))
    {
      var list := InOrder(names);
      items := [];
      var i := 0;
      while i < |list|
        invariant 0 <= i <= |list| && items == Unknowns(list[..i])
      {
        items := items + [Item(list[i], UnknownEdtechAsset)];
        i := i + 1;
      }
      assert list[..i] == list;
    }

    /** The items of one stream's durables: declared ones in manifest order, then undeclared ones in name order. */
    method PlanConsumers(cells: seq<string>, desired: seq<ConsumerBinding>, stream: string) returns (items: seq<PlanItem>)
      requires desired == DesiredConsumers(cells)
      ensures items == StreamConsumerItems(View(), cells, stream)
    {
      hide ClassifyConsumer, DesiredConsumers;
      items := [];
      var i := 0;
      while i < |desired|
        invariant 0 <= i <= |desired| && items == ConsumerItems(View(), desired[..i], stream)
      {
        assert desired[..i + 1][..i] == desired[..i];
        var c := desired[i];
        if c.stream.Name() == stream {
          if stream !in streams || KeyOf(c) !in consumers {
            items := items + [Item(c.durableName, Missing)];
          } else {
            items := items + [Item(c.durableName, ClassifyConsumer(c, consumers[KeyOf(c)]))];
          }
        }
        i := i + 1;
      }
      assert desired[..i] == desired;
      if stream in streams {
        var extras := set key | key in consumers && key.stream == stream && StartsWith(key.name, EDTECH_PREFIX)
          && !(exists i | 0 <= i < |desired| :: desired[i].durableName == key.name) :: key.name;
        assert extras == UndeclaredConsumers(View(), cells, stream);
        var unknown := ReportUnknown(extras);
        items := items + unknown;
      }
    }

    /** `plan`. */
    method Plan(cells: seq<string>) returns (items: seq<PlanItem>)
      ensures items == PlanOf(View(), cells)
    {
      hide ClassifyStream, ClassifyConsumer, DesiredConsumers;
      items := [];
      var k := 0;
      while k < |DESIRED_STREAMS|
        invariant 0 <= k <= |DESIRED_STREAMS| && items == StreamItems(View(), DESIRED_STREAMS[..k])
      {
        var d := DESIRED_STREAMS[k];
        if d.name in streams {
          items := items + [Item(d.name, ClassifyStream(d, streams[d.name]))];
        } else {
          items := items + [Item(d.name, Missing)];
        }
        k := k + 1;
      }
      assert DESIRED_STREAMS[..k] == DESIRED_STREAMS;
      var unknown := ReportUnknown(UndeclaredStreams(View()));
      var desired := ManifestConsumers(cells);
      var commands := PlanConsumers(cells, desired, DESIRED_COMMANDS.name);
      var events := PlanConsumers(cells, desired, DESIRED_EVENTS.name);
      items := items + unknown + commands + events;
    }

    /** The stream loop of `apply`; a broker failure leaves the streams before it written. */
    method ApplyStreams(items: seq<PlanItem>, answers: string -> bool)
      returns (r: Result<(nat, nat), AdminError>, ghost written: nat)
      modifies this`streams
      ensures written <= |DESIRED_STREAMS| && View() == WithStreams(old(View()), items, DESIRED_STREAMS[..written])
      ensures r.Success? ==>
        && written == |DESIRED_STREAMS|
        && r.value == (CountStreams(items, DESIRED_STREAMS, Create), CountStreams(items, DESIRED_STREAMS, SafeUpdate))
      ensures r.Failure? ==> r.error == Provider || exists k | 0 <= k < |DESIRED_STREAMS| ::
        ActionFor(items, DESIRED_STREAMS[k].name) == Some(Refused)
      ensures (forall name :: answers(name)) && r.Failure? ==> r.error == UnsafeDrift
    {
      hide ActionFor;
      var created, updated := 0, 0;
      var k := 0;
      written := 0;
      assert DESIRED_STREAMS[..0] == [];
      while k < |DESIRED_STREAMS|
        invariant 0 <= k <= |DESIRED_STREAMS| && written == k
        invariant View() == WithStreams(old(View()), items, DESIRED_STREAMS[..k])
        invariant created == CountStreams(items, DESIRED_STREAMS[..k], Create)
        invariant updated == CountStreams(items, DESIRED_STREAMS[..k], SafeUpdate)
      {
        var d := DESIRED_STREAMS[k];
        assert DESIRED_STREAMS[..k + 1][..k] == DESIRED_STREAMS[..k];
        match ActionFor(items, d.name) {
          case Some(Create) =>
            if !answers(d.name) { return Failure(Provider), written; }
            streams := streams[d.name := d.ProviderConfig()];
            created := created + 1;
          case Some(SafeUpdate) =>
            if !answers(d.name) { return Failure(Provider), written; }
            streams := streams[d.name := d.ProviderConfig()];
            updated := updated + 1;
          case Some(Refused) => return Failure(UnsafeDrift), written;
          case _ =>
        }
        k := k + 1;
        written := k;
      }
      assert DESIRED_STREAMS[..k] == DESIRED_STREAMS;
      return Success((created, updated)), written;
    }

    /** The consumer loop of `apply`. */
    method ApplyConsumers(items: seq<PlanItem>, desired: seq<ConsumerBinding>, answers: string -> bool)
      returns (r: Result<(nat, nat), AdminError>, ghost written: nat)
      modifies this`consumers
      ensures written <= |desired| && View() == WithConsumers(old(View()), items, desired[..written])
      ensures r.Success? ==>
        && written == |desired|
        && r.value == (CountConsumers(items, desired, Create), CountConsumers(items, desired, SafeUpdate))
      ensures r.Failure? ==> r.error == Provider || exists i | 0 <= i < |desired| ::
        ActionFor(items, desired[i].durableName) == Some(Refused)
      ensures (forall name :: answers(name)) && (forall i | 0 <= i < |desired| :: desired[i].stream.Name() in streams) && r.Failure? ==>
        r.error == UnsafeDrift
    {
      hide ActionFor, ConsumerConfigOf;
      var created, updated := 0, 0;
      var i := 0;
      written := 0;
      assert desired[..0] == [];
      while i < |desired|
        invariant 0 <= i <= |desired| && written == i
        invariant View() == WithConsumers(old(View()), items, desired[..i])
        invariant created == CountConsumers(items, desired[..i], Create)
        invariant updated == CountConsumers(items, desired[..i], SafeUpdate)
      {
        var c := desired[i];
        assert desired[..i + 1][..i] == desired[..i];
        if c.stream.Name() !in streams { return Failure(Provider), written; }
        match ActionFor(items, c.durableName) {
          case Some(Create) =>
            if !answers(c.durableName) { return Failure(Provider), written; }
            consumers := consumers[KeyOf(c) := ConsumerConfigOf(c)];
            created := created + 1;
          case Some(SafeUpdate) =>
            if !answers(c.durableName) { return Failure(Provider), written; }
            consumers := consumers[KeyOf(c) := ConsumerConfigOf(c)];
            updated := updated + 1;
          case Some(Refused) => return Failure(UnsafeDrift), written;
          case _ =>
        }
        i := i + 1;
        written := i;
      }
      assert desired[..i] == desired;
      return Success((created, updated)), written;
    }

    /** `topology_ready`: a missing asset is a failure, an asset whose cluster lags is not. */
    method TopologyReady(cells: seq<string>, poll: Poll) returns (r: Result<bool, AdminError>)
      ensures r.Failure? ==> r.error == Provider
      ensures r == Success(true) ==> AllPresent(View(), cells)
      ensures AllPresent(View(), cells) && View().Valid() && poll.answers ==> r.Success? && (poll.waitingFor.None? ==> r.value)
    {
      hide DesiredConsumers;
      if !poll.answers { return Failure(Provider); }
      var k := 0;
      while k < |DESIRED_STREAMS|
        invariant 0 <= k <= |DESIRED_STREAMS|
        invariant forall j | 0 <= j < k :: DESIRED_STREAMS[j].name in streams
      {
        if DESIRED_STREAMS[k].name !in streams { return Failure(Provider); }
        if poll.waitingFor == Some(DESIRED_STREAMS[k].name) { return Success(false); }
        k := k + 1;
      }
      var desired := ManifestConsumers(cells);
      var i := 0;
      while i < |desired|
        invariant 0 <= i <= |desired|
        invariant forall j | 0 <= j < i :: KeyOf(desired[j]) in consumers
      {
        if desired[i].stream.Name() !in streams || KeyOf(desired[i]) !in consumers {
          assert View().Valid() ==> KeyOf(desired[i]) !in consumers;
          return Failure(Provider);
        }
        if poll.waitingFor == Some(desired[i].durableName) { return Success(false); }
        i := i + 1;
      }
      return Success(true);
    }

    /** `wait_ready`: polls until everything is ready or the deadline passes. */
    method WaitReady(cells: seq<string>, polls: seq<Poll>) returns (r: Result<(), AdminError>)
      ensures r.Failure? ==> r.error in {Provider, Timeout}
      ensures r.Success? ==> AllPresent(View(), cells)
      ensures AllPresent(View(), cells) && View().Valid() && GetsReady(polls) ==> r.Success?
    {
      hide AllPresent;
      var i := 0;
      while i < |polls|
        invariant 0 <= i <= |polls|
        invariant AllPresent(View(), cells) && View().Valid() && GetsReady(polls) ==> GetsReady(polls[i..])
      {
        var ready := TopologyReady(cells, polls[i]);
        if ready.Failure? { return Failure(ready.error); }
        if ready.value { return Success(()); }
        assert polls[i..][0] == polls[i] && polls[i..][1..] == polls[i + 1..];
        i := i + 1;
      }
      return Failure(Timeout);
    }

    /** `apply`: nothing is written when any difference is refused, and only the plan's changes ever are. */
    method Apply(cells: seq<string>, timeoutSeconds: nat, script: ApplyScript) returns (r: Result<ApplyReport, AdminError>)
      requires ValidManifest(cells) && View().Valid()
      modifies this
      ensures View().Valid() && PartlyApplied(old(View()), cells, View())
      ensures timeoutSeconds == 0 || timeoutSeconds > MAX_APPLY_SECONDS ==> r == Failure(Configuration)
      ensures timeoutSeconds == 0 || timeoutSeconds > MAX_APPLY_SECONDS || HasRefusedChange(PlanOf(old(View()), cells)) ==>
        r.Failure? && View() == old(View())
      ensures r.Success? ==>
        var (items, b) := (PlanOf(old(View()), cells), old(View()));
        && View() == Applied(b, cells, items) && IsConverged(PlanOf(View(), cells)) && !SomeShadowed(b, cells)
        && r.value == ApplyReport(
          CountStreams(items, DESIRED_STREAMS, Create), CountStreams(items, DESIRED_STREAMS, SafeUpdate),
          CountConsumers(items, DesiredConsumers(cells), Create), CountConsumers(items, DesiredConsumers(cells), SafeUpdate),
          CountItems(items, UnknownAsset), true)
      ensures
        && 1 <= timeoutSeconds <= MAX_APPLY_SECONDS && Cooperative(script)
        && !HasRefusedChange(PlanOf(old(View()), cells)) && !SomeShadowed(old(View()), cells)
        ==> r.Success?
    {
      hide PlanOf, DesiredConsumers, WithStreams, WithConsumers, PartlyApplied, SomeShadowed, IsConverged, HasRefusedChange, Assets.Valid,
        CountItems, CountStreams, CountConsumers, AllPresent;
      ghost var b := View();
      NothingApplied(b, cells);
      if timeoutSeconds == 0 || timeoutSeconds > MAX_APPLY_SECONDS { return Failure(Configuration); }
      if !script.planAnswers { return Failure(Provider); }
      var items := Plan(cells);
      if HasRefusedChange(items) { return Failure(UnsafeDrift); }
      var unknown := CountItems(items, UnknownAsset);
      var streamCounts;
      ghost var k, i;
      streamCounts, k := ApplyStreams(items, script.streamAnswers);
      PrefixIsPartial(b, cells, k, 0);
      NeverRefused(b, cells);
      if streamCounts.Failure? { return Failure(streamCounts.error); }
      var desired := ManifestConsumers(cells);
      assert DESIRED_STREAMS[..k] == DESIRED_STREAMS;
      StreamsThere(b, cells, items);
      var consumerCounts;
      consumerCounts, i := ApplyConsumers(items, desired, script.consumerAnswers);
      PrefixIsPartial(b, cells, k, i);
      if consumerCounts.Failure? { return Failure(consumerCounts.error); }
      assert desired[..i] == desired;
      ApplyConvergesIffNotShadowed(b, cells);
      if !SomeShadowed(b, cells) { ConvergedIsPresent(View(), cells); }
      var ready := WaitReady(cells, script.polls);
      if ready.Failure? { return Failure(ready.error); }
      if !script.finalPlanAnswers { return Failure(Provider); }
      var finalItems := Plan(cells);
      if !IsConverged(finalItems) { return Failure(Provider); }
      var ((createdStreams, updatedStreams), (createdConsumers, updatedConsumers)) := (streamCounts.value, consumerCounts.value);
      return Success(ApplyReport(createdStreams, updatedStreams, createdConsumers, updatedConsumers, unknown, true));
    }
  }

  /** Some poll finds every cluster ready, and the broker answers all polls up to it. */
  predicate GetsReady(polls: seq<Poll>) {
    polls != [] && polls[0].answers && (polls[0].waitingFor.None? || GetsReady(polls[1..]))
  }

  ghost predicate Cooperative(script: ApplyScript) {
    && script.planAnswers && script.finalPlanAnswers && GetsReady(script.polls)
    && (forall name :: script.streamAnswers(name)) && (forall name :: script.consumerAnswers(name))
  }

  lemma NothingApplied(b: Assets, cells: seq<string>)
    ensures PartlyApplied(b, cells, b)
  {
    hide PlanOf, DesiredConsumers;
  }

  lemma NeverRefused(b: Assets, cells: seq<string>)
    requires ValidManifest(cells) && !HasRefusedChange(PlanOf(b, cells))
    ensures forall k | 0 <= k < |DESIRED_STREAMS| :: ActionFor(PlanOf(b, cells), DESIRED_STREAMS[k].name) != Some(Refused)
    ensures forall i | 0 <= i < |DesiredConsumers(cells)| ::
      ActionFor(PlanOf(b, cells), DesiredConsumers(cells)[i].durableName) != Some(Refused)
  {
    hide PlanOf, DesiredConsumers, StreamCategory, ConsumerCategory;
    PlanVerdicts(b, cells);
    forall k | 0 <= k < |DESIRED_STREAMS| ensures ActionFor(PlanOf(b, cells), DESIRED_STREAMS[k].name) != Some(Refused) {
      StreamAction(b, cells, k);
    }
    forall i | 0 <= i < |DesiredConsumers(cells)|
      ensures ActionFor(PlanOf(b, cells), DesiredConsumers(cells)[i].durableName) != Some(Refused)
    {
      DurableAction(b, cells, i);
    }
  }

  lemma StreamsThere(b: Assets, cells: seq<string>, items: seq<PlanItem>)
    requires items == PlanOf(b, cells) && !HasRefusedChange(items)
    ensures forall i | 0 <= i < |DesiredConsumers(cells)| ::
      DesiredConsumers(cells)[i].stream.Name() in WithStreams(b, items, DESIRED_STREAMS).streams
  {
    hide PlanOf, DesiredConsumers, WithStreams;
    PlanVerdicts(b, cells);
    AppliedStreams(b, cells, items);
    StreamIsThere(b, cells, Commands);
    StreamIsThere(b, cells, Events);
  }

  lemma ConvergedIsPresent(b: Assets, cells: seq<string>)
    requires IsConverged(PlanOf(b, cells))
    ensures AllPresent(b, cells)
  {
    hide PlanOf, DesiredConsumers, ClassifyStream, ClassifyConsumer;
    PlanVerdicts(b, cells);
    forall k | 0 <= k < |DESIRED_STREAMS| ensures DESIRED_STREAMS[k].name in b.streams {
      assert StreamCategory(b, DESIRED_STREAMS[k]) == Converged;
    }
    forall i | 0 <= i < |DesiredConsumers(cells)| ensures KeyOf(DesiredConsumers(cells)[i]) in b.consumers {
      assert ConsumerCategory(b, DesiredConsumers(cells)[i]) == Converged;
    }
  }

  // ---- Prefixes of the mutation phase ---------------------------------------------------------

  /** Stopping after any number of writes leaves a partly applied state. */
  lemma PrefixIsPartial(b: Assets, cells: seq<string>, k: nat, i: nat)
    requires ValidManifest(cells) && b.Valid() && k <= |DESIRED_STREAMS| && i <= |DesiredConsumers(cells)|
    requires i > 0 ==> k == |DESIRED_STREAMS| && !HasRefusedChange(PlanOf(b, cells))
    ensures var items := PlanOf(b, cells);
      var after := WithConsumers(WithStreams(b, items, DESIRED_STREAMS[..k]), items, DesiredConsumers(cells)[..i]);
      PartlyApplied(b, cells, after) && after.Valid()
    ensures WithConsumers(WithStreams(b, PlanOf(b, cells), DESIRED_STREAMS[..k]), PlanOf(b, cells), DesiredConsumers(cells)[..0])
         == WithStreams(b, PlanOf(b, cells), DESIRED_STREAMS[..k])
  {
    hide PlanOf, DesiredConsumers, StreamMoved, ConsumerMoved;
    var items := PlanOf(b, cells);
    var desired := DesiredConsumers(cells);
    var middle := WithStreams(b, items, DESIRED_STREAMS[..k]);
    var after := WithConsumers(middle, items, desired[..i]);
    StreamPrefixMoves(b, items, k);
    ConsumersLeaveStreams(middle, items, desired[..i]);
    forall name ensures StreamMoved(b, items, after, name) { StreamMovedBy(b, items, middle, after, name); }
    KeysAreDistinct(cells);
    ConsumerPrefixMoves(b, items, middle, desired, i);
    if i > 0 {
      assert DESIRED_STREAMS[..k] == DESIRED_STREAMS;
      StreamsThere(b, cells, items);
    }
    forall key | key in after.consumers ensures key.stream in after.streams {
      if key !in b.consumers { NewConsumerIsDesired(b, items, desired, after, key); }
    }
  }

  lemma StreamMovedBy(b: Assets, items: seq<PlanItem>, middle: Assets, after: Assets, name: string)
    requires StreamMoved(b, items, middle, name) && after.streams == middle.streams
    ensures StreamMoved(b, items, after, name)
  {
  }

  lemma ConsumerPrefixMoves(b: Assets, items: seq<PlanItem>, middle: Assets, desired: seq<ConsumerBinding>, i: nat)
    requires DistinctKeys(desired) && i <= |desired| && middle.consumers == b.consumers
    ensures forall key :: ConsumerMoved(b, items, desired, WithConsumers(middle, items, desired[..i]), key)
  {
    hide ActionFor, ConsumerConfigOf;
    var after := WithConsumers(middle, items, desired[..i]);
    ConsumersWritten(middle, items, desired[..i]);
    forall key ensures ConsumerMoved(b, items, desired, after, key) {
      if IsDesiredKey(desired[..i], key) {
        var n :| 0 <= n < i && KeyOf(desired[..i][n]) == key;
        assert desired[n] == desired[..i][n];
        assert ConsumerWritten(middle, after, items, desired[..i][n]);
      } else {
        assert SameConsumer(middle, after, key);
      }
    }
  }

  lemma NewConsumerIsDesired(b: Assets, items: seq<PlanItem>, desired: seq<ConsumerBinding>, after: Assets, key: ConsumerKey)
    requires ConsumerMoved(b, items, desired, after, key) && key in after.consumers && key !in b.consumers
    ensures exists n | 0 <= n < |desired| :: KeyOf(desired[n]) == key
  {
  }

  lemma StreamPrefixMoves(b: Assets, items: seq<PlanItem>, k: nat)
    requires k <= |DESIRED_STREAMS|
    ensures var after := WithStreams(b, items, DESIRED_STREAMS[..k]);
      && after.consumers == b.consumers
      && (forall name :: StreamMoved(b, items, after, name))
      && (forall name | name in b.streams :: name in after.streams)
  {
    hide ActionFor, DesiredStream.ProviderConfig;
    if k > 0 {
      StreamPrefixMoves(b, items, k - 1);
      assert DESIRED_STREAMS[..k][..k - 1] == DESIRED_STREAMS[..k - 1];
      assert DESIRED_STREAMS[..k][k - 1] == DESIRED_STREAMS[k - 1];
    }
  }
}
