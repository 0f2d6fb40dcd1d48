/**
 * The publisher and consumer loops of one authority's worker over its database and the broker. The ghost
 * `world` is the protocol state that the real rows and records are part of: every method moves it by
 * protocol actions alone, so what `Protocol` runs keep, the loops keep. What the environment decides
 * (generated identities, clock readings, answers, timeouts) arrives as scripts.
 */
module WorkerRuntime {
  import opened Foundation
  import opened MessageDomain
  import opened OutboxStore
  import opened AuthorityDatabase
  import opened Routing
  import opened Delivery
  import opened Protocol
  import opened Grammar
  import opened Text
  import opened WorkerSpec
  import Retry
  import NoLoss
  import Databases

  // ---- Broker ---------------------------------------------------------------------------------

  class Broker {
    var records: map<nat, BrokerItem>
    var nextSequence: nat
    var window: map<WindowKey, MessageAuthority>

    constructor ()
      ensures records == map[] && nextSequence == 1 && window == map[]
    {
      records, nextSequence, window := map[], 1, map[];
    }

    /** `publish_exact`; `error` is what the worker sees when the broker's answer does not arrive. */
    method PublishExact(self: MessageAuthority, message: EncodedMessage, fate: PublishFate, error: TransportErrorKind)
      returns (r: Result<(), TransportErrorKind>)
      modifies this
      ensures var subject := DeriveSubject(message.metadata);
        var key := WindowKeyOf(message);
        && (r == BrokerAnswer(self, message, fate, old(window), error))
        && (if !Publishable(self, message) then unchanged(this)
            else match fate
              case NotStored => unchanged(this)
              case Suppressed(_) => unchanged(this)
              case Stored(_) =>
                && records == old(records)[old(nextSequence) := ItemOf(self, message, RouteOf(message.metadata).value, subject.value)]
                && nextSequence == old(nextSequence) + 1 && window == old(window)[key := self])
    {
      hide DeriveSubject, RouteOf;
      if !AuthorizedToPublish(WorkerOf(self), message.metadata) { return Failure(Authorization); }
      var subject := DeriveSubject(message.metadata);
      if subject.None? { return Failure(Subject); }
      RoutableHasRoute(message.metadata);
      var key := WindowKeyOf(message);
      match fate {
        case NotStored => return Failure(error);
        case Suppressed(acknowledged) =>
          return if acknowledged && key in window then Success(()) else Failure(error);
        case Stored(acknowledged) =>
          records := records[nextSequence := ItemOf(self, message, RouteOf(message.metadata).value, subject.value)];
          nextSequence := nextSequence + 1;
          window := window[key := self];
          return if acknowledged then Success(()) else Failure(error);
      }
    }
  }

  lemma RoutableHasRoute(m: MessageMetadata)
    requires DeriveSubject(m).Some?
    ensures RouteOf(m).Some?
  {
  }

  // ---- Worker ---------------------------------------------------------------------------------

  class Worker {
    const database: Databases.Database
    const broker: Broker
    const codec: Codec
    ghost var world: State

    /** A worker joins a world that its database and its broker are the real part of. */
    constructor (database: Databases.Database, broker: Broker, codec: Codec, ghost world: State)
      requires database.Valid() && database.session == WORKER_SESSION && database.authority.Valid() && codec.Valid()
      requires database.authority in world.dbs && world.dbs[database.authority] == database.View()
      requires world.broker == broker.records && world.nextSequence == broker.nextSequence && world.window == broker.window
      ensures this.database == database && this.broker == broker && this.codec == codec && this.world == world
      ensures Valid()
    {
      this.database, this.broker, this.codec, this.world := database, broker, codec, world;
    }

    ghost predicate Valid()
      reads this, database, database.store, broker
    {
      && database.Valid() && database.session == WORKER_SESSION && database.authority.Valid() && codec.Valid()
      && database.authority in world.dbs && world.dbs[database.authority] == database.View()
      && world.broker == broker.records && world.nextSequence == broker.nextSequence && world.window == broker.window
    }

    /** Offer one held claim to the broker. */
    method Offer(ghost h: Held, script: PublishScript, claim: ClaimedMessage) returns (r: Result<(), TransportErrorKind>)
      requires Valid() && h in world.held && h == Held(database.authority, claim, Unsent)
      modifies this`world, broker
      ensures Valid() && database.View() == old(database.View())
      ensures world == Step(codec, old(world), Publish(h, EffectiveFate(claim.message, script.fate, old(broker.window))))
      ensures r == BrokerAnswer(database.authority, claim.message, script.fate, old(broker.window), script.error)
      ensures h !in world.held && old(world).held - {h} <= world.held
      ensures r.Success? ==> world.held == old(world).held - {h} + {h.(stage := Accepted)}
      ensures r.Failure? ==> world.held <= old(world).held - {h} + {h.(stage := Refused)}
      ensures r.Failure? && r.error.IsTransient() ==> h.(stage := Refused) in world.held
    {
      hide DeriveSubject, RouteOf, AuthorizedToPublish;
      ghost var fate := EffectiveFate(claim.message, script.fate, broker.window);
      r := broker.PublishExact(database.authority, claim.message, script.fate, script.error);
      if DeriveSubject(claim.message.metadata).Some? { RoutableHasRoute(claim.message.metadata); }
      world := Step(codec, world, Publish(h, fate));
    }

    /** Forget a claim: an error drops it with the future that carried it. */
    ghost method Drop(h: Held)
      requires Valid()
      modifies this`world
      ensures Valid() && world == Step(codec, old(world), Forget(h)) && world == old(world).(held := old(world).held - {h})
    {
      world := Step(codec, world, Forget(h));
    }

    /** The marker after acceptance. */
    method Mark(ghost h: Held, claim: ClaimedMessage, now: int) returns (r: Result<(), RuntimeError>)
      requires Valid() && h in world.held && h == Held(database.authority, claim, Accepted)
      modifies this`world, database.store
      ensures Valid() && world == Step(codec, old(world), Action.Mark(h, now)) && world.held == old(world).held - {h}
      ensures var t := old(database.View()).tables;
        && database.View() == old(database.View()).(tables := MarkTables(t, claim.message.Id(), claim.leaseId, now))
        && r == (if claim.message.Id() in t.deliveries then Success(()) else Failure(DatabaseFailed))
    {
      var marked := database.MarkOutboxPublished(claim.message.Id(), claim.leaseId, now);
      world := Step(codec, world, Action.Mark(h, now));
      // published, already published and lease lost all end the publication
      r := if marked.Success? then Success(()) else Failure(DatabaseFailed);
    }

    /** The reschedule after a transient failure. */
    method Retry(ghost h: Held, claim: ClaimedMessage, now: int, delay: nat, category: string)
      returns (r: Result<(), RuntimeError>)
      requires Valid() && h in world.held && h == Held(database.authority, claim, Refused)
      modifies this`world, database.store
      ensures Valid() && world == Step(codec, old(world), Reschedule(h, now, delay, Some(category)))
      ensures world.held == old(world).held - {h}
      ensures var t := old(database.View()).tables;
        && database.View() == old(database.View()).(tables :=
          RescheduleTables(t, claim.message.Id(), claim.leaseId, now, delay, Some(category)))
        && r == (if claim.message.Id() in t.deliveries then Success(()) else Failure(DatabaseFailed))
    {
      var rescheduled := database.RescheduleOutboxMessage(claim.message.Id(), claim.leaseId, now, delay, Some(category));
      world := Step(codec, world, Reschedule(h, now, delay, Some(category)));
      r := if rescheduled.Success? then Success(()) else Failure(DatabaseFailed);
    }

    /** `publish_one`: no row is marked without the broker's acceptance, and the claim is spent either way. */
    method PublishOne(claim: ClaimedMessage, script: PublishScript, settings: Retry.PublisherSettings)
      returns (r: Result<(), RuntimeError>)
      requires Valid() && settings.Valid() && Held(database.authority, claim, Unsent) in world.held
      modifies this`world, database.store, broker
      ensures Valid()
      ensures world == Run(codec, old(world), PublishActions(database.authority, claim, script, settings, old(broker.window)))
      ensures r == ResultOf(PublishError(database.authority, claim, script, settings, old(database.View()).tables, old(broker.window)))
      ensures world.held <= old(world).held - {Held(database.authority, claim, Unsent)}
      ensures forall other | other in old(world).held && other.claim != claim :: other in world.held
      ensures database.View() == old(database.View()).(tables :=
        SettledTables(old(database.View()).tables, database.authority, claim, script, settings, old(broker.window)))
    {
      hide Step, BrokerAnswer, HoldsLease, MarkTables, RescheduleTables, Run;
      ghost var h := Held(database.authority, claim, Unsent);
      ghost var start := world;
      ghost var actions := PublishActions(database.authority, claim, script, settings, broker.window);
      var sent := Offer(h, script, claim);
      if sent.Success? {
        if !script.databaseAnswers {
          Drop(h.(stage := Accepted));
          r := Failure(DatabaseFailed);
        } else {
          r := Mark(h.(stage := Accepted), claim, script.now);
        }
      } else if sent.error.IsTransient() {
        var category := sent.error.SafeCategory();
        TransientCategoryIsSafe(sent.error);
        var planned := PlannedRetry(claim, script, settings);
        if !ValidSafeName(category) {
          assert false;
        } else if planned.Failure? {
          Drop(h.(stage := Refused));
          r := Failure(RuntimeConfiguration);
        } else if !script.databaseAnswers {
          Drop(h.(stage := Refused));
          r := Failure(DatabaseFailed);
        } else {
          r := Retry(h.(stage := Refused), claim, script.now, planned.value, category);
        }
      } else {
        Drop(h.(stage := Refused));
        r := Failure(TransportFailed(sent.error));
      }
      RunTwo(codec, start, actions[0], actions[1]);
    }

    /** The claimed batch, one message after the other; the first failure drops what is left of it. */
    method PublishBatch(claims: seq<ClaimedMessage>, answers: Uuid -> PublishScript, settings: Retry.PublisherSettings)
      returns (r: Result<(), RuntimeError>, ghost actions: seq<Action>)
      requires Valid() && settings.Valid()
      requires forall i | 0 <= i < |claims| :: Held(database.authority, claims[i], Unsent) in world.held
      requires DistinctIds(claims)
      modifies this`world, database.store, broker
      ensures Valid() && world == Run(codec, old(world), actions)
      ensures var (after, error) := BatchRun(codec, database.authority, old(world), claims, answers, settings);
        world == after && r == ResultOf(error)
      ensures world.held <= old(world).held
      ensures Unheld(claims)
      ensures r.Success? ==> AllSettled(database.View().tables, claims, answers)
      ensures SameRowsBut(old(database.View()).tables, database.View().tables, ClaimedIds(claims))
    {
      hide SameRowsBut, AllSettled, HoldsLease, SettledTables, Run, Marks, Reschedules, ClaimedIds, PublishActions, PublishError,
        Dropped;
      ghost var start := world;
      actions := [];
      RunNothing(codec, start);
      NothingSettled(database.View().tables, answers);
      SameRowsReflexive(database.View().tables, ClaimedIds(claims));
      r := Success(());
      var k := 0;
      while k < |claims| && r.Success?
        invariant 0 <= k <= |claims| && (r.Success? ==> r == Success(())) && Valid() && world == Run(codec, start, actions)
        invariant BatchRun(codec, database.authority, start, claims, answers, settings)
               == if r.Success? then BatchRun(codec, database.authority, world, claims[k..], answers, settings)
                  else (Dropped(database.authority, world, claims[k..]), Some(r.error))
        invariant world.held <= start.held
        invariant Unheld(claims[..k]) && forall i | k <= i < |claims| :: Held(database.authority, claims[i], Unsent) in world.held
        invariant r.Success? ==> AllSettled(database.View().tables, claims[..k], answers)
        invariant SameRowsBut(old(database.View()).tables, database.View().tables, ClaimedIds(claims))
      {
        var script := answers(claims[k].message.Id());
        ghost var before := database.View().tables;
        ghost var (world0, window) := (world, broker.window);
        r := PublishOne(claims[k], script, settings);
        ghost var more := PublishActions(database.authority, claims[k], script, settings, window);
        assert claims[k..][0] == claims[k] && claims[k..][1..] == claims[k + 1..];
        SettledRows(before, database.authority, claims[k], script, settings, window);
        SettledUnlessError(before, database.authority, claims[k], script, settings, window);
        OneMoreSettled(old(database.View()).tables, before, database.View().tables, claims, k, answers);
        RunConcat(codec, start, actions, more);
        actions := actions + more;
        k := k + 1;
      }
      if k == |claims| { assert claims[..k] == claims && claims[k..] == []; }
      DroppedIsHeld(database.authority, world, claims[k..]);
      ghost var dropped := DropFrom(claims, k);
      RunConcat(codec, start, actions, dropped);
      actions := actions + dropped;
    }

    /** None of these claims is held unsent any more. */
    ghost predicate Unheld(claims: seq<ClaimedMessage>)
      reads this
    { forall claim | claim in claims :: Held(database.authority, claim, Unsent) !in world.held }

    ghost method DropFrom(claims: seq<ClaimedMessage>, first: nat) returns (actions: seq<Action>)
      requires Valid() && first <= |claims| && Unheld(claims[..first])
      modifies this`world
      ensures Valid() && world == Run(codec, old(world), actions)
      ensures world == Dropped(database.authority, old(world), claims[first..]) && Unheld(claims)
    {
      hide Run, Step;
      actions := [];
      RunNothing(codec, world);
      var k := first;
      assert world.held - {} == world.held;
      while k < |claims|
        invariant first <= k <= |claims| && Valid() && world == Run(codec, old(world), actions)
        invariant world == Dropped(database.authority, old(world), claims[first..k]) && Unheld(claims[..k])
      {
        Drop(Held(database.authority, claims[k], Unsent));
        RunAppend(codec, old(world), actions, Forget(Held(database.authority, claims[k], Unsent)));
        actions := actions + [Forget(Held(database.authority, claims[k], Unsent))];
        assert claims[first..k + 1] == claims[first..k] + [claims[k]];
        k := k + 1;
      }
      assert claims[..k] == claims && claims[first..k] == claims[first..];
    }

    /**
     * `run_outbox_publisher` for the given turns; the end of the script is the cancellation. `states` are the
     * states between the turns.
     */
    method RunOutboxPublisher(publisher: Uuid, settings: Retry.PublisherSettings, cycles: seq<Cycle>)
      returns (r: Result<(), RuntimeError>, ghost actions: seq<Action>, ghost turns: seq<Turn>, ghost states: seq<State>)
      requires Valid() && settings.Valid()
      modifies this`world, database.store, broker
      ensures Valid() && world == Run(codec, old(world), actions)
      ensures |turns| <= |cycles| && |states| == |turns| + 1 && states[0] == old(world) && states[|turns|] == world
      ensures forall i | 0 <= i < |turns| ::
        TurnOf(codec, database.authority, publisher, settings, cycles[i], states[i], turns[i], states[i + 1])
      ensures forall i | 0 <= i < |turns| - 1 :: turns[i].error.None?
      ensures r == PublisherResult(turns, |cycles|)
      ensures |turns| < |cycles| && (turns == [] || turns[|turns| - 1].error.None?) ==> !HasLease(cycles[|turns|])
      ensures world.held <= old(world).held
      ensures NoLoss.Inv(old(world)) ==> NoLoss.Inv(world)
    {
      hide Run, NoLoss.Inv, TurnOf;
      ghost var start := world;
      actions, turns, states := [], [], [world];
      RunNothing(codec, start);
      r := Success(());
      var i := 0;
      while i < |cycles|
        invariant 0 <= i <= |cycles| && |turns| == i && r == Success(()) && Valid() && world == Run(codec, start, actions)
        invariant |states| == i + 1 && states[0] == start && states[i] == world
        invariant forall j | 0 <= j < i ::
          TurnOf(codec, database.authority, publisher, settings, cycles[j], states[j], turns[j], states[j + 1])
        invariant forall j | 0 <= j < i :: turns[j].error.None?
        invariant world.held <= start.held
      {
        var cycle := cycles[i];
        if cycle.lease.None? || !IsUuidV7(cycle.lease.value) {
          r := Failure(Identity);
          break;
        }
        ghost var (before, turn) := (world, Turn({}, [], None));
        if cycle.databaseAnswers {
          ghost var more;
          r, turn, more := ClaimAndPublish(publisher, settings, cycle);
          RunConcat(codec, start, actions, more);
          actions := actions + more;
        } else {
          WaitingTurn(codec, database.authority, publisher, settings, cycle, world);
        }
        assert TurnOf(codec, database.authority, publisher, settings, cycle, before, turn, world);
        turns, states := turns + [turn], states + [world];
        assert turns[|turns| - 1] == turn;
        if r.Failure? { break; }
        i := i + 1;
      }
      NoLoss.RunFromKeepsInv(codec, start, actions);
    }

    /** The claim of one turn: exactly the claimed messages become held. */
    method TakeBatch(publisher: Uuid, settings: Retry.PublisherSettings, cycle: Cycle)
      returns (claims: seq<ClaimedMessage>, ghost taken: set<Uuid>)
      requires Valid() && HasLease(cycle)
      modifies this`world, database.store
      ensures Valid() && DistinctIds(claims)
      ensures ClaimSelects(old(database.View()).tables, cycle.now, settings.claimBatchSize, cycle.locked, taken)
      ensures world == Step(codec, old(world), ClaimAction(database.authority, publisher, settings, cycle, taken))
      ensures Databases.IsClaimOf(database.View().tables, claims, taken, cycle.lease.value,
        cycle.now + settings.leaseSeconds * MICROS_PER_SECOND)
      ensures forall i | 0 <= i < |claims| :: Held(database.authority, claims[i], Unsent) in world.held
      ensures forall h | h in world.held && h !in old(world).held ::
        h == Held(database.authority, h.claim, Unsent) && h.claim in claims
    {
      hide ClaimSelects, ClaimTables, Databases.IsClaimOf, DoClaim, DistinctIds;
      var (lease, seconds) := (cycle.lease.value, settings.leaseSeconds);
      var claimed;
      claimed, taken := database.ClaimOutboxBatch(cycle.now, settings.claimBatchSize, cycle.locked, publisher, lease, seconds);
      claims := claimed.value;
      ghost var action := ClaimAction(database.authority, publisher, settings, cycle, taken);
      ClaimHolds(world, action, claims);
      world := Step(codec, world, action);
    }

    /** One claim and the publication of its batch. */
    method ClaimAndPublish(publisher: Uuid, settings: Retry.PublisherSettings, cycle: Cycle)
      returns (r: Result<(), RuntimeError>, ghost turn: Turn, ghost actions: seq<Action>)
      requires Valid() && settings.Valid() && HasLease(cycle) && cycle.databaseAnswers
      modifies this`world, database.store, broker
      ensures Valid() && world == Run(codec, old(world), actions) && world.held <= old(world).held
      ensures TurnOf(codec, database.authority, publisher, settings, cycle, old(world), turn, world)
      ensures r == ResultOf(turn.error)
    {
      hide Run, Step, SameRowsBut, AllSettled, ClaimSelects, Databases.IsClaimOf, BatchRun;
      ghost var start := world;
      var claims;
      ghost var taken, more;
      claims, taken := TakeBatch(publisher, settings, cycle);
      ghost var (claim, claimed) := (ClaimAction(database.authority, publisher, settings, cycle, taken), world);
      RunOne(codec, start, claim);
      r, more := PublishBatch(claims, cycle.answers, settings);
      RunConcat(codec, start, [claim], more);
      actions := [claim] + more;
      turn := Turn(taken, claims, BatchRun(codec, database.authority, claimed, claims, cycle.answers, settings).1);
    }

    /** `handle_*_command` and `handle_*_event`: the typed handler up to the result of its inbox transaction. */
    method HandleMessage(stream: TransportStream, message: EncodedMessage, script: DeliveryScript)
      returns (r: Result<InboxOutcome, HandlerError>, derived: Option<EncodedMessage>)
      requires Valid() && message.Valid()
      modifies database.store
      ensures database.Valid()
      ensures var db := old(database.View());
        var id := FreshIdentity(db, script.identity).GetOr(Generated(0, 0));
        var d := Handle(codec, db, stream, message, id.newId, id.emittedAt, script.now);
        && (r.Success? <==> script.databaseAnswers && (stream.Commands? ==> FreshIdentity(db, script.identity).Some?) && d.Committed?)
        && (r.Success? ==>
          d == Committed(r.value, database.View(), derived) && HandlerFailure(codec, db, stream, message, script).None?)
        && (r.Failure? ==>
          && database.View() == db
          && (script.databaseAnswers && r.error.Rejected? ==> d == Nak(r.error.category))
          && match HandlerFailure(codec, db, stream, message, script)
             case None => r.error.Rejected?
             case Some(error) => r.error == Runtime(error))
    {
      hide RecordInboxAndEnqueue, EncodedMessage.Valid;
      var (self, contract) := (database.authority, HandledContract(database.authority, stream));
      if !RouteFence(self, stream, message.metadata) {
        return Failure(Rejected(if self.Cell? then "delivery.wrong-cell" else "delivery.unsupported-contract")), None;
      }
      if message.metadata.descriptor != contract || !codec.payloadFits(message.bytes, contract) {
        return Failure(Rejected("delivery.unsupported-contract")), None;
      }
      derived := None;
      if stream.Commands? {
        // a generated id that is not fresh counts as none, since generated ids are unique
        if script.identity.None? || !IsUuidV7(script.identity.value.newId) || !ValidEmittedAt(script.identity.value.emittedAt)
          || script.identity.value.newId in database.store.outboxMessage {
          return Failure(Runtime(Identity)), None;
        }
        var id := script.identity.value;
        var reply := ReplyMetadata(self, message.metadata, id.newId, id.emittedAt);
        var bytes := codec.replyBytes(reply, message.bytes);
        if reply.BrokenRule().Some? || bytes.None? || !(2 <= |bytes.value| <= MAX_ENCODED_MESSAGE_BYTES) {
          return Failure(Runtime(CodecFailure)), None;
        }
        derived := Some(EncodedMessage(reply, bytes.value));
        ReplyIsValid(self, message, id.newId, id.emittedAt, bytes.value);
      }
      if !script.databaseAnswers { return Failure(Rejected("database.transient")), None; }
      var recorded := database.RecordInboxAndEnqueueDerived(HandlerName(self, stream), message, derived, script.now);
      FailureRollsBack(old(database.View()), WORKER_SESSION, HandlerName(self, stream), message, derived, script.now);
      match recorded
      case Success(outcome) => return Success(outcome), derived;
      case Failure(error) =>
        return Failure(if IsIntegrityError(error) then Runtime(DatabaseFailed) else Rejected(NakCategory(self, error))), None;
    }

    /** The checks before the handler. */
    method Accept(item: BrokerItem) returns (message: Option<EncodedMessage>)
      requires codec.Valid()
      ensures message.Some? <==> Addressed(codec, item)
      ensures message.Some? ==> message == DecodeEnvelope(codec, item.bytes)
      ensures message.Some? ==> message.value.Valid()
      ensures message.None? ==> forall db, newId, emittedAt, now :: ProcessDelivery(codec, db, item, newId, emittedAt, now).Nak?
      ensures message.Some? ==> forall db, newId, emittedAt, now ::
        ProcessDelivery(codec, db, item, newId, emittedAt, now)
        == Handle(codec, db, item.stream, message.value, newId, emittedAt, now)
    {
      hide Handle, DeriveSubject;
      var decoded := DecodeEnvelope(codec, item.bytes);
      if decoded.None? { return None; }
      if item.headerId != decoded.value.Id() { return None; }
      var subject := DeriveSubject(decoded.value.metadata);
      if subject.None? { return None; }
      if item.subject != subject.value || item.stream != StreamForKind(decoded.value.metadata.descriptor.kind) { return None; }
      return decoded;
    }

    /** `double_ack`: the record goes when the broker answers, and otherwise comes again. */
    method Acknowledge(sequence: nat, answers: bool)
      requires Valid() && sequence in world.ackable
      modifies this`world, broker`records
      ensures Valid() && world == Step(codec, old(world), if answers then Ack(sequence) else LoseAck(sequence))
      ensures broker.records == old(broker.records) - if answers then {sequence} else {}
    {
      if answers { broker.records := broker.records - {sequence}; }
      world := Step(codec, world, if answers then Ack(sequence) else LoseAck(sequence));
    }

    /** `process_delivery`: the acknowledgment follows the commit, and a rejection leaves the record alone. */
    method ProcessOne(sequence: nat, script: DeliveryScript) returns (r: Result<(), RuntimeError>)
      requires Valid() && sequence in broker.records && broker.records[sequence].destination == database.authority
      modifies this`world, database.store, broker`records
      ensures Valid()
      ensures var (db, item) := (old(database.View()), old(broker.records)[sequence]);
        var commits := Commits(codec, db, item, script);
        && world == Run(codec, old(world), DeliveryActions(codec, db, sequence, item, script))
        && r == ResultOf(DeliveryError(codec, db, item, script))
        && (r.Failure? ==> !commits)
        && database.View() == (if commits then DispositionOf(codec, db, item, script).db else db)
        && broker.records == old(broker.records) - (if commits && script.timing.InTime? && script.ackAnswers then {sequence} else {})
    {
      hide Handle, ProcessDelivery, DecodeEnvelope, DeriveSubject, FreshIdentity, RecordInboxAndEnqueue, Run, DoDeliver,
        HandlerFailure, Addressed;
      ghost var start := world;
      RunNothing(codec, start);
      var item := broker.records[sequence];
      if script.timing.TimedOutBeforeCommit? { return Success(()); }
      var message := Accept(item);
      if message.None? { return Success(()); }
      var handled, derived := HandleMessage(item.stream, message.value, script);
      if handled.Failure? {
        match handled.error
        case Rejected(_) => return Success(());
        case Runtime(error) => return Failure(error);
      }
      ghost var id := FreshIdentity(start.dbs[database.authority], script.identity).GetOr(Generated(0, 0));
      ghost var deliver := Deliver(sequence, id.newId, id.emittedAt, script.now, script.timing.InTime?);
      DeliverCommits(codec, start, deliver, script);
      world := Step(codec, world, deliver);
      RunOne(codec, start, deliver);
      ghost var actions := DeliveryActions(codec, start.dbs[database.authority], sequence, item, script);
      if script.timing.InTime? {
        Acknowledge(sequence, script.ackAnswers);
        RunTwo(codec, start, deliver, actions[1]);
        assert actions == [deliver, actions[1]];
      } else {
        assert actions == [deliver];
      }
      return Success(());
    }

    /** The fetched batch of one durable; a record that is gone by now is not delivered again. */
    method ProcessFetched(stream: TransportStream, fetch: Fetch) returns (r: Result<(), RuntimeError>,
      ghost actions: seq<Action>)
      requires Valid()
      modifies this`world, database.store, broker`records
      ensures Valid() && world == Run(codec, old(world), actions)
      ensures var (after, error) := FetchedRun(codec, database.authority, old(world), stream, fetch.sequences, fetch.scripts);
        world == after && r == ResultOf(error)
      ensures Remaining(old(broker.records), broker.records)
      ensures AcknowledgedAreReceived(old(broker.records), broker.records, database.View().tables)
      ensures ReceiptsGrow(old(database.View()).tables, database.View().tables)
    {
      hide Run, AcknowledgedAreReceived, Remaining, ReceiptsGrow, Commits, DispositionOf, DeliveryError, DeliveryActions;
      ghost var start := world;
      actions := [];
      RunNothing(codec, world);
      NoneAcknowledged(broker.records, database.View().tables);
      r := Success(());
      var k := 0;
      while k < |fetch.sequences| && r.Success?
        invariant 0 <= k <= |fetch.sequences| && (r.Success? ==> r == Success(()))
        invariant Valid() && world == Run(codec, start, actions)
        invariant FetchedRun(codec, database.authority, start, stream, fetch.sequences, fetch.scripts)
               == if r.Success? then
                    FetchedRun(codec, database.authority, world, stream, fetch.sequences[k..], fetch.scripts)
                  else (world, Some(r.error))
        invariant Remaining(old(broker.records), broker.records)
        invariant AcknowledgedAreReceived(old(broker.records), broker.records, database.View().tables)
        invariant ReceiptsGrow(old(database.View()).tables, database.View().tables)
        decreases |fetch.sequences| - k
      {
        var n := fetch.sequences[k];
        assert fetch.sequences[k..][0] == n && fetch.sequences[k..][1..] == fetch.sequences[k + 1..];
        if n in broker.records && broker.records[n].destination == database.authority && broker.records[n].stream == stream {
          ghost var (before, db) := (broker.records, database.View());
          r := ProcessOne(n, fetch.scripts(n));
          ghost var more := DeliveryActions(codec, db, n, before[n], fetch.scripts(n));
          CommitGrows(codec, db, before[n], fetch.scripts(n));
          assert Remaining(before, broker.records) by { RemoveRemains(before, n); NoneAcknowledged(before, db.tables); }
          OneAcknowledged(codec, db, before, broker.records, n, fetch.scripts(n), database.View().tables);
          AcknowledgedSoFar(old(broker.records), before, broker.records, db.tables, database.View().tables);
          GrowTransitive(old(database.View()).tables, db.tables, database.View().tables);
          RunConcat(codec, start, actions, more);
          actions := actions + more;
        }
        k := k + 1;
      }
    }

    /** `run_consumer` for the given fetches of one durable; the end of the script is the cancellation. */
    method RunConsumer(stream: TransportStream, fetches: seq<Fetch>) returns (r: Result<(), RuntimeError>,
      ghost actions: seq<Action>)
      requires Valid()
      modifies this`world, database.store, broker`records
      ensures Valid() && world == Run(codec, old(world), actions)
      ensures var (after, error) := ConsumerRun(codec, database.authority, old(world), stream, fetches);
        world == after && r == ResultOf(error)
      ensures Remaining(old(broker.records), broker.records)
      ensures AcknowledgedAreReceived(old(broker.records), broker.records, database.View().tables)
      ensures NoLoss.Inv(old(world)) ==> NoLoss.Inv(world)
    {
      hide Run, NoLoss.Inv, AcknowledgedAreReceived, Remaining, ReceiptsGrow, FetchedRun;
      ghost var start := world;
      actions := [];
      RunNothing(codec, world);
      NoneAcknowledged(broker.records, database.View().tables);
      var i := 0;
      r := Success(());
      while i < |fetches| && r.Success?
        invariant 0 <= i <= |fetches| && (r.Success? ==> r == Success(()))
        invariant Valid() && world == Run(codec, start, actions)
        invariant ConsumerRun(codec, database.authority, start, stream, fetches)
               == if r.Success? then ConsumerRun(codec, database.authority, world, stream, fetches[i..]) else (world, Some(r.error))
        invariant Remaining(old(broker.records), broker.records)
        invariant AcknowledgedAreReceived(old(broker.records), broker.records, database.View().tables)
        decreases |fetches| - i
      {
        var fetch := fetches[i];
        assert fetches[i..][0] == fetch && fetches[i..][1..] == fetches[i + 1..];
        FirstFetch(codec, database.authority, world, stream, fetches[i..]);
        if fetch.error.Some? {
          if !fetch.error.value.IsTransient() { r := Failure(TransportFailed(fetch.error.value)); }
        } else {
          ghost var more;
          ghost var (at, before, tables) := (world, broker.records, database.View().tables);
          r, more := ProcessFetched(stream, fetch);
          assert (world, if r.Success? then None else Some(r.error))
              == FetchedRun(codec, database.authority, at, stream, fetch.sequences, fetch.scripts);
          AcknowledgedSoFar(old(broker.records), before, broker.records, tables, database.View().tables);
          RunConcat(codec, start, actions, more);
          actions := actions + more;
        }
        i := i + 1;
      }
      NoLoss.RunFromKeepsInv(codec, start, actions);
    }
  }

  lemma FirstFetch(codec: Codec, self: MessageAuthority, s: State, stream: TransportStream, fetches: seq<Fetch>)
    requires fetches != []
    ensures ConsumerRun(codec, self, s, stream, fetches) ==
      if fetches[0].error.Some? then
        if fetches[0].error.value.IsTransient() then ConsumerRun(codec, self, s, stream, fetches[1..])
        else (s, Some(TransportFailed(fetches[0].error.value)))
      else
        var (t, error) := FetchedRun(codec, self, s, stream, fetches[0].sequences, fetches[0].scripts);
        if error.Some? then (t, error) else ConsumerRun(codec, self, t, stream, fetches[1..])
  {
    hide FetchedRun;
  }

  /** A consumer only ever removes records. */
  predicate Remaining(before: map<nat, BrokerItem>, after: map<nat, BrokerItem>) {
    forall n | n in after :: n in before && after[n] == before[n]
  }

  predicate ReceiptsGrow(t: Tables, after: Tables) {
    forall key | key in t.receipts :: key in after.receipts && after.receipts[key] == t.receipts[key]
  }

  lemma NoneAcknowledged(records: map<nat, BrokerItem>, t: Tables)
    ensures Remaining(records, records) && AcknowledgedAreReceived(records, records, t) && ReceiptsGrow(t, t)
  {
  }

  lemma RemoveRemains(records: map<nat, BrokerItem>, n: nat)
    ensures Remaining(records, records - {n}) && Remaining(records, records - {})
  {
  }

  lemma GrowTransitive(a: Tables, b: Tables, c: Tables)
    requires ReceiptsGrow(a, b) && ReceiptsGrow(b, c)
    ensures ReceiptsGrow(a, c)
  {
  }

  lemma AcknowledgedSoFar(start: map<nat, BrokerItem>, before: map<nat, BrokerItem>, after: map<nat, BrokerItem>,
    t: Tables, later: Tables)
    requires Remaining(start, before) && Remaining(before, after) && ReceiptsGrow(t, later)
    requires AcknowledgedAreReceived(start, before, t) && AcknowledgedAreReceived(before, after, later)
    ensures Remaining(start, after) && AcknowledgedAreReceived(start, after, later)
  {
    hide ReceiptKeyOf;
    forall n | n in start && n !in after ensures HasReceiptFor(later, start[n]) {
      if n in before { assert before[n] == start[n]; } else { assert HasReceiptFor(t, start[n]); }
    }
  }

  /** A delivery that commits leaves the receipt of its record and keeps every other receipt. */
  lemma CommitGrows(codec: Codec, db: Db, item: BrokerItem, script: DeliveryScript)
    ensures var after := if Commits(codec, db, item, script) then DispositionOf(codec, db, item, script).db else db;
      ReceiptsGrow(db.tables, after.tables)
    ensures Commits(codec, db, item, script) && db.authority == item.destination ==>
      HasReceiptFor(DispositionOf(codec, db, item, script).db.tables, item)
  {
    hide ProcessDelivery, EnqueueTables, EnqueueResult, MessageMetadata.BrokenRule;
    if Commits(codec, db, item, script) {
      var id := FreshIdentity(db, script.identity).GetOr(Generated(0, 0));
      DeliveryEffect(codec, db, item, id.newId, id.emittedAt, script.now);
    }
  }

  lemma OneAcknowledged(codec: Codec, db: Db, before: map<nat, BrokerItem>, after: map<nat, BrokerItem>, n: nat,
    script: DeliveryScript, t: Tables)
    requires n in before && before[n].destination == db.authority
    requires after == before || (after == before - {n} && Commits(codec, db, before[n], script))
    requires Commits(codec, db, before[n], script) ==> t == DispositionOf(codec, db, before[n], script).db.tables
    ensures AcknowledgedAreReceived(before, after, t)
  {
    hide Commits, DispositionOf;
    CommitGrows(codec, db, before[n], script);
  }

  /** A committing delivery is one protocol step, with the database it leaves behind. */
  lemma DeliverCommits(codec: Codec, s: State, a: Action, script: DeliveryScript)
    requires a.Deliver? && a.sequence in s.broker && s.broker[a.sequence].destination in s.dbs
    requires var db := s.dbs[s.broker[a.sequence].destination];
      && Commits(codec, db, s.broker[a.sequence], script)
      && a.now == script.now
      && Generated(a.newId, a.emittedAt) == FreshIdentity(db, script.identity).GetOr(Generated(0, 0))
    ensures var (t, item) := (Step(codec, s, a), s.broker[a.sequence]);
      && t == s.(dbs := s.dbs[item.destination := DispositionOf(codec, s.dbs[item.destination], item, script).db],
                 ackable := t.ackable)
      && (a.learned ==> a.sequence in t.ackable)
  {
    hide ProcessDelivery;
    var item := s.broker[a.sequence];
    var db := s.dbs[item.destination];
    DeliveryEffect(codec, db, item, a.newId, a.emittedAt, a.now);
    if DispositionOf(codec, db, item, script).outcome.DuplicateReceipt? {
      assert s.dbs[item.destination := db] == s.dbs;
    }
  }

  /** Every record that is gone from the broker has its receipt. */
  ghost predicate AcknowledgedAreReceived(before: map<nat, BrokerItem>, after: map<nat, BrokerItem>, t: Tables) {
    forall n | n in before && n !in after :: HasReceiptFor(t, before[n])
  }

  datatype HandlerError = Rejected(category: string) | Runtime(error: RuntimeError)

  lemma ReplyIsValid(self: MessageAuthority, command: EncodedMessage, newId: Uuid, emittedAt: nat, bytes: Bytes)
    requires self.Valid() && command.Valid() && IsUuidV7(newId) && ValidEmittedAt(emittedAt)
    requires ReplyMetadata(self, command.metadata, newId, emittedAt).BrokenRule().None? && 2 <= |bytes| <= MAX_ENCODED_MESSAGE_BYTES
    ensures EncodedMessage(ReplyMetadata(self, command.metadata, newId, emittedAt), bytes).Valid()
  {
    ReplyComponentsValid(self, command.metadata, newId, emittedAt);
  }

  ghost function ClaimedIds(claims: seq<ClaimedMessage>): set<Uuid> { set i | 0 <= i < |claims| :: claims[i].message.Id() }

  /** Only delivery rows of `ids` may differ. */
  ghost predicate SameRowsBut(t: Tables, after: Tables, ids: set<Uuid>) {
    && after.messages == t.messages && after.receipts == t.receipts && after.deliveries.Keys == t.deliveries.Keys
    && forall id | id in t.deliveries && id !in ids :: after.deliveries[id] == t.deliveries[id]
  }

  ghost predicate DistinctIds(claims: seq<ClaimedMessage>) {
    forall i, j | 0 <= i < j < |claims| :: claims[i].message.Id() != claims[j].message.Id()
  }

  /** Each of these claims was marked or rescheduled, or its lease was lost before. */
  ghost predicate AllSettled(t: Tables, claims: seq<ClaimedMessage>, answers: Uuid -> PublishScript) {
    forall claim | claim in claims :: !HoldsLease(t, claim.message.Id(), claim.leaseId, answers(claim.message.Id()).now)
  }

  lemma NothingSettled(t: Tables, answers: Uuid -> PublishScript)
    ensures AllSettled(t, [], answers)
  {
  }

  lemma {:induction false} DistinctClaims(claims: seq<ClaimedMessage>)
    requires DistinctIds(claims)
    ensures |ClaimedIds(claims)| == |claims|
    decreases |claims|
  {
    if claims != [] {
      var (front, last) := (claims[..|claims| - 1], claims[|claims| - 1]);
      DistinctClaims(front);
      assert ClaimedIds(claims) == ClaimedIds(front) + {last.message.Id()} by {
        forall i | 0 <= i < |claims| ensures claims[i].message.Id() in ClaimedIds(front) + {last.message.Id()} {
          if i < |front| { assert front[i] == claims[i]; }
        }
        forall i | 0 <= i < |front| ensures front[i].message.Id() in ClaimedIds(claims) { assert front[i] == claims[i]; }
        assert claims[|claims| - 1].message.Id() in ClaimedIds(claims);
      }
      assert last.message.Id() !in ClaimedIds(front);
    }
  }

  /** The claims of a batch are the claims of the chosen rows, all of them. */
  lemma ChosenAreClaimed(t: Tables, claims: seq<ClaimedMessage>, chosen: set<Uuid>, lease: Uuid, until: int, id: Uuid)
    requires Databases.IsClaimOf(t, claims, chosen, lease, until) && id in chosen
    ensures id in t.messages && id in t.deliveries && ClaimedRow(t, id, lease, until) in claims
  {
    DistinctClaims(claims);
    assert ClaimedIds(claims) <= chosen;
    SmallerSubset(ClaimedIds(claims), chosen);
    var i :| 0 <= i < |claims| && claims[i].message.Id() == id;
    assert claims[i] == ClaimedRow(t, id, lease, until);
  }

  /** A claim action holds exactly the claims of the batch that its tables give back. */
  lemma ClaimHolds(s: State, a: Action, claims: seq<ClaimedMessage>)
    requires a.Claim? && a.learned && a.at in s.dbs
    requires ClaimSelects(s.dbs[a.at].tables, a.now, a.batch, a.locked, a.chosen)
    requires var t := ClaimTables(s.dbs[a.at].tables, a.chosen, a.now, a.publisher, a.lease, a.seconds);
      Databases.IsClaimOf(t, claims, a.chosen, a.lease, a.now + a.seconds * MICROS_PER_SECOND)
    ensures var t := DoClaim(s, a);
      && t == WithTables(s, a.at, ClaimTables(s.dbs[a.at].tables, a.chosen, a.now, a.publisher, a.lease, a.seconds)).(held := t.held)
      && (forall i | 0 <= i < |claims| :: Held(a.at, claims[i], Unsent) in t.held)
      && (forall h | h in t.held && h !in s.held :: h == Held(a.at, h.claim, Unsent) && h.claim in claims)
    ensures DistinctIds(claims)
  {
    hide ClaimSelects, LeaseRows;
    var t := ClaimTables(s.dbs[a.at].tables, a.chosen, a.now, a.publisher, a.lease, a.seconds);
    var until := a.now + a.seconds * MICROS_PER_SECOND;
    forall id | id in a.chosen ensures id in t.messages && id in t.deliveries && ClaimedRow(t, id, a.lease, until) in claims {
      ChosenAreClaimed(t, claims, a.chosen, a.lease, until, id);
    }
    forall i | 0 <= i < |claims| ensures claims[i] == ClaimedRow(t, claims[i].message.Id(), a.lease, until) {
    }
  }

  lemma SameRowsReflexive(t: Tables, ids: set<Uuid>)
    ensures SameRowsBut(t, t, ids)
  {
  }

  lemma OneMoreSettled(start: Tables, t: Tables, after: Tables, claims: seq<ClaimedMessage>, k: nat,
    answers: Uuid -> PublishScript)
    requires k < |claims| && DistinctIds(claims)
    requires SameRowsBut(start, t, ClaimedIds(claims)) && SameRowsBut(t, after, {claims[k].message.Id()})
    ensures SameRowsBut(start, after, ClaimedIds(claims))
    ensures
      && AllSettled(t, claims[..k], answers)
      && !HoldsLease(after, claims[k].message.Id(), claims[k].leaseId, answers(claims[k].message.Id()).now)
      ==> AllSettled(after, claims[..k + 1], answers)
  {
    assert claims[k].message.Id() in ClaimedIds(claims);
    if AllSettled(t, claims[..k], answers) {
      forall i | 0 <= i < k
        ensures HoldsLease(after, claims[i].message.Id(), claims[i].leaseId, answers(claims[i].message.Id()).now)
            == HoldsLease(t, claims[i].message.Id(), claims[i].leaseId, answers(claims[i].message.Id()).now)
      {
        assert claims[i] in claims[..k];
      }
    }
  }

  lemma DroppedIsHeld(self: MessageAuthority, s: State, claims: seq<ClaimedMessage>)
    ensures Dropped(self, s, claims).held <= s.held && (claims == [] ==> Dropped(self, s, claims) == s)
  {
    if claims == [] { assert Dropped(self, s, claims).held == s.held; }
  }

  lemma WaitingTurn(codec: Codec, self: MessageAuthority, publisher: Uuid, settings: Retry.PublisherSettings, cycle: Cycle, s: State)
    requires HasLease(cycle) && !cycle.databaseAnswers
    ensures TurnOf(codec, self, publisher, settings, cycle, s, Turn({}, [], None), s)
  {
  }

  /** A publication that does not fail marked or rescheduled its row. */
  lemma SettledUnlessError(t: Tables, self: MessageAuthority, claim: ClaimedMessage, script: PublishScript,
    settings: Retry.PublisherSettings, window: map<WindowKey, MessageAuthority>)
    ensures PublishError(self, claim, script, settings, t, window).None? <==>
      && claim.message.Id() in t.deliveries
      && (Marks(self, claim, script, window) || Reschedules(self, claim, script, settings, window))
  {
    hide PlannedRetry, BrokerAnswer;
  }

  /** Settling one claim touches its own row only and leaves it without that lease. */
  lemma SettledRows(t: Tables, self: MessageAuthority, claim: ClaimedMessage, script: PublishScript,
    settings: Retry.PublisherSettings, window: map<WindowKey, MessageAuthority>)
    ensures SameRowsBut(t, SettledTables(t, self, claim, script, settings, window), {claim.message.Id()})
    ensures Marks(self, claim, script, window) || Reschedules(self, claim, script, settings, window) ==>
      !HoldsLease(SettledTables(t, self, claim, script, settings, window), claim.message.Id(), claim.leaseId, script.now)
  {
    hide Marks, Reschedules, PlannedRetry, BrokerAnswer;
  }

  lemma RunNothing(codec: Codec, s: State)
    ensures Run(codec, s, []) == s
  {
  }

  lemma RunOne(codec: Codec, s: State, a: Action)
    ensures Run(codec, s, [a]) == Step(codec, s, a)
  {
    hide Step;
    assert [a][..0] == [];
    assert Run(codec, s, []) == s;
  }

  lemma RunTwo(codec: Codec, s: State, a: Action, b: Action)
    ensures Run(codec, s, [a, b]) == Step(codec, Step(codec, s, a), b)
  {
    hide Step;
    RunOne(codec, s, a);
    RunAppend(codec, s, [a], b);
    assert [a] + [b] == [a, b];
  }

  lemma RunAppend(codec: Codec, s: State, actions: seq<Action>, a: Action)
    ensures Run(codec, s, actions + [a]) == Step(codec, Run(codec, s, actions), a)
  {
    hide Step;
    assert (actions + [a])[..|actions|] == actions;
  }

  lemma CategoryOfOutage(kind: TransportErrorKind)
    requires kind in {Disconnected, Timeout, NoQuorum, Unavailable}
    ensures ValidSafeName(kind.SafeCategory()) && StoredSafeName(kind.SafeCategory())
  {
    hide ValidSafeName, StoredSafeName;
    match kind
    case Disconnected => DottedPairIsSafe("transport", "disconnected");
    case Timeout => DottedPairIsSafe("transport", "timeout");
    case NoQuorum => DottedPairIsSafe("transport", "no-quorum");
    case Unavailable => DottedPairIsSafe("transport", "unavailable");
  }

  /** Every failure that is retried is a failure category, and one that the delivery table takes. */
  lemma TransientCategoryIsSafe(kind: TransportErrorKind)
    requires kind.IsTransient()
    ensures ValidSafeName(kind.SafeCategory()) && StoredSafeName(kind.SafeCategory())
  {
    hide ValidSafeName, StoredSafeName;
    match kind
    case Capacity => DottedPairIsSafe("transport", "capacity");
    case AckTimeout => DottedPairIsSafe("transport", "ack-timeout");
    case ConsumerFetch => DottedPairIsSafe("consumer", "fetch");
    case _ => CategoryOfOutage(kind);
  }
}
