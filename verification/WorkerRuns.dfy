/**
 * What whole turns of the worker loops achieve: a turn whose publications are acknowledged leaves every row
 * it took published, one that is refused leaves every row rescheduled, and a fetched record whose delivery
 * commits and is acknowledged is received and gone.
 */
module WorkerRuns {
  import opened Foundation
  import opened MessageDomain
  import opened OutboxStore
  import opened AuthorityDatabase
  import opened Routing
  import opened Delivery
  import opened Protocol
  import opened WorkerSpec
  import opened WorkerRuntime
  import Databases
  import Progress
  import Retry

  // ---- One publication ------------------------------------------------------------------------

  ghost predicate SameWindowBut(window: map<WindowKey, MessageAuthority>, after: map<WindowKey, MessageAuthority>, id: Uuid) {
    forall key: WindowKey | key.id != id :: key in after <==> key in window
  }

  lemma OfferMoves(codec: Codec, s: State, self: MessageAuthority, claim: ClaimedMessage, script: PublishScript)
    requires Held(self, claim, Unsent) in s.held
    ensures var h := Held(self, claim, Unsent);
      var t := DoPublish(s, Publish(h, EffectiveFate(claim.message, script.fate, s.window)));
      var answer := BrokerAnswer(self, claim.message, script.fate, s.window, script.error);
      && t.dbs == s.dbs && SameWindowBut(s.window, t.window, claim.message.Id())
      && h !in t.held && (forall other | other in s.held && other.claim != claim :: other in t.held)
      && (answer.Success? ==> h.(stage := Accepted) in t.held)
      && (answer.Failure? && answer.error.IsTransient() ==> h.(stage := Refused) in t.held)
      && (if Publishable(self, claim.message) && script.fate.Stored? then
            t.nextSequence == s.nextSequence + 1
            && t.broker == s.broker[s.nextSequence := ItemOf(self, claim.message, RouteOf(claim.message.metadata).value,
              DeriveSubject(claim.message.metadata).value)]
          else t.broker == s.broker && t.nextSequence == s.nextSequence)
  {
    hide DeriveSubject, RouteOf, AuthorizedToPublish, ItemOf;
    if DeriveSubject(claim.message.metadata).Some? { RoutableHasRoute(claim.message.metadata); }
  }

  /** `publish_one` settles the row of its own claim and leaves the other claims held. */
  lemma PublishMoves(codec: Codec, s: State, self: MessageAuthority, claim: ClaimedMessage, script: PublishScript,
    settings: Retry.PublisherSettings)
    requires self in s.dbs && Held(self, claim, Unsent) in s.held
    ensures var t := Run(codec, s, PublishActions(self, claim, script, settings, s.window));
      && t.dbs == WithTables(s, self, SettledTables(s.dbs[self].tables, self, claim, script, settings, s.window)).dbs
      && (forall other | other in s.held && other.claim != claim :: other in t.held)
      && SameWindowBut(s.window, t.window, claim.message.Id())
      && (if Publishable(self, claim.message) && script.fate.Stored? then
            t.nextSequence == s.nextSequence + 1
            && t.broker == s.broker[s.nextSequence := ItemOf(self, claim.message, RouteOf(claim.message.metadata).value,
              DeriveSubject(claim.message.metadata).value)]
          else t.broker == s.broker && t.nextSequence == s.nextSequence)
  {
    hide Run, DoPublish, BrokerAnswer, SameWindowBut, Publishable, MarkTables, RescheduleTables, ItemOf, EffectiveFate, PlannedRetry,
      RouteOf, DeriveSubject;
    var actions := PublishActions(self, claim, script, settings, s.window);
    OfferMoves(codec, s, self, claim, script);
    RunTwo(codec, s, actions[0], actions[1]);
    assert s.dbs[self := s.dbs[self]] == s.dbs;
  }

  /** Publications under other ids do not change the answer. */
  lemma AnswerKept(self: MessageAuthority, message: EncodedMessage, script: PublishScript, window: map<WindowKey, MessageAuthority>,
    after: map<WindowKey, MessageAuthority>, id: Uuid)
    requires SameWindowBut(window, after, id) && id != message.Id()
    ensures BrokerAnswer(self, message, script.fate, window, script.error) == BrokerAnswer(self, message, script.fate, after, script.error)
  {
    hide DeriveSubject, AuthorizedToPublish;
  }

  // ---- One batch ------------------------------------------------------------------------------

  /** The row that settling this claim leaves, on its own. */
  function SettledRow(t: Tables, self: MessageAuthority, claim: ClaimedMessage, script: PublishScript,
    settings: Retry.PublisherSettings, window: map<WindowKey, MessageAuthority>): DeliveryRow
    requires claim.message.Id() in t.deliveries
  {
    SettledRows(t, self, claim, script, settings, window);
    SettledTables(t, self, claim, script, settings, window).deliveries[claim.message.Id()]
  }

  ghost predicate Settles(t: Tables, self: MessageAuthority, claim: ClaimedMessage, script: PublishScript,
    settings: Retry.PublisherSettings, window: map<WindowKey, MessageAuthority>)
  {
    PublishError(self, claim, script, settings, t, window).None?
  }

  /** Where a row and the window keys of its id are the same, its publication comes to the same. */
  lemma SettlesAlike(t: Tables, after: Tables, self: MessageAuthority, claim: ClaimedMessage, script: PublishScript,
    settings: Retry.PublisherSettings, window: map<WindowKey, MessageAuthority>, later: map<WindowKey, MessageAuthority>, id: Uuid)
    requires SameRowsBut(t, after, {id}) && SameWindowBut(window, later, id) && id != claim.message.Id()
    ensures Settles(t, self, claim, script, settings, window) == Settles(after, self, claim, script, settings, later)
    ensures claim.message.Id() in t.deliveries ==>
      && claim.message.Id() in after.deliveries
      && SettledRow(t, self, claim, script, settings, window) == SettledRow(after, self, claim, script, settings, later)
  {
    hide BrokerAnswer, PlannedRetry, SameWindowBut, MarkTables, RescheduleTables, TransportErrorKind.SafeCategory;
    AnswerKept(self, claim.message, script, window, later, id);
    var own := claim.message.Id();
    if own in t.deliveries {
      assert after.deliveries[own] == t.deliveries[own];
      MarkAlike(t, after, own, claim.leaseId, script.now);
      if Reschedules(self, claim, script, settings, window) {
        var category := BrokerAnswer(self, claim.message, script.fate, window, script.error).error.SafeCategory();
        RescheduleAlike(t, after, own, claim.leaseId, script.now, PlannedRetry(claim, script, settings).value, Some(category));
      }
    }
  }

  lemma MarkAlike(t: Tables, after: Tables, id: Uuid, lease: Uuid, now: int)
    requires id in t.deliveries && id in after.deliveries && t.deliveries[id] == after.deliveries[id]
    ensures id in MarkTables(t, id, lease, now).deliveries && id in MarkTables(after, id, lease, now).deliveries
    ensures MarkTables(t, id, lease, now).deliveries[id] == MarkTables(after, id, lease, now).deliveries[id]
  {
  }

  lemma RescheduleAlike(t: Tables, after: Tables, id: Uuid, lease: Uuid, now: int, delay: nat, failure: Option<string>)
    requires id in t.deliveries && id in after.deliveries && t.deliveries[id] == after.deliveries[id]
    ensures id in RescheduleTables(t, id, lease, now, delay, failure).deliveries
    ensures id in RescheduleTables(after, id, lease, now, delay, failure).deliveries
    ensures RescheduleTables(t, id, lease, now, delay, failure).deliveries[id]
         == RescheduleTables(after, id, lease, now, delay, failure).deliveries[id]
  {
  }

  lemma FirstIsOther(claims: seq<ClaimedMessage>)
    requires claims != [] && DistinctIds(claims)
    ensures DistinctIds(claims[1..]) && forall other | other in claims[1..] :: other.message.Id() != claims[0].message.Id()
    ensures ClaimedIds(claims) == {claims[0].message.Id()} + ClaimedIds(claims[1..])
    ensures claims[0].message.Id() !in ClaimedIds(claims[1..])
  {
    var rest := claims[1..];
    forall i | 0 <= i < |claims| ensures claims[i].message.Id() in {claims[0].message.Id()} + ClaimedIds(rest) {
      if i > 0 { assert rest[i - 1] == claims[i]; }
    }
    forall i | 0 <= i < |rest| ensures rest[i].message.Id() in ClaimedIds(claims) && rest[i].message.Id() != claims[0].message.Id() {
      assert rest[i] == claims[i + 1];
    }
    assert claims[0].message.Id() in ClaimedIds(claims);
  }

  lemma RowsCompose(a: Tables, b: Tables, c: Tables, id: Uuid, ids: set<Uuid>)
    requires SameRowsBut(a, b, {id}) && SameRowsBut(b, c, ids)
    ensures SameRowsBut(a, c, {id} + ids)
    ensures id !in ids && id in a.deliveries ==> id in b.deliveries && id in c.deliveries && c.deliveries[id] == b.deliveries[id]
  {
  }

  /** The other claims settle after the first one as they would have before. */
  lemma OthersSettleAlike(self: MessageAuthority, t: Tables, after: Tables, claims: seq<ClaimedMessage>,
    answers: Uuid -> PublishScript, settings: Retry.PublisherSettings, window: map<WindowKey, MessageAuthority>,
    later: map<WindowKey, MessageAuthority>)
    requires claims != [] && DistinctIds(claims)
    requires SameRowsBut(t, after, {claims[0].message.Id()}) && SameWindowBut(window, later, claims[0].message.Id())
    ensures forall other | other in claims[1..] :: var script := answers(other.message.Id());
      && (Settles(t, self, other, script, settings, window) <==> Settles(after, self, other, script, settings, later))
      && (other.message.Id() in t.deliveries <==> other.message.Id() in after.deliveries)
      && (other.message.Id() in t.deliveries ==>
        SettledRow(t, self, other, script, settings, window) == SettledRow(after, self, other, script, settings, later))
  {
    hide Settles, SettledRow, SameWindowBut;
    FirstIsOther(claims);
    forall other | other in claims[1..]
      ensures var script := answers(other.message.Id());
        && (Settles(t, self, other, script, settings, window) <==> Settles(after, self, other, script, settings, later))
        && (other.message.Id() in t.deliveries <==> other.message.Id() in after.deliveries)
        && (other.message.Id() in t.deliveries ==>
          SettledRow(t, self, other, script, settings, window) == SettledRow(after, self, other, script, settings, later))
    {
      SettlesAlike(t, after, self, other, answers(other.message.Id()), settings, window, later, claims[0].message.Id());
    }
  }

  /** The claims of a batch are still held, except the first. */
  lemma RestIsHeld(self: MessageAuthority, s: State, u: State, claims: seq<ClaimedMessage>)
    requires claims != [] && DistinctIds(claims)
    requires forall claim | claim in claims :: Held(self, claim, Unsent) in s.held
    requires forall other | other in s.held && other.claim != claims[0] :: other in u.held
    ensures forall claim | claim in claims[1..] :: Held(self, claim, Unsent) in u.held
  {
    FirstIsOther(claims);
    forall claim | claim in claims[1..] ensures Held(self, claim, Unsent) in u.held {
      assert claim in claims;
    }
  }

  /**
   * A batch comes through exactly when each of its publications does, and then each row is settled as by
   * its own publication alone.
   */
  lemma {:induction false} BatchSettles(codec: Codec, self: MessageAuthority, s: State, claims: seq<ClaimedMessage>,
    answers: Uuid -> PublishScript, settings: Retry.PublisherSettings)
    requires self in s.dbs && DistinctIds(claims)
    requires forall claim | claim in claims :: Held(self, claim, Unsent) in s.held
    ensures var (t, error) := BatchRun(codec, self, s, claims, answers, settings);
      && self in t.dbs && SameRowsBut(s.dbs[self].tables, t.dbs[self].tables, ClaimedIds(claims))
      && (error.None? <==> forall claim | claim in claims ::
        Settles(s.dbs[self].tables, self, claim, answers(claim.message.Id()), settings, s.window))
      && (error.None? ==> forall claim | claim in claims ::
        && claim.message.Id() in s.dbs[self].tables.deliveries && claim.message.Id() in t.dbs[self].tables.deliveries
        && t.dbs[self].tables.deliveries[claim.message.Id()]
          == SettledRow(s.dbs[self].tables, self, claim, answers(claim.message.Id()), settings, s.window))
    decreases |claims|
  {
    hide Run, PublishActions, SettledTables, SameWindowBut, SameRowsBut, ClaimedIds, PublishError, DistinctIds, Publishable;
    if claims == [] {
      SameRowsReflexive(s.dbs[self].tables, ClaimedIds(claims));
    } else {
      var (claim, rest, t) := (claims[0], claims[1..], s.dbs[self].tables);
      var (id, script) := (claim.message.Id(), answers(claim.message.Id()));
      var u := Run(codec, s, PublishActions(self, claim, script, settings, s.window));
      FirstIsOther(claims);
      PublishMoves(codec, s, self, claim, script, settings);
      SettledRows(t, self, claim, script, settings, s.window);
      SettledUnlessError(t, self, claim, script, settings, s.window);
      RestIsHeld(self, s, u, claims);
      SameRowsReflexive(u.dbs[self].tables, ClaimedIds(rest));
      var (after, error) := BatchRun(codec, self, u, rest, answers, settings);
      if Settles(t, self, claim, script, settings, s.window) {
        BatchSettles(codec, self, u, rest, answers, settings);
        OthersSettleAlike(self, t, u.dbs[self].tables, claims, answers, settings, s.window, u.window);
        RowsCompose(t, u.dbs[self].tables, after.dbs[self].tables, id, ClaimedIds(rest));
        forall other | other in claims ensures other == claim || other in rest {}
      } else {
        RowsCompose(t, u.dbs[self].tables, u.dbs[self].tables, id, ClaimedIds(rest));
        assert claim in claims;
      }
    }
  }

  /** Sequences are assigned in order. */
  predicate InSequence(s: State) { forall n | n in s.broker :: n < s.nextSequence }

  ghost predicate OnRecord(s: State, self: MessageAuthority, message: EncodedMessage) {
    && RouteOf(message.metadata).Some? && DeriveSubject(message.metadata).Some?
    && exists n | n in s.broker ::
      s.broker[n] == ItemOf(self, message, RouteOf(message.metadata).value, DeriveSubject(message.metadata).value)
  }

  /** Every stored publication of a batch that comes through is on record at its end. */
  lemma {:induction false} BatchReaches(codec: Codec, self: MessageAuthority, s: State, claims: seq<ClaimedMessage>,
    answers: Uuid -> PublishScript, settings: Retry.PublisherSettings)
    requires self in s.dbs && DistinctIds(claims) && InSequence(s)
    requires forall claim | claim in claims :: Held(self, claim, Unsent) in s.held
    requires BatchRun(codec, self, s, claims, answers, settings).1.None?
    ensures var t := BatchRun(codec, self, s, claims, answers, settings).0;
      && InSequence(t) && s.broker.Items <= t.broker.Items
      && forall claim | claim in claims && Publishable(self, claim.message) && answers(claim.message.Id()).fate.Stored? ::
        OnRecord(t, self, claim.message)
    decreases |claims|
  {
    hide Run, PublishActions, SettledTables, SameWindowBut, PublishError, DistinctIds, RouteOf, DeriveSubject, AuthorizedToPublish,
      ItemOf;
    if claims != [] {
      var (claim, rest) := (claims[0], claims[1..]);
      var script := answers(claim.message.Id());
      var u := Run(codec, s, PublishActions(self, claim, script, settings, s.window));
      FirstIsOther(claims);
      PublishMoves(codec, s, self, claim, script, settings);
      RestIsHeld(self, s, u, claims);
      assert s.nextSequence !in s.broker;
      assert s.broker.Items <= u.broker.Items;
      BatchReaches(codec, self, u, rest, answers, settings);
      var t := BatchRun(codec, self, u, rest, answers, settings).0;
      if Publishable(self, claim.message) && script.fate.Stored? {
        assert (s.nextSequence, u.broker[s.nextSequence]) in u.broker.Items;
        assert OnRecord(t, self, claim.message);
      }
      forall other | other in claims ensures other == claim || other in rest {}
    }
  }

  // ---- One turn -------------------------------------------------------------------------------

  /** The claim of a row under the lease of a turn. */
  function ClaimOf(t: Tables, id: Uuid, cycle: Cycle, settings: Retry.PublisherSettings): ClaimedMessage
    requires id in t.messages && id in t.deliveries && HasLease(cycle)
  {
    ClaimedMessage(t.messages[id].message, t.deliveries[id].attemptCount + 1, cycle.lease.value,
      cycle.now + settings.leaseSeconds * MICROS_PER_SECOND)
  }

  function LeasedTables(t: Tables, publisher: Uuid, settings: Retry.PublisherSettings, cycle: Cycle, taken: set<Uuid>): Tables
    requires HasLease(cycle)
  {
    ClaimTables(t, taken, cycle.now, publisher, cycle.lease.value, settings.leaseSeconds)
  }

  lemma TurnClaims(codec: Codec, self: MessageAuthority, publisher: Uuid, settings: Retry.PublisherSettings, cycle: Cycle,
    s: State, turn: Turn, t: State)
    requires self in s.dbs && WellFormed(s.dbs[self].tables) && cycle.databaseAnswers
    requires TurnOf(codec, self, publisher, settings, cycle, s, turn, t)
    ensures var claimed := Step(codec, s, ClaimAction(self, publisher, settings, cycle, turn.taken));
      && claimed == s.(dbs := claimed.dbs, held := claimed.held) && self in claimed.dbs
      && claimed.dbs[self].tables == LeasedTables(s.dbs[self].tables, publisher, settings, cycle, turn.taken)
      && DistinctIds(turn.claims) && forall claim | claim in turn.claims :: Held(self, claim, Unsent) in claimed.held
    ensures turn.taken <= s.dbs[self].tables.messages.Keys * s.dbs[self].tables.deliveries.Keys
    ensures forall id | id in turn.taken :: ClaimOf(s.dbs[self].tables, id, cycle, settings) in turn.claims
    ensures forall claim | claim in turn.claims ::
      claim.message.Id() in turn.taken && claim == ClaimOf(s.dbs[self].tables, claim.message.Id(), cycle, settings)
  {
    hide BatchRun, ClaimSelects, ClaimTables, Databases.IsClaimOf, Step, DistinctIds, ClaimedRow, WellFormed, DoClaim;
    var tables := s.dbs[self].tables;
    var a := ClaimAction(self, publisher, settings, cycle, turn.taken);
    var after := LeasedTables(tables, publisher, settings, cycle, turn.taken);
    TakenAreEligible(tables, cycle.now, settings.claimBatchSize, cycle.locked, turn.taken);
    ClaimedState(codec, self, publisher, settings, cycle, s, turn.taken);
    ClaimHolds(s, a, turn.claims);
    forall id | id in turn.taken ensures ClaimOf(tables, id, cycle, settings) in turn.claims {
      ChosenAreClaimed(after, turn.claims, turn.taken, a.lease, a.now + a.seconds * MICROS_PER_SECOND, id);
      LeasedAt(tables, publisher, settings, cycle, turn.taken, id);
    }
    forall claim | claim in turn.claims
      ensures claim.message.Id() in turn.taken && claim == ClaimOf(tables, claim.message.Id(), cycle, settings)
    {
      OneOfBatch(after, turn.claims, turn.taken, a.lease, a.now + a.seconds * MICROS_PER_SECOND, claim);
      LeasedAt(tables, publisher, settings, cycle, turn.taken, claim.message.Id());
    }
  }

  lemma ClaimedState(codec: Codec, self: MessageAuthority, publisher: Uuid, settings: Retry.PublisherSettings, cycle: Cycle,
    s: State, taken: set<Uuid>)
    requires self in s.dbs && HasLease(cycle)
    requires ClaimSelects(s.dbs[self].tables, cycle.now, settings.claimBatchSize, cycle.locked, taken)
    ensures var (a, t) := (ClaimAction(self, publisher, settings, cycle, taken), Step(codec, s, ClaimAction(self, publisher, settings,
        cycle, taken)));
      && t == DoClaim(s, a) && t == s.(dbs := t.dbs, held := t.held) && self in t.dbs
      && t.dbs[self].tables == LeasedTables(s.dbs[self].tables, publisher, settings, cycle, taken)
  {
    hide ClaimSelects, LeaseRows;
  }

  lemma TakenAreEligible(t: Tables, now: int, batch: nat, locked: set<Uuid>, taken: set<Uuid>)
    requires ClaimSelects(t, now, batch, locked, taken)
    ensures taken <= t.messages.Keys * t.deliveries.Keys
    ensures forall id | id in taken :: t.deliveries[id].publishedAt.None?
    ensures |EligibleIds(t, now, locked)| <= batch ==> taken == EligibleIds(t, now, locked)
  {
    if |EligibleIds(t, now, locked)| <= batch { SmallerSubset(taken, EligibleIds(t, now, locked)); }
  }

  lemma OneOfBatch(t: Tables, claims: seq<ClaimedMessage>, taken: set<Uuid>, lease: Uuid, until: int, claim: ClaimedMessage)
    requires Databases.IsClaimOf(t, claims, taken, lease, until) && claim in claims
    ensures claim.message.Id() in taken && claim.message.Id() in t.messages && claim.message.Id() in t.deliveries
    ensures claim == ClaimedRow(t, claim.message.Id(), lease, until)
  {
    var i :| 0 <= i < |claims| && claims[i] == claim;
  }

  lemma LeasedAt(t: Tables, publisher: Uuid, settings: Retry.PublisherSettings, cycle: Cycle, taken: set<Uuid>, id: Uuid)
    requires HasLease(cycle) && id in taken && id in t.deliveries && id in t.messages
    ensures var after := LeasedTables(t, publisher, settings, cycle, taken);
      && id in after.messages && id in after.deliveries && after.messages == t.messages
      && after.deliveries[id] == LeasedRow(t.deliveries[id], cycle.now, publisher, cycle.lease.value, settings.leaseSeconds)
      && ClaimedRow(after, id, cycle.lease.value, cycle.now + settings.leaseSeconds * MICROS_PER_SECOND)
        == ClaimOf(t, id, cycle, settings)
  {
  }

  /**
   * A turn fails exactly when one of the rows it took can neither be marked nor rescheduled; otherwise every
   * row it took is settled by its own publication.
   */
  lemma TurnSettles(codec: Codec, self: MessageAuthority, publisher: Uuid, settings: Retry.PublisherSettings, cycle: Cycle,
    s: State, turn: Turn, t: State)
    requires self in s.dbs && WellFormed(s.dbs[self].tables) && cycle.databaseAnswers
    requires TurnOf(codec, self, publisher, settings, cycle, s, turn, t)
    ensures var tables := s.dbs[self].tables;
      var leased := LeasedTables(tables, publisher, settings, cycle, turn.taken);
      && turn.taken <= tables.messages.Keys * tables.deliveries.Keys && self in t.dbs
      && SameRowsBut(tables, t.dbs[self].tables, turn.taken)
      && (turn.error.None? <==> forall id | id in turn.taken ::
        Settles(leased, self, ClaimOf(tables, id, cycle, settings), cycle.answers(id), settings, s.window))
      && (turn.error.None? ==> forall id | id in turn.taken ::
        && id in leased.deliveries && id in t.dbs[self].tables.deliveries && tables.messages[id].message.Id() == id
        && t.dbs[self].tables.deliveries[id]
          == SettledRow(leased, self, ClaimOf(tables, id, cycle, settings), cycle.answers(id), settings, s.window))
  {
    hide BatchRun, ClaimSelects, LeaseRows, Databases.IsClaimOf, Settles, SettledRow, SameRowsBut, EncodedMessage.Valid, RowWellFormed;
    var tables := s.dbs[self].tables;
    var leased := LeasedTables(tables, publisher, settings, cycle, turn.taken);
    var claimed := Step(codec, s, ClaimAction(self, publisher, settings, cycle, turn.taken));
    TurnClaims(codec, self, publisher, settings, cycle, s, turn, t);
    BatchSettles(codec, self, claimed, turn.claims, cycle.answers, settings);
    forall id | id in turn.taken ensures tables.messages[id].message.Id() == id && ClaimOf(tables, id, cycle, settings).message.Id() == id {}
    LeaseTouches(tables, publisher, settings, cycle, turn.taken, t.dbs[self].tables, turn.claims);
  }

  lemma LeaseTouches(t: Tables, publisher: Uuid, settings: Retry.PublisherSettings, cycle: Cycle, taken: set<Uuid>, after: Tables,
    claims: seq<ClaimedMessage>)
    requires HasLease(cycle) && SameRowsBut(LeasedTables(t, publisher, settings, cycle, taken), after, ClaimedIds(claims))
    requires forall claim | claim in claims :: claim.message.Id() in taken
    ensures SameRowsBut(t, after, taken)
  {
  }

  /** The broker stores and acknowledges this message, and the marker runs before the lease of the turn ends. */
  predicate AcknowledgedInLease(self: MessageAuthority, message: EncodedMessage, cycle: Cycle, settings: Retry.PublisherSettings) {
    var script := cycle.answers(message.Id());
    && Publishable(self, message) && script.fate == PublishFate.Stored(true) && script.databaseAnswers
    && script.now < cycle.now + settings.leaseSeconds * MICROS_PER_SECOND
  }

  lemma AcknowledgedRow(t: Tables, self: MessageAuthority, publisher: Uuid, settings: Retry.PublisherSettings, cycle: Cycle,
    taken: set<Uuid>, id: Uuid, window: map<WindowKey, MessageAuthority>)
    requires HasLease(cycle) && id in taken && id in t.messages && id in t.deliveries && t.messages[id].message.Id() == id
    requires t.deliveries[id].publishedAt.None? && AcknowledgedInLease(self, t.messages[id].message, cycle, settings)
    ensures var leased := LeasedTables(t, publisher, settings, cycle, taken);
      && id in leased.deliveries && Settles(leased, self, ClaimOf(t, id, cycle, settings), cycle.answers(id), settings, window)
      && SettledRow(leased, self, ClaimOf(t, id, cycle, settings), cycle.answers(id), settings, window).publishedAt
        == Some(cycle.answers(id).now)
  {
    hide DeriveSubject, RouteOf, AuthorizedToPublish, PlannedRetry;
    LeasedAt(t, publisher, settings, cycle, taken, id);
  }

  /**
   * A turn whose publications are acknowledged inside its lease leaves every row it took published and every
   * message on record; when the batch has room for all eligible rows, it took them all.
   */
  lemma AcknowledgedTurnPublishes(codec: Codec, self: MessageAuthority, publisher: Uuid, settings: Retry.PublisherSettings,
    cycle: Cycle, s: State, turn: Turn, t: State)
    requires self in s.dbs && WellFormed(s.dbs[self].tables) && InSequence(s) && cycle.databaseAnswers
    requires TurnOf(codec, self, publisher, settings, cycle, s, turn, t)
    requires forall id | id in turn.taken && id in s.dbs[self].tables.messages ::
      AcknowledgedInLease(self, s.dbs[self].tables.messages[id].message, cycle, settings)
    ensures turn.error.None? && self in t.dbs
    ensures forall id | id in turn.taken ::
      && id in s.dbs[self].tables.messages && id in t.dbs[self].tables.deliveries
      && t.dbs[self].tables.deliveries[id].publishedAt == Some(cycle.answers(id).now)
      && OnRecord(t, self, s.dbs[self].tables.messages[id].message)
    ensures var eligible := EligibleIds(s.dbs[self].tables, cycle.now, cycle.locked);
      |eligible| <= settings.claimBatchSize ==> turn.taken == eligible
  {
    hide BatchRun, ClaimSelects, Databases.IsClaimOf, Settles, SettledRow, SameRowsBut, EncodedMessage.Valid, RowWellFormed,
      RouteOf, DeriveSubject, AuthorizedToPublish, OnRecord, Publishable, LeaseRows, InSequence;
    var tables := s.dbs[self].tables;
    TakenAreEligible(tables, cycle.now, settings.claimBatchSize, cycle.locked, turn.taken);
    forall id | id in turn.taken
      ensures var leased := LeasedTables(tables, publisher, settings, cycle, turn.taken);
        && id in leased.deliveries
        && Settles(leased, self, ClaimOf(tables, id, cycle, settings), cycle.answers(id), settings, s.window)
        && SettledRow(leased, self, ClaimOf(tables, id, cycle, settings), cycle.answers(id), settings, s.window).publishedAt
          == Some(cycle.answers(id).now)
    {
      AcknowledgedRow(tables, self, publisher, settings, cycle, turn.taken, id, s.window);
    }
    TurnSettles(codec, self, publisher, settings, cycle, s, turn, t);
    TurnReaches(codec, self, publisher, settings, cycle, s, turn, t);
  }

  lemma TurnReaches(codec: Codec, self: MessageAuthority, publisher: Uuid, settings: Retry.PublisherSettings, cycle: Cycle,
    s: State, turn: Turn, t: State)
    requires self in s.dbs && WellFormed(s.dbs[self].tables) && InSequence(s) && cycle.databaseAnswers
    requires TurnOf(codec, self, publisher, settings, cycle, s, turn, t) && turn.error.None?
    ensures turn.taken <= s.dbs[self].tables.messages.Keys
    ensures forall id | id in turn.taken :: var message := s.dbs[self].tables.messages[id].message;
      Publishable(self, message) && cycle.answers(id).fate.Stored? ==> OnRecord(t, self, message)
  {
    hide BatchRun, ClaimSelects, LeaseRows, Databases.IsClaimOf, EncodedMessage.Valid, RowWellFormed, OnRecord, Publishable;
    TurnClaims(codec, self, publisher, settings, cycle, s, turn, t);
    var claimed := Step(codec, s, ClaimAction(self, publisher, settings, cycle, turn.taken));
    BatchReaches(codec, self, claimed, turn.claims, cycle.answers, settings);
    forall id | id in turn.taken
      ensures var message := s.dbs[self].tables.messages[id].message;
        Publishable(self, message) && cycle.answers(id).fate.Stored? ==> OnRecord(t, self, message)
    {
      assert ClaimOf(s.dbs[self].tables, id, cycle, settings) in turn.claims;
    }
  }

  /** The broker does not take this message for a reason that is retried, and the reschedule runs inside the lease. */
  predicate RefusedInLease(self: MessageAuthority, message: EncodedMessage, cycle: Cycle, settings: Retry.PublisherSettings) {
    var script := cycle.answers(message.Id());
    && Publishable(self, message) && script.fate.NotStored? && script.error.IsTransient() && script.databaseAnswers
    && script.now < cycle.now + settings.leaseSeconds * MICROS_PER_SECOND
  }

  /** A row after a claim and a reschedule: unleased and due after the planned delay of one more attempt. */
  predicate IsRescheduled(before: DeliveryRow, after: DeliveryRow, cycle: Cycle, script: PublishScript,
    settings: Retry.PublisherSettings)
  {
    var (b, m) := (settings.retryBase / Retry.NANOS_PER_MILLI, settings.retryMax / Retry.NANOS_PER_MILLI);
    var millis := match script.entropy
      case None => b
      case Some(bits) => b + bits % Max(1, Retry.ExactCap(before.attemptCount + 1, b, m) - b + 1);
    after == DeliveryRow(script.now + Retry.CeilSeconds(millis) * MICROS_PER_SECOND, before.attemptCount + 1, None, None, None,
      Some(cycle.now), None, Some(script.error.SafeCategory()))
  }

  lemma RefusedRow(t: Tables, self: MessageAuthority, publisher: Uuid, settings: Retry.PublisherSettings, cycle: Cycle,
    taken: set<Uuid>, id: Uuid, window: map<WindowKey, MessageAuthority>)
    requires HasLease(cycle) && id in taken && id in t.messages && id in t.deliveries && t.messages[id].message.Id() == id
    requires t.deliveries[id].publishedAt.None? && RefusedInLease(self, t.messages[id].message, cycle, settings)
    requires settings.Valid() && settings.retryBase >= Retry.NANOS_PER_MILLI && t.deliveries[id].attemptCount < U64_MAX
    ensures var leased := LeasedTables(t, publisher, settings, cycle, taken);
      && id in leased.deliveries && Settles(leased, self, ClaimOf(t, id, cycle, settings), cycle.answers(id), settings, window)
      && IsRescheduled(t.deliveries[id], SettledRow(leased, self, ClaimOf(t, id, cycle, settings), cycle.answers(id), settings, window),
        cycle, cycle.answers(id), settings)
  {
    hide DeriveSubject, RouteOf, AuthorizedToPublish, TransportErrorKind.SafeCategory, TransportErrorKind.IsTransient,
      Retry.PlanRetryDelay, Retry.ExactCap, Retry.CeilSeconds;
    LeasedAt(t, publisher, settings, cycle, taken, id);
    Retry.PlannedDelay(t.deliveries[id].attemptCount + 1, settings.retryBase, settings.retryMax, cycle.answers(id).entropy);
  }

  /** A turn whose publications are refused for a while leaves every row it took rescheduled, with its exact delay. */
  lemma RefusedTurnReschedules(codec: Codec, self: MessageAuthority, publisher: Uuid, settings: Retry.PublisherSettings,
    cycle: Cycle, s: State, turn: Turn, t: State)
    requires self in s.dbs && WellFormed(s.dbs[self].tables) && cycle.databaseAnswers
    requires settings.Valid() && settings.retryBase >= Retry.NANOS_PER_MILLI
    requires TurnOf(codec, self, publisher, settings, cycle, s, turn, t)
    requires forall id | id in turn.taken && id in s.dbs[self].tables.messages ::
      && RefusedInLease(self, s.dbs[self].tables.messages[id].message, cycle, settings)
      && (id in s.dbs[self].tables.deliveries ==> s.dbs[self].tables.deliveries[id].attemptCount < U64_MAX)
    ensures turn.error.None? && self in t.dbs
    ensures forall id | id in turn.taken ::
      && id in s.dbs[self].tables.deliveries && id in t.dbs[self].tables.deliveries
      && IsRescheduled(s.dbs[self].tables.deliveries[id], t.dbs[self].tables.deliveries[id], cycle, cycle.answers(id), settings)
  {
    hide BatchRun, ClaimSelects, Databases.IsClaimOf, Settles, SettledRow, SameRowsBut, EncodedMessage.Valid, RowWellFormed,
      Publishable, LeaseRows, IsRescheduled;
    var tables := s.dbs[self].tables;
    TakenAreEligible(tables, cycle.now, settings.claimBatchSize, cycle.locked, turn.taken);
    forall id | id in turn.taken
      ensures var leased := LeasedTables(tables, publisher, settings, cycle, turn.taken);
        var claim := ClaimOf(tables, id, cycle, settings);
        && id in leased.deliveries && Settles(leased, self, claim, cycle.answers(id), settings, s.window)
        && IsRescheduled(tables.deliveries[id], SettledRow(leased, self, claim, cycle.answers(id), settings, s.window),
          cycle, cycle.answers(id), settings)
    {
      RefusedRow(tables, self, publisher, settings, cycle, turn.taken, id, s.window);
    }
    TurnSettles(codec, self, publisher, settings, cycle, s, turn, t);
  }

  // ---- One delivery ---------------------------------------------------------------------------

  predicate At(s: State, self: MessageAuthority) { self in s.dbs && s.dbs[self].authority == self }

  /** A delivery changes the database by its commit alone and takes the record only with an answered acknowledgment. */
  lemma DeliveryMoves(codec: Codec, s: State, self: MessageAuthority, stream: TransportStream, n: nat, script: DeliveryScript)
    requires At(s, self) && HandsOut(s, self, stream, n)
    ensures var (db, item) := (s.dbs[self], s.broker[n]);
      var t := Run(codec, s, DeliveryActions(codec, db, n, item, script));
      var commits := Commits(codec, db, item, script);
      && t.dbs == s.dbs[self := if commits then DispositionOf(codec, db, item, script).db else db]
      && t.broker == s.broker - (if commits && script.timing.InTime? && script.ackAnswers then {n} else {})
      && At(t, self)
      && (DeliveryError(codec, db, item, script).Some? ==> !commits)
  {
    hide Handle, ProcessDelivery, DecodeEnvelope, DeriveSubject, FreshIdentity, RecordInboxAndEnqueue, Run, DoDeliver;
    var (db, item) := (s.dbs[self], s.broker[n]);
    var actions := DeliveryActions(codec, db, n, item, script);
    ErrorsDoNotCommit(codec, db, item, script);
    if !Commits(codec, db, item, script) {
      RunNothing(codec, s);
      assert s.dbs[self := db] == s.dbs && s.broker - {} == s.broker;
    } else {
      DeliverCommits(codec, s, actions[0], script);
      CommitKeepsAuthority(codec, db, item, script);
      if script.timing.InTime? {
        RunTwo(codec, s, actions[0], actions[1]);
        assert actions == [actions[0], actions[1]];
      } else {
        RunOne(codec, s, actions[0]);
        assert actions == [actions[0]] && s.broker - {} == s.broker;
      }
    }
  }

  lemma CommitKeepsAuthority(codec: Codec, db: Db, item: BrokerItem, script: DeliveryScript)
    requires Commits(codec, db, item, script)
    ensures DispositionOf(codec, db, item, script).db.authority == db.authority
  {
    hide ProcessDelivery;
    var id := FreshIdentity(db, script.identity).GetOr(Generated(0, 0));
    DeliveryEffect(codec, db, item, id.newId, id.emittedAt, script.now);
  }

  lemma ErrorsDoNotCommit(codec: Codec, db: Db, item: BrokerItem, script: DeliveryScript)
    ensures DeliveryError(codec, db, item, script).Some? ==> !Commits(codec, db, item, script)
  {
    hide DeriveSubject, RecordInboxAndEnqueue, FreshIdentity, MessageMetadata.BrokenRule, HandlerName;
  }

  /** With its identity generated, its database answering and no timeout, a delivery's error is its being fatal. */
  lemma ErrorsAreFatal(codec: Codec, db: Db, item: BrokerItem, script: DeliveryScript)
    requires script.databaseAnswers && !script.timing.TimedOutBeforeCommit?
    requires item.stream.Commands? ==> FreshIdentity(db, script.identity).Some?
    ensures DeliveryError(codec, db, item, script).Some? <==> DispositionOf(codec, db, item, script).Fatal?
    ensures DeliveryError(codec, db, item, script) != Some(Identity)
  {
    hide DeriveSubject, RecordInboxAndEnqueue, FreshIdentity, MessageMetadata.BrokenRule, HandlerName, ReplyFails;
  }

  // ---- Whole consumer runs --------------------------------------------------------------------

  predicate ConsumedFrom(self: MessageAuthority, s: State, t: State) {
    && At(s, self) && At(t, self) && Remaining(s.broker, t.broker) && ReceiptsGrow(s.dbs[self].tables, t.dbs[self].tables)
  }

  lemma ConsumedOnwards(self: MessageAuthority, s: State, t: State, u: State)
    requires ConsumedFrom(self, s, t) && ConsumedFrom(self, t, u)
    ensures ConsumedFrom(self, s, u)
  {
  }

  lemma DeliveryConsumes(codec: Codec, s: State, self: MessageAuthority, stream: TransportStream, n: nat, script: DeliveryScript)
    requires At(s, self) && HandsOut(s, self, stream, n)
    ensures ConsumedFrom(self, s, Run(codec, s, DeliveryActions(codec, s.dbs[self], n, s.broker[n], script)))
  {
    hide Commits, DispositionOf, DeliveryActions, DeliveryError, Run;
    DeliveryMoves(codec, s, self, stream, n, script);
    CommitGrows(codec, s.dbs[self], s.broker[n], script);
    RemoveRemains(s.broker, n);
  }

  /** A fetched batch goes on from where its first part ends. */
  lemma {:induction false} FetchedSplit(codec: Codec, self: MessageAuthority, s: State, stream: TransportStream, front: seq<nat>,
    rest: seq<nat>, scripts: nat -> DeliveryScript)
    requires At(s, self)
    ensures var (t, error) := FetchedRun(codec, self, s, stream, front, scripts);
      && ConsumedFrom(self, s, t)
      && FetchedRun(codec, self, s, stream, front + rest, scripts) ==
        if error.Some? then (t, error) else FetchedRun(codec, self, t, stream, rest, scripts)
    decreases |front|
  {
    hide DeliveryActions, DeliveryError, Run;
    if front == [] {
      assert front + rest == rest;
      NoneAcknowledged(s.broker, s.dbs[self].tables);
    } else {
      assert (front + rest)[1..] == front[1..] + rest;
      var n := front[0];
      if !HandsOut(s, self, stream, n) {
        FetchedSplit(codec, self, s, stream, front[1..], rest, scripts);
      } else {
        var u := Run(codec, s, DeliveryActions(codec, s.dbs[self], n, s.broker[n], scripts(n)));
        DeliveryConsumes(codec, s, self, stream, n, scripts(n));
        if DeliveryError(codec, s.dbs[self], s.broker[n], scripts(n)).None? {
          FetchedSplit(codec, self, u, stream, front[1..], rest, scripts);
          ConsumedOnwards(self, s, u, FetchedRun(codec, self, u, stream, front[1..], scripts).0);
        }
      }
    }
  }

  lemma {:induction false} ConsumerSplit(codec: Codec, self: MessageAuthority, s: State, stream: TransportStream, front: seq<Fetch>,
    rest: seq<Fetch>)
    requires At(s, self)
    ensures var (t, error) := ConsumerRun(codec, self, s, stream, front);
      && ConsumedFrom(self, s, t)
      && ConsumerRun(codec, self, s, stream, front + rest) ==
        if error.Some? then (t, error) else ConsumerRun(codec, self, t, stream, rest)
    decreases |front|
  {
    hide FetchedRun;
    if front == [] {
      assert front + rest == rest;
      NoneAcknowledged(s.broker, s.dbs[self].tables);
    } else {
      assert (front + rest)[1..] == front[1..] + rest && (front + rest)[0] == front[0];
      FirstFetch(codec, self, s, stream, front);
      FirstFetch(codec, self, s, stream, front + rest);
      if front[0].error.Some? {
        NoneAcknowledged(s.broker, s.dbs[self].tables);
        ConsumerSplit(codec, self, s, stream, front[1..], rest);
      } else {
        FetchedSplit(codec, self, s, stream, front[0].sequences, [], front[0].scripts);
        var (u, error) := FetchedRun(codec, self, s, stream, front[0].sequences, front[0].scripts);
        if error.None? {
          ConsumerSplit(codec, self, u, stream, front[1..], rest);
          ConsumedOnwards(self, s, u, ConsumerRun(codec, self, u, stream, front[1..]).0);
        }
      }
    }
  }

  /** Where the loop stands before the record at this place of this fetch, if no error ended it before. */
  predicate Reaches(codec: Codec, self: MessageAuthority, s: State, stream: TransportStream, fetches: seq<Fetch>, i: nat, k: nat,
    at: State)
  {
    && i < |fetches| && fetches[i].error.None? && k < |fetches[i].sequences|
    && var (u, error) := ConsumerRun(codec, self, s, stream, fetches[..i]);
    && error.None? && FetchedRun(codec, self, u, stream, fetches[i].sequences[..k], fetches[i].scripts) == (at, None)
  }

  /**
   * A fetched record that the broker still holds when its turn comes, whose delivery commits in time and
   * whose acknowledgment is answered, is gone when the loop ends, and its receipt is there.
   */
  lemma AcknowledgedRecordIsReceived(codec: Codec, self: MessageAuthority, s: State, stream: TransportStream, fetches: seq<Fetch>,
    i: nat, k: nat, at: State)
    requires At(s, self) && Reaches(codec, self, s, stream, fetches, i, k, at)
    requires HandsOut(at, self, stream, fetches[i].sequences[k])
    requires var n := fetches[i].sequences[k];
      var script := fetches[i].scripts(n);
      Commits(codec, at.dbs[self], at.broker[n], script) && script.timing.InTime? && script.ackAnswers
    ensures var t := ConsumerRun(codec, self, s, stream, fetches).0;
      var n := fetches[i].sequences[k];
      At(t, self) && n !in t.broker && HasReceiptFor(t.dbs[self].tables, at.broker[n])
  {
    hide DeliveryActions, DeliveryError, Run, Commits, DispositionOf, HasReceiptFor, Remaining;
    var fetch := fetches[i];
    var (n, sequences) := (fetch.sequences[k], fetch.sequences);
    var u := ConsumerRun(codec, self, s, stream, fetches[..i]).0;
    ConsumerSplit(codec, self, s, stream, fetches[..i], fetches[i..]);
    assert fetches[..i] + fetches[i..] == fetches;
    FirstFetch(codec, self, u, stream, fetches[i..]);
    FetchedSplit(codec, self, u, stream, sequences[..k], sequences[k..], fetch.scripts);
    assert sequences[..k] + sequences[k..] == sequences;
    DeliveryMoves(codec, at, self, stream, n, fetch.scripts(n));
    CommitGrows(codec, at.dbs[self], at.broker[n], fetch.scripts(n));
    var after := Run(codec, at, DeliveryActions(codec, at.dbs[self], n, at.broker[n], fetch.scripts(n)));
    assert sequences[k..][0] == n && sequences[k..][1..] == sequences[k + 1..];
    FetchedSplit(codec, self, after, stream, sequences[k + 1..], [], fetch.scripts);
    assert sequences[k + 1..] + [] == sequences[k + 1..];
    var (v, error) := FetchedRun(codec, self, after, stream, sequences[k + 1..], fetch.scripts);
    StaysReceived(self, after, v, n, at.broker[n]);
    assert FetchedRun(codec, self, u, stream, sequences, fetch.scripts) == (v, error);
    assert fetches[i..][1..] == fetches[i + 1..];
    RestKeepsReceived(codec, self, v, stream, fetches[i + 1..], n, at.broker[n]);
  }

  lemma RestKeepsReceived(codec: Codec, self: MessageAuthority, s: State, stream: TransportStream, fetches: seq<Fetch>, n: nat,
    item: BrokerItem)
    requires At(s, self) && n !in s.broker && HasReceiptFor(s.dbs[self].tables, item)
    ensures var t := ConsumerRun(codec, self, s, stream, fetches).0;
      At(t, self) && n !in t.broker && HasReceiptFor(t.dbs[self].tables, item)
  {
    hide ConsumerRun, HasReceiptFor;
    ConsumerSplit(codec, self, s, stream, fetches, []);
    StaysReceived(self, s, ConsumerRun(codec, self, s, stream, fetches).0, n, item);
  }

  lemma StaysReceived(self: MessageAuthority, s: State, t: State, n: nat, item: BrokerItem)
    requires ConsumedFrom(self, s, t) && n !in s.broker && HasReceiptFor(s.dbs[self].tables, item)
    ensures n !in t.broker && HasReceiptFor(t.dbs[self].tables, item)
  {
  }

  /** A welcome delivery commits when its identity is fresh, its database answers and no timeout strikes first. */
  lemma WelcomeCommits(codec: Codec, db: Db, item: BrokerItem, message: EncodedMessage, script: DeliveryScript)
    requires db.authority.Valid() && message.Valid() && RouteOf(message.metadata).Some?
    requires RouteOf(message.metadata).value.Destination() == db.authority
    requires item.bytes == message.bytes && item.headerId == message.Id()
    requires DeriveSubject(message.metadata) == Some(item.subject) && item.stream == StreamForKind(message.metadata.descriptor.kind)
    requires script.databaseAnswers && !script.timing.TimedOutBeforeCommit?
    requires item.stream.Commands? ==> FreshIdentity(db, script.identity).Some?
    requires var id := FreshIdentity(db, script.identity).GetOr(Generated(0, 0));
      Progress.Welcome(codec, db, message, id.newId, id.emittedAt)
    ensures Commits(codec, db, item, script)
  {
    hide ProcessDelivery, Progress.Welcome, DeriveSubject, RouteOf, EncodedMessage.Valid;
    var id := FreshIdentity(db, script.identity).GetOr(Generated(0, 0));
    Progress.HandlerCommits(codec, db, item, message, id.newId, id.emittedAt, script.now);
  }

  /** Transient fetch errors make no difference. */
  lemma TransientFetchesArePassedOver(codec: Codec, self: MessageAuthority, s: State, stream: TransportStream, front: seq<Fetch>,
    fetch: Fetch, rest: seq<Fetch>)
    requires At(s, self) && fetch.error.Some? && fetch.error.value.IsTransient()
    ensures ConsumerRun(codec, self, s, stream, front + ([fetch] + rest)) == ConsumerRun(codec, self, s, stream, front + rest)
  {
    hide FetchedRun, TransportErrorKind.IsTransient;
    ConsumerSplit(codec, self, s, stream, front, [fetch] + rest);
    ConsumerSplit(codec, self, s, stream, front, rest);
    FirstFetch(codec, self, ConsumerRun(codec, self, s, stream, front).0, stream, [fetch] + rest);
    assert ([fetch] + rest)[1..] == rest;
  }

  /**
   * Of what the broker client reports for a publication, everything is retried except that the stream or its
   * sequence is not the expected one; and of all failures everything is, except what only a changed
   * configuration or message can mend.
   */
  lemma RetriedFaults(fault: PublishFault, kind: TransportErrorKind)
    ensures MapPublishError(fault).IsTransient() <==> fault !in {StreamNotFound, WrongLastMessageId, WrongLastSequence}
    ensures !kind.IsTransient() <==> kind in {Authentication, Authorization, Tls, ServerVersion, Topology, TransportErrorKind.Subject,
      WrongStreamAck, InvalidCredential, InvalidConfig, HeaderMismatch, MalformedDelivery}
  {
  }
}
