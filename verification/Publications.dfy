/** Broker publications are paid for by claims: per message they never exceed the attempt count. */
module Publications {
  import opened Foundation
  import opened MessageDomain
  import opened OutboxStore
  import opened AuthorityDatabase
  import opened Routing
  import opened Delivery
  import opened Protocol
  import LeaseFencing
  import NoLoss

  function AcceptedCount(log: seq<Publication>, at: MessageAuthority, id: Uuid): nat {
    if log == [] then 0
    else AcceptedCount(log[..|log| - 1], at, id) + if log[|log| - 1] == Publication(at, id) then 1 else 0
  }

  function AttemptCount(s: State, at: MessageAuthority, id: Uuid): nat {
    if at in s.dbs then LeaseFencing.Attempts(s.dbs[at].tables, id) else 0
  }

  /** Claims of this message that a worker still holds and has not offered to the broker. */
  function Unsent(s: State, at: MessageAuthority, id: Uuid): set<Held> {
    set h | h in s.held && h.owner == at && h.claim.message.Id() == id && h.stage.Unsent?
  }

  /** The records of this message that the broker holds for its consumers. */
  function Records(s: State, at: MessageAuthority, id: Uuid): set<nat> {
    set n | n in s.broker && s.broker[n].origin == at && s.broker[n].headerId == id
  }

  /** Records are publications, and publications so far and still possible are covered by the attempts. */
  predicate Paid(s: State, at: MessageAuthority, id: Uuid) {
    && |Records(s, at, id)| <= AcceptedCount(s.publications, at, id)
    && AcceptedCount(s.publications, at, id) + |Unsent(s, at, id)| <= AttemptCount(s, at, id)
  }

  lemma ClaimPays(s: State, a: Action, at: MessageAuthority, id: Uuid)
    requires a.Claim? && Paid(s, at, id)
    requires at in s.dbs ==> KeyedMessages(s.dbs[at].tables)
    ensures Paid(DoClaim(s, a), at, id)
  {
    hide DoClaim, AcceptedCount, Records, Unsent, AttemptCount;
    if DoClaim(s, a) != s {
      ClaimTouches(s, a, at, id);
      ClaimAttempts(s, a, at, id);
      ClaimUnsent(s, a, at, id);
    }
  }

  /** The claim of this message by its own authority, if this action is one. */
  predicate ClaimsIt(a: Action, at: MessageAuthority, id: Uuid)
    requires a.Claim?
  { a.at == at && id in a.chosen }

  lemma ClaimTouches(s: State, a: Action, at: MessageAuthority, id: Uuid)
    requires a.Claim?
    ensures DoClaim(s, a).publications == s.publications && Records(DoClaim(s, a), at, id) == Records(s, at, id)
  {
    hide ClaimSelects, ClaimTables;
  }

  lemma ClaimAttempts(s: State, a: Action, at: MessageAuthority, id: Uuid)
    requires a.Claim? && DoClaim(s, a) != s
    ensures AttemptCount(DoClaim(s, a), at, id) == AttemptCount(s, at, id) + if ClaimsIt(a, at, id) then 1 else 0
  {
    hide LeaseFencing.Attempts, ClaimSelects, ClaimTables;
    if a.at == at {
      LeaseFencing.StepCounts(s.dbs[at].tables,
        ClaimOp(a.chosen, a.batch, a.locked, a.publisher, a.lease, a.seconds), a.now, id);
    }
  }

  lemma ClaimUnsent(s: State, a: Action, at: MessageAuthority, id: Uuid)
    requires a.Claim? && DoClaim(s, a) != s && (at in s.dbs ==> KeyedMessages(s.dbs[at].tables))
    ensures |Unsent(DoClaim(s, a), at, id)| <= |Unsent(s, at, id)| + if ClaimsIt(a, at, id) then 1 else 0
  {
    hide ClaimSelects, LeaseRows;
    var t := DoClaim(s, a);
    var after := ClaimTables(s.dbs[a.at].tables, a.chosen, a.now, a.publisher, a.lease, a.seconds);
    if ClaimsIt(a, at, id) && id in after.messages && id in after.deliveries {
      var claimed := Held(at, ClaimedRow(after, id, a.lease, a.now + a.seconds * MICROS_PER_SECOND), Stage.Unsent);
      assert Unsent(t, at, id) <= Unsent(s, at, id) + {claimed};
      SubsetSize(Unsent(t, at, id), Unsent(s, at, id) + {claimed});
    } else {
      assert Unsent(t, at, id) <= Unsent(s, at, id);
      SubsetSize(Unsent(t, at, id), Unsent(s, at, id));
    }
  }

  predicate KeyedMessages(t: Tables) { forall id | id in t.messages :: t.messages[id].message.Id() == id }

  lemma PublishPays(s: State, a: Action, at: MessageAuthority, id: Uuid)
    requires a.Publish? && Paid(s, at, id)
    ensures Paid(DoPublish(s, a), at, id)
  {
    var t := DoPublish(s, a);
    PublishSpends(s, a);
    if t != s { SpendingPays(s, t, a.held, at, id); }
  }

  /** What a publish does to the held claims and the history, whatever the broker answers. */
  predicate Spends(s: State, t: State, h: Held) {
    && t.dbs == s.dbs && h in s.held && h.stage.Unsent?
    && t.held <= s.held - {h} + {h.(stage := Accepted), h.(stage := Refused)}
    && (t.publications == s.publications || t.publications == s.publications + [Publication(h.owner, h.claim.message.Id())])
    && (t.broker == s.broker || (t.publications != s.publications && AddsRecord(s, t, h)))
  }

  /** The one new record is of the publication's own message. */
  predicate AddsRecord(s: State, t: State, h: Held) {
    && s.nextSequence in t.broker && t.broker == s.broker[s.nextSequence := t.broker[s.nextSequence]]
    && t.broker[s.nextSequence].origin == h.owner && t.broker[s.nextSequence].headerId == h.claim.message.Id()
  }

  lemma PublishSpends(s: State, a: Action)
    requires a.Publish?
    ensures DoPublish(s, a) == s || Spends(s, DoPublish(s, a), a.held)
  {
    hide DeriveSubject, RouteOf, AuthorizedToPublish;
  }

  lemma SpendingPays(s: State, t: State, h: Held, at: MessageAuthority, id: Uuid)
    requires Spends(s, t, h) && Paid(s, at, id)
    ensures Paid(t, at, id)
  {
    hide AttemptCount, AcceptedCount;
    RecordsPay(s, t, h, at, id);
    if t.publications != s.publications { CountAppend(s.publications, Publication(h.owner, h.claim.message.Id()), at, id); }
    assert AttemptCount(t, at, id) == AttemptCount(s, at, id) by { SameAttempts(s, t, at, id); }
    var (before, after) := (Unsent(s, at, id), Unsent(t, at, id));
    if h.owner == at && h.claim.message.Id() == id {
      assert after <= before - {h} && h in before;
      SubsetSize(after, before - {h});
    } else {
      assert after <= before;
      SubsetSize(after, before);
    }
  }

  lemma RecordsPay(s: State, t: State, h: Held, at: MessageAuthority, id: Uuid)
    requires Spends(s, t, h)
    ensures |Records(t, at, id)| <= |Records(s, at, id)| + AcceptedCount(t.publications, at, id) - AcceptedCount(s.publications, at, id)
  {
    hide AcceptedCount;
    if t.publications != s.publications { CountAppend(s.publications, Publication(h.owner, h.claim.message.Id()), at, id); }
    if t.broker != s.broker {
      var n := s.nextSequence;
      if t.broker[n].origin == at && t.broker[n].headerId == id {
        assert Records(t, at, id) <= Records(s, at, id) + {n};
        SubsetSize(Records(t, at, id), Records(s, at, id) + {n});
      } else {
        assert Records(t, at, id) <= Records(s, at, id);
        SubsetSize(Records(t, at, id), Records(s, at, id));
      }
    }
  }

  lemma SameAttempts(s: State, t: State, at: MessageAuthority, id: Uuid)
    requires t.dbs == s.dbs
    ensures AttemptCount(t, at, id) == AttemptCount(s, at, id)
  {
  }

  lemma CountAppend(log: seq<Publication>, e: Publication, at: MessageAuthority, id: Uuid)
    ensures AcceptedCount(log + [e], at, id) ==
      AcceptedCount(log, at, id) + if e == Publication(at, id) then 1 else 0
  {
    assert (log + [e])[..|log|] == log;
  }

  /** A step that claims and publishes nothing cannot raise the left side or lower the right side. */
  lemma QuietStepPays(s: State, t: State, at: MessageAuthority, id: Uuid)
    requires Paid(s, at, id) && t.held <= s.held && AttemptCount(s, at, id) <= AttemptCount(t, at, id)
    requires t.broker.Keys <= s.broker.Keys && forall n | n in t.broker :: t.broker[n] == s.broker[n]
    requires t.publications == s.publications
    ensures Paid(t, at, id)
  {
    hide LeaseFencing.Attempts;
    SubsetSize(Unsent(t, at, id), Unsent(s, at, id));
    SubsetSize(Records(t, at, id), Records(s, at, id));
  }

  lemma DeliverIsQuiet(codec: Codec, s: State, a: Action, at: MessageAuthority, id: Uuid)
    requires a.Deliver? && Paid(s, at, id)
    ensures Paid(DoDeliver(codec, s, a), at, id)
  {
    hide ProcessDelivery, DeriveSubject, RouteOf, MessageMetadata.BrokenRule;
    var t := DoDeliver(codec, s, a);
    if DeliverEnabled(s, a) {
      var item := s.broker[a.sequence];
      var db := s.dbs[item.destination];
      if ProcessDelivery(codec, db, item, a.newId, a.emittedAt, a.now).Committed? {
        DeliveryEffect(codec, db, item, a.newId, a.emittedAt, a.now);
      }
    }
    QuietStepPays(s, t, at, id);
  }

  lemma StepPays(codec: Codec, s: State, a: Action, at: MessageAuthority, id: Uuid)
    requires Paid(s, at, id) && (at in s.dbs ==> KeyedMessages(s.dbs[at].tables))
    ensures Paid(Step(codec, s, a), at, id)
  {
    hide Paid, DoEnqueue, DoWriteCanary, DoClaim, DoPublish, DoMark, DoReschedule, DoDeliver, DoAck, DoTenant;
    if a.Claim? {
      ClaimPays(s, a, at, id);
    } else if a.Publish? {
      PublishPays(s, a, at, id);
    } else if a.Deliver? {
      DeliverIsQuiet(codec, s, a, at, id);
    } else if a.Enqueue? || a.WriteCanary? {
      EnqueueIsQuiet(s, a, at, id);
    } else {
      OthersAreQuiet(codec, s, a, at, id);
    }
  }

  lemma EnqueueIsQuiet(s: State, a: Action, at: MessageAuthority, id: Uuid)
    requires Paid(s, at, id)
    ensures a.Enqueue? ==> Paid(DoEnqueue(s, a), at, id)
    ensures a.WriteCanary? ==> Paid(DoWriteCanary(s, a), at, id)
  {
    hide EncodedMessage.Valid, OutboundFence, TenantFence, EnqueueGate, Paid, AcceptedCount;
    if a.Enqueue? { QuietStepPays(s, DoEnqueue(s, a), at, id); }
    if a.WriteCanary? { QuietStepPays(s, DoWriteCanary(s, a), at, id); }
  }

  lemma OthersAreQuiet(codec: Codec, s: State, a: Action, at: MessageAuthority, id: Uuid)
    requires Paid(s, at, id) && !a.Claim? && !a.Publish? && !a.Deliver? && !a.Enqueue? && !a.WriteCanary?
    ensures Paid(Step(codec, s, a), at, id)
  {
    hide HoldsLease, CheckedAdvance, Paid, AcceptedCount;
    QuietStepPays(s, Step(codec, s, a), at, id);
  }

  lemma StepKeyed(codec: Codec, s: State, a: Action, at: MessageAuthority)
    requires at in s.dbs && KeyedMessages(s.dbs[at].tables)
    ensures at in Step(codec, s, a).dbs && KeyedMessages(Step(codec, s, a).dbs[at].tables)
  {
    hide DeriveSubject, RouteOf, ClaimSelects, AuthorizedToPublish, EncodedMessage.Valid, OutboundFence, TenantFence,
      ProcessDelivery, EnqueueGate, HoldsLease, MessageMetadata.BrokenRule;
    if a.Deliver? && DeliverEnabled(s, a) {
      var item := s.broker[a.sequence];
      var db := s.dbs[item.destination];
      if ProcessDelivery(codec, db, item, a.newId, a.emittedAt, a.now).Committed? {
        DeliveryEffect(codec, db, item, a.newId, a.emittedAt, a.now);
      }
    }
  }

  /**
   * In every reachable state, per message: the broker holds at most as many records as it accepted
   * publications, and it accepted at most as many as there were attempts.
   */
  lemma {:induction false} PublicationsWithinAttempts(codec: Codec, cells: set<string>, actions: seq<Action>,
    at: MessageAuthority, id: Uuid)
    ensures var s := Run(codec, Initial(cells), actions);
      && |Records(s, at, id)| <= AcceptedCount(s.publications, at, id) <= AttemptCount(s, at, id)
      && Paid(s, at, id) && (at in s.dbs ==> KeyedMessages(s.dbs[at].tables))
      && (at in s.dbs <==> at in Initial(cells).dbs)
    decreases |actions|
  {
    hide Step;
    if actions != [] {
      var (front, last) := (actions[..|actions| - 1], actions[|actions| - 1]);
      var before := Run(codec, Initial(cells), front);
      PublicationsWithinAttempts(codec, cells, front, at, id);
      StepPays(codec, before, last, at, id);
      NoLoss.StepGrows(codec, before, last);
      if at in before.dbs { StepKeyed(codec, before, last, at); }
    }
  }
}
