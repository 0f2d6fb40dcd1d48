/**
 * The store operations over the table rows themselves. Each call runs in one transaction, so an error
 * leaves the rows as they were. `View()` reads the rows as the tables of `OutboxStore`.
 */
module MessageStore {
  import opened Foundation
  import opened MessageDomain
  import opened OutboxStore
  import opened Rows

  class Store {
    var outboxMessage: map<Uuid, MessageRow>
    var outboxDelivery: map<Uuid, DeliveryRow>
    var inboxReceipt: map<ReceiptKey, ReceiptRow>

    constructor ()
      ensures Decodes() && View() == EMPTY_TABLES
    {
      outboxMessage, outboxDelivery, inboxReceipt := map[], map[], map[];
    }

    /** Every row converts, under the key that its own id column gives it. */
    ghost predicate Decodes()
      reads this
    {
      forall id | id in outboxMessage ::
        MessageFromRow(outboxMessage[id]).Success? && outboxMessage[id].messageId == id
    }

    ghost function View(): Tables
      requires Decodes()
      reads this
    {
      Tables(
        map id | id in outboxMessage ::
          StoredMessage(MessageFromRow(outboxMessage[id]).value, outboxMessage[id].createdAt),
        outboxDelivery,
        inboxReceipt)
    }

    function Keys(): map<Uuid, ClaimKey>
      reads this
    {
      map id | id in outboxDelivery && id in outboxMessage ::
        ClaimKey(outboxDelivery[id].availableAt, outboxMessage[id].createdAt, id)
    }

    function Candidates(now: int, locked: set<Uuid>): set<Uuid>
      reads this
    {
      set id | id in outboxDelivery && id in outboxMessage && id !in locked && RowEligible(outboxDelivery[id], now)
    }

    /** `enqueue`: insert the message with its delivery row, or compare with the row that is there. */
    method Enqueue(message: EncodedMessage, now: int) returns (r: Result<EnqueueOutcome, StoreError>)
      requires message.Valid()
      modifies this
      ensures old(Decodes()) ==>
        && Decodes()
        && View() == EnqueueTables(old(View()), message, now)
        && r == EnqueueResult(old(View()), message)
      ensures message.Id() in old(outboxMessage) && MessageFromRow(old(outboxMessage)[message.Id()]).Failure? ==>
        r == Failure(InvalidStoredValue)
      ensures r != Success(Inserted) ==> unchanged(this)
    {
      var id := message.Id();
      if id !in outboxMessage {
        if id in outboxDelivery { return Failure(ProviderFailure); }
        outboxMessage := outboxMessage[id := RowOf(message, now)];
        outboxDelivery := outboxDelivery[id := NewDelivery(now)];
        RowRoundTrip(message, now);
        return Success(Inserted);
      }
      var existing := MessageFromRow(outboxMessage[id]);
      if existing.Failure? { return Failure(InvalidStoredValue); }
      if existing.value != message { return Failure(MessageIdentityConflict); }
      if id !in outboxDelivery { return Failure(StoreCorruption); }
      return Success(AlreadyPresent);
    }

    /** The earliest of the remaining candidates. */
    method Earliest(remaining: set<Uuid>) returns (best: Uuid)
      requires remaining != {} && remaining <= Keys().Keys
      ensures best in remaining
      ensures forall other | other in remaining && other != best :: Before(Keys()[best], Keys()[other])
    {
      best :| best in remaining;
      var rest := remaining - {best};
      while rest != {}
        invariant best in remaining && rest <= remaining && best !in rest
        invariant forall other | other in remaining - rest && other != best :: Before(Keys()[best], Keys()[other])
        decreases rest
      {
        var other :| other in rest;
        if Before(Keys()[other], Keys()[best]) { best := other; }
        rest := rest - {other};
      }
    }

    /** `ORDER BY .. FOR UPDATE SKIP LOCKED LIMIT batch`. */
    method SelectCandidates(now: int, batch: nat, locked: set<Uuid>) returns (chosen: set<Uuid>)
      ensures FirstOf(Keys(), Candidates(now, locked), batch, chosen)
    {
      var candidates := Candidates(now, locked);
      chosen := {};
      while |chosen| < batch && candidates - chosen != {}
        invariant chosen <= candidates && |chosen| <= batch
        invariant forall c, other | c in chosen && other in candidates - chosen :: Before(Keys()[c], Keys()[other])
        decreases candidates - chosen
      {
        var next := Earliest(candidates - chosen);
        chosen := chosen + {next};
      }
      SubsetSize(chosen, candidates);
      if candidates - chosen == {} { assert candidates == chosen; }
      else if |chosen| == |candidates| { SmallerSubset(chosen, candidates); }
    }

    /** The row of `id` as a claim with this lease returns it. */
    ghost predicate ClaimOf(claimed: ClaimedMessage, id: Uuid, lease: Uuid, until: int)
      reads this
    {
      && id in outboxMessage && id in outboxDelivery
      && MessageFromRow(outboxMessage[id]) == Success(claimed.message)
      && claimed == ClaimedMessage(claimed.message, outboxDelivery[id].attemptCount, lease, until)
    }

    /** `claimed_from_row` over the leased rows, in no particular order; one malformed row fails them all. */
    method ReadClaimed(selected: set<Uuid>, lease: Uuid, until: int) returns (r: Result<seq<ClaimedMessage>, StoreError>)
      requires selected <= outboxMessage.Keys && selected <= outboxDelivery.Keys
      requires forall id | id in outboxMessage :: outboxMessage[id].messageId == id
      ensures r.Success? <==> forall id | id in selected :: MessageFromRow(outboxMessage[id]).Success?
      ensures r.Failure? ==> r.error == InvalidStoredValue
      ensures r.Success? ==> |r.value| == |selected|
      ensures r.Success? ==> forall i | 0 <= i < |r.value| ::
        r.value[i].message.Id() in selected && ClaimOf(r.value[i], r.value[i].message.Id(), lease, until)
      ensures r.Success? ==> forall i, j | 0 <= i < j < |r.value| :: r.value[i].message.Id() != r.value[j].message.Id()
    {
      hide MessageFromRow;
      var claims: seq<ClaimedMessage> := [];
      var remaining := selected;
      while remaining != {}
        invariant remaining <= selected
        invariant |claims| == |selected| - |remaining|
        invariant forall id | id in selected - remaining :: MessageFromRow(outboxMessage[id]).Success?
        invariant forall i | 0 <= i < |claims| ::
          claims[i].message.Id() in selected - remaining && ClaimOf(claims[i], claims[i].message.Id(), lease, until)
        invariant forall i, j | 0 <= i < j < |claims| :: claims[i].message.Id() != claims[j].message.Id()
        decreases remaining
      {
        var id :| id in remaining;
        var message := MessageFromRow(outboxMessage[id]);
        if message.Failure? { return Failure(InvalidStoredValue); }
        var claimed := ClaimedMessage(message.value, outboxDelivery[id].attemptCount, lease, until);
        assert claimed.message.Id() == id;
        claims := claims + [claimed];
        remaining := remaining - {id};
      }
      assert selected - remaining == selected;
      return Success(claims);
    }

    /** `claim_batch`: lease the selected rows for `seconds` and return them. */
    method ClaimBatch(now: int, batch: nat, locked: set<Uuid>, publisher: Uuid, lease: Uuid, seconds: nat)
      returns (r: Result<seq<ClaimedMessage>, StoreError>, ghost chosen: set<Uuid>)
      requires forall id | id in outboxMessage :: outboxMessage[id].messageId == id
      modifies this`outboxDelivery
      ensures FirstOf(old(Keys()), old(Candidates(now, locked)), batch, chosen)
      ensures r.Success? <==> forall id | id in chosen :: MessageFromRow(outboxMessage[id]).Success?
      ensures r.Failure? ==> r.error == InvalidStoredValue && unchanged(this)
      ensures r.Success? ==>
        && outboxDelivery == LeaseRows(old(outboxDelivery), chosen, now, publisher, lease, seconds)
        && |r.value| == |chosen|
        && (forall i | 0 <= i < |r.value| ::
          r.value[i].message.Id() in chosen
          && ClaimOf(r.value[i], r.value[i].message.Id(), lease, now + seconds * MICROS_PER_SECOND))
        && (forall i, j | 0 <= i < j < |r.value| :: r.value[i].message.Id() != r.value[j].message.Id())
      ensures old(Decodes()) ==>
        && ClaimSelects(old(View()), now, batch, locked, chosen)
        && r.Success? && Decodes()
        && View() == ClaimTables(old(View()), chosen, now, publisher, lease, seconds)
    {
      var saved := outboxDelivery;
      var selected := SelectCandidates(now, batch, locked);
      chosen := selected;
      assert old(Decodes()) ==> ClaimKeys(old(View())) == old(Keys());
      assert old(Decodes()) ==> EligibleIds(old(View()), now, locked) == old(Candidates(now, locked));
      outboxDelivery := LeaseRows(saved, selected, now, publisher, lease, seconds);
      r := ReadClaimed(selected, lease, now + seconds * MICROS_PER_SECOND);
      if r.Failure? { outboxDelivery := saved; }
    }

    /** `mark_published`. */
    method MarkPublished(id: Uuid, lease: Uuid, now: int) returns (r: Result<PublishMarkOutcome, StoreError>)
      modifies this`outboxDelivery
      ensures r == Success(Published) <==>
        && id in old(outboxDelivery) && old(outboxDelivery)[id].publishedAt.None?
        && old(outboxDelivery)[id].leaseId == Some(lease)
        && old(outboxDelivery)[id].leasedUntil.Some? && old(outboxDelivery)[id].leasedUntil.value > now
      ensures r != Success(Published) ==> unchanged(this)
      ensures old(Decodes()) ==>
        && Decodes()
        && View() == MarkTables(old(View()), id, lease, now)
        && r == MarkResult(old(View()), id, lease, now)
    {
      if id in outboxDelivery {
        var row := outboxDelivery[id];
        if row.publishedAt.None? && row.leaseId == Some(lease) && row.leasedUntil.Some? && row.leasedUntil.value > now {
          outboxDelivery := outboxDelivery[id := WithoutLease(row).(publishedAt := Some(now))];
          return Success(Published);
        }
      }
      var published := PublishedState(id);
      match published
      case None => return Failure(StoreCorruption);
      case Some(yes) => return Success(if yes then MarkAlreadyPublished else MarkLeaseLost);
    }

    /** `published_or_lost`: whether the row is published; no answer when it is missing. */
    method PublishedState(id: Uuid) returns (published: Option<bool>)
      ensures published.None? <==> id !in outboxDelivery
      ensures published.Some? ==> published.value == outboxDelivery[id].publishedAt.Some?
    {
      return if id in outboxDelivery then Some(outboxDelivery[id].publishedAt.Some?) else None;
    }

    /** `reschedule`. */
    method Reschedule(id: Uuid, lease: Uuid, now: int, delay: nat, failure: Option<string>)
      returns (r: Result<RescheduleOutcome, StoreError>)
      modifies this`outboxDelivery
      ensures r != Success(Rescheduled) ==> unchanged(this)
      ensures old(Decodes()) ==>
        && Decodes()
        && View() == RescheduleTables(old(View()), id, lease, now, delay, failure)
        && r == RescheduleResult(old(View()), id, lease, now)
    {
      if id in outboxDelivery {
        var row := outboxDelivery[id];
        if row.publishedAt.None? && row.leaseId == Some(lease) && row.leasedUntil.Some? && row.leasedUntil.value > now {
          outboxDelivery := outboxDelivery[id :=
            WithoutLease(row).(availableAt := now + delay * MICROS_PER_SECOND, lastFailure := failure)];
          return Success(Rescheduled);
        }
      }
      var published := PublishedState(id);
      match published
      case None => return Failure(StoreCorruption);
      case Some(yes) => return Success(if yes then RescheduleAlreadyPublished else RescheduleLeaseLost);
    }

    /** `record_inbox`: insert the receipt, or compare with the one that is there and never overwrite it. */
    method RecordInbox(consumer: string, message: EncodedMessage, now: int) returns (r: InboxReceiptOutcome)
      modifies this`inboxReceipt
      ensures r.ReceiptConflict? ==> unchanged(this)
      ensures old(Decodes()) ==>
        && Decodes()
        && View() == InboxTables(old(View()), consumer, message, now)
        && r == InboxResult(old(View()), consumer, message)
    {
      var key := ReceiptKey(consumer, message.Id());
      var d := message.metadata.descriptor;
      if key !in inboxReceipt {
        inboxReceipt := inboxReceipt[key := ReceiptRow(d.name, d.schemaVersion, d.kind, message.bytes, now)];
        return ReceiptInserted;
      }
      var row := inboxReceipt[key];
      var identical :=
        row.name == d.name && row.schemaVersion == d.schemaVersion && row.kind == d.kind && row.envelope == message.bytes;
      return if identical then ReceiptDuplicate else ReceiptConflict;
    }
  }
}
