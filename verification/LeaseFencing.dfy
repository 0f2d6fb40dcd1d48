/**
 * Lease fencing over whole traces of one store. Every event carries its own transaction time and nothing
 * relates the times of two events: fencing rests on lease ids alone.
 */
module LeaseFencing {
  import opened Foundation
  import opened MessageDomain
  import opened OutboxStore

  datatype Event = Event(op: StoreOp, now: int)

  /** The tables after the first `n` events. */
  function At(t: Tables, events: seq<Event>, n: nat): Tables
    requires n <= |events|
  {
    if n == 0 then t else OpTables(At(t, events, n - 1), events[n - 1].op, events[n - 1].now)
  }

  ghost predicate IsTrace(t: Tables, events: seq<Event>) {
    forall i {:trigger events[i]} | 0 <= i < |events| :: OpTakesItsRows(At(t, events, i), events[i].op, events[i].now)
  }

  /** Event `i` claims row `id`. */
  predicate Claims(events: seq<Event>, i: nat, id: Uuid)
    requires i < |events|
  {
    events[i].op.ClaimOp? && id in events[i].op.chosen
  }

  /** Event `i` succeeds as a marker or reschedule of row `id` under `lease`. */
  predicate Settles(t: Tables, events: seq<Event>, i: nat, id: Uuid, lease: Uuid)
    requires i < |events|
  {
    && (events[i].op.MarkOp? || events[i].op.RescheduleOp?)
    && events[i].op.id == id && events[i].op.lease == lease
    && HoldsLease(At(t, events, i), id, lease, events[i].now)
  }

  predicate LeaseIn(t: Tables, lease: Uuid) {
    exists id :: id in t.deliveries && t.deliveries[id].leaseId == Some(lease)
  }

  /** Every claim brings a lease id that no stored row and no earlier claim has used. */
  ghost predicate FreshLeases(t: Tables, events: seq<Event>) {
    && (forall i | 0 <= i < |events| && events[i].op.ClaimOp? :: !LeaseIn(t, events[i].op.lease))
    && (forall i, j | 0 <= i < j < |events| && events[i].op.ClaimOp? && events[j].op.ClaimOp? ::
      events[i].op.lease != events[j].op.lease)
  }

  predicate HasLease(t: Tables, id: Uuid, lease: Uuid) {
    id in t.deliveries && t.deliveries[id].leaseId == Some(lease)
  }

  lemma StepLease(t: Tables, op: StoreOp, now: int, id: Uuid, lease: Uuid)
    requires !HasLease(t, id, lease)
    requires op.ClaimOp? ==> op.lease != lease
    ensures !HasLease(OpTables(t, op, now), id, lease)
  {
  }

  /** A lease that a row no longer has does not come back unless a claim brings it. */
  lemma {:induction false} LeaseNeverReturns(t: Tables, events: seq<Event>, i: nat, j: nat, id: Uuid, lease: Uuid)
    requires i <= j <= |events|
    requires !HasLease(At(t, events, i), id, lease)
    requires forall k | i <= k < j && events[k].op.ClaimOp? :: events[k].op.lease != lease
    ensures !HasLease(At(t, events, j), id, lease)
  {
    if i < j {
      LeaseNeverReturns(t, events, i, j - 1, id, lease);
      StepLease(At(t, events, j - 1), events[j - 1].op, events[j - 1].now, id, lease);
    }
  }

  /** A lease that a row holds was stored at the start or brought by a claim of that row. */
  lemma {:induction false} LeaseHasOrigin(t: Tables, events: seq<Event>, n: nat, id: Uuid, lease: Uuid)
    requires n <= |events| && HasLease(At(t, events, n), id, lease)
    ensures LeaseIn(t, lease) || exists c :: 0 <= c < n && Claims(events, c, id) && events[c].op.lease == lease
  {
    if n > 0 {
      if HasLease(At(t, events, n - 1), id, lease) {
        LeaseHasOrigin(t, events, n - 1, id, lease);
      } else {
        StepLeaseOrigin(At(t, events, n - 1), events[n - 1].op, events[n - 1].now, id, lease);
        assert Claims(events, n - 1, id);
      }
    }
  }

  lemma StepLeaseOrigin(t: Tables, op: StoreOp, now: int, id: Uuid, lease: Uuid)
    requires !HasLease(t, id, lease) && HasLease(OpTables(t, op, now), id, lease)
    ensures op.ClaimOp? && op.lease == lease && id in op.chosen
  {
  }

  /** No later claim brings a lease that some row has at `i`. */
  lemma HeldLeaseIsSpent(t: Tables, events: seq<Event>, i: nat, id: Uuid, lease: Uuid)
    requires FreshLeases(t, events) && i <= |events| && HasLease(At(t, events, i), id, lease)
    ensures forall k | i <= k < |events| && events[k].op.ClaimOp? :: events[k].op.lease != lease
  {
    LeaseHasOrigin(t, events, i, id, lease);
  }

  /** One lease settles one row at most once, over markers and reschedules together. */
  lemma LeaseSettlesOnce(t: Tables, events: seq<Event>, i: nat, j: nat, id: Uuid, lease: Uuid)
    requires IsTrace(t, events) && FreshLeases(t, events)
    requires i < j < |events| && Settles(t, events, i, id, lease)
    ensures !Settles(t, events, j, id, lease)
  {
    hide OpTables, OpTakesItsRows, FreshLeases, HoldsLease;
    SettleNeedsLease(t, events, i, id, lease);
    HeldLeaseIsSpent(t, events, i, id, lease);
    SettleDropsLease(At(t, events, i), events[i].op, events[i].now, id, lease);
    LeaseNeverReturns(t, events, i + 1, j, id, lease);
    if Settles(t, events, j, id, lease) { SettleNeedsLease(t, events, j, id, lease); }
  }

  lemma SettleDropsLease(t: Tables, op: StoreOp, now: int, id: Uuid, lease: Uuid)
    requires (op.MarkOp? || op.RescheduleOp?) && op.id == id && op.lease == lease && HoldsLease(t, id, lease, now)
    ensures !HasLease(OpTables(t, op, now), id, lease)
  {
  }

  lemma ClaimReplacesLease(t: Tables, op: StoreOp, now: int, id: Uuid, lease: Uuid)
    requires op.ClaimOp? && id in op.chosen && op.lease != lease
    ensures !HasLease(OpTables(t, op, now), id, lease)
  {
  }

  /** Once a later claim of the same row commits, the earlier lease settles nothing. */
  lemma LaterClaimFences(t: Tables, events: seq<Event>, first: nat, later: nat, j: nat, id: Uuid)
    requires IsTrace(t, events) && FreshLeases(t, events)
    requires first < later < j < |events| && Claims(events, first, id) && Claims(events, later, id)
    ensures !Settles(t, events, j, id, events[first].op.lease)
  {
    hide HoldsLease, OpTables, OpTakesItsRows;
    var lease := events[first].op.lease;
    var before := At(t, events, later);
    assert OpTakesItsRows(before, events[later].op, events[later].now);
    ClaimReplacesLease(before, events[later].op, events[later].now, id, lease);
    LeaseNeverReturns(t, events, later + 1, j, id, lease);
    if Settles(t, events, j, id, lease) { SettleNeedsLease(t, events, j, id, lease); }
  }

  lemma SettleNeedsLease(t: Tables, events: seq<Event>, j: nat, id: Uuid, lease: Uuid)
    requires j < |events| && Settles(t, events, j, id, lease)
    ensures HasLease(At(t, events, j), id, lease)
  {
  }

  predicate IsPublished(t: Tables, id: Uuid) { id in t.deliveries && t.deliveries[id].publishedAt.Some? }

  /** A published row is final: nothing claims, settles or otherwise changes it again. */
  lemma {:induction false} PublishedIsFinal(t: Tables, events: seq<Event>, i: nat, j: nat, id: Uuid)
    requires IsTrace(t, events) && i <= j <= |events| && IsPublished(At(t, events, i), id)
    ensures id in At(t, events, j).deliveries && At(t, events, j).deliveries[id] == At(t, events, i).deliveries[id]
    ensures j < |events| ==> !Claims(events, j, id) && forall lease :: !Settles(t, events, j, id, lease)
  {
    hide OpTables, OpTakesItsRows;
    if i < j {
      PublishedIsFinal(t, events, i, j - 1, id);
      assert OpTakesItsRows(At(t, events, j - 1), events[j - 1].op, events[j - 1].now);
      StepPublished(At(t, events, j - 1), events[j - 1].op, events[j - 1].now, id);
    }
    if j < |events| {
      assert OpTakesItsRows(At(t, events, j), events[j].op, events[j].now);
      StepPublished(At(t, events, j), events[j].op, events[j].now, id);
    }
  }

  lemma StepPublished(t: Tables, op: StoreOp, now: int, id: Uuid)
    requires OpTakesItsRows(t, op, now) && IsPublished(t, id)
    ensures id in OpTables(t, op, now).deliveries && OpTables(t, op, now).deliveries[id] == t.deliveries[id]
    ensures !(op.ClaimOp? && id in op.chosen)
  {
  }

  // ---- Counting -------------------------------------------------------------------------------

  function ClaimCount(events: seq<Event>, n: nat, id: Uuid): nat
    requires n <= |events|
  {
    if n == 0 then 0 else ClaimCount(events, n - 1, id) + if Claims(events, n - 1, id) then 1 else 0
  }

  /** How many of the first `n` events settled `id`, under whatever lease. */
  function SettleCount(t: Tables, events: seq<Event>, n: nat, id: Uuid): nat
    requires n <= |events|
  {
    if n == 0 then 0
    else
      SettleCount(t, events, n - 1, id)
      + if (events[n - 1].op.MarkOp? || events[n - 1].op.RescheduleOp?)
           && Settles(t, events, n - 1, id, events[n - 1].op.lease) then 1 else 0
  }

  function Attempts(t: Tables, id: Uuid): nat { if id in t.deliveries then t.deliveries[id].attemptCount else 0 }

  function Leased(t: Tables, id: Uuid): nat {
    if id in t.deliveries && t.deliveries[id].leaseId.Some? then 1 else 0
  }

  /** From an empty store the attempt count is the number of claims, and settles never exceed it. */
  lemma {:induction false} AttemptsAreClaims(events: seq<Event>, n: nat, id: Uuid)
    requires IsTrace(EMPTY_TABLES, events) && n <= |events|
    ensures Attempts(At(EMPTY_TABLES, events, n), id) == ClaimCount(events, n, id)
    ensures SettleCount(EMPTY_TABLES, events, n, id) + Leased(At(EMPTY_TABLES, events, n), id) <= ClaimCount(events, n, id)
  {
    hide OpTables, OpTakesItsRows;
    if n > 0 {
      AttemptsAreClaims(events, n - 1, id);
      var (before, op, now) := (At(EMPTY_TABLES, events, n - 1), events[n - 1].op, events[n - 1].now);
      assert OpTakesItsRows(before, op, now);
      StepCounts(before, op, now, id);
    } else {
      assert At(EMPTY_TABLES, events, 0) == EMPTY_TABLES;
    }
  }

  /** How one operation moves the attempt and lease counts of a row. */
  lemma StepCounts(t: Tables, op: StoreOp, now: int, id: Uuid)
    requires OpTakesItsRows(t, op, now)
    ensures Attempts(OpTables(t, op, now), id) == Attempts(t, id) + (if op.ClaimOp? && id in op.chosen then 1 else 0)
    ensures (op.MarkOp? || op.RescheduleOp?) && op.id == id && HoldsLease(t, id, op.lease, now) ==>
      Leased(t, id) == 1 && Leased(OpTables(t, op, now), id) == 0
    ensures !(op.ClaimOp? && id in op.chosen) ==> Leased(OpTables(t, op, now), id) <= Leased(t, id)
  {
  }

  // ---- The invariant over traces --------------------------------------------------------------

  ghost predicate EnqueuesValid(events: seq<Event>) {
    forall i | 0 <= i < |events| && events[i].op.EnqueueOp? :: events[i].op.message.Valid()
  }

  /**
   * In every state of every trace from an empty store: delivery rows pair with message rows, lease columns
   * are set together and never beside a publication, and the three delivery states add up to all messages.
   */
  lemma {:induction false} StoreInvariantHolds(events: seq<Event>, n: nat)
    requires IsTrace(EMPTY_TABLES, events) && EnqueuesValid(events) && n <= |events|
    ensures var t := At(EMPTY_TABLES, events, n);
      WellFormed(t) && |PendingIds(t)| + |LeasedIds(t)| + |PublishedIds(t)| == |t.messages|
  {
    hide OpTables, OpTakesItsRows, WellFormed, EncodedMessage.Valid;
    if n == 0 {
      EmptyIsWellFormed();
    } else {
      StoreInvariantHolds(events, n - 1);
      assert OpTakesItsRows(At(EMPTY_TABLES, events, n - 1), events[n - 1].op, events[n - 1].now);
      OpKeepsWellFormed(At(EMPTY_TABLES, events, n - 1), events[n - 1].op, events[n - 1].now);
    }
    DeliveryStatesPartition(At(EMPTY_TABLES, events, n));
  }

  lemma EmptyIsWellFormed()
    ensures WellFormed(EMPTY_TABLES) && At(EMPTY_TABLES, [], 0) == EMPTY_TABLES
  {
  }

  /** A message or receipt that is stored once stays as it is for the rest of the trace. */
  lemma {:induction false} StoredRowsAreImmutable(t: Tables, events: seq<Event>, i: nat, j: nat, id: Uuid, key: ReceiptKey)
    requires IsTrace(t, events) && i <= j <= |events|
    ensures id in At(t, events, i).messages ==>
      id in At(t, events, j).messages && At(t, events, j).messages[id] == At(t, events, i).messages[id]
    ensures key in At(t, events, i).receipts ==>
      key in At(t, events, j).receipts && At(t, events, j).receipts[key] == At(t, events, i).receipts[key]
  {
    hide OpTables, OpTakesItsRows;
    if i < j {
      StoredRowsAreImmutable(t, events, i, j - 1, id, key);
      assert OpTakesItsRows(At(t, events, j - 1), events[j - 1].op, events[j - 1].now);
      OpKeepsRows(At(t, events, j - 1), events[j - 1].op, events[j - 1].now);
    }
  }
}
