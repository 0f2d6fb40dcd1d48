/**
 * Claimers racing over one outbox. An open claim transaction holds row locks that other claims skip; the
 * drain loop of each worker claims, commits, marks what it claimed and stops at the first empty claim.
 */
module ConcurrentClaims {
  import opened Foundation
  import opened MessageDomain
  import opened OutboxStore

  datatype Phase =
    | Idle
    | Locking(rows: set<Uuid>, now: int, lease: Uuid)
    | Holding(claimed: set<Uuid>, holdLease: Uuid)
    | Done

  /** Committed tables, the worker phases, and every row identity a successful marker has returned. */
  datatype Race = Race(t: Tables, workers: seq<Phase>, marked: multiset<Uuid>)

  datatype Act =
    | Begin(w: nat, now: int, lease: Uuid, publisher: Uuid, chosen: set<Uuid>)
    | Commit(w: nat, publisher: Uuid, seconds: nat)
    | Abort(w: nat)
    | MarkAll(w: nat, now: int)

  /** The rows that open claims have locked. */
  function LockedBy(workers: seq<Phase>): set<Uuid> {
    set w, id | 0 <= w < |workers| && workers[w].Locking? && id in workers[w].rows :: id
  }

  function MarkEach(t: Tables, rows: set<Uuid>, now: int): Tables {
    t.(deliveries := map id | id in t.deliveries ::
      if id in rows then WithoutLease(t.deliveries[id]).(publishedAt := Some(now)) else t.deliveries[id])
  }

  /** The markers of one transaction, one claimed row after the other. */
  function MarkInTurn(t: Tables, ids: seq<Uuid>, lease: Uuid, now: int): Tables {
    if ids == [] then t
    else MarkTables(MarkInTurn(t, ids[..|ids| - 1], lease, now), ids[|ids| - 1], lease, now)
  }

  function Members(ids: seq<Uuid>): set<Uuid> { set id | id in ids }

  /** Whatever the order, the markers of one transaction come to the same tables. */
  lemma {:induction false} MarksComeTogether(t: Tables, ids: seq<Uuid>, lease: Uuid, now: int)
    requires forall i, j | 0 <= i < j < |ids| :: ids[i] != ids[j]
    requires forall id | id in ids :: HoldsLease(t, id, lease, now)
    ensures MarkInTurn(t, ids, lease, now) == MarkEach(t, Members(ids), now)
    decreases |ids|
  {
    hide MarkEach, MarkTables, HoldsLease;
    if ids == [] {
      assert Members(ids) == {};
      MarkNone(t, now);
    } else {
      var (front, last) := (ids[..|ids| - 1], ids[|ids| - 1]);
      MarksComeTogether(t, front, lease, now);
      assert last !in Members(front) && Members(ids) == Members(front) + {last};
      MarkOneMore(t, Members(front), last, lease, now);
    }
  }

  /** And each of them answers published, so the batch is marked by one act. */
  lemma MarksOfOneTransaction(t: Tables, ids: seq<Uuid>, k: nat, lease: Uuid, now: int)
    requires forall i, j | 0 <= i < j < |ids| :: ids[i] != ids[j]
    requires forall id | id in ids :: HoldsLease(t, id, lease, now)
    requires k < |ids|
    ensures MarkInTurn(t, ids, lease, now) == MarkEach(t, Members(ids), now)
    ensures MarkResult(MarkInTurn(t, ids[..k], lease, now), ids[k], lease, now) == Success(Published)
  {
    hide MarkEach, MarkTables, MarkResult, HoldsLease, MarkInTurn;
    MarksComeTogether(t, ids, lease, now);
    MarksComeTogether(t, ids[..k], lease, now);
    assert ids[k] !in Members(ids[..k]);
    MarkOneMore(t, Members(ids[..k]), ids[k], lease, now);
  }

  lemma MarkNone(t: Tables, now: int)
    ensures MarkEach(t, {}, now) == t
  {
    assert MarkEach(t, {}, now).deliveries == t.deliveries;
  }

  lemma MarkOneMore(t: Tables, marked: set<Uuid>, last: Uuid, lease: Uuid, now: int)
    requires last !in marked && HoldsLease(t, last, lease, now)
    ensures MarkTables(MarkEach(t, marked, now), last, lease, now) == MarkEach(t, marked + {last}, now)
    ensures MarkResult(MarkEach(t, marked, now), last, lease, now) == Success(Published)
  {
    var before := MarkEach(t, marked, now);
    assert before.deliveries[last] == t.deliveries[last];
    assert MarkTables(before, last, lease, now).deliveries == MarkEach(t, marked + {last}, now).deliveries;
  }

  /** An act is possible in `r`; a marker that would not return `Published` for each of its rows is not. */
  predicate Possible(r: Race, a: Act, batch: nat) {
    && a.w < |r.workers|
    && match a
       case Begin(w, now, _, _, chosen) => r.workers[w].Idle? && ClaimSelects(r.t, now, batch, LockedBy(r.workers), chosen)
       case Commit(w, _, _) => r.workers[w].Locking?
       case Abort(w) => r.workers[w].Locking?
       case MarkAll(w, now) =>
         && r.workers[w].Holding?
         && r.workers[w].claimed !! LockedBy(r.workers)
         && forall id | id in r.workers[w].claimed :: HoldsLease(r.t, id, r.workers[w].holdLease, now)
  }

  function Next(r: Race, a: Act): Race
    requires a.w < |r.workers|
  {
    match a
    case Begin(w, now, lease, _, chosen) => r.(workers := r.workers[w := Locking(chosen, now, lease)])
    case Commit(w, publisher, seconds) =>
      if !r.workers[w].Locking? then r
      else
        var p := r.workers[w];
        r.(t := ClaimTables(r.t, p.rows, p.now, publisher, p.lease, seconds),
           workers := r.workers[w := if p.rows == {} then Done else Holding(p.rows, p.lease)])
    case Abort(w) => r.(workers := r.workers[w := Idle])
    case MarkAll(w, now) =>
      if !r.workers[w].Holding? then r
      else
        var rows := r.workers[w].claimed;
        r.(t := MarkEach(r.t, rows, now), workers := r.workers[w := Idle], marked := r.marked + multiset(rows))
  }

  function After(r: Race, acts: seq<Act>): Race {
    if acts == [] then r
    else
      var before := After(r, acts[..|acts| - 1]);
      var a := acts[|acts| - 1];
      if a.w < |before.workers| then Next(before, a) else before
  }

  ghost predicate IsRace(r: Race, acts: seq<Act>, batch: nat)
    decreases |acts|
  {
    acts == [] ||
    (IsRace(r, acts[..|acts| - 1], batch) && Possible(After(r, acts[..|acts| - 1]), acts[|acts| - 1], batch))
  }

  function Start(t: Tables, workers: nat): Race { Race(t, seq(workers, _ => Idle), multiset{}) }

  // ---- Exclusive claims -----------------------------------------------------------------------

  predicate LocksDisjoint(r: Race) {
    forall v, w | 0 <= v < w < |r.workers| && r.workers[v].Locking? && r.workers[w].Locking? ::
      r.workers[v].rows !! r.workers[w].rows
  }

  /** What an open claim selected is still there and still eligible at the claim's own time. */
  predicate LocksFrozen(r: Race) {
    forall w | 0 <= w < |r.workers| && r.workers[w].Locking? ::
      forall id | id in r.workers[w].rows ::
        id in r.t.deliveries && id in r.t.messages && RowEligible(r.t.deliveries[id], r.workers[w].now)
  }

  lemma StepLocks(r: Race, a: Act, batch: nat)
    requires LocksDisjoint(r) && LocksFrozen(r) && Possible(r, a, batch)
    ensures LocksDisjoint(Next(r, a)) && LocksFrozen(Next(r, a))
  {
    var n := Next(r, a);
    forall v, w | 0 <= v < w < |n.workers| && n.workers[v].Locking? && n.workers[w].Locking?
      ensures n.workers[v].rows !! n.workers[w].rows
    {
      if a.Begin? && (a.w == v || a.w == w) {
        var other := if a.w == v then w else v;
        assert r.workers[other].rows <= LockedBy(r.workers);
      }
    }
    forall w, id | 0 <= w < |n.workers| && n.workers[w].Locking? && id in n.workers[w].rows
      ensures id in n.t.deliveries && id in n.t.messages && RowEligible(n.t.deliveries[id], n.workers[w].now)
    {
      if w != a.w {
        assert id in LockedBy(r.workers);
        if a.Commit? { assert id !in r.workers[a.w].rows; }
      }
    }
  }

  /**
   * However claims interleave, open claims never share a row, and a claim commits exactly the rows that it
   * selected as the first unlocked eligible ones, none of which changed in between.
   */
  lemma {:induction false} ClaimsAreExclusive(t: Tables, workers: nat, acts: seq<Act>, batch: nat)
    requires IsRace(Start(t, workers), acts, batch)
    ensures LocksDisjoint(After(Start(t, workers), acts)) && LocksFrozen(After(Start(t, workers), acts))
    ensures |After(Start(t, workers), acts).workers| == workers
    decreases |acts|
  {
    if acts != [] {
      var front := acts[..|acts| - 1];
      ClaimsAreExclusive(t, workers, front, batch);
      StepLocks(After(Start(t, workers), front), acts[|acts| - 1], batch);
    }
  }

  // ---- The drain loop -------------------------------------------------------------------------

  predicate PublishedIn(t: Tables, id: Uuid) { id in t.deliveries && t.deliveries[id].publishedAt.Some? }

  predicate HeldBy(r: Race, w: nat, id: Uuid) { w < |r.workers| && r.workers[w].Holding? && id in r.workers[w].claimed }

  predicate LockedIn(r: Race, w: nat, id: Uuid) { w < |r.workers| && r.workers[w].Locking? && id in r.workers[w].rows }

  predicate Owned(r: Race, id: Uuid) { exists w :: 0 <= w < |r.workers| && (HeldBy(r, w, id) || LockedIn(r, w, id)) }

  /** Free to be claimed by any transaction that starts at `since` or later. */
  predicate Free(t: Tables, id: Uuid, since: int) {
    id in t.deliveries && id in t.messages && RowEligible(t.deliveries[id], since)
  }

  predicate AnyStopped(r: Race) {
    exists w :: 0 <= w < |r.workers| && (r.workers[w].Done? || (r.workers[w].Locking? && r.workers[w].rows == {}))
  }

  /** The drain schedules no rollback, and no claim starts before the drain does. */
  predicate DrainAct(a: Act, since: int) { !a.Abort? && (a.Begin? ==> a.now >= since) }

  /** An initially eligible row is free, claimed or published; it is not free once a worker has found nothing. */
  ghost predicate RowAccounted(r: Race, id: Uuid, since: int) {
    && (Free(r.t, id, since) || Owned(r, id) || PublishedIn(r.t, id))
    && (AnyStopped(r) ==> Owned(r, id) || PublishedIn(r.t, id))
    && (r.marked[id] == if PublishedIn(r.t, id) then 1 else 0)
    && (forall w | HeldBy(r, w, id) || LockedIn(r, w, id) :: id in r.t.deliveries && id in r.t.messages)
  }

  lemma OwnedPersists(r: Race, a: Act, batch: nat, id: Uuid)
    requires LocksFrozen(r) && Possible(r, a, batch) && !a.Abort? && Owned(r, id)
    ensures Owned(Next(r, a), id) || PublishedIn(Next(r, a).t, id)
  {
    var w :| 0 <= w < |r.workers| && (HeldBy(r, w, id) || LockedIn(r, w, id));
    var n := Next(r, a);
    if w == a.w {
      if a.Commit? { assert HeldBy(n, w, id); }
    } else {
      assert HeldBy(n, w, id) || LockedIn(n, w, id);
    }
  }

  lemma PublishedPersists(r: Race, a: Act, batch: nat, id: Uuid)
    requires LocksFrozen(r) && Possible(r, a, batch) && PublishedIn(r.t, id)
    ensures PublishedIn(Next(r, a).t, id) && Next(r, a).marked[id] == r.marked[id]
  {
  }

  lemma FreeMoves(r: Race, a: Act, batch: nat, id: Uuid, since: int)
    requires LocksFrozen(r) && Possible(r, a, batch) && DrainAct(a, since) && Free(r.t, id, since) && !Owned(r, id)
    ensures Free(Next(r, a).t, id, since) && Next(r, a).marked[id] == r.marked[id]
    ensures a.Begin? && a.chosen == {} && batch >= 1 ==> false
  {
    if a.Commit? { assert !LockedIn(r, a.w, id); }
    if a.MarkAll? { assert !HeldBy(r, a.w, id); }
    if a.Begin? {
      forall w | 0 <= w < |r.workers| ensures !(r.workers[w].Locking? && id in r.workers[w].rows) { assert !LockedIn(r, w, id); }
      assert id in EligibleIds(r.t, a.now, LockedBy(r.workers));
    }
  }

  lemma StepAccounts(r: Race, a: Act, batch: nat, id: Uuid, since: int)
    requires batch >= 1 && LocksFrozen(r) && Possible(r, a, batch) && DrainAct(a, since) && RowAccounted(r, id, since)
    ensures RowAccounted(Next(r, a), id, since)
  {
    var n := Next(r, a);
    if PublishedIn(r.t, id) {
      PublishedPersists(r, a, batch, id);
    } else if Owned(r, id) {
      OwnedPersists(r, a, batch, id);
      MarkCounts(r, a, batch, id);
    } else {
      FreeMoves(r, a, batch, id, since);
      if AnyStopped(n) { StoppedBefore(r, a); }
    }
    RowsStay(r, a, batch, id);
  }

  lemma MarkCounts(r: Race, a: Act, batch: nat, id: Uuid)
    requires Possible(r, a, batch) && !PublishedIn(r.t, id) && r.marked[id] == 0
    ensures Next(r, a).marked[id] == if PublishedIn(Next(r, a).t, id) then 1 else 0
  {
  }

  lemma StoppedBefore(r: Race, a: Act)
    requires a.w < |r.workers| && !AnyStopped(r) && !a.Abort?
    requires AnyStopped(Next(r, a))
    ensures a.Begin? && a.chosen == {}
  {
    var n := Next(r, a);
    assert forall v | 0 <= v < |n.workers| && v != a.w :: n.workers[v] == r.workers[v];
    var w :| 0 <= w < |n.workers| && (n.workers[w].Done? || (n.workers[w].Locking? && n.workers[w].rows == {}));
  }

  lemma RowsStay(r: Race, a: Act, batch: nat, id: Uuid)
    requires LocksFrozen(r) && Possible(r, a, batch)
    requires forall w | HeldBy(r, w, id) || LockedIn(r, w, id) :: id in r.t.deliveries && id in r.t.messages
    ensures var n := Next(r, a);
      forall w | HeldBy(n, w, id) || LockedIn(n, w, id) :: id in n.t.deliveries && id in n.t.messages
  {
    var n := Next(r, a);
    forall w | HeldBy(n, w, id) || LockedIn(n, w, id) ensures id in n.t.deliveries && id in n.t.messages {
      if w != a.w || a.Commit? { assert HeldBy(r, w, id) || LockedIn(r, w, id); }
    }
  }

  ghost predicate IsDrain(r: Race, acts: seq<Act>, batch: nat, since: int) {
    IsRace(r, acts, batch) && forall i | 0 <= i < |acts| :: DrainAct(acts[i], since)
  }

  lemma {:induction false} DrainAccounts(t: Tables, workers: nat, acts: seq<Act>, batch: nat, id: Uuid, since: int)
    requires batch >= 1 && IsDrain(Start(t, workers), acts, batch, since) && Free(t, id, since)
    ensures RowAccounted(After(Start(t, workers), acts), id, since)
    decreases |acts|
  {
    hide RowAccounted, Next, Possible, LocksFrozen;
    if acts == [] {
      StartAccounts(t, workers, id, since);
    } else {
      var front := acts[..|acts| - 1];
      DrainAccounts(t, workers, front, batch, id, since);
      ClaimsAreExclusive(t, workers, front, batch);
      PossibleWorker(After(Start(t, workers), front), acts[|acts| - 1], batch);
      StepAccounts(After(Start(t, workers), front), acts[|acts| - 1], batch, id, since);
    }
  }

  lemma PossibleWorker(r: Race, a: Act, batch: nat)
    requires Possible(r, a, batch)
    ensures a.w < |r.workers|
  {
  }

  lemma StartAccounts(t: Tables, workers: nat, id: Uuid, since: int)
    requires Free(t, id, since)
    ensures RowAccounted(Start(t, workers), id, since)
  {
  }

  /** Once every worker has stopped, every row eligible at the start is published, by exactly one marker. */
  lemma DrainPublishesEachRowOnce(t: Tables, workers: nat, acts: seq<Act>, batch: nat, id: Uuid, since: int)
    requires batch >= 1 && workers >= 1 && IsDrain(Start(t, workers), acts, batch, since) && Free(t, id, since)
    requires forall w | 0 <= w < |After(Start(t, workers), acts).workers| :: After(Start(t, workers), acts).workers[w].Done?
    ensures PublishedIn(After(Start(t, workers), acts).t, id) && After(Start(t, workers), acts).marked[id] == 1
  {
    hide IsDrain, After, Next, Start;
    var r := After(Start(t, workers), acts);
    DrainAccounts(t, workers, acts, batch, id, since);
    assert |r.workers| == workers by { DrainIsRace(t, workers, acts, batch, since); ClaimsAreExclusive(t, workers, acts, batch); }
    assert r.workers[0].Done?;
    assert AnyStopped(r);
  }

  lemma DrainIsRace(t: Tables, workers: nat, acts: seq<Act>, batch: nat, since: int)
    requires IsDrain(Start(t, workers), acts, batch, since)
    ensures IsRace(Start(t, workers), acts, batch)
  {
  }

  // ---- Termination ----------------------------------------------------------------------------

  function UnpublishedIds(t: Tables): set<Uuid> { set id | id in t.deliveries && t.deliveries[id].publishedAt.None? }

  function StepsLeft(p: Phase): nat {
    match p case Idle => 3 case Locking(_, _, _) => 2 case Holding(_, _) => 1 case Done => 0
  }

  function AllStepsLeft(workers: seq<Phase>): nat {
    if workers == [] then 0 else StepsLeft(workers[0]) + AllStepsLeft(workers[1..])
  }

  /** Each row still to be published pays for one more round of some worker. */
  function Remaining(r: Race): nat { 3 * |UnpublishedIds(r.t)| + AllStepsLeft(r.workers) }

  predicate HoldsSomething(r: Race) {
    forall w | 0 <= w < |r.workers| && r.workers[w].Holding? :: r.workers[w].claimed != {}
  }

  lemma {:induction false} UpdateSteps(workers: seq<Phase>, w: nat, p: Phase)
    requires w < |workers|
    ensures AllStepsLeft(workers[w := p]) == AllStepsLeft(workers) - StepsLeft(workers[w]) + StepsLeft(p)
  {
    if w == 0 {
      assert workers[w := p][1..] == workers[1..];
    } else {
      assert workers[w := p][1..] == workers[1..][w - 1 := p];
      UpdateSteps(workers[1..], w - 1, p);
    }
  }

  lemma MarkingPublishes(t: Tables, rows: set<Uuid>, now: int)
    requires rows != {} && rows <= UnpublishedIds(t)
    ensures |UnpublishedIds(MarkEach(t, rows, now))| < |UnpublishedIds(t)|
  {
    assert UnpublishedIds(MarkEach(t, rows, now)) == UnpublishedIds(t) - rows;
    SubsetSize(rows, UnpublishedIds(t));
    var row :| row in rows;
    SubsetSize({row}, rows);
  }

  lemma StepShrinks(r: Race, a: Act, batch: nat)
    requires Possible(r, a, batch) && !a.Abort? && HoldsSomething(r)
    ensures Remaining(Next(r, a)) < Remaining(r) && HoldsSomething(Next(r, a))
  {
    hide ClaimSelects;
    var n := Next(r, a);
    UpdateSteps(r.workers, a.w, n.workers[a.w]);
    if a.MarkAll? {
      var rows := r.workers[a.w].claimed;
      assert rows <= UnpublishedIds(r.t);
      MarkingPublishes(r.t, rows, a.now);
    } else {
      assert UnpublishedIds(n.t) == UnpublishedIds(r.t);
    }
  }

  lemma {:induction false} FreshSteps(workers: nat)
    ensures AllStepsLeft(seq(workers, _ => Idle)) == 3 * workers
  {
    if workers > 0 {
      assert seq(workers, _ => Idle)[1..] == seq(workers - 1, _ => Idle);
      FreshSteps(workers - 1);
    }
  }

  /** A drain in which every mark succeeds stops: its length is bounded by the rows and the workers. */
  lemma {:induction false} DrainTerminates(t: Tables, workers: nat, acts: seq<Act>, batch: nat, since: int)
    requires IsDrain(Start(t, workers), acts, batch, since)
    ensures |acts| + Remaining(After(Start(t, workers), acts)) <= 3 * (|UnpublishedIds(t)| + workers)
    ensures |acts| <= 3 * (|UnpublishedIds(t)| + workers)
    ensures HoldsSomething(After(Start(t, workers), acts))
    decreases |acts|
  {
    hide Next, Possible, Remaining, HoldsSomething;
    if acts == [] {
      StartRemaining(t, workers);
    } else {
      var front := acts[..|acts| - 1];
      DrainTerminates(t, workers, front, batch, since);
      PossibleWorker(After(Start(t, workers), front), acts[|acts| - 1], batch);
      StepShrinks(After(Start(t, workers), front), acts[|acts| - 1], batch);
    }
  }

  lemma StartRemaining(t: Tables, workers: nat)
    ensures Remaining(Start(t, workers)) == 3 * (|UnpublishedIds(t)| + workers) && HoldsSomething(Start(t, workers))
  {
    FreshSteps(workers);
  }

  /** Until every worker has stopped some act is possible, as long as the leases in hand are live. */
  lemma DrainCanContinue(r: Race, batch: nat, now: int, lease: Uuid, publisher: Uuid, w: nat)
    requires w < |r.workers| && !r.workers[w].Done?
    requires r.workers[w].Holding? ==> Possible(r, MarkAll(w, now), batch)
    ensures exists a :: Possible(r, a, batch) && a.w == w && !a.Abort?
  {
    match r.workers[w]
    case Idle =>
      SelectionExists(ClaimKeys(r.t), EligibleIds(r.t, now, LockedBy(r.workers)), batch);
      var chosen :| FirstOf(ClaimKeys(r.t), EligibleIds(r.t, now, LockedBy(r.workers)), batch, chosen);
      assert Possible(r, Begin(w, now, lease, publisher, chosen), batch);
    case Locking(_, _, _) =>
      assert Possible(r, Commit(w, publisher, 1), batch);
    case Holding(_, _) =>
  }

  lemma {:induction false} SelectionExists(keys: map<Uuid, ClaimKey>, candidates: set<Uuid>, batch: nat)
    requires candidates <= keys.Keys && forall id | id in keys :: keys[id].id == id
    ensures exists chosen :: FirstOf(keys, candidates, batch, chosen)
    decreases batch
  {
    if batch == 0 || candidates == {} {
      assert FirstOf(keys, candidates, batch, {});
    } else {
      SelectionExists(keys, candidates, batch - 1);
      var chosen :| FirstOf(keys, candidates, batch - 1, chosen);
      if candidates - chosen == {} {
        assert chosen == candidates;
        assert FirstOf(keys, candidates, batch, chosen);
      } else {
        var first := Earliest(keys, candidates - chosen);
        ExtendSelection(keys, candidates, batch, chosen, first);
      }
    }
  }

  ghost function Earliest(keys: map<Uuid, ClaimKey>, rows: set<Uuid>): (best: Uuid)
    requires rows != {} && rows <= keys.Keys && forall id | id in keys :: keys[id].id == id
    ensures best in rows && forall other | other in rows && other != best :: Before(keys[best], keys[other])
  {
    var one :| one in rows;
    if rows == {one} then one
    else
      assert rows - {one} != {};
      var rest := Earliest(keys, rows - {one});
      if Before(keys[one], keys[rest]) then one else rest
  }

  lemma ExtendSelection(keys: map<Uuid, ClaimKey>, candidates: set<Uuid>, batch: nat, chosen: set<Uuid>, first: Uuid)
    requires batch >= 1 && candidates <= keys.Keys && FirstOf(keys, candidates, batch - 1, chosen)
    requires first in candidates - chosen
    requires forall other | other in candidates - chosen && other != first :: Before(keys[first], keys[other])
    ensures FirstOf(keys, candidates, batch, chosen + {first})
  {
    SubsetSize(chosen + {first}, candidates);
  }
}
