/**
 * What commits over a whole run, told from the rows of its states alone: every row by exactly one step,
 * every command's receipt together with its one reply, and every tenant row of a Cell while the tenant was
 * serving exactly the epoch of the row.
 */
module Effects {
  import opened Foundation
  import opened MessageDomain
  import opened OutboxStore
  import opened AuthorityDatabase
  import opened Routing
  import opened Delivery
  import opened Protocol
  import opened NoLoss

  // ---- Rows -----------------------------------------------------------------------------------

  /** The committed facts of an authority: what it will send, what it wrote, what it received. */
  datatype Row =
    | OutboxRow(at: MessageAuthority, id: Uuid)
    | CanaryRow(at: MessageAuthority, canary: CanaryKey)
    | InboxRow(at: MessageAuthority, key: ReceiptKey)

  predicate HasRow(s: State, r: Row) {
    && r.at in s.dbs
    && match r
       case OutboxRow(at, id) => id in s.dbs[at].tables.messages
       case CanaryRow(at, canary) => canary in s.dbs[at].canaries
       case InboxRow(at, key) => key in s.dbs[at].tables.receipts
  }

  predicate NewRow(s: State, t: State, r: Row) { !HasRow(s, r) && HasRow(t, r) }

  predicate Keyed(s: State) { forall at | at in s.dbs :: s.dbs[at].authority == at }

  /** The tenant is served at exactly this epoch. */
  predicate Serves(s: State, at: MessageAuthority, tenant: Uuid, epoch: nat) {
    at in s.dbs && tenant in s.dbs[at].tenants && s.dbs[at].tenants[tenant] == TenantRow(epoch, true)
  }

  predicate ScopeIs(scope: MessageScope, tenant: Uuid, epoch: nat) {
    scope.TenantScope? && scope.tenantId == tenant && scope.assignmentEpoch == epoch
  }

  /**
   * The tenant and the epoch that a row was written under: those of the stored message, of the received
   * command or event, or of the canary's writer, whose message is stored beside it under the same scope.
   */
  predicate RowScope(codec: Codec, a: Action, s: State, r: Row, tenant: Uuid, epoch: nat)
    requires HasRow(s, r)
  {
    match r
    case OutboxRow(at, id) => ScopeIs(s.dbs[at].tables.messages[id].message.metadata.scope, tenant, epoch)
    case CanaryRow(at, canary) => WritesCanary(a, s, at, canary) && ScopeIs(a.scope, tenant, epoch)
    case InboxRow(at, key) =>
      var m := codec.parse(s.dbs[at].tables.receipts[key].envelope);
      m.Some? && ScopeIs(m.value.scope, tenant, epoch)
  }

  /** The action writes this canary, and its message is stored with the scope of the write. */
  predicate WritesCanary(a: Action, s: State, at: MessageAuthority, canary: CanaryKey) {
    && a.WriteCanary? && a.at == at && a.scope.TenantScope? && canary == CanaryKey(a.scope.tenantId, a.canaryId)
    && HasRow(s, OutboxRow(at, a.message.Id())) && s.dbs[at].tables.messages[a.message.Id()].message == a.message
    && a.message.metadata.scope == a.scope && canary in s.dbs[at].canaries
    && s.dbs[at].canaries[canary] == a.payload
  }

  /** A Cell's row that belongs to a tenant: every canary and every receipt, and each tenant-scoped message. */
  predicate IsTenantRow(s: State, r: Row) {
    && r.at.Cell? && HasRow(s, r)
    && (r.OutboxRow? ==> s.dbs[r.at].tables.messages[r.id].message.metadata.scope.TenantScope?)
  }

  /** The reply to the command of a receipt: the reply metadata of that authority, and its encoding. */
  predicate Answers(codec: Codec, s: State, at: MessageAuthority, key: ReceiptKey, reply: Uuid) {
    && HasRow(s, InboxRow(at, key)) && HasRow(s, OutboxRow(at, reply))
    && var command := codec.parse(s.dbs[at].tables.receipts[key].envelope);
    && var stored := s.dbs[at].tables.messages[reply].message;
    && command.Some? && command.value.messageId == key.messageId
    && stored.metadata == ReplyMetadata(at, command.value, reply, stored.metadata.emittedAt)
    && codec.replyBytes(stored.metadata, s.dbs[at].tables.receipts[key].envelope) == Some(stored.bytes)
  }

  // ---- One step -------------------------------------------------------------------------------

  /** A tenant row that this step adds was admitted under the tenant and epoch it carries. */
  ghost predicate Admitted(codec: Codec, a: Action, s: State, t: State, r: Row) {
    NewRow(s, t, r) && IsTenantRow(t, r) ==>
      exists tenant, epoch :: RowScope(codec, a, t, r, tenant, epoch) && Serves(s, r.at, tenant, epoch)
  }

  /** Which action adds which row. */
  predicate AddedBy(a: Action, r: Row) {
    match r
    case OutboxRow(at, id) =>
      || (a.Enqueue? && a.at == at && a.message.Id() == id)
      || (a.WriteCanary? && a.at == at && a.message.Id() == id)
      || (a.Deliver? && a.newId == id)
    case CanaryRow(at, canary) =>
      a.WriteCanary? && a.at == at && a.scope.TenantScope? && canary == CanaryKey(a.scope.tenantId, a.canaryId)
    case InboxRow(_, _) => a.Deliver?
  }

  /** A delivery adds a receipt with its reply, an event's receipt alone, or nothing at all. */
  ghost predicate DeliversTogether(codec: Codec, s: State, t: State) {
    && (forall at, key | NewRow(s, t, InboxRow(at, key)) :: OneReceipt(codec, s, t, at, key))
    && (forall at, id | NewRow(s, t, OutboxRow(at, id)) ::
      exists key :: NewRow(s, t, InboxRow(at, key)) && key.consumer == HandlerName(at, Commands) && Answers(codec, t, at, key, id))
  }

  /** This receipt is the only new one; the command handler adds its one reply, the event handler nothing. */
  ghost predicate OneReceipt(codec: Codec, s: State, t: State, at: MessageAuthority, key: ReceiptKey) {
    && (forall other, k | NewRow(s, t, InboxRow(other, k)) :: other == at && k == key)
    && (key.consumer == HandlerName(at, Commands) || key.consumer == HandlerName(at, Events))
    && (key.consumer == HandlerName(at, Commands) ==> exists reply :: OneReply(codec, s, t, at, key, reply))
    && (key.consumer == HandlerName(at, Events) ==> forall r: Row | r.OutboxRow? :: !NewRow(s, t, r))
  }

  /** Of all authorities' outbox rows exactly this one is new, and it answers the command. */
  ghost predicate OneReply(codec: Codec, s: State, t: State, at: MessageAuthority, key: ReceiptKey, reply: Uuid) {
    Answers(codec, t, at, key, reply) && forall r: Row | r.OutboxRow? :: NewRow(s, t, r) <==> r == OutboxRow(at, reply)
  }

  lemma GateServes(db: Db, scope: MessageScope, s: State)
    requires db.authority in s.dbs && s.dbs[db.authority] == db && db.authority.Cell? && scope.TenantScope?
    requires TenantFence(db.authority, db.tenants, scope).None?
    ensures Serves(s, db.authority, scope.tenantId, scope.assignmentEpoch)
  {
  }

  lemma EnqueueRows(codec: Codec, s: State, a: Action, r: Row)
    requires Keyed(s) && a.Enqueue? && NewRow(s, DoEnqueue(s, a), r)
    ensures AddedBy(a, r) && Admitted(codec, a, s, DoEnqueue(s, a), r)
  {
    hide EncodedMessage.Valid, OutboundFence, TenantFence;
    var (t, scope) := (DoEnqueue(s, a), a.message.metadata.scope);
    if IsTenantRow(t, r) {
      GateServes(s.dbs[a.at], scope, s);
      assert RowScope(codec, a, t, r, scope.tenantId, scope.assignmentEpoch);
    }
  }

  lemma WriteCanaryRows(codec: Codec, s: State, a: Action, r: Row)
    requires Keyed(s) && a.WriteCanary? && NewRow(s, DoWriteCanary(s, a), r)
    ensures AddedBy(a, r) && Admitted(codec, a, s, DoWriteCanary(s, a), r)
  {
    hide EncodedMessage.Valid, OutboundFence, TenantFence;
    var t := DoWriteCanary(s, a);
    GateServes(s.dbs[a.at], a.scope, s);
    assert RowScope(codec, a, t, r, a.scope.tenantId, a.scope.assignmentEpoch);
  }

  lemma DeliverRows(codec: Codec, s: State, a: Action, r: Row)
    requires Keyed(s) && a.Deliver? && NewRow(s, DoDeliver(codec, s, a), r)
    ensures AddedBy(a, r) && Admitted(codec, a, s, DoDeliver(codec, s, a), r)
  {
    hide ProcessDelivery, DeriveSubject, RouteOf, EnqueueResult, OutboundFence, MessageMetadata.BrokenRule;
    var (t, item) := (DoDeliver(codec, s, a), s.broker[a.sequence]);
    DeliveryEffect(codec, s.dbs[item.destination], item, a.newId, a.emittedAt, a.now);
    var inbound := codec.parse(item.bytes).value;
    if IsTenantRow(t, r) {
      ActiveServes(s, item.destination, inbound.scope);
      assert RowScope(codec, a, t, r, inbound.scope.tenantId, inbound.scope.assignmentEpoch);
    }
  }

  lemma ActiveServes(s: State, at: MessageAuthority, scope: MessageScope)
    requires at in s.dbs && scope.TenantScope? && TenantStatus(s.dbs[at].tenants, scope.tenantId, scope.assignmentEpoch).None?
    ensures Serves(s, at, scope.tenantId, scope.assignmentEpoch)
  {
  }

  lemma DeliverCommitsTogether(codec: Codec, s: State, a: Action)
    requires Keyed(s) && a.Deliver?
    ensures DeliversTogether(codec, s, DoDeliver(codec, s, a))
  {
    hide ProcessDelivery, DeriveSubject, RouteOf, EnqueueResult, OutboundFence, MessageMetadata.BrokenRule, HandlerName;
    var t := DoDeliver(codec, s, a);
    if DeliverEnabled(s, a) {
      var item := s.broker[a.sequence];
      var (at, db) := (item.destination, s.dbs[item.destination]);
      var d := ProcessDelivery(codec, db, item, a.newId, a.emittedAt, a.now);
      if d.Committed? {
        DeliveryEffect(codec, db, item, a.newId, a.emittedAt, a.now);
        HandlersDiffer(at);
        if d.outcome.FirstReceipt? {
          var key := ReceiptKeyOf(at, item);
          if item.stream.Commands? {
            NewReplyStored(db.tables, d.derived.value, a.now);
            assert OneReply(codec, s, t, at, key, a.newId);
          }
          assert OneReceipt(codec, s, t, at, key);
        }
      }
    }
  }

  lemma NewReplyStored(t: Tables, message: EncodedMessage, now: int)
    requires EnqueueResult(t, message).Success? && message.Id() !in t.messages
    ensures EnqueueTables(t, message, now).messages.Keys == t.messages.Keys + {message.Id()}
    ensures EnqueueTables(t, message, now).messages[message.Id()].message == message
  {
  }

  lemma HandlersDiffer(at: MessageAuthority)
    ensures HandlerName(at, Commands) != HandlerName(at, Events)
  {
    if at.Cell? { assert HandlerName(at, Commands)[15] == 'c' && HandlerName(at, Events)[15] == 'p'; }
    else { assert HandlerName(at, Commands)[19] == 'p' && HandlerName(at, Events)[19] == 'c'; }
  }

  /** The other actions add no row anywhere. */
  lemma OtherStepsAddNothing(codec: Codec, s: State, a: Action, r: Row)
    requires !a.Enqueue? && !a.WriteCanary? && !a.Deliver?
    ensures !NewRow(s, Step(codec, s, a), r)
  {
    hide DoPublish, ClaimSelects, LeaseRows, HoldsLease, WithoutLease, ClaimedRow, CheckedAdvance;
    if a.Publish? { PublishAddsNothing(s, a, r); }
  }

  lemma PublishAddsNothing(s: State, a: Action, r: Row)
    requires a.Publish?
    ensures !NewRow(s, DoPublish(s, a), r)
  {
    hide DeriveSubject, RouteOf, Publishable, ItemOf;
  }

  /** Every row that a step adds is of its action's making and, in a Cell, within its tenant's fence. */
  lemma StepRows(codec: Codec, s: State, a: Action, r: Row)
    requires Keyed(s) && NewRow(s, Step(codec, s, a), r)
    ensures AddedBy(a, r) && Admitted(codec, a, s, Step(codec, s, a), r)
    ensures a.Deliver? ==> DeliversTogether(codec, s, Step(codec, s, a))
  {
    hide DoEnqueue, DoWriteCanary, DoClaim, DoPublish, DoMark, DoReschedule, DoDeliver, DoAck, DoTenant, NewRow,
      AddedBy, Admitted, Keyed;
    match a
    case Enqueue(_, _, _, _) => EnqueueRows(codec, s, a, r);
    case WriteCanary(_, _, _, _, _, _, _) => WriteCanaryRows(codec, s, a, r);
    case Deliver(_, _, _, _, _) =>
      DeliverRows(codec, s, a, r);
      DeliverCommitsTogether(codec, s, a);
    case _ => OtherStepsAddNothing(codec, s, a, r);
  }

  // ---- Runs -----------------------------------------------------------------------------------

  /** The state before step `n`. */
  function StateAt(codec: Codec, cells: set<string>, actions: seq<Action>, n: nat): State
    requires n <= |actions|
  { Run(codec, Initial(cells), actions[..n]) }

  /** Step `n` commits the row. */
  predicate Commits(codec: Codec, cells: set<string>, actions: seq<Action>, n: nat, r: Row) {
    n < |actions| && NewRow(StateAt(codec, cells, actions, n), StateAt(codec, cells, actions, n + 1), r)
  }

  /** Step `n` commits the row, and no other step does. */
  ghost predicate CommitsOnly(codec: Codec, cells: set<string>, actions: seq<Action>, n: nat, r: Row) {
    Commits(codec, cells, actions, n, r) && forall m | Commits(codec, cells, actions, m, r) :: m == n
  }

  lemma NextState(codec: Codec, cells: set<string>, actions: seq<Action>, n: nat)
    requires n < |actions|
    ensures StateAt(codec, cells, actions, n + 1) == Step(codec, StateAt(codec, cells, actions, n), actions[n])
  {
    hide Step;
    assert actions[..n + 1][..n] == actions[..n];
  }

  lemma {:induction false} StatesGrow(codec: Codec, cells: set<string>, actions: seq<Action>, i: nat, j: nat)
    requires i <= j <= |actions|
    ensures Grows(StateAt(codec, cells, actions, i), StateAt(codec, cells, actions, j))
    ensures Keyed(StateAt(codec, cells, actions, j))
    ensures TenantsAdvance(StateAt(codec, cells, actions, i), StateAt(codec, cells, actions, j))
    decreases j
  {
    hide Step, Run;
    if j == 0 {
      InitialIsEmpty(codec, cells, actions);
    } else {
      StatesGrow(codec, cells, actions, if i < j then i else j - 1, j - 1);
      NextState(codec, cells, actions, j - 1);
      StepGrows(codec, StateAt(codec, cells, actions, j - 1), actions[j - 1]);
      StepTenants(codec, StateAt(codec, cells, actions, j - 1), actions[j - 1]);
    }
  }

  lemma InitialIsEmpty(codec: Codec, cells: set<string>, actions: seq<Action>)
    ensures StateAt(codec, cells, actions, 0) == Initial(cells) && Keyed(Initial(cells))
    ensures forall r: Row :: !HasRow(Initial(cells), r)
  {
  }

  lemma RowsPersist(codec: Codec, cells: set<string>, actions: seq<Action>, i: nat, j: nat, r: Row)
    requires i <= j <= |actions| && HasRow(StateAt(codec, cells, actions, i), r)
    ensures HasRow(StateAt(codec, cells, actions, j), r)
  {
    hide StateAt;
    StatesGrow(codec, cells, actions, i, j);
  }

  lemma {:induction false} RowHasStep(codec: Codec, cells: set<string>, actions: seq<Action>, j: nat, r: Row)
    requires j <= |actions| && HasRow(StateAt(codec, cells, actions, j), r)
    ensures exists n: nat :: Commits(codec, cells, actions, n, r)
  {
    hide StateAt, HasRow;
    if j == 0 {
      InitialIsEmpty(codec, cells, actions);
    } else if HasRow(StateAt(codec, cells, actions, j - 1), r) {
      RowHasStep(codec, cells, actions, j - 1, r);
    } else {
      assert Commits(codec, cells, actions, j - 1, r);
    }
  }

  lemma CommitsOnce(codec: Codec, cells: set<string>, actions: seq<Action>, m: nat, n: nat, r: Row)
    requires Commits(codec, cells, actions, m, r) && Commits(codec, cells, actions, n, r)
    ensures m == n
  {
    hide StateAt, HasRow;
    if m < n { RowsPersist(codec, cells, actions, m + 1, n, r); }
    if n < m { RowsPersist(codec, cells, actions, n + 1, m, r); }
  }

  /** Every row of every run was committed by exactly one of its steps, by an action that adds such a row. */
  lemma RunRecorded(codec: Codec, cells: set<string>, actions: seq<Action>, r: Row)
    requires HasRow(StateAt(codec, cells, actions, |actions|), r)
    ensures exists n: nat :: CommitsOnly(codec, cells, actions, n, r) && AddedBy(actions[n], r)
  {
    hide StateAt, HasRow, AddedBy;
    RowHasStep(codec, cells, actions, |actions|, r);
    var n: nat :| Commits(codec, cells, actions, n, r);
    CommitRows(codec, cells, actions, n, r);
    forall m | Commits(codec, cells, actions, m, r) ensures m == n { CommitsOnce(codec, cells, actions, m, n, r); }
  }

  lemma CommitRows(codec: Codec, cells: set<string>, actions: seq<Action>, n: nat, r: Row)
    requires Commits(codec, cells, actions, n, r)
    ensures AddedBy(actions[n], r)
    ensures var (s, t) := (StateAt(codec, cells, actions, n), StateAt(codec, cells, actions, n + 1));
      Admitted(codec, actions[n], s, t, r) && (actions[n].Deliver? ==> DeliversTogether(codec, s, t))
  {
    hide StateAt, NewRow, AddedBy, Admitted, DeliversTogether, Step;
    StatesGrow(codec, cells, actions, n, n);
    NextState(codec, cells, actions, n);
    StepRows(codec, StateAt(codec, cells, actions, n), actions[n], r);
  }

  // ---- Epochs ---------------------------------------------------------------------------------

  /** Tenants are never removed from a Cell and their epochs never go back. */
  predicate TenantsAdvance(s: State, t: State) {
    forall at, tenant | at in s.dbs && tenant in s.dbs[at].tenants ::
      at in t.dbs && tenant in t.dbs[at].tenants && s.dbs[at].tenants[tenant].epoch <= t.dbs[at].tenants[tenant].epoch
  }

  lemma StepTenants(codec: Codec, s: State, a: Action)
    ensures TenantsAdvance(s, Step(codec, s, a))
  {
    hide DoEnqueue, DoWriteCanary, DoClaim, DoPublish, DoMark, DoReschedule, DoDeliver, DoTenant;
    if a.AssignTenant? || a.AdvanceEpoch? || a.SetServing? {
      TenantStepAdvances(s, a);
    } else if a.Deliver? {
      DeliverKeepsTenants(codec, s, a);
    } else if a.Publish? {
      PublishKeepsTenants(s, a);
    } else {
      StoreStepKeepsTenants(s, a);
    }
  }

  predicate SameTenants(s: State, t: State) {
    forall at | at in s.dbs :: at in t.dbs && t.dbs[at].tenants == s.dbs[at].tenants
  }

  lemma TenantStepAdvances(s: State, a: Action)
    requires a.AssignTenant? || a.AdvanceEpoch? || a.SetServing?
    ensures TenantsAdvance(s, DoTenant(s, a))
  {
  }

  lemma PublishKeepsTenants(s: State, a: Action)
    requires a.Publish?
    ensures SameTenants(s, DoPublish(s, a))
  {
    hide DeriveSubject, RouteOf, AuthorizedToPublish, ItemOf;
  }

  lemma StoreStepKeepsTenants(s: State, a: Action)
    ensures a.Enqueue? ==> SameTenants(s, DoEnqueue(s, a))
    ensures a.WriteCanary? ==> SameTenants(s, DoWriteCanary(s, a))
    ensures a.Claim? ==> SameTenants(s, DoClaim(s, a))
    ensures a.Mark? ==> SameTenants(s, DoMark(s, a))
    ensures a.Reschedule? ==> SameTenants(s, DoReschedule(s, a))
  {
    hide ClaimSelects, EncodedMessage.Valid, OutboundFence, EnqueueTables, EnqueueResult, EnqueueGate, HoldsLease, TenantFence;
  }

  lemma DeliverKeepsTenants(codec: Codec, s: State, a: Action)
    requires a.Deliver?
    ensures SameTenants(s, DoDeliver(codec, s, a))
  {
    hide ProcessDelivery, EnqueueTables, EnqueueResult;
    if DeliverEnabled(s, a) {
      var item := s.broker[a.sequence];
      var db := s.dbs[item.destination];
      if ProcessDelivery(codec, db, item, a.newId, a.emittedAt, a.now).Committed? {
        DeliveryEffect(codec, db, item, a.newId, a.emittedAt, a.now);
      }
    }
  }

  /** The row was committed while its tenant was serving exactly its epoch. */
  ghost predicate CommittedUnder(codec: Codec, cells: set<string>, actions: seq<Action>, n: nat, r: Row, tenant: Uuid, epoch: nat) {
    && CommitsOnly(codec, cells, actions, n, r)
    && HasRow(StateAt(codec, cells, actions, |actions|), r)
    && RowScope(codec, actions[n], StateAt(codec, cells, actions, |actions|), r, tenant, epoch)
    && Serves(StateAt(codec, cells, actions, n), r.at, tenant, epoch)
  }

  lemma ScopeIsImmutable(codec: Codec, a: Action, s: State, t: State, r: Row, tenant: Uuid, epoch: nat)
    requires HasRow(s, r) && Grows(s, t)
    ensures HasRow(t, r) && (RowScope(codec, a, s, r, tenant, epoch) ==> RowScope(codec, a, t, r, tenant, epoch))
    ensures IsTenantRow(t, r) <==> IsTenantRow(s, r)
  {
  }

  /**
   * Every canary row, every receipt and every tenant-scoped outbox row of a Cell, whichever action wrote it,
   * was committed by exactly one step, before which the Cell served its tenant at exactly its epoch; a canary
   * row with the epoch of its writer, whose message is stored under the same scope.
   */
  lemma EpochFence(codec: Codec, cells: set<string>, actions: seq<Action>, r: Row)
    requires IsTenantRow(StateAt(codec, cells, actions, |actions|), r)
    ensures exists n: nat, tenant, epoch :: CommittedUnder(codec, cells, actions, n, r, tenant, epoch)
  {
    hide StateAt, HasRow, RowScope, Serves, IsTenantRow, Grows, DeliversTogether, AddedBy;
    TenantRowIsThere(StateAt(codec, cells, actions, |actions|), r);
    RunRecorded(codec, cells, actions, r);
    var n: nat :| CommitsOnly(codec, cells, actions, n, r) && AddedBy(actions[n], r);
    var (s, t) := (StateAt(codec, cells, actions, n), StateAt(codec, cells, actions, n + 1));
    CommitRows(codec, cells, actions, n, r);
    StatesGrow(codec, cells, actions, n + 1, |actions|);
    ScopeIsImmutable(codec, actions[n], t, StateAt(codec, cells, actions, |actions|), r, 0, 0);
    var tenant, epoch :| RowScope(codec, actions[n], t, r, tenant, epoch) && Serves(s, r.at, tenant, epoch);
    ScopeIsImmutable(codec, actions[n], t, StateAt(codec, cells, actions, |actions|), r, tenant, epoch);
    assert CommittedUnder(codec, cells, actions, n, r, tenant, epoch);
  }

  lemma TenantRowIsThere(s: State, r: Row)
    requires IsTenantRow(s, r)
    ensures HasRow(s, r)
  {
  }

  /** Per Cell and tenant, the rows of a run are committed in the order of their epochs. */
  lemma EpochsNeverGoBack(codec: Codec, cells: set<string>, actions: seq<Action>, m: nat, n: nat, earlier: Row, later: Row,
    tenant: Uuid, before: nat, after: nat)
    requires m <= n && earlier.at == later.at
    requires CommittedUnder(codec, cells, actions, m, earlier, tenant, before)
    requires CommittedUnder(codec, cells, actions, n, later, tenant, after)
    ensures before <= after
  {
    hide StateAt, HasRow, RowScope;
    StatesGrow(codec, cells, actions, m, n);
  }

  // ---- Effects once ---------------------------------------------------------------------------

  /** The reply is the one outbox row, of all authorities, that step `n` commits. */
  ghost predicate RepliesAt(codec: Codec, cells: set<string>, actions: seq<Action>, n: nat, at: MessageAuthority, key: ReceiptKey,
    reply: Uuid)
  {
    && Answers(codec, StateAt(codec, cells, actions, |actions|), at, key, reply)
    && forall r: Row | r.OutboxRow? :: Commits(codec, cells, actions, n, r) <==> r == OutboxRow(at, reply)
  }

  /** Step `n` is the whole effect of the message: its receipt, and the one reply if it is a command. */
  ghost predicate TakesEffectAt(codec: Codec, cells: set<string>, actions: seq<Action>, n: nat, at: MessageAuthority,
    key: ReceiptKey)
  {
    && CommitsOnly(codec, cells, actions, n, InboxRow(at, key)) && actions[n].Deliver?
    && (key.consumer == HandlerName(at, Commands) || key.consumer == HandlerName(at, Events))
    && (key.consumer == HandlerName(at, Commands) ==> exists reply :: RepliesAt(codec, cells, actions, n, at, key, reply))
    && (key.consumer == HandlerName(at, Events) ==> forall r: Row | r.OutboxRow? :: !Commits(codec, cells, actions, n, r))
  }

  lemma AnswersPersist(codec: Codec, s: State, t: State, at: MessageAuthority, key: ReceiptKey, reply: Uuid)
    requires Answers(codec, s, at, key, reply) && Grows(s, t)
    ensures Answers(codec, t, at, key, reply)
  {
    hide ReplyMetadata;
  }

  lemma ReplyStays(codec: Codec, cells: set<string>, actions: seq<Action>, n: nat, at: MessageAuthority,
    key: ReceiptKey, reply: Uuid)
    requires n < |actions|
    requires OneReply(codec, StateAt(codec, cells, actions, n), StateAt(codec, cells, actions, n + 1), at, key, reply)
    ensures RepliesAt(codec, cells, actions, n, at, key, reply)
  {
    hide StateAt, NewRow, Answers;
    StatesGrow(codec, cells, actions, n + 1, |actions|);
    AnswersPersist(codec, StateAt(codec, cells, actions, n + 1), StateAt(codec, cells, actions, |actions|), at, key, reply);
  }

  /**
   * However often a message is republished and redelivered, each (consumer, message id) commits exactly one
   * receipt, and a command's receipt comes with exactly one outbox row of all authorities, its reply.
   */
  lemma EffectOnce(codec: Codec, cells: set<string>, actions: seq<Action>, at: MessageAuthority, key: ReceiptKey)
    requires HasRow(StateAt(codec, cells, actions, |actions|), InboxRow(at, key))
    ensures exists n: nat :: TakesEffectAt(codec, cells, actions, n, at, key)
  {
    hide StateAt, HasRow, NewRow, Answers, HandlerName;
    var r := InboxRow(at, key);
    RunRecorded(codec, cells, actions, r);
    var n: nat :| CommitsOnly(codec, cells, actions, n, r) && AddedBy(actions[n], r);
    CommitRows(codec, cells, actions, n, r);
    var (s, t) := (StateAt(codec, cells, actions, n), StateAt(codec, cells, actions, n + 1));
    assert OneReceipt(codec, s, t, at, key);
    if key.consumer == HandlerName(at, Commands) {
      var reply :| OneReply(codec, s, t, at, key, reply);
      ReplyStays(codec, cells, actions, n, at, key, reply);
    }
    assert TakesEffectAt(codec, cells, actions, n, at, key);
  }

  /**
   * And conversely: every outbox row that a delivery ever commits is the one reply to the command whose
   * receipt that same delivery commits. Redeliveries, whatever new ids they bring, add none.
   */
  lemma RepliesHaveReceipts(codec: Codec, cells: set<string>, actions: seq<Action>, n: nat, at: MessageAuthority, reply: Uuid)
    requires Commits(codec, cells, actions, n, OutboxRow(at, reply)) && actions[n].Deliver?
    ensures exists key: ReceiptKey ::
      && key.consumer == HandlerName(at, Commands)
      && TakesEffectAt(codec, cells, actions, n, at, key) && RepliesAt(codec, cells, actions, n, at, key, reply)
  {
    hide StateAt, HasRow, NewRow, Answers, HandlerName;
    CommitRows(codec, cells, actions, n, OutboxRow(at, reply));
    var (s, t) := (StateAt(codec, cells, actions, n), StateAt(codec, cells, actions, n + 1));
    var key :| NewRow(s, t, InboxRow(at, key)) && key.consumer == HandlerName(at, Commands) && Answers(codec, t, at, key, reply);
    assert Commits(codec, cells, actions, n, InboxRow(at, key));
    forall m | Commits(codec, cells, actions, m, InboxRow(at, key)) ensures m == n {
      CommitsOnce(codec, cells, actions, m, n, InboxRow(at, key));
    }
    assert OneReceipt(codec, s, t, at, key);
    var only :| OneReply(codec, s, t, at, key, only);
    assert NewRow(s, t, OutboxRow(at, reply));
    assert only == reply;
    ReplyStays(codec, cells, actions, n, at, key, reply);
    HandlersDiffer(at);
    assert TakesEffectAt(codec, cells, actions, n, at, key);
  }
}
