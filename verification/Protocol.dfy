/**
 * The whole system as a step machine: the authority databases, the at-least-once broker and the volatile
 * state of the workers. An action whose guard fails changes nothing, so every sequence of actions is a run.
 * Crashes, timeouts and lost acknowledgments are the actions that forget volatile state or leave it unset.
 */
module Protocol {
  import opened Foundation
  import opened MessageDomain
  import opened OutboxStore
  import opened AuthorityDatabase
  import opened Routing
  import opened Delivery

  // ---- State ----------------------------------------------------------------------------------

  /** Where `publish_one` stands with one claimed message. */
  datatype Stage = Unsent | Accepted | Refused

  datatype Held = Held(owner: MessageAuthority, claim: ClaimedMessage, stage: Stage)

  /** The broker's duplicate window remembers message ids per stream, whoever published them. */
  datatype WindowKey = WindowKey(stream: TransportStream, id: Uuid)

  function WindowKeyOf(message: EncodedMessage): WindowKey {
    WindowKey(StreamForKind(message.metadata.descriptor.kind), message.Id())
  }

  /** One acceptance by the broker, stored or suppressed: the only history that is kept. */
  datatype Publication = Publication(at: MessageAuthority, id: Uuid)

  datatype State = State(
    dbs: map<MessageAuthority, Db>,
    broker: map<nat, BrokerItem>,
    nextSequence: nat,
    window: map<WindowKey, MessageAuthority>,
    held: set<Held>,
    ackable: set<nat>,
    publications: seq<Publication>)

  function EmptyDb(authority: MessageAuthority): Db { Db(authority, EMPTY_TABLES, map[], map[]) }

  function Authorities(cells: set<string>): set<MessageAuthority> {
    {Platform} + set cell | cell in cells :: Cell(cell)
  }

  function Initial(cells: set<string>): State {
    State(map at | at in Authorities(cells) :: EmptyDb(at), map[], 1, map[], {}, {}, [])
  }

  // ---- Actions --------------------------------------------------------------------------------

  /** What became of one publish call: whether the broker stored it and whether the worker learned so. */
  datatype PublishFate = Stored(acknowledged: bool) | Suppressed(acknowledged: bool) | NotStored

  datatype Action =
    | Enqueue(at: MessageAuthority, session: Session, message: EncodedMessage, now: int)
    | WriteCanary(at: MessageAuthority, session: Session, scope: MessageScope, canaryId: Uuid, payload: string,
        message: EncodedMessage, now: int)
    | Claim(at: MessageAuthority, now: int, batch: nat, locked: set<Uuid>, chosen: set<Uuid>, publisher: Uuid,
        lease: Uuid, seconds: nat, learned: bool)
    | Publish(held: Held, fate: PublishFate)
    | Mark(held: Held, now: int)
    | Reschedule(held: Held, now: int, delay: nat, failure: Option<string>)
    | Forget(held: Held)
    | Deliver(sequence: nat, newId: Uuid, emittedAt: nat, now: int, learned: bool)
    | Ack(sequence: nat)
    | LoseAck(sequence: nat)
    | AssignTenant(at: MessageAuthority, tenant: Uuid, epoch: nat, serving: bool)
    | AdvanceEpoch(at: MessageAuthority, tenant: Uuid)
    | SetServing(at: MessageAuthority, tenant: Uuid, serving: bool)

  function WithDb(s: State, at: MessageAuthority, db: Db): State { s.(dbs := s.dbs[at := db]) }

  function WithTables(s: State, at: MessageAuthority, tables: Tables): State
    requires at in s.dbs
  { WithDb(s, at, s.dbs[at].(tables := tables)) }

  function DoEnqueue(s: State, a: Action): State
    requires a.Enqueue?
  {
    if a.at !in s.dbs || !a.message.Valid() then s
    else
      var (r, db) := EnqueueOutbound(s.dbs[a.at], a.session, a.message, a.now);
      if r.Failure? then s else WithDb(s, a.at, db)
  }

  function DoWriteCanary(s: State, a: Action): State
    requires a.WriteCanary?
  {
    if a.at !in s.dbs || !s.dbs[a.at].authority.Cell? || !a.message.Valid() || !a.scope.TenantScope? then s
    else
      var (r, db) := WriteCanaryAndEnqueue(s.dbs[a.at], a.session, a.scope, a.canaryId, a.payload, a.message, a.now);
      if r.Failure? then s else WithDb(s, a.at, db)
  }

  function ClaimedRow(t: Tables, id: Uuid, lease: Uuid, until: int): ClaimedMessage
    requires id in t.messages && id in t.deliveries
  {
    ClaimedMessage(t.messages[id].message, t.deliveries[id].attemptCount, lease, until)
  }

  function DoClaim(s: State, a: Action): State
    requires a.Claim?
  {
    if a.at !in s.dbs || !ClaimSelects(s.dbs[a.at].tables, a.now, a.batch, a.locked, a.chosen) then s
    else
      var t := ClaimTables(s.dbs[a.at].tables, a.chosen, a.now, a.publisher, a.lease, a.seconds);
      var claimed := set id | id in a.chosen && id in t.messages && id in t.deliveries ::
        Held(a.at, ClaimedRow(t, id, a.lease, a.now + a.seconds * MICROS_PER_SECOND), Unsent);
      WithTables(s, a.at, t).(held := s.held + if a.learned then claimed else {})
  }

  function ItemOf(origin: MessageAuthority, message: EncodedMessage, route: Route, subject: string): BrokerItem {
    BrokerItem(origin, route.Destination(), StreamForKind(message.metadata.descriptor.kind), subject,
      message.Id(), message.bytes)
  }

  /** The worker may publish the message and its metadata has a subject. */
  predicate Publishable(self: MessageAuthority, message: EncodedMessage) {
    && AuthorizedToPublish(WorkerOf(self), message.metadata)
    && DeriveSubject(message.metadata).Some? && RouteOf(message.metadata).Some?
  }

  /** `publish_exact`, up to the stream: authority, subject, then the broker's answer. */
  function DoPublish(s: State, a: Action): State
    requires a.Publish?
  {
    var h := a.held;
    var message := h.claim.message;
    if h !in s.held || !h.stage.Unsent? then s
    else
      var subject := DeriveSubject(message.metadata);
      var route := RouteOf(message.metadata);
      // not authorized or not routable is fatal: the worker stops and drops what it holds
      if !Publishable(h.owner, message) then
        s.(held := s.held - {h})
      else
        var key := WindowKeyOf(message);
        match a.fate
        case NotStored => s.(held := s.held - {h} + {h.(stage := Refused)})
        case Stored(acknowledged) =>
          s.(broker := s.broker[s.nextSequence := ItemOf(h.owner, message, route.value, subject.value)],
             nextSequence := s.nextSequence + 1,
             window := s.window[key := h.owner],
             held := s.held - {h} + {h.(stage := if acknowledged then Accepted else Refused)},
             publications := s.publications + [Publication(h.owner, message.Id())])
        case Suppressed(acknowledged) =>
          if key !in s.window then s
          else s.(held := s.held - {h} + {h.(stage := if acknowledged then Accepted else Refused)},
                  publications := s.publications + [Publication(h.owner, message.Id())])
  }

  /** The marker runs only after acceptance; whatever its outcome, `publish_one` is done. */
  function DoMark(s: State, a: Action): State
    requires a.Mark?
  {
    var h := a.held;
    if h !in s.held || !h.stage.Accepted? || h.owner !in s.dbs then s
    else WithTables(s, h.owner, MarkTables(s.dbs[h.owner].tables, h.claim.message.Id(), h.claim.leaseId, a.now))
      .(held := s.held - {h})
  }

  function DoReschedule(s: State, a: Action): State
    requires a.Reschedule?
  {
    var h := a.held;
    if h !in s.held || !h.stage.Refused? || h.owner !in s.dbs then s
    else
      WithTables(s, h.owner,
        RescheduleTables(s.dbs[h.owner].tables, h.claim.message.Id(), h.claim.leaseId, a.now, a.delay, a.failure))
        .(held := s.held - {h})
  }

  /** Generated identities are fresh: the id a command attempt derives under is not stored at its authority. */
  predicate DeliverEnabled(s: State, a: Action)
    requires a.Deliver?
  {
    && a.sequence in s.broker && s.broker[a.sequence].destination in s.dbs
    && (s.broker[a.sequence].stream.Commands? ==>
      && IsUuidV7(a.newId) && ValidEmittedAt(a.emittedAt)
      && a.newId !in s.dbs[s.broker[a.sequence].destination].tables.messages)
  }

  /** One delivery; `learned` is false when the handler timed out or crashed after its commit. */
  function DoDeliver(codec: Codec, s: State, a: Action): State
    requires a.Deliver?
  {
    if !DeliverEnabled(s, a) then s
    else
      var item := s.broker[a.sequence];
      var at := item.destination;
      match ProcessDelivery(codec, s.dbs[at], item, a.newId, a.emittedAt, a.now)
      case Committed(_, db, _) =>
        var acked := if a.learned then s.(ackable := s.ackable + {a.sequence}) else s;
        WithDb(acked, at, db)
      case Nak(_) => s
      case Fatal => s
  }

  /** A double ack is sent only for a delivery whose handler returned, that is after its commit. */
  function DoAck(s: State, a: Action): State
    requires a.Ack?
  {
    if a.sequence !in s.ackable then s
    else s.(broker := s.broker - {a.sequence}, ackable := s.ackable - {a.sequence})
  }

  function DoTenant(s: State, a: Action): State
    requires a.AssignTenant? || a.AdvanceEpoch? || a.SetServing?
  {
    if a.at !in s.dbs || !a.at.Cell? then s
    else
      var db := s.dbs[a.at];
      match a
      case AssignTenant(_, tenant, epoch, serving) =>
        if tenant in db.tenants || !ValidEpoch(epoch) then s
        else WithDb(s, a.at, db.(tenants := db.tenants[tenant := TenantRow(epoch, serving)]))
      case AdvanceEpoch(_, tenant) =>
        if tenant !in db.tenants || !ValidEpoch(db.tenants[tenant].epoch) then s
        else
          var next := CheckedAdvance(db.tenants[tenant].epoch);
          if next.Failure? then s
          else WithDb(s, a.at, db.(tenants := db.tenants[tenant := db.tenants[tenant].(epoch := next.value)]))
      case SetServing(_, tenant, serving) =>
        if tenant !in db.tenants then s
        else WithDb(s, a.at, db.(tenants := db.tenants[tenant := db.tenants[tenant].(serving := serving)]))
      case _ => s
  }

  function Step(codec: Codec, s: State, a: Action): State {
    match a
    case Enqueue(_, _, _, _) => DoEnqueue(s, a)
    case WriteCanary(_, _, _, _, _, _, _) => DoWriteCanary(s, a)
    case Claim(_, _, _, _, _, _, _, _, _) => DoClaim(s, a)
    case Publish(_, _) => DoPublish(s, a)
    case Mark(_, _) => DoMark(s, a)
    case Reschedule(_, _, _, _) => DoReschedule(s, a)
    case Forget(h) => s.(held := s.held - {h})
    case Deliver(_, _, _, _, _) => DoDeliver(codec, s, a)
    case Ack(_) => DoAck(s, a)
    case LoseAck(n) => s.(ackable := s.ackable - {n})
    case AssignTenant(_, _, _, _) => DoTenant(s, a)
    case AdvanceEpoch(_, _) => DoTenant(s, a)
    case SetServing(_, _, _) => DoTenant(s, a)
  }

  /** The state after a sequence of actions, whatever they are. */
  function Run(codec: Codec, s: State, actions: seq<Action>): State {
    if actions == [] then s else Step(codec, Run(codec, s, actions[..|actions| - 1]), actions[|actions| - 1])
  }

  lemma {:induction false} RunConcat(codec: Codec, s: State, first: seq<Action>, second: seq<Action>)
    ensures Run(codec, s, first + second) == Run(codec, Run(codec, s, first), second)
    decreases |second|
  {
    hide Step;
    if second == [] {
      assert first + second == first;
    } else {
      var front := second[..|second| - 1];
      RunConcat(codec, s, first, front);
      assert (first + second)[..|first + second| - 1] == first + front;
    }
  }
}
