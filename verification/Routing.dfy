/** Subjects, consumer bindings and publish authority of the JetStream transport. */
module Routing {
  import opened Foundation
  import opened Grammar
  import opened MessageDomain
  import opened Text

  datatype TransportStream = Commands | Events {
    function Name(): string { if Commands? then "EDTECH_COMMANDS_V1" else "EDTECH_EVENTS_V1" }
  }

  function StreamForKind(kind: MessageKind): TransportStream { if kind.Command? then Commands else Events }

  // ---- Routes ---------------------------------------------------------------------------------

  datatype Direction = CommandToCell | CommandToPlatform | EventToCell | EventToPlatform {
    function Words(): seq<string> {
      match this
      case CommandToCell => ["command", "platform-to-cell"]
      case CommandToPlatform => ["command", "cell-to-platform"]
      case EventToCell => ["event", "platform-to-cell"]
      case EventToPlatform => ["event", "cell-to-platform"]
    }

    function Stream(): TransportStream { if CommandToCell? || CommandToPlatform? then Commands else Events }
  }

  datatype Route = Route(direction: Direction, cellId: string) {
    /** The authority whose consumer reads this route. */
    function Destination(): MessageAuthority {
      if direction.CommandToCell? || direction.EventToCell? then Cell(cellId) else Platform
    }

    /** The authority that writes this route. */
    function Origin(): MessageAuthority {
      if direction.CommandToCell? || direction.EventToCell? then Platform else Cell(cellId)
    }
  }

  /** The four supported combinations of kind, source, target and scope. */
  function RouteOf(m: MessageMetadata): Option<Route> {
    match (m.descriptor.kind, m.source, m.target, m.scope.CellOf())
    case (Command, Platform, Some(CellTarget(target)), Some(scope)) =>
      if target == scope then Some(Route(CommandToCell, target)) else None
    case (Command, Cell(source), Some(PlatformTarget), Some(scope)) =>
      if source == scope then Some(Route(CommandToPlatform, source)) else None
    case (Event, Platform, None, Some(scope)) => Some(Route(EventToCell, scope))
    case (Event, Cell(source), None, Some(scope)) =>
      if source == scope then Some(Route(EventToPlatform, source)) else None
    case _ => None
  }

  const SUBJECT_PREFIX: seq<string> := ["edtech", "v1"]
  const MAX_SUBJECT_BYTES: nat := 512

  function SubjectText(route: Route, suffix: string): string {
    Join(SUBJECT_PREFIX + route.direction.Words(), '.') + "." + route.cellId + "." + suffix
  }

  /** `validate_concrete_subject`. */
  predicate ConcreteSubject(value: string) {
    && value != "" && Utf8Length(value) <= MAX_SUBJECT_BYTES && IsAscii(value)
    && value[0] != '.' && value[|value| - 1] != '.' && !Adjacent(value, '.', '.')
    && (forall i | 0 <= i < |value| :: value[i] !in {'*', '>', ' ', '\t', '\r', '\n'})
    && "" !in Split(value, '.')
  }

  /** `TransportSubject::derive`. */
  function DeriveSubject(m: MessageMetadata): Option<string> {
    if !StartsWith(m.descriptor.name, NAME_PREFIX) then None
    else
      var route :- RouteOf(m);
      var value := SubjectText(route, m.descriptor.name[|NAME_PREFIX|..]);
      if ConcreteSubject(value) then Some(value) else None
  }

  // ---- Bindings -------------------------------------------------------------------------------

  datatype ConsumerBinding = ConsumerBinding(stream: TransportStream, durableName: string, filterSubject: string)

  function PlatformCommandBinding(): ConsumerBinding {
    ConsumerBinding(Commands, "EDTECH_PLATFORM_COMMANDS_V1", "edtech.v1.command.cell-to-platform.>")
  }

  function PlatformEventBinding(): ConsumerBinding {
    ConsumerBinding(Events, "EDTECH_PLATFORM_EVENTS_V1", "edtech.v1.event.cell-to-platform.>")
  }

  function DurableChar(c: char): char {
    if IsLower(c) then ((c as int) - 32) as char else if c == '-' then '_' else c
  }

  /** `to_ascii_uppercase().replace('-', "_")`. */
  function CellDurableToken(cellId: string): (token: string)
    ensures |token| == |cellId|
  {
    seq(|cellId|, i requires 0 <= i < |cellId| => DurableChar(cellId[i]))
  }

  function CellCommandBinding(cellId: string): ConsumerBinding {
    ConsumerBinding(Commands, "EDTECH_CELL_" + CellDurableToken(cellId) + "_COMMANDS_V1",
      "edtech.v1.command.platform-to-cell." + cellId + ".>")
  }

  function CellEventBinding(cellId: string): ConsumerBinding {
    ConsumerBinding(Events, "EDTECH_CELL_" + CellDurableToken(cellId) + "_EVENTS_V1",
      "edtech.v1.event.platform-to-cell." + cellId + ".>")
  }

  /** Subject matching over tokens: `*` is any one token and a final `>` is one or more. */
  predicate TokensMatch(filter: seq<string>, subject: seq<string>) {
    if filter == [] then subject == []
    else if filter == [">"] then subject != []
    else subject != [] && (filter[0] == "*" || filter[0] == subject[0]) && TokensMatch(filter[1..], subject[1..])
  }

  predicate Matches(filter: string, subject: string) { TokensMatch(Split(filter, '.'), Split(subject, '.')) }

  // ---- Roles ----------------------------------------------------------------------------------

  datatype TransportRole = PlatformWorker | CellWorker(workerCell: string) | Provisioner | QualificationInjector

  function WorkerOf(authority: MessageAuthority): TransportRole {
    match authority
    case Platform => PlatformWorker
    case Cell(cell) => CellWorker(cell)
  }

  /** `authorize_publish`. */
  predicate AuthorizedToPublish(role: TransportRole, m: MessageMetadata) {
    match (role, m.source)
    case (PlatformWorker, Platform) => true
    case (QualificationInjector, _) => true
    case (CellWorker(expected), Cell(actual)) => expected == actual
    case _ => false
  }

  /** `role_allows_binding`. */
  predicate RoleAllowsBinding(role: TransportRole, binding: ConsumerBinding) {
    match role
    case PlatformWorker => binding == PlatformCommandBinding() || binding == PlatformEventBinding()
    case CellWorker(cell) => binding == CellCommandBinding(cell) || binding == CellEventBinding(cell)
    case _ => false
  }
}
