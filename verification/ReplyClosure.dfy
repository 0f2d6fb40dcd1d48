/**
 * A reply always has somewhere to go: the event that a handler derives from a command it accepted passes
 * every check on its way to the other authority's event handler.
 */
module ReplyClosure {
  import opened Foundation
  import opened MessageDomain
  import opened AuthorityDatabase
  import opened Routing
  import opened Delivery
  import opened Subjects
  import opened Grammar

  /** The command handler of `authority` runs its transaction for this command. */
  predicate Accepts(authority: MessageAuthority, command: MessageMetadata) {
    RouteFence(authority, Commands, command) && command.descriptor == HandledContract(authority, Commands)
  }

  /** Where the command came from, and so where its reply goes. */
  function Requester(authority: MessageAuthority, command: MessageMetadata): MessageAuthority {
    if authority.Cell? then Platform else command.source
  }

  /** The reply is valid metadata that keeps the correlation and names the command as its cause. */
  lemma ReplyIsValid(authority: MessageAuthority, command: MessageMetadata, newId: Uuid, emittedAt: nat)
    requires authority.Valid() && command.Valid() && Accepts(authority, command)
    requires IsUuidV7(newId) && ValidEmittedAt(emittedAt) && newId != command.messageId
    ensures var reply := ReplyMetadata(authority, command, newId, emittedAt);
      && reply.Valid() && NewMetadata(reply) == Success(reply)
      && reply.correlationId == command.correlationId && reply.causationId == Some(command.messageId)
      && reply.messageId == newId && reply.emittedAt == emittedAt && reply.source == authority && reply.scope == command.scope
  {
    hide MessageMetadata.ComponentsValid, MessageMetadata.BrokenRule, IsUuidV7, ValidEmittedAt, Accepts,
      MessageAuthority.Valid, ContractDescriptor.Valid, ProbeName, ReplyContract, NewMetadata;
    ReplyComponentsValid(authority, command, newId, emittedAt);
    ReplyKeepsRules(authority, command, newId, emittedAt);
    Constructed(ReplyMetadata(authority, command, newId, emittedAt));
  }

  lemma Constructed(candidate: MessageMetadata)
    requires candidate.Valid()
    ensures NewMetadata(candidate) == Success(candidate)
  {
  }

  lemma ReplyKeepsRules(authority: MessageAuthority, command: MessageMetadata, newId: Uuid, emittedAt: nat)
    requires Accepts(authority, command) && newId != command.messageId
    ensures ReplyMetadata(authority, command, newId, emittedAt).BrokenRule().None?
  {
  }

  /**
   * For the reply of every command that came through the subject of its own metadata: the outbound fence
   * passes, the replier's worker may publish it, its subject matches exactly the requester's event
   * binding, and the requester's event fence, contract check and inbound fence all accept it.
   */
  lemma ReplyReachesRequester(authority: MessageAuthority, command: MessageMetadata, newId: Uuid, emittedAt: nat, bytes: Bytes)
    requires authority.Valid() && command.Valid() && Accepts(authority, command) && DeriveSubject(command).Some?
    requires IsUuidV7(newId) && ValidEmittedAt(emittedAt) && newId != command.messageId
    ensures var reply := ReplyMetadata(authority, command, newId, emittedAt);
      var (message, requester) := (EncodedMessage(reply, bytes), Requester(authority, command));
      && OutboundFence(authority, message).None?
      && AuthorizedToPublish(WorkerOf(authority), reply)
      && DeriveSubject(reply).Some?
      && RouteOf(reply).value.Destination() == requester && RouteOf(reply).value.direction.Stream() == Events
      && RoleAllowsBinding(WorkerOf(requester), BindingFor(RouteOf(reply).value))
      && Matches(BindingFor(RouteOf(reply).value).filterSubject, DeriveSubject(reply).value)
      && RouteFence(requester, Events, reply)
      && reply.descriptor == HandledContract(requester, Events)
      && InboundFence(requester, message).None?
  {
    hide ConcreteSubject, SubjectText, Matches, BindingFor, Grammar.NewMessageName;
    var reply := ReplyMetadata(authority, command, newId, emittedAt);
    ReplyIsValid(authority, command, newId, emittedAt);
    CommandRoute(authority, command);
    ReplyRoute(authority, command, newId, emittedAt);
    RoutabilityIsExact(reply);
    ExactlyOneBinding({RouteOf(reply).value.cellId}, reply, BindingFor(RouteOf(reply).value));
    ReplyFences(authority, command, newId, emittedAt, bytes);
  }

  /** The route of an accepted command ends at the authority whose handler runs. */
  lemma CommandRoute(authority: MessageAuthority, command: MessageMetadata)
    requires authority.Valid() && command.Valid() && Accepts(authority, command) && RouteOf(command).Some?
    ensures RouteOf(command).value.Destination() == authority
    ensures RouteOf(command).value.Origin() == Requester(authority, command)
  {
  }

  lemma ReplyRoute(authority: MessageAuthority, command: MessageMetadata, newId: Uuid, emittedAt: nat)
    requires authority.Valid() && command.Valid() && Accepts(authority, command) && RouteOf(command).Some?
    ensures var reply := ReplyMetadata(authority, command, newId, emittedAt);
      && Routable(reply) && RouteOf(reply).Some?
      && RouteOf(reply).value.Destination() == Requester(authority, command)
      && RouteOf(reply).value.direction.Stream() == Events
      && ValidCells({RouteOf(reply).value.cellId})
  {
    hide MessageScope.Valid, ProbeName, MessageMetadata.BrokenRule;
  }

  lemma ReplyFences(authority: MessageAuthority, command: MessageMetadata, newId: Uuid, emittedAt: nat, bytes: Bytes)
    requires authority.Valid() && command.Valid() && Accepts(authority, command) && RouteOf(command).Some?
    ensures var reply := ReplyMetadata(authority, command, newId, emittedAt);
      var (message, requester) := (EncodedMessage(reply, bytes), Requester(authority, command));
      && OutboundFence(authority, message).None? && AuthorizedToPublish(WorkerOf(authority), reply)
      && RouteFence(requester, Events, reply) && reply.descriptor == HandledContract(requester, Events)
      && InboundFence(requester, message).None?
  {
  }
}
