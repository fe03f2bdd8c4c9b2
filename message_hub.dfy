/**
 * `API.SignalR.MessageHub` as an object. Its fields stand for the state the hub
 * reaches through the unit of work, the presence tracker and the SignalR clients.
 * Each entry point changes them step by step, in the order the source does; its
 * contract equates the resulting state and outcome with the matching step function
 * in HubModel, whose properties HubProperties proves.
 */
module SignalR {
  import opened Wrappers
  import opened GroupNaming
  import opened Strings
  import opened HubModel
  import HubProperties

  class MessageHub {
    var groups: map<string, seq<Connection>>
    var presence: map<string, seq<string>>
    var users: map<string, string>
    var messages: seq<Message>
    var outbox: seq<Event>

    /** Connection ids are unique across the group store. */
    ghost predicate Valid()
      reads this
    {
      UniqueConnectionIds(groups)
    }

    /** The hub's state as a value. */
    function Model(): State
      reads this
    {
      State(groups, presence, users, messages, outbox)
    }

    constructor (groups: map<string, seq<Connection>>, presence: map<string, seq<string>>,
                 users: map<string, string>, messages: seq<Message>)
      requires UniqueConnectionIds(groups)
      ensures Valid()
      ensures Model() == State(groups, presence, users, messages, [])
    {
      this.groups := groups;
      this.presence := presence;
      this.users := users;
      this.messages := messages;
      this.outbox := [];
    }

    /** Fetch or create the group, append the caller's connection, and commit. */
    method AddToGroup(groupName: string, connectionId: string, caller: string, commitOk: bool)
      returns (r: Result<Group, HubError>)
      requires Valid()
      requires FreshId(groups, connectionId)
      modifies this
      ensures Valid()
      ensures var spec := HubModel.AddToGroup(old(groups), groupName, Connection(connectionId, caller), commitOk);
        && r == (if spec.Ok? then Ok(spec.value.group) else Err(spec.error))
        && Model() == old(Model()).(groups := if spec.Ok? then spec.value.groups else old(groups))
    {
      var connection := Connection(connectionId, caller);
      var connections: seq<Connection>;
      if groupName in groups {
        connections := groups[groupName];
      } else {
        connections := [];
      }
      connections := connections + [connection];
      if commitOk {
        HubProperties.AddToGroupKeepsIdsUnique(groups, groupName, connection);
        groups := groups[groupName := connections];
        return Ok(Group(groupName, connections));
      }
      return Err(HubException(AddToGroupError));
    }

    /** Find the caller's group, drop the caller's connection from it, and commit. */
    method RemoveFromMessageGroup(connectionId: string, commitOk: bool) returns (r: Result<Group, HubError>)
      requires Valid()
      modifies this
      ensures Valid()
      ensures var spec := HubModel.RemoveFromMessageGroup(old(groups), connectionId, commitOk);
        && r == (if spec.Ok? then Ok(spec.value.group) else Err(spec.error))
        && Model() == old(Model()).(groups := if spec.Ok? then spec.value.groups else old(groups))
    {
      var found := GroupForConnection(groups, connectionId);
      if found.None? {
        return Err(NullReference(ConnectionGroup));
      }
      var name := found.value;
      var connections := groups[name];
      var k := FirstIndexOf(connections, connectionId);
      var rest := connections[..k] + connections[k + 1..];
      if commitOk {
        HubProperties.RemoveKeepsIdsUnique(groups, name, k);
        groups := groups[name := rest];
        return Ok(Group(name, rest));
      }
      return Err(HubException(RemoveFromGroupError));
    }

    /** `OnConnectedAsync` for a connection the transport has just opened. */
    method OnConnectedAsync(caller: string, connectionId: string, otherUser: string,
                            thread: seq<Message>, commitOk: bool)
      returns (r: Outcome<HubError>)
      requires Valid()
      requires FreshId(groups, connectionId)
      modifies this
      ensures Valid()
      ensures Step(Model(), r) == OnConnected(old(Model()), caller, connectionId, otherUser, thread, commitOk)
    {
      HubProperties.ConnectKeepsIdsUnique(Model(), caller, connectionId, otherUser, thread, commitOk);
      var groupName := GetGroupName(caller, otherUser);
      outbox := outbox + [JoinGroup(connectionId, groupName)];
      var group := AddToGroup(groupName, connectionId, caller, commitOk);
      if group.Err? {
        return Fail(group.error);
      }
      outbox := outbox + [UpdatedGroupEvent(group.value)];
      outbox := outbox + [Send(MessageHubClients, ReceiveMessageThread, CallerAudience(connectionId),
                               ThreadPayload(thread))];
      return Pass;
    }

    /** `OnDisconnectedAsync` for a connection the transport has closed. */
    method OnDisconnectedAsync(connectionId: string, commitOk: bool) returns (r: Outcome<HubError>)
      requires Valid()
      modifies this
      ensures Valid()
      ensures Step(Model(), r) == OnDisconnected(old(Model()), connectionId, commitOk)
    {
      var group := RemoveFromMessageGroup(connectionId, commitOk);
      if group.Err? {
        return Fail(group.error);
      }
      outbox := outbox + [UpdatedGroupEvent(group.value)];
      return Pass;
    }

    /** `SendMessage` from the caller's connection. */
    method SendMessage(caller: string, dto: CreateMessageDto, now: Timestamp, commitOk: bool)
      returns (r: Outcome<HubError>)
      requires Valid()
      modifies this
      ensures Valid()
      ensures Step(Model(), r) == HubModel.SendMessage(old(Model()), caller, dto, now, commitOk)
    {
      if caller == ToLower(dto.recipientUsername) {
        return Fail(HubException(SelfMessageError));
      }
      if dto.recipientUsername !in users {
        return Fail(HubException(RecipientNotFoundError));
      }
      var recipient := dto.recipientUsername;
      if caller !in users {
        return Fail(NullReference(SenderUser));
      }
      var knownAs := users[caller];
      var message := Message(caller, recipient, dto.content, None);
      var groupName := GetGroupName(caller, recipient);
      if groupName !in groups {
        return Fail(NullReference(MessageGroup));
      }
      var group := groups[groupName];
      if AnyConnectionOf(group, recipient) {
        message := message.(dateRead := Some(now));
      } else if recipient in presence {
        outbox := outbox + [NotificationEvent(presence[recipient], caller, knownAs)];
      }
      if commitOk {
        messages := messages + [message];
        outbox := outbox + [NewMessageEvent(groupName, message)];
      }
      return Pass;
    }
  }
}
