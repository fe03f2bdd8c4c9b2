/**
 * The conversation hub (`API.SignalR.MessageHub`) as a sequential state machine.
 * Each entry point of the hub is one atomic step from a State to a State plus an
 * Outcome. The durable store is the group map and the message list. The presence
 * tracker and the users table are read, never written, by this hub. Every client
 * call the hub makes is appended to the outbox.
 */
module HubModel {
  import opened Wrappers
  import opened Strings
  import opened GroupNaming

  /** `DateTime.UtcNow`, supplied by the caller. */
  type Timestamp = nat

  /** `Entities.Connection`: one open hub connection and the user owning it. */
  datatype Connection = Connection(connectionId: string, username: string)

  /** `Entities.Group`: a conversation group and the connections currently in it. */
  datatype Group = Group(name: string, connections: seq<Connection>)

  /** `Entities.Message` as far as the hub sets it. */
  datatype Message = Message(
    senderUsername: string,
    recipientUsername: string,
    content: string,
    dateRead: Option<Timestamp>)

  /** `DTOs.CreateMessageDto`, the argument of SendMessage. */
  datatype CreateMessageDto = CreateMessageDto(recipientUsername: string, content: string)

  /** Which hub's clients an event goes through: this hub, or `IHubContext<PresenceHub>`. */
  datatype HubClients = MessageHubClients | PresenceHubClients

  /** Who receives an event: `Clients.Group(name)`, `Clients.Caller`, or `Clients.Clients(ids)`. */
  datatype Audience =
    | GroupAudience(groupName: string)
    | CallerAudience(connectionId: string)
    | ConnectionsAudience(connectionIds: seq<string>)

  /** What an event carries. */
  datatype Payload =
    | GroupPayload(group: Group)
    | ThreadPayload(thread: seq<Message>)
    | MessagePayload(message: Message)
    | SenderPayload(username: string, knownAs: string)

  /** One transport call: joining a SignalR group, or a `SendAsync` of a named client method. */
  datatype Event =
    | JoinGroup(connectionId: string, groupName: string)
    | Send(hub: HubClients, name: string, audience: Audience, payload: Payload)

  /** Where the source dereferences a reference that may be null. */
  datatype NullSite =
    | SenderUser        // `sender.UserName` in SendMessage, when the caller has no user record
    | MessageGroup      // `group.Connections.Any(...)` in SendMessage, when the pair has no group
    | ConnectionGroup   // `group.Connections.FirstOrDefault(...)` in RemoveFromMessageGroup, when no group holds the connection

  /** The exceptions the hub raises. */
  datatype HubError =
    | HubException(message: string)
    | NullReference(site: NullSite)

  const SelfMessageError := "You cannot send messages to yourself"
  const RecipientNotFoundError := "Recipient not found"
  const AddToGroupError := "Failed to add to group"
  const RemoveFromGroupError := "Failed to remove from group"

  const UpdatedGroup := "UpdatedGroup"
  const ReceiveMessageThread := "ReceiveMessageThread"
  const NewMessage := "NewMessage"
  const NewMessageReceived := "NewMessageReceived"

  /** Everything the hub reads or writes. */
  datatype State = State(
    groups: map<string, seq<Connection>>,   // durable groups: name to connections
    presence: map<string, seq<string>>,     // PresenceTracker: username to connection ids
    users: map<string, string>,             // users table: username to KnownAs
    messages: seq<Message>,                 // durable messages
    outbox: seq<Event>)                     // every client call made so far, in order

  /** The state after one hub entry point and whether it threw. */
  datatype Step = Step(state: State, outcome: Outcome<HubError>)

  /** A committed change to the groups and the group the operation returns. */
  datatype Committed = Committed(groups: map<string, seq<Connection>>, group: Group)

  // ---------------------------------------------------------------------------
  // Connection lists

  /** The connection ids in a list of connections. */
  function Ids(cs: seq<Connection>): set<string>
  {
    set c | c in cs :: c.connectionId
  }

  lemma IdsAppend(cs: seq<Connection>, c: Connection)
    ensures Ids(cs + [c]) == Ids(cs) + {c.connectionId}
  {
  }

  /** `Connections.Any(x => x.Username == username)`. */
  function AnyConnectionOf(cs: seq<Connection>, username: string): (r: bool)
    ensures r <==> exists c :: c in cs && c.username == username
  {
    if cs == [] then false
    else cs[0].username == username || AnyConnectionOf(cs[1..], username)
  }

  /** The position `Connections.FirstOrDefault(x => x.ConnectionId == id)` finds. */
  function FirstIndexOf(cs: seq<Connection>, id: string): (k: nat)
    requires id in Ids(cs)
    ensures k < |cs| && cs[k].connectionId == id
    ensures forall j :: 0 <= j < k ==> cs[j].connectionId != id
  {
    if cs[0].connectionId == id then 0
    else
      assert id in Ids(cs[1..]) by {
        var c :| c in cs && c.connectionId == id;
        assert c in cs[1..];
      }
      1 + FirstIndexOf(cs[1..], id)
  }

  /** No connection id occurs twice in a group. */
  predicate DistinctIds(cs: seq<Connection>)
  {
    forall i, j :: 0 <= i < j < |cs| ==> cs[i].connectionId != cs[j].connectionId
  }

  /** No connection id is in two groups. */
  predicate IdsDisjoint(groups: map<string, seq<Connection>>)
  {
    forall a, b :: a in groups && b in groups && a != b ==> Ids(groups[a]) !! Ids(groups[b])
  }

  /** A connection id appears at most once in the whole group store (the connection table's key). */
  predicate UniqueConnectionIds(groups: map<string, seq<Connection>>)
  {
    IdsDisjoint(groups) && forall n :: n in groups ==> DistinctIds(groups[n])
  }

  /** The id belongs to no group. */
  predicate FreshId(groups: map<string, seq<Connection>>, id: string)
  {
    forall n :: n in groups ==> id !in Ids(groups[n])
  }

  /** `MessageRepository.GetGroupForConnection`: the group holding the connection, or null. */
  function GroupForConnection(groups: map<string, seq<Connection>>, id: string): (r: Option<string>)
    requires IdsDisjoint(groups)
    ensures r.Some? ==> r.value in groups && id in Ids(groups[r.value])
    ensures r.None? <==> FreshId(groups, id)
  {
    if exists n :: n in groups && id in Ids(groups[n]) then
      var n :| n in groups && id in Ids(groups[n]);
      Some(n)
    else
      None
  }

  // ---------------------------------------------------------------------------
  // Hub operations

  /** The `UpdatedGroup` broadcast of a group snapshot to that group. */
  function UpdatedGroupEvent(g: Group): Event
  {
    Send(MessageHubClients, UpdatedGroup, GroupAudience(g.name), GroupPayload(g))
  }

  /**
   * `AddToGroup`: fetch the group or create it, append the caller's connection,
   * and return the group if the commit succeeds; otherwise throw.
   */
  function AddToGroup(
    groups: map<string, seq<Connection>>, groupName: string, connection: Connection, commitOk: bool)
    : Result<Committed, HubError>
  {
    var existing := if groupName in groups then groups[groupName] else [];
    var joined := existing + [connection];
    if commitOk then Ok(Committed(groups[groupName := joined], Group(groupName, joined)))
    else Err(HubException(AddToGroupError))
  }

  /**
   * `RemoveFromMessageGroup`: find the caller's group, drop the caller's connection,
   * and return the group if the commit succeeds; otherwise throw. A connection in
   * no group makes `group.Connections` dereference null.
   */
  function RemoveFromMessageGroup(
    groups: map<string, seq<Connection>>, connectionId: string, commitOk: bool)
    : Result<Committed, HubError>
    requires IdsDisjoint(groups)
  {
    match GroupForConnection(groups, connectionId)
    case None => Err(NullReference(ConnectionGroup))
    case Some(name) =>
      var cs := groups[name];
      var k := FirstIndexOf(cs, connectionId);
      var rest := cs[..k] + cs[k + 1..];
      if commitOk then Ok(Committed(groups[name := rest], Group(name, rest)))
      else Err(HubException(RemoveFromGroupError))
  }

  /**
   * `OnConnectedAsync`: join the SignalR group, record the connection in the durable
   * group, tell the group, then send the message thread to the caller alone.
   * `thread` is what `GetMessageThread` returns.
   */
  function OnConnected(
    s: State, caller: string, connectionId: string, otherUser: string,
    thread: seq<Message>, commitOk: bool): Step
  {
    var groupName := GetGroupName(caller, otherUser);
    var joined := s.outbox + [JoinGroup(connectionId, groupName)];
    match AddToGroup(s.groups, groupName, Connection(connectionId, caller), commitOk)
    case Err(e) => Step(s.(outbox := joined), Fail(e))
    case Ok(c) =>
      var sent := joined + [UpdatedGroupEvent(c.group),
                            Send(MessageHubClients, ReceiveMessageThread, CallerAudience(connectionId),
                                 ThreadPayload(thread))];
      Step(s.(groups := c.groups, outbox := sent), Pass)
  }

  /** `OnDisconnectedAsync`: remove the connection from its group, then tell that group. */
  function OnDisconnected(s: State, connectionId: string, commitOk: bool): Step
    requires IdsDisjoint(s.groups)
  {
    match RemoveFromMessageGroup(s.groups, connectionId, commitOk)
    case Err(e) => Step(s, Fail(e))
    case Ok(c) => Step(s.(groups := c.groups, outbox := s.outbox + [UpdatedGroupEvent(c.group)]), Pass)
  }

  /** The `NewMessageReceived` notification of the recipient's presence connections. */
  function NotificationEvent(connectionIds: seq<string>, username: string, knownAs: string): Event
  {
    Send(PresenceHubClients, NewMessageReceived, ConnectionsAudience(connectionIds), SenderPayload(username, knownAs))
  }

  /** The `NewMessage` broadcast of a stored message to its group. */
  function NewMessageEvent(groupName: string, m: Message): Event
  {
    Send(MessageHubClients, NewMessage, GroupAudience(groupName), MessagePayload(m))
  }

  /**
   * `SendMessage`: refuse a message to oneself, then an unknown recipient; mark the
   * message read if the recipient is in the conversation group, else notify the
   * recipient's presence connections; store the message and broadcast it to the
   * group if the commit succeeds.
   */
  function SendMessage(s: State, caller: string, dto: CreateMessageDto, now: Timestamp, commitOk: bool): Step
  {
    var recipient := dto.recipientUsername;
    if caller == ToLower(recipient) then Step(s, Fail(HubException(SelfMessageError)))
    else if recipient !in s.users then Step(s, Fail(HubException(RecipientNotFoundError)))
    else if caller !in s.users then Step(s, Fail(NullReference(SenderUser)))
    else
      var groupName := GetGroupName(caller, recipient);
      if groupName !in s.groups then Step(s, Fail(NullReference(MessageGroup)))
      else
        var read := AnyConnectionOf(s.groups[groupName], recipient);
        var message := Message(caller, recipient, dto.content, if read then Some(now) else None);
        var notified :=
          if !read && recipient in s.presence
          then s.outbox + [NotificationEvent(s.presence[recipient], caller, s.users[caller])]
          else s.outbox;
        if commitOk then
          Step(s.(messages := s.messages + [message], outbox := notified + [NewMessageEvent(groupName, message)]), Pass)
        else
          Step(s.(outbox := notified), Pass)
  }
}
