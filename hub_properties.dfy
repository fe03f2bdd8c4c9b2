/** Properties of the hub's steps: the send-message decision tree, group membership, and event order. */
module HubProperties {
  import opened Wrappers
  import opened Strings
  import opened GroupNaming
  import opened HubModel

  /** The events a step appended to the outbox. */
  function Added(before: State, after: State): seq<Event>
    requires |before.outbox| <= |after.outbox|
  {
    after.outbox[|before.outbox|..]
  }

  /** Some event in `events` calls the client method `name`. */
  predicate Calls(events: seq<Event>, name: string)
  {
    exists i :: 0 <= i < |events| && events[i].Send? && events[i].name == name
  }

  /** The recipient has a connection in the conversation group. */
  predicate Viewing(cs: seq<Connection>, username: string)
  {
    exists c :: c in cs && c.username == username
  }

  // ---------------------------------------------------------------------------
  // SendMessage

  /** A message to oneself is refused first, whatever the rest of the state, and changes nothing. */
  lemma SendRejectsSelfMessage(s: State, caller: string, dto: CreateMessageDto, now: Timestamp, commitOk: bool)
    ensures var r := SendMessage(s, caller, dto, now, commitOk);
      (r.outcome == Fail(HubException(SelfMessageError)) <==> caller == ToLower(dto.recipientUsername))
      && (caller == ToLower(dto.recipientUsername) ==> r.state == s)
  {
  }

  /** An unknown recipient is refused next; no message is stored and no event is sent. */
  lemma SendRejectsUnknownRecipient(s: State, caller: string, dto: CreateMessageDto, now: Timestamp, commitOk: bool)
    requires caller != ToLower(dto.recipientUsername)
    ensures var r := SendMessage(s, caller, dto, now, commitOk);
      (r.outcome == Fail(HubException(RecipientNotFoundError)) <==> dto.recipientUsername !in s.users)
      && (dto.recipientUsername !in s.users ==> r.state == s)
  {
  }

  /**
   * SendMessage returns normally exactly when the checks pass, the caller has a user
   * record and the conversation group exists; every failure leaves the state as it was.
   */
  lemma SendOutcome(s: State, caller: string, dto: CreateMessageDto, now: Timestamp, commitOk: bool)
    ensures var r := SendMessage(s, caller, dto, now, commitOk);
      (r.outcome.Pass? <==>
        && caller != ToLower(dto.recipientUsername)
        && dto.recipientUsername in s.users
        && caller in s.users
        && GetGroupName(caller, dto.recipientUsername) in s.groups)
      && (r.outcome.Fail? ==> r.state == s)
      && (dto.recipientUsername in s.users && caller in s.users
          && caller != ToLower(dto.recipientUsername)
          && GetGroupName(caller, dto.recipientUsername) !in s.groups
          ==> r.outcome == Fail(NullReference(MessageGroup)))
  {
  }

  /**
   * A committed message is appended to the store, from the caller to the recipient,
   * and it is marked read at `now` exactly when the recipient has a connection in the
   * conversation group.
   */
  lemma SendMarksReadIffRecipientViewing(s: State, caller: string, dto: CreateMessageDto, now: Timestamp)
    requires SendMessage(s, caller, dto, now, true).outcome.Pass?
    ensures var s' := SendMessage(s, caller, dto, now, true).state;
      var cs := s.groups[GetGroupName(caller, dto.recipientUsername)];
      && |s'.messages| == |s.messages| + 1
      && s'.messages[..|s.messages|] == s.messages
      && var m := s'.messages[|s.messages|];
      && m.senderUsername == caller
      && m.recipientUsername == dto.recipientUsername
      && m.content == dto.content
      && (m.dateRead == Some(now) <==> Viewing(cs, dto.recipientUsername))
      && (m.dateRead == None <==> !Viewing(cs, dto.recipientUsername))
  {
  }

  /**
   * `NewMessageReceived` is sent exactly when the message was not marked read and the
   * presence tracker has an entry for the recipient; it goes to exactly those
   * connection ids and carries the sender's username and KnownAs, not the message.
   * The step appends nothing else: at most that notification, then the broadcast.
   */
  lemma SendNotifiesOnlyUnreadAndPresent(
    s: State, caller: string, dto: CreateMessageDto, now: Timestamp, commitOk: bool)
    requires SendMessage(s, caller, dto, now, commitOk).outcome.Pass?
    ensures var s' := SendMessage(s, caller, dto, now, commitOk).state;
      var recipient := dto.recipientUsername;
      var cs := s.groups[GetGroupName(caller, recipient)];
      && |s.outbox| <= |s'.outbox| && s'.outbox[..|s.outbox|] == s.outbox
      && (Calls(Added(s, s'), NewMessageReceived) <==> !Viewing(cs, recipient) && recipient in s.presence)
      && (Calls(Added(s, s'), NewMessageReceived) ==>
            Added(s, s')[0] == Send(PresenceHubClients, NewMessageReceived,
                                    ConnectionsAudience(s.presence[recipient]),
                                    SenderPayload(caller, s.users[caller])))
      && s'.presence == s.presence && s'.users == s.users
      && Added(s, s') ==
           (if !Viewing(cs, recipient) && recipient in s.presence
            then [NotificationEvent(s.presence[recipient], caller, s.users[caller])] else [])
           + (if commitOk
              then [NewMessageEvent(GetGroupName(caller, recipient), s'.messages[|s.messages|])] else [])
  {
    var s' := SendMessage(s, caller, dto, now, commitOk).state;
    var recipient := dto.recipientUsername;
    var cs := s.groups[GetGroupName(caller, recipient)];
    if !Viewing(cs, recipient) && recipient in s.presence {
      assert Added(s, s')[0].name == NewMessageReceived;
    }
    if Calls(Added(s, s'), NewMessageReceived) {
      var i :| 0 <= i < |Added(s, s')| && Added(s, s')[i].Send? && Added(s, s')[i].name == NewMessageReceived;
    }
  }

  /**
   * `NewMessage` is broadcast to the pair's group exactly when the commit succeeds,
   * after any notification, carrying the stored message; a failed commit stores
   * nothing and broadcasts nothing.
   */
  lemma SendBroadcastsOnlyAfterCommit(
    s: State, caller: string, dto: CreateMessageDto, now: Timestamp, commitOk: bool)
    requires SendMessage(s, caller, dto, now, commitOk).outcome.Pass?
    ensures var s' := SendMessage(s, caller, dto, now, commitOk).state;
      var groupName := GetGroupName(caller, dto.recipientUsername);
      && |s.outbox| <= |s'.outbox|
      && (Calls(Added(s, s'), NewMessage) <==> commitOk)
      && (commitOk ==> |s'.messages| == |s.messages| + 1
                       && Added(s, s')[|Added(s, s')| - 1] == NewMessageEvent(groupName, s'.messages[|s.messages|]))
      && (!commitOk ==> s'.messages == s.messages)
      && s'.groups == s.groups
  {
    var s' := SendMessage(s, caller, dto, now, commitOk).state;
    if commitOk {
      assert Added(s, s')[|Added(s, s')| - 1].name == NewMessage;
    }
    if Calls(Added(s, s'), NewMessage) {
      var i :| 0 <= i < |Added(s, s')| && Added(s, s')[i].Send? && Added(s, s')[i].name == NewMessage;
    }
  }

  /** Every username in the users table is lower case (an assumption about how accounts are created). */
  predicate LowerCaseUsers(users: map<string, string>)
  {
    forall u :: u in users ==> IsLowerCase(u)
  }

  /**
   * The self-message check lowers only the recipient's name; when every stored
   * username is lower case that is enough: no accepted message goes to its sender.
   */
  lemma NoSelfMessageWithLowerCaseUsers(
    s: State, caller: string, dto: CreateMessageDto, now: Timestamp, commitOk: bool)
    requires LowerCaseUsers(s.users)
    requires SendMessage(s, caller, dto, now, commitOk).outcome.Pass?
    ensures dto.recipientUsername != caller
  {
  }

  /** With a stored username that is not lower case the check lets a message to oneself through. */
  lemma SelfMessageWithUpperCaseUser()
    ensures var s := State(map["Bob-Bob" := []], map[], map["Bob" := "Bob"], [], []);
      var r := SendMessage(s, "Bob", CreateMessageDto("Bob", "hi"), 0, true);
      r.outcome.Pass? && r.state.messages == [Message("Bob", "Bob", "hi", None)]
  {
    var s := State(map["Bob-Bob" := []], map[], map["Bob" := "Bob"], [], []);
    assert ToLower("Bob") == "bob";
    OrdinalIrreflexive("Bob");
    assert GetGroupName("Bob", "Bob") == "Bob-Bob";
  }

  // ---------------------------------------------------------------------------
  // OnConnectedAsync and AddToGroup

  /**
   * A successful connect joins the SignalR group, then sends `UpdatedGroup` to the
   * whole group, then `ReceiveMessageThread` to the caller only, and nothing else;
   * the caller's connection is appended to the group, created if missing, and
   * nothing but the group store changes.
   */
  lemma ConnectEventOrder(
    s: State, caller: string, connectionId: string, otherUser: string, thread: seq<Message>)
    ensures var r := OnConnected(s, caller, connectionId, otherUser, thread, true);
      var groupName := GetGroupName(caller, otherUser);
      && r.outcome == Pass
      && |r.state.outbox| == |s.outbox| + 3
      && r.state.outbox[..|s.outbox|] == s.outbox
      && var added := Added(s, r.state);
      && added[0] == JoinGroup(connectionId, groupName)
      && added[1] == UpdatedGroupEvent(Group(groupName, r.state.groups[groupName]))
      && added[2] == Send(MessageHubClients, ReceiveMessageThread, CallerAudience(connectionId), ThreadPayload(thread))
      && r.state.groups == s.groups[groupName := (if groupName in s.groups then s.groups[groupName] else [])
                                                 + [Connection(connectionId, caller)]]
      && r.state.messages == s.messages && r.state.presence == s.presence && r.state.users == s.users
  {
  }

  /**
   * `AddToGroup` with a successful commit creates the group under exactly that name
   * when it is missing, appends the caller's connection and leaves every other group
   * and every earlier connection as it was.
   */
  lemma AddToGroupAppends(
    groups: map<string, seq<Connection>>, groupName: string, connection: Connection)
    ensures var r := AddToGroup(groups, groupName, connection, true);
      && r.Ok?
      && r.value.groups.Keys == groups.Keys + {groupName}
      && r.value.group == Group(groupName, r.value.groups[groupName])
      && (groupName !in groups ==> r.value.groups[groupName] == [connection])
      && (groupName in groups ==> r.value.groups[groupName] == groups[groupName] + [connection])
      && (forall n :: n in groups && n != groupName ==> r.value.groups[n] == groups[n])
  {
  }

  /** A failed commit throws "Failed to add to group"; the caller stays in the SignalR group only. */
  lemma ConnectFailedCommit(
    s: State, caller: string, connectionId: string, otherUser: string, thread: seq<Message>)
    ensures AddToGroup(s.groups, GetGroupName(caller, otherUser), Connection(connectionId, caller), false)
            == Err(HubException(AddToGroupError))
    ensures var r := OnConnected(s, caller, connectionId, otherUser, thread, false);
      && r.outcome == Fail(HubException(AddToGroupError))
      && r.state == s.(outbox := s.outbox + [JoinGroup(connectionId, GetGroupName(caller, otherUser))])
  {
  }

  /** Adding a fresh id to a group keeps connection ids unique. */
  lemma AddToGroupKeepsIdsUnique(
    groups: map<string, seq<Connection>>, groupName: string, connection: Connection)
    requires UniqueConnectionIds(groups)
    requires FreshId(groups, connection.connectionId)
    ensures UniqueConnectionIds(AddToGroup(groups, groupName, connection, true).value.groups)
  {
  }

  /** `OnConnectedAsync` with the transport's fresh connection id keeps connection ids unique. */
  lemma ConnectKeepsIdsUnique(
    s: State, caller: string, connectionId: string, otherUser: string, thread: seq<Message>, commitOk: bool)
    requires UniqueConnectionIds(s.groups)
    requires FreshId(s.groups, connectionId)
    ensures UniqueConnectionIds(OnConnected(s, caller, connectionId, otherUser, thread, commitOk).state.groups)
  {
  }

  // ---------------------------------------------------------------------------
  // OnDisconnectedAsync and RemoveFromMessageGroup

  /** Where each element of a list with position k removed comes from. */
  lemma RemoveAtIndex(cs: seq<Connection>, k: nat, i: nat)
    requires k < |cs| && i < |cs| - 1
    ensures |cs[..k] + cs[k + 1..]| == |cs| - 1
    ensures (cs[..k] + cs[k + 1..])[i] == if i < k then cs[i] else cs[i + 1]
  {
  }

  /** Removing the element at k from a list of distinct ids removes that id and keeps the rest distinct. */
  lemma RemoveAtDistinct(cs: seq<Connection>, k: nat)
    requires k < |cs| && DistinctIds(cs)
    ensures var rest := cs[..k] + cs[k + 1..];
      && DistinctIds(rest)
      && cs[k].connectionId !in Ids(rest)
      && Ids(rest) <= Ids(cs)
  {
    var rest := cs[..k] + cs[k + 1..];
    forall i, j | 0 <= i < j < |rest| ensures rest[i].connectionId != rest[j].connectionId {
      RemoveAtIndex(cs, k, i);
      RemoveAtIndex(cs, k, j);
    }
    forall c | c in rest ensures c.connectionId != cs[k].connectionId && c in cs {
      var i :| 0 <= i < |rest| && rest[i] == c;
      RemoveAtIndex(cs, k, i);
    }
  }

  /** Removing the element at k takes exactly that element out of the multiset. */
  lemma RemoveAtMultiset(cs: seq<Connection>, k: nat)
    requires k < |cs|
    ensures multiset(cs[..k] + cs[k + 1..]) + multiset{cs[k]} == multiset(cs)
  {
    assert cs == cs[..k] + [cs[k]] + cs[k + 1..];
  }

  /** The connection of an unknown id: every group is left alone and the hub throws a null dereference. */
  lemma DisconnectUnknownConnection(s: State, connectionId: string, commitOk: bool)
    requires IdsDisjoint(s.groups)
    ensures var r := OnDisconnected(s, connectionId, commitOk);
      (r.outcome == Fail(NullReference(ConnectionGroup)) <==> FreshId(s.groups, connectionId))
      && (FreshId(s.groups, connectionId) ==> r.state == s)
  {
  }

  /** A failed commit throws "Failed to remove from group" and changes nothing. */
  lemma DisconnectFailedCommit(s: State, connectionId: string)
    requires IdsDisjoint(s.groups)
    requires !FreshId(s.groups, connectionId)
    ensures OnDisconnected(s, connectionId, false) == Step(s, Fail(HubException(RemoveFromGroupError)))
  {
  }

  /** Taking the connection at k out of its group keeps ids unique and leaves its id in no group. */
  lemma RemoveKeepsIdsUnique(groups: map<string, seq<Connection>>, name: string, k: nat)
    requires UniqueConnectionIds(groups)
    requires name in groups && k < |groups[name]|
    ensures var g' := groups[name := groups[name][..k] + groups[name][k + 1..]];
      UniqueConnectionIds(g') && FreshId(g', groups[name][k].connectionId)
  {
    var cs := groups[name];
    var id := cs[k].connectionId;
    var g' := groups[name := cs[..k] + cs[k + 1..]];
    RemoveAtDistinct(cs, k);
    assert cs[k] in cs;
    forall n | n in g' ensures id !in Ids(g'[n]) {
      if n != name {
        assert Ids(groups[name]) !! Ids(groups[n]);
      }
    }
    forall a, b | a in g' && b in g' && a != b ensures Ids(g'[a]) !! Ids(g'[b]) {
      assert Ids(groups[a]) !! Ids(groups[b]);
    }
  }

  /**
   * A successful disconnect removes exactly the caller's connection from the one group
   * holding it, keeps the group itself and every other group, and sends `UpdatedGroup`
   * with the remaining members to that group. Messages, presence and users stay as they were.
   */
  lemma DisconnectRemovesConnection(s: State, connectionId: string)
    requires UniqueConnectionIds(s.groups)
    requires !FreshId(s.groups, connectionId)
    ensures var r := OnDisconnected(s, connectionId, true);
      && r.outcome == Pass
      && FreshId(r.state.groups, connectionId)
      && r.state.groups.Keys == s.groups.Keys
      && (exists name, c :: name in s.groups && c in s.groups[name] && c.connectionId == connectionId
           && multiset(r.state.groups[name]) + multiset{c} == multiset(s.groups[name])
           && (forall n :: n in s.groups && n != name ==> r.state.groups[n] == s.groups[n])
           && r.state.outbox == s.outbox + [UpdatedGroupEvent(Group(name, r.state.groups[name]))])
      && UniqueConnectionIds(r.state.groups)
      && r.state.messages == s.messages && r.state.presence == s.presence && r.state.users == s.users
  {
    var name := GroupForConnection(s.groups, connectionId).value;
    var cs := s.groups[name];
    var k := FirstIndexOf(cs, connectionId);
    RemoveKeepsIdsUnique(s.groups, name, k);
    RemoveAtMultiset(cs, k);
    assert cs[k] in cs;
  }

  /** The reverse lookup finds the group that holds the id. */
  lemma GroupForConnectionFinds(groups: map<string, seq<Connection>>, name: string, id: string)
    requires IdsDisjoint(groups)
    requires name in groups && id in Ids(groups[name])
    ensures GroupForConnection(groups, id) == Some(name)
  {
  }

  /** A connection appended after others with different ids is found at the end. */
  lemma FirstIndexOfLast(cs: seq<Connection>, c: Connection)
    requires c.connectionId !in Ids(cs)
    ensures c.connectionId in Ids(cs + [c])
    ensures FirstIndexOf(cs + [c], c.connectionId) == |cs|
  {
    IdsAppend(cs, c);
    assert forall j :: 0 <= j < |cs| ==> (cs + [c])[j] == cs[j] && cs[j] in cs;
  }

  /** Adding a fresh connection to a group and removing it again leaves the group's earlier list. */
  lemma AddThenRemove(groups: map<string, seq<Connection>>, groupName: string, c: Connection)
    requires UniqueConnectionIds(groups)
    requires FreshId(groups, c.connectionId)
    ensures var existing := if groupName in groups then groups[groupName] else [];
      var added := AddToGroup(groups, groupName, c, true).value.groups;
      && IdsDisjoint(added)
      && RemoveFromMessageGroup(added, c.connectionId, true)
         == Ok(Committed(groups[groupName := existing], Group(groupName, existing)))
  {
    var existing := if groupName in groups then groups[groupName] else [];
    var added := AddToGroup(groups, groupName, c, true).value.groups;
    AddToGroupKeepsIdsUnique(groups, groupName, c);
    IdsAppend(existing, c);
    assert added[groupName] == existing + [c];
    GroupForConnectionFinds(added, groupName, c.connectionId);
    FirstIndexOfLast(existing, c);
    assert (existing + [c])[..|existing|] + (existing + [c])[|existing| + 1..] == existing;
    assert added[groupName := existing] == groups[groupName := existing];
  }

  /**
   * Connecting with a fresh id and then disconnecting it, both committed, restores the
   * group store, except that a group created by the connect stays, empty.
   */
  lemma ConnectThenDisconnect(
    s: State, caller: string, connectionId: string, otherUser: string, thread: seq<Message>)
    requires UniqueConnectionIds(s.groups)
    requires FreshId(s.groups, connectionId)
    ensures var s1 := OnConnected(s, caller, connectionId, otherUser, thread, true).state;
      var groupName := GetGroupName(caller, otherUser);
      && UniqueConnectionIds(s1.groups)
      && var r := OnDisconnected(s1, connectionId, true);
      && r.outcome == Pass
      && r.state.groups == if groupName in s.groups then s.groups else s.groups[groupName := []]
  {
    var groupName := GetGroupName(caller, otherUser);
    var c := Connection(connectionId, caller);
    var s1 := OnConnected(s, caller, connectionId, otherUser, thread, true).state;
    assert s1.groups == AddToGroup(s.groups, groupName, c, true).value.groups;
    ConnectKeepsIdsUnique(s, caller, connectionId, otherUser, thread, true);
    AddThenRemove(s.groups, groupName, c);
    var removed := RemoveFromMessageGroup(s1.groups, connectionId, true);
    assert OnDisconnected(s1, connectionId, true).state.groups == removed.value.groups;
    if groupName in s.groups {
      assert s.groups[groupName := s.groups[groupName]] == s.groups;
    }
  }

  // ---------------------------------------------------------------------------
  // Conversations between alice and bob

  const Users := map["alice" := "Alice", "bob" := "Bob"]

  /** No groups, no connections, no messages. */
  const Empty := State(map[], map[], Users, [], [])

  lemma AliceBobGroupName()
    ensures GetGroupName("alice", "bob") == "alice-bob" && GetGroupName("bob", "alice") == "alice-bob"
  {
  }

  /** Alice's connect creates the group "alice-bob" holding her connection. */
  lemma AliceConnects()
    ensures OnConnected(Empty, "alice", "c1", "bob", [], true).state.groups
            == map["alice-bob" := [Connection("c1", "alice")]]
  {
    AliceBobGroupName();
    var c := Connection("c1", "alice");
    var none: seq<Connection> := [];
    assert none + [c] == [c];
  }

  /** Bob's connect from the other side joins the same group. */
  lemma BobConnects()
    ensures var s1 := OnConnected(Empty, "alice", "c1", "bob", [], true).state;
      OnConnected(s1, "bob", "c2", "alice", [], true).state.groups
        == map["alice-bob" := [Connection("c1", "alice"), Connection("c2", "bob")]]
  {
    AliceBobGroupName();
    AliceConnects();
    assert [Connection("c1", "alice")] + [Connection("c2", "bob")]
        == [Connection("c1", "alice"), Connection("c2", "bob")];
  }

  /**
   * Alice connects for her conversation with bob, who is offline; her "hi" is stored
   * unread, nobody is notified, and it is broadcast to the group "alice-bob".
   */
  lemma ScenarioRecipientOffline(now: Timestamp)
    ensures var s1 := OnConnected(Empty, "alice", "c1", "bob", [], true).state;
      && s1.groups == map["alice-bob" := [Connection("c1", "alice")]]
      && var r := SendMessage(s1, "alice", CreateMessageDto("bob", "hi"), now, true);
      && r.outcome == Pass
      && r.state.messages == [Message("alice", "bob", "hi", None)]
      && r.state.outbox == s1.outbox + [NewMessageEvent("alice-bob", Message("alice", "bob", "hi", None))]
  {
    AliceBobGroupName();
    AliceConnects();
    assert ToLower("bob") == "bob";
  }

  /** Both connect to "alice-bob"; alice's "hi" is stored read and broadcast to the group. */
  lemma ScenarioRecipientViewing(now: Timestamp)
    ensures var s1 := OnConnected(Empty, "alice", "c1", "bob", [], true).state;
      var s2 := OnConnected(s1, "bob", "c2", "alice", [], true).state;
      && s2.groups == map["alice-bob" := [Connection("c1", "alice"), Connection("c2", "bob")]]
      && var r := SendMessage(s2, "alice", CreateMessageDto("bob", "hi"), now, true);
      && r.outcome == Pass
      && r.state.messages == [Message("alice", "bob", "hi", Some(now))]
      && r.state.outbox == s2.outbox + [NewMessageEvent("alice-bob", Message("alice", "bob", "hi", Some(now)))]
  {
    AliceBobGroupName();
    BobConnects();
    assert ToLower("bob") == "bob";
    var s2 := OnConnected(OnConnected(Empty, "alice", "c1", "bob", [], true).state, "bob", "c2", "alice", [], true).state;
    assert Connection("c2", "bob") in s2.groups["alice-bob"];
  }

  /** Bob is online on the presence hub but not in the conversation: his presence connections are notified. */
  lemma ScenarioRecipientOnlineElsewhere(now: Timestamp)
    ensures var s1 := OnConnected(Empty.(presence := map["bob" := ["p1", "p2"]]), "alice", "c1", "bob", [], true).state;
      var r := SendMessage(s1, "alice", CreateMessageDto("bob", "hi"), now, true);
      && r.outcome == Pass
      && r.state.messages == [Message("alice", "bob", "hi", None)]
      && r.state.outbox == s1.outbox + [
           NotificationEvent(["p1", "p2"], "alice", "Alice"),
           NewMessageEvent("alice-bob", Message("alice", "bob", "hi", None))]
  {
    AliceBobGroupName();
    assert ToLower("bob") == "bob";
  }
}
