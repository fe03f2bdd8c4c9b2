# DatingApp conversation hub, modelled in Dafny

This project models the conversation hub of the DatingApp API, `API.SignalR.MessageHub`. The hub is the SignalR
endpoint two users connect to while they chat. It does four things:

- it puts the two usernames into ordinal order to name their conversation group (`GetGroupName`);
- it records each open connection in that group in the database (`AddToGroup`, `RemoveFromMessageGroup`);
- on connect and disconnect it tells the group's members that the group changed, and on connect it sends the
  message thread to the new connection;
- on `SendMessage` it refuses a message to oneself and a message to an unknown user. It marks the message read when
  the recipient is in the conversation group. Otherwise it notifies the recipient's presence connections. Then it
  stores the message and broadcasts it to the group once the commit succeeds.

## Structure

- `wrappers.dfy` (`Wrappers`): `Option`, `Result` and `Outcome`. A null reference is `None`. A thrown exception is
  `Err`/`Fail`.
- `strings.dfy` (`Strings`): `string.CompareOrdinal(a, b) < 0` as `OrdinalLess`, proved to be a strict total order.
  Also `ToLower`, restricted to ASCII.
- `group_naming.dfy` (`GroupNaming`): `GetGroupName` and its properties.
- `hub_model.dfy` (`HubModel`): the entities (`Connection`, `Group`, `Message`, `CreateMessageDto`), the events the hub
  sends, and the hub as a state machine. `State` holds:
  - the durable groups, as a map from name to connections;
  - the presence tracker, a map from username to connection ids;
  - the users table, a map from username to KnownAs;
  - the durable messages;
  - an outbox that holds every client call, in order.

  `AddToGroup`, `RemoveFromMessageGroup`, `OnConnected`, `OnDisconnected` and `SendMessage` are step functions.
  Each takes the commit result of `_uow.Complete()` as a parameter, so both branches are covered.
- `hub_properties.dfy` (`HubProperties`): the lemmas. They cover the send-message decision tree, membership updates,
  event order and audiences, the invariant that connection ids are unique, a connect-then-disconnect round trip, and
  the alice/bob conversations.
- `message_hub.dfy` (`SignalR`): class `MessageHub`. Its fields are that state, and its methods update them step by
  step in the source's order. Each method's contract says its new state and outcome equal the matching step function.

A missing group is modelled as an explicit error result, `NullReference(site)`, not as a precondition. This covers
`SendMessage` (line 77) and `RemoveFromMessageGroup` (line 123). The same applies to a caller without a user record
(`sender.UserName`, line 68).

The unit of work is scoped to one hub invocation. A failed commit therefore leaves the durable store unchanged; the
tracked changes are dropped with the scope. The hub does not throw when `SendMessage`'s commit fails, so the
notification it has already sent stays sent.

### Source behaviours the model keeps

- Disconnecting a connection that is in no group throws a NullReferenceException at `group.Connections` in
  `RemoveFromMessageGroup` (`DisconnectUnknownConnection`).
- `SendMessage` sends `NewMessageReceived` before it commits, so a failed commit still leaves the notification in
  the outbox. `SendNotifiesOnlyUnreadAndPresent` holds for both commit results.
- `SendMessage` treats the recipient as online when the presence tracker returns a list for them, even an empty
  one. The test is `connections != null`.
- The self-message check lower-cases only the recipient's name. When every stored username is lower case this is
  enough (`NoSelfMessageWithLowerCaseUsers`). A stored user "Bob" can send a message to "Bob"
  (`SelfMessageWithUpperCaseUser`).
- `OnConnectedAsync` joins the connection to the SignalR group before the database commit. Nothing in the hub
  undoes that join when the commit fails (`ConnectFailedCommit`).
- The group name determines the pair of users when neither username contains `-` (`GroupNameInjective`). With
  dashes it may not: users "a-b" and "c" share the group "a-b-c" with users "a" and "b-c" (`GroupNameCollision`).

## Model

| member | source | states |
|---|---|---|
| Strings.OrdinalLess | API/SignalR/MessageHub.cs:134 | models `string.CompareOrdinal(a, b) < 0`; no contract of its own, properties in `OrdinalIrreflexive`, `OrdinalAsymmetric`, `OrdinalTransitive`, `OrdinalTrichotomy` |
| Strings.OrdinalIrreflexive | API/SignalR/MessageHub.cs:134 | no username compares ordinally less than itself |
| Strings.OrdinalAsymmetric | API/SignalR/MessageHub.cs:134 | if a is ordinally less than b, then b is not less than a |
| Strings.OrdinalTransitive | API/SignalR/MessageHub.cs:134 | the ordinal order is transitive |
| Strings.OrdinalTrichotomy | API/SignalR/MessageHub.cs:134 | any two strings are equal or one is ordinally less: the order is total |
| Strings.ToLower | API/SignalR/MessageHub.cs:56 | models `ToLower()` on ASCII letters; no contract of its own, properties in `ToLowerIsLowerCase`, `ToLowerFixesLowerCase`, `ToLowerIdempotent` |
| Strings.ToLowerIsLowerCase | API/SignalR/MessageHub.cs:56 | `ToLower` leaves no ASCII upper-case letter |
| Strings.ToLowerFixesLowerCase | API/SignalR/MessageHub.cs:56 | `ToLower(s) == s` exactly when s has no upper-case letter |
| Strings.ToLowerIdempotent | API/SignalR/MessageHub.cs:56 | lower-casing twice is lower-casing once |
| GroupNaming.GetGroupName | API/SignalR/MessageHub.cs:132-136 | models `GetGroupName`; no contract of its own, properties in `GroupNameSymmetric`, `GroupNameSmallerFirst`, `GroupNameInjective`, `GroupNameCollision` |
| GroupNaming.GroupNameSymmetric | API/SignalR/MessageHub.cs:132-136 | `GetGroupName(a, b) == GetGroupName(b, a)` for all a and b, a == b included |
| GroupNaming.GroupNameSmallerFirst | API/SignalR/MessageHub.cs:134-135 | the name is `smaller-larger`: when a is ordinally at most b it is `a-b`, and when b is at most a it is `b-a` |
| GroupNaming.GroupNameInjective | API/SignalR/MessageHub.cs:132-136 | on usernames without `-`, equal group names mean the same unordered pair of users |
| GroupNaming.GroupNameCollision | API/SignalR/MessageHub.cs:135 | the pairs ("a-b", "c") and ("a", "b-c") both get the group "a-b-c" |
| HubModel.AnyConnectionOf | API/SignalR/MessageHub.cs:77 | true exactly when some connection in the list belongs to the username |
| HubModel.FirstIndexOf | API/SignalR/MessageHub.cs:123 | the first position whose connection id matches; no earlier position matches |
| HubModel.GroupForConnection | API/SignalR/MessageHub.cs:122 | the group holding the connection id, or None exactly when no group holds it |
| HubModel.SendMessage | API/SignalR/MessageHub.cs:53-99 | models `SendMessage` as a step on the state; no contract of its own, properties in `SendRejectsSelfMessage`, `SendRejectsUnknownRecipient`, `SendOutcome`, `SendMarksReadIffRecipientViewing`, `SendNotifiesOnlyUnreadAndPresent`, `SendBroadcastsOnlyAfterCommit`, `NoSelfMessageWithLowerCaseUsers`, `SelfMessageWithUpperCaseUser` |
| HubProperties.SendRejectsSelfMessage | API/SignalR/MessageHub.cs:55-57 | fails with "You cannot send messages to yourself" exactly when `username == ToLower(RecipientUsername)`, for any users and groups; the state is then unchanged, so no lookup result, message or event |
| HubProperties.SendRejectsUnknownRecipient | API/SignalR/MessageHub.cs:59-62 | past the self check, fails with "Recipient not found" exactly when the recipient is not in the users table; no message stored, no event |
| HubProperties.SendOutcome | API/SignalR/MessageHub.cs:55-77 | SendMessage returns normally exactly when both checks pass, the sender exists and the pair's group exists; a missing group is a null dereference; every failure leaves the state unchanged |
| HubProperties.SendMarksReadIffRecipientViewing | API/SignalR/MessageHub.cs:64-95 | a committed send appends one message from the caller to the recipient with the given content; its `DateRead` is set to `now` exactly when the pair's group holds a connection of the recipient, and unset otherwise |
| HubProperties.SendNotifiesOnlyUnreadAndPresent | API/SignalR/MessageHub.cs:81-90 | `NewMessageReceived` is sent exactly when the message was not marked read and the recipient has a presence entry; it goes through the presence hub to exactly those connection ids and carries the sender's username and KnownAs; the step appends exactly that notification when due, then `NewMessage` when committed, and nothing else; presence and users are unchanged |
| HubProperties.SendBroadcastsOnlyAfterCommit | API/SignalR/MessageHub.cs:93-98 | `NewMessage` is sent exactly when the commit succeeds, as the last event, to the pair's group, carrying the stored message; a failed commit stores nothing; groups never change |
| HubProperties.NoSelfMessageWithLowerCaseUsers | API/SignalR/MessageHub.cs:55-62 | when every stored username is lower case, an accepted message never goes to its sender |
| HubProperties.SelfMessageWithUpperCaseUser | API/SignalR/MessageHub.cs:55-62 | a stored user "Bob" can send a message to "Bob": the check compares "Bob" with "bob" |
| HubModel.OnConnected | API/SignalR/MessageHub.cs:25-43 | models `OnConnectedAsync` as a step on the state; no contract of its own, properties in `ConnectEventOrder`, `ConnectFailedCommit`, `ConnectKeepsIdsUnique`, `ConnectThenDisconnect` |
| HubModel.AddToGroup | API/SignalR/MessageHub.cs:102-117 | models the private `AddToGroup`; no contract of its own, properties in `AddToGroupAppends`, `ConnectFailedCommit`, `AddToGroupKeepsIdsUnique`, `AddThenRemove` |
| HubProperties.ConnectEventOrder | API/SignalR/MessageHub.cs:25-43 | a committed connect emits exactly three events: the SignalR group join, then `UpdatedGroup` to the group with its new members, then `ReceiveMessageThread` to the caller's connection only; the new group store is the old one with `Connection(connectionId, caller)` appended to the group, which is created if missing; messages, presence and users are unchanged |
| HubProperties.AddToGroupAppends | API/SignalR/MessageHub.cs:102-114 | a committed `AddToGroup` creates a missing group under exactly that name with only the new connection; otherwise it appends `Connection(connectionId, caller)` to the existing list; every other group is unchanged and the group is returned |
| HubProperties.ConnectFailedCommit | API/SignalR/MessageHub.cs:102-116 | a failed commit throws "Failed to add to group"; the groups are unchanged and only the SignalR group join was emitted, with no `UpdatedGroup` and no thread |
| HubProperties.AddToGroupKeepsIdsUnique | API/SignalR/MessageHub.cs:105-113 | adding a fresh connection id keeps connection ids unique within and across groups |
| HubProperties.ConnectKeepsIdsUnique | API/SignalR/MessageHub.cs:31-34 | `OnConnectedAsync` with a fresh connection id keeps connection ids unique, whatever the commit result |
| HubModel.OnDisconnected | API/SignalR/MessageHub.cs:45-50 | models `OnDisconnectedAsync` as a step on the state; no contract of its own, properties in `DisconnectUnknownConnection`, `DisconnectFailedCommit`, `DisconnectRemovesConnection`, `ConnectThenDisconnect` |
| HubModel.RemoveFromMessageGroup | API/SignalR/MessageHub.cs:120-129 | models the private `RemoveFromMessageGroup`; no contract of its own, properties in `RemoveKeepsIdsUnique`, `DisconnectRemovesConnection`, `AddThenRemove` |
| HubProperties.DisconnectUnknownConnection | API/SignalR/MessageHub.cs:122-123 | the disconnect fails with a null dereference exactly when no group holds the connection, and then changes nothing |
| HubProperties.DisconnectFailedCommit | API/SignalR/MessageHub.cs:120-128 | for a known connection, a failed commit throws "Failed to remove from group" and changes nothing, with no `UpdatedGroup` |
| HubProperties.DisconnectRemovesConnection | API/SignalR/MessageHub.cs:120-129 | a committed disconnect removes exactly the matching connection (as multisets) from the one group holding it; the connection id is then in no group; the group stays, other groups are unchanged, and `UpdatedGroup` with the remaining members goes to that group; messages, presence and users are unchanged |
| HubProperties.GroupForConnectionFinds | API/SignalR/MessageHub.cs:122 | with unique ids, the reverse lookup returns the one group that holds the connection id |
| HubProperties.RemoveKeepsIdsUnique | API/SignalR/MessageHub.cs:123-124 | taking a connection out of its group keeps ids unique and leaves that id in no group |
| HubProperties.AddThenRemove | API/SignalR/MessageHub.cs:102-129 | adding a fresh connection to a group and then removing it, both committed, gives back the group's earlier connections and returns that group |
| HubProperties.ConnectThenDisconnect | API/SignalR/MessageHub.cs:25-50 | connecting with a fresh id and then disconnecting, both committed, restores the group store; a group created by the connect remains, empty |
| HubProperties.AliceBobGroupName | API/SignalR/MessageHub.cs:132-136 | alice and bob both compute "alice-bob" |
| HubProperties.AliceConnects | API/SignalR/MessageHub.cs:25-42 | alice's connect to talk with bob creates the group "alice-bob" holding her connection |
| HubProperties.BobConnects | API/SignalR/MessageHub.cs:25-42 | bob's connect from the other side joins the same group, after alice |
| HubProperties.ScenarioRecipientOffline | API/SignalR/MessageHub.cs:53-98 | alice alone in "alice-bob", bob offline: "hi" is stored unread, nobody is notified, and `NewMessage` goes to "alice-bob" |
| HubProperties.ScenarioRecipientViewing | API/SignalR/MessageHub.cs:53-98 | alice and bob both in "alice-bob": "hi" is stored read at `now` and broadcast to the group, with no notification |
| HubProperties.ScenarioRecipientOnlineElsewhere | API/SignalR/MessageHub.cs:81-98 | bob online on the presence hub only: his two presence connections get `NewMessageReceived` with alice's username and KnownAs, then `NewMessage` goes to the group |
| SignalR.MessageHub.constructor | API/SignalR/MessageHub.cs:17-23 | the hub starts over the given store, presence and users, with an empty outbox |
| SignalR.MessageHub.AddToGroup | API/SignalR/MessageHub.cs:102-117 | called with a connection id no group holds, it keeps connection ids unique; the new groups and the returned group or error are those of `HubModel.AddToGroup`; nothing else changes |
| SignalR.MessageHub.RemoveFromMessageGroup | API/SignalR/MessageHub.cs:120-129 | the new groups and the returned group or error are those of `HubModel.RemoveFromMessageGroup`; nothing else changes; ids stay unique |
| SignalR.MessageHub.OnConnectedAsync | API/SignalR/MessageHub.cs:25-43 | new state and outcome are those of `HubModel.OnConnected`; needs a fresh connection id and keeps ids unique |
| SignalR.MessageHub.OnDisconnectedAsync | API/SignalR/MessageHub.cs:45-50 | new state and outcome are those of `HubModel.OnDisconnected`; ids stay unique |
| SignalR.MessageHub.SendMessage | API/SignalR/MessageHub.cs:53-99 | new state and outcome are those of `HubModel.SendMessage` |

## Left out

- Transport: `Groups.AddToGroupAsync` and every `SendAsync` are appends to the outbox. Delivery, a connection leaving
  SignalR groups on close, and `base.OnDisconnectedAsync` are not modelled.
- async/await and concurrency: each entry point is one atomic step, and connections do not interleave.
- `PresenceTracker` is a map the hub reads. Its locking and its updates, which the presence hub makes, are not part
  of this model.
- `GetMessageThread` and the `HasChanges`/`Complete` pair after it (lines 39-40): the thread is a parameter. Any read
  marks it records, and that second commit, are not modelled. `MessageRepository`'s implementation
  is not shown: its group and message operations (`GetMessageGroup`, `AddGroup`, `RemoveConnection`,
  `GetGroupForConnection`, `AddMessage`) are modelled only as reads and updates of the `groups` map and the
  `messages` list.
- `UserRepository` (Entity Framework queries, AutoMapper projection, paging): only `GetUserByUsernameAsync` is
  modelled, as an exact-key lookup in the users map. A database collation that compares case-insensitively is not
  modelled.
- AutoMapper's `MessageDto` mapping: the `NewMessage` payload is the message itself.
- `DateTime.UtcNow` is a `Timestamp` parameter. The message's other fields (send date, ids, user navigations) are left
  out.
- `[Authorize]` and the claims lookup: the caller's username is a parameter that is already verified.
- `ToLower` maps only ASCII `A`-`Z`. Culture-dependent and non-ASCII case mappings are not modelled.
- `OrdinalLess` compares characters by Unicode scalar value. .NET compares UTF-16 code units, and the two orders
  differ only between supplementary-plane characters and U+E000..U+FFFF.
- A duplicate connection id: the transport issues a fresh id for each connection, so `OnConnectedAsync` requires one.
  The database's key violation on a duplicate is not modelled.
- The Angular client `members.service.ts` is HTTP and local-storage plumbing. It is not part of this model.
- Null strings: the model's strings cannot be null. A missing `user` query parameter reaches `GetGroupName` as null.
  `CompareOrdinal` orders null before every string, so the name is `"-" + caller`. That is the same as passing `""`.
- A null `CreateMessageDto.RecipientUsername` throws a NullReferenceException at `ToLower()`, before the self check.
  The model does not capture this error path.
