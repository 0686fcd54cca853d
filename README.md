# Anonymous chat: presence registry and client state, in Dafny

This project models the stateful core of a small real-time chat application and proves properties of it. The core has four parts.

- **The Java WebSocket handler** (`ChatWebSocketHandler`), module `WebSocketHandler` in `handler.dfy`. It keeps three shared collections:
  - `sessions`: the open sessions by id;
  - `sessionUsers`: the user bound to each session;
  - `onlineUsers`: the online list, which may hold duplicates.

  It reacts to the container's callbacks (open, message, transport error, close). Its inbound frames are `user_join`, `message`, `user_leave`, `typing_start` and `typing_stop`. It broadcasts to every open registered session, or to all of them except the sender.
- **The `ChatRoom` component** (`chat_room.dfy`, module `ChatRoomComponent`). It covers the `onmessage` reducer, the `sendMessage` guard and the message it builds, and the avatar colour of a name.
- **The `Home` page** (`home_page.dfy`, module `HomePage`). It covers the login gate, logout, community creation without duplicates, the two message lists, and the newest-first display.
- **The `LoginForm` component** (`login_form.dfy`, module `LoginFormComponent`). It covers the name handed to `onLogin` and the `isLoading` flag.

Shared pieces:
- `common.dfy`: an `Option` type.
- `text.dfy`: ECMAScript `String.prototype.trim()` with its white-space set, and the decimal rendering of a non-negative integer.
- `protocol.dfy`: users, messages, and the client and server frames. The JSON `type` switch becomes closed datatypes.
- `relay.dfy`: composes the server's broadcasts with the client's reducer.

Each handler runs as one atomic step.

The handler's state has two forms:
- The value `HubState` has one function per operation: `Open`, `Join`, `Chat`, `Leave`, `Typing` and `Dispatch`. The lemmas are stated over these functions.
- The class `ChatWebSocketHandler` updates its fields in place. Each method is proved to take the state to that function's result. The broadcast loop `FanOut` is proved against `Deliver`.

The registry is split into two fields:
- `sessions` is the set of registered ids.
- `sockets` holds the transport state of every connection the container opened: whether `isOpen()` holds, and every frame sent to it.

The split is needed because `sendRecentMessages` writes to the session it was given, even when that session is no longer registered. `TransportAccept` and `TransportClose` are the container's side: a connection being accepted, and a socket closing. They are not handler code.

The database is represented by a ghost log of `saveUser`/`saveMessage` calls. The result of `getRecentMessages(50)` is an opaque parameter. Clocks (`LocalDateTime.now()`, `Date.now()`, `toISOString`, `getTime`) are parameters too.

The handler's class invariant has two parts, and every operation keeps both:
- `Covered`: for every user id, there are at least as many online entries as sessions bound to that id. Because of it, leaving from a bound session always finds an online entry to remove.
- `Registered`: every registered or bound session is a connection the container opened. The container calls the handler only for connections it accepted, so `AfterConnectionEstablished` and `HandleMessage` require the session to have a socket. Under this invariant a broadcast skips no registered session.

## Model

| member | source | states |
|---|---|---|
| `WebSocketHandler.FanOut` | java-backend/ChatWebSocketHandler.java:182-204 | the `forEach` loop sends the frame once to exactly the registered sessions whose socket is open, skipping the excluded one; all other sockets are left unchanged |
| `WebSocketHandler.DeliverReachesExactly` | java-backend/ChatWebSocketHandler.java:183-191 | after a broadcast, each socket's outbox is the old outbox, plus the frame exactly when the socket is registered, open and not excluded; open flags are unchanged |
| `WebSocketHandler.SendTo` | java-backend/ChatWebSocketHandler.java:177-179 | the history goes to the one session only if its socket is open; no other socket changes |
| `WebSocketHandler.IndexOf` | java-backend/ChatWebSocketHandler.java:250-256 | gives -1 or a valid index; an index it gives holds an entry equal by id (`User.equals` compares ids only) |
| `WebSocketHandler.IndexOfIsFirst` | java-backend/ChatWebSocketHandler.java:250-256 | -1 comes back exactly when no entry is equal by id; otherwise no earlier entry is |
| `WebSocketHandler.RemoveFirst` | java-backend/ChatWebSocketHandler.java:126 | `List.remove(Object)` removes at most one entry |
| `WebSocketHandler.RemoveFirstAtIndexOf` | java-backend/ChatWebSocketHandler.java:126 | the entry removed is exactly the one `indexOf` finds, and the rest keep their order; with none found, nothing is removed |
| `WebSocketHandler.CountIdRemoveFirst` | java-backend/ChatWebSocketHandler.java:126 | a removal lowers the count of the removed user's id by one, and no other id's count |
| `WebSocketHandler.Deliver` | java-backend/ChatWebSocketHandler.java:182-204 | a broadcast neither opens nor forgets a connection: the same sockets are there afterwards |
| `WebSocketHandler.Open` | java-backend/ChatWebSocketHandler.java:27-30 | the session is registered, no registration is lost, and nothing else changes |
| `WebSocketHandler.Join` | java-backend/ChatWebSocketHandler.java:66-94 | the session is bound to the user, the online list grows by one and keeps its earlier entries, and the registry and the set of connections stay as they were |
| `WebSocketHandler.Chat` | java-backend/ChatWebSocketHandler.java:96-121 | a chat message never changes the registry, the bindings or the online list; at most one save is recorded |
| `WebSocketHandler.Leave` | java-backend/ChatWebSocketHandler.java:123-141 | afterwards the session is neither registered nor bound, only that session is dropped, nothing is saved, and the online list loses at most one entry |
| `WebSocketHandler.Typing` | java-backend/ChatWebSocketHandler.java:143-167 | only the sockets can change, and the typist's own socket does not |
| `WebSocketHandler.Dispatch` | java-backend/ChatWebSocketHandler.java:41-59 | no inbound frame registers a session or opens a connection, and each records at most one save |
| `WebSocketHandler.DispatchKeepsRegistered` | java-backend/ChatWebSocketHandler.java:27-30 | every frame on an accepted connection keeps the registered and bound sessions among the connections the container opened |
| `WebSocketHandler.RegisteredReceivers` | java-backend/ChatWebSocketHandler.java:183-191 | with that invariant, a broadcast reaches exactly the registered sessions whose socket is open, other than the excluded one |
| `WebSocketHandler.JoinBindsAndAppends` | java-backend/ChatWebSocketHandler.java:74-78 | join binds the session, overwriting any earlier binding; appends the user with no duplicate check; records one `saveUser`; leaves the registry as it was |
| `WebSocketHandler.JoinTwiceListsTwice` | java-backend/ChatWebSocketHandler.java:74-75 | two joins from one session leave two entries for the user and one binding |
| `WebSocketHandler.JoinDelivery` | java-backend/ChatWebSocketHandler.java:83-93 | every registered open session, the joiner included, gets one `user_joined` that carries the updated list; then the joiner alone gets the history, if its socket is open; nothing else is sent |
| `WebSocketHandler.ChatFromUnboundIgnored` | java-backend/ChatWebSocketHandler.java:98-103 | a message from a session with no bound user is neither stored nor broadcast |
| `WebSocketHandler.ChatFromBound` | java-backend/ChatWebSocketHandler.java:106-120 | the message is stored under the bound user's name and anonymity flag, not the client's; the payload reaches every registered open session unchanged; the registry is untouched |
| `WebSocketHandler.LeaveBound` | java-backend/ChatWebSocketHandler.java:123-141 | removes the first entry equal by id; drops the binding; broadcasts `user_left` with the remaining list (the leaver included, if open); deregisters the session; saves nothing |
| `WebSocketHandler.LeaveUnbound` | java-backend/ChatWebSocketHandler.java:124-140 | with no binding, leave only deregisters the session and sends nothing |
| `WebSocketHandler.LeaveTwiceIsLeaveOnce` | java-backend/ChatWebSocketHandler.java:206-216 | a transport error followed by close runs leave twice, and the second run changes nothing |
| `WebSocketHandler.TypingSkipsSender` | java-backend/ChatWebSocketHandler.java:143-167 | typing frames from a bound session go to every registered open session except the sender; an unbound sender causes nothing; no collection changes |
| `WebSocketHandler.UnknownTypeIsNoop` | java-backend/ChatWebSocketHandler.java:57-58 | a frame of any other type changes nothing |
| `WebSocketHandler.JoinKeepsCovered` | java-backend/ChatWebSocketHandler.java:74-75 | join keeps every binding backed by an online entry of the same id |
| `WebSocketHandler.LeaveKeepsCovered` | java-backend/ChatWebSocketHandler.java:124-127 | leave keeps every binding backed by an online entry of the same id |
| `WebSocketHandler.DispatchKeepsCovered` | java-backend/ChatWebSocketHandler.java:41-59 | every inbound frame keeps that invariant |
| `WebSocketHandler.LeaveRemovesOneEntry` | java-backend/ChatWebSocketHandler.java:124-127 | under the invariant, leave of a bound session always finds an entry: the list shrinks by exactly one entry of that user's id |
| `WebSocketHandler.ChatWebSocketHandler.constructor` | java-backend/ChatWebSocketHandler.java:18-20 | all three collections start empty; the invariants hold |
| `WebSocketHandler.ChatWebSocketHandler.AfterConnectionEstablished` | java-backend/ChatWebSocketHandler.java:27-30 | registers an accepted connection under its id, changes nothing else, and keeps both invariants |
| `WebSocketHandler.ChatWebSocketHandler.HandleMessage` | java-backend/ChatWebSocketHandler.java:33-64 | for a frame on an accepted connection, dispatches on the frame type exactly as `Dispatch` does; both invariants are kept |
| `WebSocketHandler.ChatWebSocketHandler.HandleUserJoin` | java-backend/ChatWebSocketHandler.java:66-94 | the new state is `Join` of the old one; both invariants are kept |
| `WebSocketHandler.ChatWebSocketHandler.HandleChatMessage` | java-backend/ChatWebSocketHandler.java:96-121 | the new state is `Chat` of the old one |
| `WebSocketHandler.ChatWebSocketHandler.HandleUserLeave` | java-backend/ChatWebSocketHandler.java:123-141 | the new state is `Leave` of the old one; the invariant is kept |
| `WebSocketHandler.ChatWebSocketHandler.HandleTypingStart` | java-backend/ChatWebSocketHandler.java:143-154 | the new state is `Typing` (start) of the old one |
| `WebSocketHandler.ChatWebSocketHandler.HandleTypingStop` | java-backend/ChatWebSocketHandler.java:156-167 | the new state is `Typing` (stop) of the old one |
| `WebSocketHandler.ChatWebSocketHandler.SendRecentMessages` | java-backend/ChatWebSocketHandler.java:169-180 | only the given session's socket changes, and only if it is open |
| `WebSocketHandler.ChatWebSocketHandler.BroadcastMessage` | java-backend/ChatWebSocketHandler.java:182-192 | the sockets become `Deliver` of the registry with no exclusion; no other field changes |
| `WebSocketHandler.ChatWebSocketHandler.BroadcastMessageExcept` | java-backend/ChatWebSocketHandler.java:194-204 | the sockets become `Deliver` of the registry, excluding the given session; no other field changes |
| `WebSocketHandler.ChatWebSocketHandler.HandleTransportError` | java-backend/ChatWebSocketHandler.java:206-210 | runs leave for the session |
| `WebSocketHandler.ChatWebSocketHandler.AfterConnectionClosed` | java-backend/ChatWebSocketHandler.java:212-216 | runs leave for the session |
| `Text.TrimStart` | app/page.tsx:32 | the result is no longer than the input and does not start with white space |
| `Text.TrimEnd` | app/page.tsx:32 | the result is no longer than the input and does not end with white space |
| `Text.TrimStartDropsOnlySpace` | app/page.tsx:32 | leading trimming removes only white space: the result is a suffix of the input, and everything removed is white space |
| `Text.TrimEndDropsOnlySpace` | app/page.tsx:32 | trailing trimming removes only white space: the result is a prefix of the input, and everything removed is white space |
| `Text.Trim` | app/page.tsx:32 | the result is no longer than the input and has no white space at either end |
| `Text.TrimEmptyIffBlank` | components/login-form.tsx:22 | `!s.trim()` holds exactly when every character of `s` is white space |
| `Text.TrimIdempotent` | app/page.tsx:47 | trimming twice is trimming once |
| `Text.Decimal` | components/chat-room.tsx:133 | `toString` of a time is a non-empty string of digits with no leading zero |
| `Text.DecimalInjective` | components/login-form.tsx:25 | two times render the same exactly when they are equal |
| `ChatRoomComponent.Receive` | components/chat-room.tsx:93-115 | no frame removes or reorders messages, and one frame adds at most one; only a presence frame can change the online list |
| `ChatRoomComponent.ReceiveAll` | components/chat-room.tsx:93-115 | over any run of frames, earlier messages are kept in place and each frame adds at most one |
| `ChatRoomComponent.ReceiveCases` | components/chat-room.tsx:96-114 | `message` appends its message and nothing else; `user_joined`, `user_left` and `users_update` replace the online list and nothing else; any other frame (history and typing included) changes nothing |
| `ChatRoomComponent.ReceiveAllMessages` | components/chat-room.tsx:97-99 | over any run of frames, the message list grows by exactly the relayed messages, in order, and earlier messages are kept |
| `ChatRoomComponent.ReceiveAllRoster` | components/chat-room.tsx:100-113 | over any run of frames, the online list is the list carried by the last presence frame, or unchanged if there was none |
| `ChatRoomComponent.Outgoing` | components/chat-room.tsx:132-138 | the id is the decimal digits of the time, the name and flag are the logged-in user's, and the content is no longer than the input and has no white space at either end |
| `ChatRoomComponent.OutgoingContent` | components/chat-room.tsx:132-138 | a message that passes the guard has non-empty trimmed content and the logged-in user's name and flag |
| `ChatRoomComponent.CodeUnits` | components/chat-room.tsx:178 | `split("")` gives one or two UTF-16 code units per character, each below 0x10000, and one unit, the code point itself, for a BMP character |
| `ChatRoomComponent.AvatarColorIndex` | components/chat-room.tsx:178 | the index is always a valid index into the six colours; being a function of the name, the same name always gets the same colour |
| `ChatRoomComponent.AvatarColor` | components/chat-room.tsx:169-180 | the colour is one of the six listed |
| `ChatRoomComponent.CodeUnitSumAppend` | components/chat-room.tsx:178 | the code-unit sum the colour is taken from adds up over the parts of a name: every character contributes its own code units, one or two, wherever it stands |
| `ChatRoomComponent.ChatRoom.constructor` | components/chat-room.tsx:35-39 | nothing is stored, nothing is sent, not connected |
| `ChatRoomComponent.ChatRoom.LoadChatHistory` | components/chat-room.tsx:65-75 | a successful fetch replaces the message list; a failed one changes nothing |
| `ChatRoomComponent.ChatRoom.OnOpen` | components/chat-room.tsx:83-91 | the component is connected and has sent one `user_join` carrying its user |
| `ChatRoomComponent.ChatRoom.OnMessage` | components/chat-room.tsx:93-115 | the view is updated as `Receive` says; the input, connection flag and sends are untouched |
| `ChatRoomComponent.ChatRoom.OnClose` | components/chat-room.tsx:117-125 | the component is no longer connected and nothing else changes |
| `ChatRoomComponent.ChatRoom.SetNewMessage` | components/chat-room.tsx:370 | the input holds the typed text |
| `ChatRoomComponent.ChatRoom.SendMessage` | components/chat-room.tsx:128-160 | refused, with no change, when the trimmed input is empty or the client is disconnected. Otherwise the built message is sent once on the socket and posted once, and the input is cleared whether or not the post succeeds. `messages` is never touched |
| `HomePage.NewestFirst` | app/page.tsx:131-133 | the displayed copy has the same length, and position k shows the k-th newest message |
| `HomePage.NewestFirstRestores` | app/page.tsx:131-133 | display reorders and loses nothing: reversing it again gives the stored order |
| `HomePage.NewestShownFirst` | app/page.tsx:238-240 | a message just appended is displayed first, ahead of the earlier display |
| `HomePage.AppendFreshKeepsDistinct` | app/page.tsx:48-49 | appending a name not yet listed keeps the list duplicate-free |
| `HomePage.NoDuplicatesDistinct` | app/page.tsx:48 | a duplicate-free list holds different names at any two positions |
| `HomePage.CommunityNameIsTrimmed` | app/page.tsx:47 | a stored community name is its own trimmed form |
| `HomePage.AddCommunityKeepsConsistent` | app/page.tsx:46-52 | adding a fresh name with an empty list keeps the page consistent: the communities stay distinct, each has a list, and no other list exists |
| `HomePage.Home.constructor` | app/page.tsx:16-27 | all twelve fields get their initial values: logged out, login form shown, every text field, list and map empty, no community open; the invariants hold |
| `HomePage.Home.SetUsername` | app/page.tsx:88 | the username field holds the typed text; the other eleven fields are unchanged |
| `HomePage.Home.SetPassword` | app/page.tsx:95 | the password field holds the typed text; the other eleven fields are unchanged |
| `HomePage.Home.SetCommunityName` | app/page.tsx:185 | the community-name field holds the typed text; the other eleven fields are unchanged |
| `HomePage.Home.SetInput` | app/page.tsx:147 | the message input holds the typed text; the other eleven fields are unchanged |
| `HomePage.Home.HandleAuth` | app/page.tsx:31-37 | logs in exactly when both trimmed fields are non-empty, and then clears both and changes nothing else; otherwise no field changes |
| `HomePage.Home.HandleLogout` | app/page.tsx:39-44 | clears `isLoggedIn`, `chatStarted`, `communityMode` and `currentCommunity`; every other field, `showLogin`, the communities, the stored messages and the input fields included, is unchanged |
| `HomePage.Home.HandleCreateCommunity` | app/page.tsx:46-52 | a blank or already listed trimmed name changes no field. Otherwise the trimmed name is appended with an empty list, the name field is cleared, and no other field changes. The communities stay duplicate-free, each has a list, and every name stays trimmed and non-blank |
| `HomePage.Home.SelectCommunity` | app/page.tsx:204 | opens one of the listed communities; no other field changes |
| `HomePage.Home.LeaveCommunity` | app/page.tsx:269 | closes the open community; no other field changes |
| `HomePage.Home.HandleSendAnonymousMessage` | app/page.tsx:54-58 | a blank input changes no field; otherwise the input is appended at the end as typed (untrimmed) and then cleared, and no other field changes |
| `HomePage.Home.HandleSendCommunityMessage` | app/page.tsx:60-67 | refused, with no field changed, when no community is open or the input is blank. Otherwise the open community's list grows by one message at its end, the input is cleared, and no other field changes; every other community's list stays as it was |
| `HomePage.Home.DisplayedAnonymous` | app/page.tsx:131-133 | the rendered anonymous list is the stored one, newest first, without changing what is stored |
| `HomePage.Home.DisplayedCommunity` | app/page.tsx:238-240 | the rendered community list is the stored one, newest first, without changing what is stored |
| `LoginFormComponent.AnonymousName` | components/login-form.tsx:25 | an anonymous name is `Anonymous_` followed by at least one character, the time's digits |
| `LoginFormComponent.ChosenName` | components/login-form.tsx:22-25 | a name handed on is never empty; a typed name is never longer than the field; an anonymous one starts with `Anonymous_` |
| `LoginFormComponent.ChosenNameCases` | components/login-form.tsx:22-25 | only a blank non-anonymous submit is refused. An anonymous submit ignores the username field, even a blank one, and uses the anonymous name. A non-anonymous one uses the trimmed username |
| `LoginFormComponent.ChosenNameIsTrimmed` | components/login-form.tsx:25 | whatever the path, the name handed on is non-empty and has no white space at either end |
| `LoginFormComponent.AnonymousNamesCollideOnlyAtSameTime` | components/login-form.tsx:25 | two anonymous logins get the same name exactly when they happen in the same millisecond |
| `LoginFormComponent.LoginForm.constructor` | components/login-form.tsx:17-18 | empty username, not loading, no login yet |
| `LoginFormComponent.LoginForm.SetUsername` | components/login-form.tsx:115 | the username field holds the typed text |
| `LoginFormComponent.LoginForm.OnLogin` | components/login-form.tsx:13 | one call of the prop is recorded, with the current `isLoading` |
| `LoginFormComponent.LoginForm.HandleSubmit` | components/login-form.tsx:20-27 | a refused submit changes nothing. Otherwise `onLogin` is called once with the chosen name and the unchanged `isAnonymous` flag, while `isLoading` is true. `isLoading` is false afterwards, unless `onLogin` threw |
| `LoginFormComponent.LoginForm.HandleAnonymousLogin` | components/login-form.tsx:29-31 | calls `onLogin` with the anonymous name and `true`, whatever the username field holds |
| `Relay.RelayedMessageShownOnce` | java-backend/ChatWebSocketHandler.java:114-120 | a message relayed from a bound session appears exactly once, at the end of the message list, in every receiving client; that client's online list does not change |
| `Relay.JoinerSeesItself` | java-backend/ChatWebSocketHandler.java:83-93 | a registered open joiner ends up showing the updated online list, because the client ignores the history frame that follows; its message list is unchanged |

## Left out

- Concurrency. The model does not capture:
  - the semantics of `ConcurrentHashMap` and `CopyOnWriteArrayList`;
  - interleaving between callbacks;
  - the `async` gaps in `sendMessage` and `handleSubmit`.

  Each handler is one atomic step.
- The client's 3-second reconnect timer (components/chat-room.tsx:117-120). `OnClose` stands for both `onclose` and `onerror` and only clears `isConnected`.
- JSON parsing and serialisation (Jackson, `JSON.parse`, `JSON.stringify`). Frames are datatypes, and serialisation is assumed to succeed. This has three consequences:
  - A malformed frame is not modelled. In the source it raises an exception that `handleMessage` catches, after whatever the handler had already done.
  - The exception `Map.of` throws when a field is missing (null) is not modelled.
  - A failure of `writeValueAsString` on the `User.joinTime` field is not modelled. The plain `ObjectMapper` may lack the Java time module.
- `User.joinTime` (a clock reading) is not part of the `User` value.
- `IOException`s from `sendMessage` are not modelled. Every send to an open socket is taken to succeed.
- The database, `java-backend/DatabaseService.java`:
  - SQL ordering, `LIMIT` and the `ON CONFLICT` upsert are not modelled;
  - a failed save is not modelled: the log records every call made.

  The history passed to `SendRecentMessages` is an opaque parameter. It is not tied to the log, and its bound of 50 messages is not enforced.
- Clocks and locale: `LocalDateTime.now()`, `Date.now()`, `toISOString`, `toLocaleTimeString`, `getTime` and `formatTime` are parameters or left out.
- `WebSocketSession.equals` in `broadcastMessageExcept` is taken as equality of session ids.
- Rendering, toasts, scrolling, animation and theme switching.
- The `isTyping` state of the chat room. Nothing in the component sets it.
- Page navigation that only flips one display flag: the login/sign-up toggle, "Start Anonymous Chat", "Explore Communities", and the two "Back to Home" buttons (app/page.tsx:106, 162, 215, 282, 288). Each sets one boolean and nothing else.
- The Next.js API routes, the 426 WebSocket stub, `server.js` and the Spring configuration are not part of this model.
- `Relay.RelayedMessageShownOnce`, `Relay.JoinerSeesItself`: these lemmas compose the handler with the client and take three things about the deployment for granted:
  - The server's and the client's `User` are one value. The plain `ObjectMapper` (java-backend/ChatWebSocketHandler.java:21) writes the `isAnonymous()` getter (line 244) as `anonymous` and adds `joinTime`. The users in presence frames therefore reach the client without the `isAnonymous` field that components/chat-room.tsx:230 reads.
  - The client reaches this handler. The client dials `/api/websocket` (components/chat-room.tsx:79), which in this repository is the 426 stub. The handler is registered at `/chat` with SockJS (`SpringBootChatApplication.java`, not part of this model).
  - The database calls return normally. The registration creates the handler with `new`, so its `@Autowired` `databaseService` stays null. Lines 78 and 110 would then throw, and `handleMessage` would swallow the exception before any broadcast. In the join case the binding and the online entry are already made at that point.
- `LoginFormComponent.LoginForm.HandleSubmit`: `onLogin`'s own effect belongs to the caller of the form and is not part of this model. It is recorded only as a call.
