/**
 * The presence and session registry of `ChatWebSocketHandler`: the shared
 * `sessions`, `sessionUsers` and `onlineUsers` collections, the callbacks the
 * WebSocket container invokes, and the two broadcast loops.
 *
 * The state is given twice: as the value `HubState`, with one function per
 * handler operation (these carry the lemmas), and as the class
 * `ChatWebSocketHandler`, whose methods update the fields in place and are
 * proved to follow those functions.
 */
module WebSocketHandler {
  import opened Common
  import opened Protocol

  /** What the handler can observe of one `WebSocketSession`: `isOpen()`, and every frame sent to it. */
  datatype Socket = Socket(open: bool, outbox: seq<ServerEvent>)

  /** One call the handler makes on `DatabaseService`. */
  datatype DbCall =
    | SaveUser(id: string, username: string, isAnonymous: bool)
    | SaveMessage(id: string, username: string, content: string, isAnonymous: bool)

  /**
   * The handler's shared state: `sessions` is the key set of the session
   * registry, `sockets` the transport state of every connection the container
   * has opened, `saved` the calls made on the database.
   */
  datatype HubState = HubState(
    sockets: map<SessionId, Socket>,
    sessions: set<SessionId>,
    sessionUsers: map<SessionId, User>,
    onlineUsers: seq<User>,
    saved: seq<DbCall>)

  // ---------------------------------------------------------------------------
  // Broadcast

  /** A broadcast reaches `sid` when it is registered, its socket is open and it is not the excluded session. */
  predicate Receives(sockets: map<SessionId, Socket>, registry: set<SessionId>, except: Option<SessionId>, sid: SessionId) {
    sid in registry && sid in sockets && sockets[sid].open && except != Some(sid)
  }

  /** The sockets after one broadcast of `e` to the registry. */
  function Deliver(sockets: map<SessionId, Socket>, registry: set<SessionId>, except: Option<SessionId>, e: ServerEvent): (r: map<SessionId, Socket>)
    ensures r.Keys == sockets.Keys
  {
    map sid | sid in sockets ::
      if Receives(sockets, registry, except, sid) then sockets[sid].(outbox := sockets[sid].outbox + [e]) else sockets[sid]
  }

  /** A broadcast adds `e` once to the end of every receiver's outbox and touches nothing else. */
  lemma DeliverReachesExactly(sockets: map<SessionId, Socket>, registry: set<SessionId>, except: Option<SessionId>, e: ServerEvent, sid: SessionId)
    requires sid in sockets
    ensures Deliver(sockets, registry, except, e)[sid].open == sockets[sid].open
    ensures Deliver(sockets, registry, except, e)[sid].outbox
         == sockets[sid].outbox + (if Receives(sockets, registry, except, sid) then [e] else [])
  {
  }

  /**
   * The `sessions.values().forEach` loop shared by `broadcastMessage`
   * (`except == None`) and `broadcastMessageExcept`: every registered open
   * session other than the excluded one is sent `e`.
   */
  method FanOut(sockets: map<SessionId, Socket>, registry: set<SessionId>, except: Option<SessionId>, e: ServerEvent)
    returns (r: map<SessionId, Socket>)
    ensures r == Deliver(sockets, registry, except, e)
  {
    r := sockets;
    var pending := registry;
    assert r == Deliver(sockets, {}, except, e);
    while pending != {}
      invariant pending <= registry
      invariant r == Deliver(sockets, registry - pending, except, e)
      decreases pending
    {
      var sid :| sid in pending;
      ghost var done := registry - pending;
      if sid in r && r[sid].open && except != Some(sid) {
        r := r[sid := r[sid].(outbox := r[sid].outbox + [e])];
      }
      pending := pending - {sid};
      assert registry - pending == done + {sid};
    }
    assert registry - pending == registry;
  }

  /** `sendRecentMessages`: a frame to one session, only if its socket is open. */
  function SendTo(sockets: map<SessionId, Socket>, sid: SessionId, e: ServerEvent): (r: map<SessionId, Socket>)
    ensures r.Keys == sockets.Keys
    ensures forall s :: s in sockets && s != sid ==> r[s] == sockets[s]
    ensures sid in sockets ==> r[sid].open == sockets[sid].open
    ensures sid in sockets ==> r[sid].outbox == sockets[sid].outbox + (if sockets[sid].open then [e] else [])
  {
    if sid in sockets && sockets[sid].open then sockets[sid := sockets[sid].(outbox := sockets[sid].outbox + [e])] else sockets
  }

  // ---------------------------------------------------------------------------
  // The online list: `List.remove(Object)` with `User.equals`

  /** `onlineUsers.indexOf(u)`: the first entry equal to `u` by id, or -1. */
  function IndexOf(users: seq<User>, u: User): (r: int)
    ensures -1 <= r < |users|
    ensures 0 <= r ==> SameUser(u, users[r])
  {
    if users == [] then -1
    else if SameUser(u, users[0]) then 0
    else
      var i := IndexOf(users[1..], u);
      if i == -1 then -1 else i + 1
  }

  /** `indexOf` gives -1 exactly when no entry matches, and otherwise no earlier entry matches. */
  lemma {:induction false} IndexOfIsFirst(users: seq<User>, u: User)
    ensures IndexOf(users, u) == -1 <==> forall k :: 0 <= k < |users| ==> !SameUser(u, users[k])
    ensures forall k :: 0 <= k < IndexOf(users, u) ==> !SameUser(u, users[k])
  {
    if users != [] && !SameUser(u, users[0]) {
      var tail := users[1..];
      IndexOfIsFirst(tail, u);
      assert forall k :: 1 <= k < |users| ==> users[k] == tail[k - 1];
    }
  }

  /** `onlineUsers.remove(u)`: scans for the first entry equal to `u` by id and drops it, if there is one. */
  function RemoveFirst(users: seq<User>, u: User): (r: seq<User>)
    ensures |users| - 1 <= |r| <= |users|
  {
    if users == [] then []
    else if SameUser(u, users[0]) then users[1..]
    else [users[0]] + RemoveFirst(users[1..], u)
  }

  /** The entry removed is exactly the one `indexOf` finds; with none found, nothing is removed. */
  lemma {:induction false} RemoveFirstAtIndexOf(users: seq<User>, u: User)
    ensures IndexOf(users, u) == -1 ==> RemoveFirst(users, u) == users
    ensures IndexOf(users, u) >= 0 ==>
      RemoveFirst(users, u) == users[..IndexOf(users, u)] + users[IndexOf(users, u) + 1..]
  {
    if users != [] && !SameUser(u, users[0]) {
      var tail := users[1..];
      RemoveFirstAtIndexOf(tail, u);
      var i := IndexOf(tail, u);
      assert users == [users[0]] + tail;
      if i >= 0 {
        assert users[..i + 1] == [users[0]] + tail[..i];
        assert users[i + 2..] == tail[i + 1..];
      }
    }
  }

  /** How many online entries carry the user id `id`. */
  function CountId(users: seq<User>, id: string): nat {
    if users == [] then 0 else (if users[0].id == id then 1 else 0) + CountId(users[1..], id)
  }

  lemma {:induction false} CountIdAppend(users: seq<User>, u: User, id: string)
    ensures CountId(users + [u], id) == CountId(users, id) + (if u.id == id then 1 else 0)
  {
    if users != [] {
      assert (users + [u])[1..] == users[1..] + [u];
      CountIdAppend(users[1..], u, id);
    }
  }

  /** Removing one entry lowers the count of exactly that entry's id, by one. */
  lemma {:induction false} CountIdRemoveFirst(users: seq<User>, u: User, id: string)
    ensures CountId(RemoveFirst(users, u), id)
         == CountId(users, id) - (if IndexOf(users, u) >= 0 && u.id == id then 1 else 0)
  {
    if users != [] && !SameUser(u, users[0]) {
      CountIdRemoveFirst(users[1..], u, id);
      assert ([users[0]] + RemoveFirst(users[1..], u))[1..] == RemoveFirst(users[1..], u);
    }
  }

  /** An id that occurs in the list is found by `indexOf`. */
  lemma {:induction false} CountIdFound(users: seq<User>, u: User)
    requires CountId(users, u.id) > 0
    ensures IndexOf(users, u) >= 0
  {
    if users[0].id != u.id {
      CountIdFound(users[1..], u);
    }
  }

  // ---------------------------------------------------------------------------
  // The handler's operations, as functions of the state

  /** `afterConnectionEstablished`: the session is registered under its id. */
  function Open(h: HubState, sid: SessionId): (r: HubState)
    ensures sid in r.sessions && h.sessions <= r.sessions
    ensures r.sockets == h.sockets && r.sessionUsers == h.sessionUsers && r.onlineUsers == h.onlineUsers && r.saved == h.saved
  {
    h.(sessions := h.sessions + {sid})
  }

  /**
   * `handleUserJoin`: bind the session, append to the online list, save the
   * user, broadcast `user_joined` with the new list, then send the history to
   * the joining session.
   */
  function Join(h: HubState, sid: SessionId, u: User, recent: seq<Message>, now: string): (r: HubState)
    ensures r.sockets.Keys == h.sockets.Keys && r.sessions == h.sessions
    ensures sid in r.sessionUsers && r.sessionUsers[sid] == u
    ensures |r.onlineUsers| == |h.onlineUsers| + 1 && h.onlineUsers <= r.onlineUsers
  {
    var users := h.onlineUsers + [u];
    var joined := Deliver(h.sockets, h.sessions, None, UserJoined(u.username, users, now));
    HubState(
      SendTo(joined, sid, MessageHistory(recent)),
      h.sessions,
      h.sessionUsers[sid := u],
      users,
      h.saved + [SaveUser(u.id, u.username, u.isAnonymous)])
  }

  /**
   * `handleChatMessage`: ignored for an unbound session; otherwise stored under
   * the bound user's name and anonymity flag, and the client's payload is
   * broadcast as it came.
   */
  function Chat(h: HubState, sid: SessionId, m: Message): (r: HubState)
    ensures r.sessions == h.sessions && r.sessionUsers == h.sessionUsers && r.onlineUsers == h.onlineUsers
    ensures r.sockets.Keys == h.sockets.Keys
    ensures h.saved <= r.saved && |r.saved| <= |h.saved| + 1
  {
    if sid !in h.sessionUsers then h
    else
      var sender := h.sessionUsers[sid];
      h.(saved := h.saved + [SaveMessage(m.id, sender.username, m.content, sender.isAnonymous)],
         sockets := Deliver(h.sockets, h.sessions, None, MessageEvent(m)))
  }

  /**
   * `handleUserLeave`: for a bound session, remove one online entry equal by
   * id, drop the binding and broadcast `user_left`; in every case deregister
   * the session.
   */
  function Leave(h: HubState, sid: SessionId, now: string): (r: HubState)
    ensures sid !in r.sessions && sid !in r.sessionUsers
    ensures r.sessions == h.sessions - {sid} && r.sessionUsers.Keys == h.sessionUsers.Keys - {sid}
    ensures r.sockets.Keys == h.sockets.Keys && r.saved == h.saved
    ensures |h.onlineUsers| - 1 <= |r.onlineUsers| <= |h.onlineUsers|
  {
    var h1 :=
      if sid !in h.sessionUsers then h
      else
        var u := h.sessionUsers[sid];
        var users := RemoveFirst(h.onlineUsers, u);
        h.(onlineUsers := users,
           sessionUsers := h.sessionUsers - {sid},
           sockets := Deliver(h.sockets, h.sessions, None, UserLeft(u.username, users, now)));
    h1.(sessions := h1.sessions - {sid})
  }

  /** `handleTypingStart` / `handleTypingStop`: a bound session's typing state goes to everyone else. */
  function Typing(h: HubState, sid: SessionId, start: bool, now: string): (r: HubState)
    ensures r == h.(sockets := r.sockets) && r.sockets.Keys == h.sockets.Keys
    ensures sid in h.sockets ==> r.sockets[sid] == h.sockets[sid]
  {
    if sid !in h.sessionUsers then h
    else
      var name := h.sessionUsers[sid].username;
      var e := if start then TypingStarted(name, now) else TypingStopped(name, now);
      h.(sockets := Deliver(h.sockets, h.sessions, Some(sid), e))
  }

  /** `handleMessage`: the `switch` on the frame's type; any other type changes nothing. */
  function Dispatch(h: HubState, sid: SessionId, ev: ClientEvent, recent: seq<Message>, now: string): (r: HubState)
    ensures r.sessions <= h.sessions && r.sockets.Keys == h.sockets.Keys
    ensures h.saved <= r.saved && |r.saved| <= |h.saved| + 1
  {
    match ev
    case UserJoin(u) => Join(h, sid, u, recent, now)
    case ChatMessage(m) => Chat(h, sid, m)
    case UserLeave => Leave(h, sid, now)
    case TypingStart => Typing(h, sid, true, now)
    case TypingStop => Typing(h, sid, false, now)
    case Unrecognised(_) => h
  }

  // ---------------------------------------------------------------------------
  // Properties of the operations

  /** Join binds the session (replacing any earlier binding), appends the user without a duplicate check and saves it. */
  lemma JoinBindsAndAppends(h: HubState, sid: SessionId, u: User, recent: seq<Message>, now: string)
    ensures var h' := Join(h, sid, u, recent, now);
      && h'.sessionUsers == h.sessionUsers[sid := u]
      && h'.onlineUsers == h.onlineUsers + [u]
      && h'.sessions == h.sessions
      && h'.saved == h.saved + [SaveUser(u.id, u.username, u.isAnonymous)]
      && CountId(h'.onlineUsers, u.id) == CountId(h.onlineUsers, u.id) + 1
  {
    CountIdAppend(h.onlineUsers, u, u.id);
  }

  /** Joining twice from one session leaves two entries for the user. */
  lemma JoinTwiceListsTwice(h: HubState, sid: SessionId, u: User, r1: seq<Message>, r2: seq<Message>, t1: string, t2: string)
    ensures var h' := Join(Join(h, sid, u, r1, t1), sid, u, r2, t2);
      && h'.onlineUsers == h.onlineUsers + [u, u]
      && h'.sessionUsers == h.sessionUsers[sid := u]
      && CountId(h'.onlineUsers, u.id) == CountId(h.onlineUsers, u.id) + 2
  {
    JoinBindsAndAppends(h, sid, u, r1, t1);
    JoinBindsAndAppends(Join(h, sid, u, r1, t1), sid, u, r2, t2);
  }

  /**
   * Who hears about a join: every registered open session (the joiner
   * included) gets one `user_joined` carrying the updated list, and the joiner
   * then gets the history if its socket is open. No other frame is sent.
   */
  lemma JoinDelivery(h: HubState, sid: SessionId, u: User, recent: seq<Message>, now: string, s: SessionId)
    requires s in h.sockets
    ensures var h' := Join(h, sid, u, recent, now);
      && h'.sockets.Keys == h.sockets.Keys
      && h'.sockets[s].open == h.sockets[s].open
      && h'.sockets[s].outbox
         == h.sockets[s].outbox
          + (if Receives(h.sockets, h.sessions, None, s) then [UserJoined(u.username, h.onlineUsers + [u], now)] else [])
          + (if s == sid && h.sockets[s].open then [MessageHistory(recent)] else [])
  {
    DeliverReachesExactly(h.sockets, h.sessions, None, UserJoined(u.username, h.onlineUsers + [u], now), s);
  }

  /** A chat message from a session with no bound user is neither stored nor broadcast. */
  lemma ChatFromUnboundIgnored(h: HubState, sid: SessionId, m: Message)
    requires sid !in h.sessionUsers
    ensures Chat(h, sid, m) == h
  {
  }

  /**
   * A chat message from a bound session is stored with the bound user's name
   * and flag (whatever the client put in its payload) and its payload reaches
   * every registered open session unchanged; the registry is not touched.
   */
  lemma ChatFromBound(h: HubState, sid: SessionId, m: Message, s: SessionId)
    requires sid in h.sessionUsers && s in h.sockets
    ensures var h' := Chat(h, sid, m);
      var sender := h.sessionUsers[sid];
      && h'.saved == h.saved + [SaveMessage(m.id, sender.username, m.content, sender.isAnonymous)]
      && h'.sessions == h.sessions && h'.sessionUsers == h.sessionUsers && h'.onlineUsers == h.onlineUsers
      && h'.sockets[s].outbox == h.sockets[s].outbox + (if Receives(h.sockets, h.sessions, None, s) then [MessageEvent(m)] else [])
  {
    DeliverReachesExactly(h.sockets, h.sessions, None, MessageEvent(m), s);
  }

  /**
   * Leave of a bound session removes the first online entry equal to its user
   * by id, drops the binding, broadcasts `user_left` with the remaining list
   * and deregisters the session.
   */
  lemma LeaveBound(h: HubState, sid: SessionId, now: string, s: SessionId)
    requires sid in h.sessionUsers && s in h.sockets
    ensures var h' := Leave(h, sid, now);
      var u := h.sessionUsers[sid];
      && h'.onlineUsers == RemoveFirst(h.onlineUsers, u)
      && h'.sessionUsers == h.sessionUsers - {sid}
      && h'.sessions == h.sessions - {sid}
      && h'.saved == h.saved
      && h'.sockets[s].outbox
         == h.sockets[s].outbox + (if Receives(h.sockets, h.sessions, None, s) then [UserLeft(u.username, h'.onlineUsers, now)] else [])
  {
    var u := h.sessionUsers[sid];
    DeliverReachesExactly(h.sockets, h.sessions, None, UserLeft(u.username, RemoveFirst(h.onlineUsers, u), now), s);
  }

  /** Leave of an unbound session only deregisters it: nothing is broadcast. */
  lemma LeaveUnbound(h: HubState, sid: SessionId, now: string)
    requires sid !in h.sessionUsers
    ensures Leave(h, sid, now) == h.(sessions := h.sessions - {sid})
  {
  }

  /**
   * Leave is safe to repeat: a transport error followed by the close callback
   * runs it twice, and the second run finds no binding, sends nothing and
   * changes no state.
   */
  lemma LeaveTwiceIsLeaveOnce(h: HubState, sid: SessionId, t1: string, t2: string)
    ensures Leave(Leave(h, sid, t1), sid, t2) == Leave(h, sid, t1)
  {
    var h1 := Leave(h, sid, t1);
    assert sid !in h1.sessionUsers && sid !in h1.sessions;
    assert h1.sessions - {sid} == h1.sessions;
  }

  /** Typing events go to every registered open session except the typist, and only for a bound session. */
  lemma TypingSkipsSender(h: HubState, sid: SessionId, start: bool, now: string, s: SessionId)
    requires s in h.sockets
    ensures var h' := Typing(h, sid, start, now);
      && h'.sessions == h.sessions && h'.sessionUsers == h.sessionUsers
      && h'.onlineUsers == h.onlineUsers && h'.saved == h.saved
      && (sid !in h.sessionUsers || s == sid ==> h'.sockets[s] == h.sockets[s])
      && (sid in h.sessionUsers && s != sid ==>
            h'.sockets[s].outbox == h.sockets[s].outbox + (if Receives(h.sockets, h.sessions, None, s) then [
              if start then TypingStarted(h.sessionUsers[sid].username, now) else TypingStopped(h.sessionUsers[sid].username, now)
            ] else []))
  {
  }

  /** A frame of an unknown type changes nothing. */
  lemma UnknownTypeIsNoop(h: HubState, sid: SessionId, tag: string, recent: seq<Message>, now: string)
    ensures Dispatch(h, sid, Unrecognised(tag), recent, now) == h
  {
  }

  // ---------------------------------------------------------------------------
  // The online-list invariant

  /** The sessions currently bound to a user with id `id`. */
  function BoundTo(m: map<SessionId, User>, id: string): set<SessionId> {
    set s | s in m && m[s].id == id
  }

  /** Every binding is backed by an online entry: per id, no more bound sessions than entries. */
  ghost predicate Covered(h: HubState) {
    forall id :: |BoundTo(h.sessionUsers, id)| <= CountId(h.onlineUsers, id)
  }

  lemma SubsetCard(a: set<SessionId>, b: set<SessionId>)
    requires a <= b
    ensures |a| <= |b|
  {
    assert b == a + (b - a);
  }

  lemma JoinKeepsCovered(h: HubState, sid: SessionId, u: User, recent: seq<Message>, now: string)
    requires Covered(h)
    ensures Covered(Join(h, sid, u, recent, now))
  {
    var h' := Join(h, sid, u, recent, now);
    forall id ensures |BoundTo(h'.sessionUsers, id)| <= CountId(h'.onlineUsers, id) {
      CountIdAppend(h.onlineUsers, u, id);
      var before := BoundTo(h.sessionUsers, id);
      if u.id == id {
        SubsetCard(BoundTo(h'.sessionUsers, id), before + {sid});
        assert |before + {sid}| <= |before| + 1;
      } else {
        SubsetCard(BoundTo(h'.sessionUsers, id), before);
      }
    }
  }

  lemma LeaveKeepsCovered(h: HubState, sid: SessionId, now: string)
    requires Covered(h)
    ensures Covered(Leave(h, sid, now))
  {
    var h' := Leave(h, sid, now);
    if sid in h.sessionUsers {
      var u := h.sessionUsers[sid];
      assert sid in BoundTo(h.sessionUsers, u.id);
      CountIdFound(h.onlineUsers, u);
      forall id ensures |BoundTo(h'.sessionUsers, id)| <= CountId(h'.onlineUsers, id) {
        CountIdRemoveFirst(h.onlineUsers, u, id);
        var before := BoundTo(h.sessionUsers, id);
        assert BoundTo(h'.sessionUsers, id) == before - {sid};
        if u.id == id {
          assert |before - {sid}| == |before| - 1;
        }
      }
    }
  }

  /** Every operation of the handler keeps every binding backed by an online entry. */
  lemma DispatchKeepsCovered(h: HubState, sid: SessionId, ev: ClientEvent, recent: seq<Message>, now: string)
    requires Covered(h)
    ensures Covered(Dispatch(h, sid, ev, recent, now))
  {
    match ev
    case UserJoin(u) => JoinKeepsCovered(h, sid, u, recent, now);
    case UserLeave => LeaveKeepsCovered(h, sid, now);
    case _ =>
  }

  /**
   * Consequently leave of a bound session always finds an entry to remove: the
   * online list shrinks by exactly one, and by one entry of that user's id.
   */
  lemma LeaveRemovesOneEntry(h: HubState, sid: SessionId, now: string)
    requires Covered(h) && sid in h.sessionUsers
    ensures var u := h.sessionUsers[sid];
      && IndexOf(h.onlineUsers, u) >= 0
      && |Leave(h, sid, now).onlineUsers| == |h.onlineUsers| - 1
      && CountId(Leave(h, sid, now).onlineUsers, u.id) == CountId(h.onlineUsers, u.id) - 1
  {
    var u := h.sessionUsers[sid];
    assert sid in BoundTo(h.sessionUsers, u.id);
    CountIdFound(h.onlineUsers, u);
    RemoveFirstAtIndexOf(h.onlineUsers, u);
    CountIdRemoveFirst(h.onlineUsers, u, u.id);
  }

  // ---------------------------------------------------------------------------
  // The registry holds live connections

  /**
   * Every registered or bound session is a connection the container opened:
   * the `sessions` map only ever holds `WebSocketSession`s it was handed.
   */
  predicate Registered(h: HubState) {
    h.sessions <= h.sockets.Keys && h.sessionUsers.Keys <= h.sockets.Keys
  }

  /** Every handler operation on an accepted connection keeps the registry within the opened connections. */
  lemma DispatchKeepsRegistered(h: HubState, sid: SessionId, ev: ClientEvent, recent: seq<Message>, now: string)
    requires Registered(h) && sid in h.sockets
    ensures Registered(Dispatch(h, sid, ev, recent, now))
    ensures Dispatch(h, sid, ev, recent, now).sockets.Keys == h.sockets.Keys
  {
    match ev
    case UserJoin(u) =>
      var h' := Join(h, sid, u, recent, now);
      assert h'.sessionUsers.Keys == h.sessionUsers.Keys + {sid};
    case UserLeave =>
      var h' := Leave(h, sid, now);
      assert h'.sessionUsers.Keys <= h.sessionUsers.Keys;
    case _ =>
  }

  /**
   * Under that invariant a broadcast reaches exactly the registered sessions
   * whose socket is open, other than the excluded one: no registered session
   * is skipped for want of a connection.
   */
  lemma {:induction false} RegisteredReceivers(h: HubState, except: Option<SessionId>, s: SessionId)
    requires Registered(h)
    ensures Receives(h.sockets, h.sessions, except, s) <==> s in h.sessions && h.sockets[s].open && except != Some(s)
  {
    if s in h.sessions {
      assert s in h.sockets.Keys;
    }
  }

  // ---------------------------------------------------------------------------
  // The handler object

  class ChatWebSocketHandler {
    /** Transport state of every connection the container has opened. */
    var sockets: map<SessionId, Socket>
    /** The key set of the static `sessions` map. */
    var sessions: set<SessionId>
    var sessionUsers: map<SessionId, User>
    var onlineUsers: seq<User>
    /** The calls made on `DatabaseService`, standing in for the database. */
    ghost var saved: seq<DbCall>

    ghost function State(): HubState
      reads this
    {
      HubState(sockets, sessions, sessionUsers, onlineUsers, saved)
    }

    ghost predicate Valid()
      reads this
    {
      Covered(State()) && Registered(State())
    }

    constructor ()
      ensures Valid()
      ensures State() == HubState(map[], {}, map[], [], [])
    {
      sockets, sessions, sessionUsers, onlineUsers := map[], {}, map[], [];
      saved := [];
    }

    /** The container accepting a new connection (not handler code): an open socket with nothing sent. */
    method TransportAccept(sid: SessionId)
      requires Valid() && sid !in sockets
      modifies this
      ensures Valid()
      ensures State() == old(State()).(sockets := old(sockets)[sid := Socket(true, [])])
    {
      sockets := sockets[sid := Socket(true, [])];
    }

    /** The peer or the network closing a connection (not handler code): `isOpen()` becomes false. */
    method TransportClose(sid: SessionId)
      requires Valid() && sid in sockets
      modifies this
      ensures Valid()
      ensures State() == old(State()).(sockets := old(sockets)[sid := old(sockets)[sid].(open := false)])
    {
      sockets := sockets[sid := sockets[sid].(open := false)];
    }

    method AfterConnectionEstablished(sid: SessionId)
      requires Valid() && sid in sockets
      modifies this
      ensures Valid()
      ensures State() == Open(old(State()), sid)
      ensures sessions == old(sessions) + {sid}
      ensures sockets == old(sockets) && sessionUsers == old(sessionUsers) && onlineUsers == old(onlineUsers) && saved == old(saved)
    {
      sessions := sessions + {sid};
    }

    method HandleMessage(sid: SessionId, ev: ClientEvent, recent: seq<Message>, now: string)
      requires Valid() && sid in sockets
      modifies this
      ensures Valid()
      ensures State() == Dispatch(old(State()), sid, ev, recent, now)
    {
      match ev {
        case UserJoin(u) => HandleUserJoin(sid, u, recent, now);
        case ChatMessage(m) => HandleChatMessage(sid, m);
        case UserLeave => HandleUserLeave(sid, now);
        case TypingStart => HandleTypingStart(sid, now);
        case TypingStop => HandleTypingStop(sid, now);
        case Unrecognised(_) =>
      }
    }

    method HandleUserJoin(sid: SessionId, u: User, recent: seq<Message>, now: string)
      requires Valid() && sid in sockets
      modifies this
      ensures Valid()
      ensures State() == Join(old(State()), sid, u, recent, now)
    {
      ghost var h := State();
      sessionUsers := sessionUsers[sid := u];
      onlineUsers := onlineUsers + [u];
      saved := saved + [SaveUser(u.id, u.username, u.isAnonymous)];
      BroadcastMessage(UserJoined(u.username, onlineUsers, now));
      SendRecentMessages(sid, recent);
      JoinKeepsCovered(h, sid, u, recent, now);
      DispatchKeepsRegistered(h, sid, UserJoin(u), recent, now);
    }

    method HandleChatMessage(sid: SessionId, m: Message)
      requires Valid()
      modifies this
      ensures Valid()
      ensures State() == Chat(old(State()), sid, m)
    {
      if sid !in sessionUsers {
        return;
      }
      var sender := sessionUsers[sid];
      saved := saved + [SaveMessage(m.id, sender.username, m.content, sender.isAnonymous)];
      BroadcastMessage(MessageEvent(m));
    }

    method HandleUserLeave(sid: SessionId, now: string)
      requires Valid()
      modifies this
      ensures Valid()
      ensures State() == Leave(old(State()), sid, now)
    {
      ghost var h := State();
      if sid in sessionUsers {
        var u := sessionUsers[sid];
        onlineUsers := RemoveFirst(onlineUsers, u);
        sessionUsers := sessionUsers - {sid};
        BroadcastMessage(UserLeft(u.username, onlineUsers, now));
      }
      sessions := sessions - {sid};
      LeaveKeepsCovered(h, sid, now);
    }

    method HandleTypingStart(sid: SessionId, now: string)
      requires Valid()
      modifies this
      ensures Valid()
      ensures State() == Typing(old(State()), sid, true, now)
    {
      if sid in sessionUsers {
        BroadcastMessageExcept(TypingStarted(sessionUsers[sid].username, now), sid);
      }
    }

    method HandleTypingStop(sid: SessionId, now: string)
      requires Valid()
      modifies this
      ensures Valid()
      ensures State() == Typing(old(State()), sid, false, now)
    {
      if sid in sessionUsers {
        BroadcastMessageExcept(TypingStopped(sessionUsers[sid].username, now), sid);
      }
    }

    /** `recent` is what `getRecentMessages(50)` returned. */
    method SendRecentMessages(sid: SessionId, recent: seq<Message>)
      modifies this
      ensures sockets == SendTo(old(sockets), sid, MessageHistory(recent))
      ensures sessions == old(sessions) && sessionUsers == old(sessionUsers) && onlineUsers == old(onlineUsers) && saved == old(saved)
    {
      if sid in sockets && sockets[sid].open {
        sockets := sockets[sid := sockets[sid].(outbox := sockets[sid].outbox + [MessageHistory(recent)])];
      }
    }

    method BroadcastMessage(e: ServerEvent)
      modifies this
      ensures sockets == Deliver(old(sockets), sessions, None, e)
      ensures sessions == old(sessions) && sessionUsers == old(sessionUsers) && onlineUsers == old(onlineUsers) && saved == old(saved)
    {
      sockets := FanOut(sockets, sessions, None, e);
    }

    method BroadcastMessageExcept(e: ServerEvent, exclude: SessionId)
      modifies this
      ensures sockets == Deliver(old(sockets), sessions, Some(exclude), e)
      ensures sessions == old(sessions) && sessionUsers == old(sessionUsers) && onlineUsers == old(onlineUsers) && saved == old(saved)
    {
      sockets := FanOut(sockets, sessions, Some(exclude), e);
    }

    method HandleTransportError(sid: SessionId, now: string)
      requires Valid()
      modifies this
      ensures Valid()
      ensures State() == Leave(old(State()), sid, now)
    {
      HandleUserLeave(sid, now);
    }

    method AfterConnectionClosed(sid: SessionId, now: string)
      requires Valid()
      modifies this
      ensures Valid()
      ensures State() == Leave(old(State()), sid, now)
    {
      HandleUserLeave(sid, now);
    }
  }
}
