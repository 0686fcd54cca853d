/**
 * The `ChatRoom` React component: how frames from the server change the
 * message list and the online list, how a message is sent, and the avatar
 * colour of a name.
 */
module ChatRoomComponent {
  import opened Common
  import opened Protocol
  import opened Text

  /** The two state fields the `onmessage` handler sets. */
  datatype View = View(messages: seq<Message>, onlineUsers: seq<User>)

  /** The `onmessage` switch on the frame's type: no frame removes or reorders messages, and one adds at most one. */
  function Receive(v: View, e: ServerEvent): (r: View)
    ensures v.messages <= r.messages && |r.messages| <= |v.messages| + 1
    ensures !IsPresence(e) ==> r.onlineUsers == v.onlineUsers
  {
    match e
    case MessageEvent(m) => v.(messages := v.messages + [m])
    case UserJoined(_, users, _) => v.(onlineUsers := users)
    case UserLeft(_, users, _) => v.(onlineUsers := users)
    case UsersUpdate(users) => v.(onlineUsers := users)
    case _ => v
  }

  /** The presence frames: those that carry a full online list. */
  predicate IsPresence(e: ServerEvent) {
    e.UserJoined? || e.UserLeft? || e.UsersUpdate?
  }

  /** A `message` frame appends its message and nothing else; a presence frame replaces the online list and nothing else; any other frame (history and typing frames included) changes nothing. */
  lemma ReceiveCases(v: View, e: ServerEvent)
    ensures e.MessageEvent? ==> Receive(v, e) == View(v.messages + [e.message], v.onlineUsers)
    ensures IsPresence(e) ==> Receive(v, e) == View(v.messages, e.users)
    ensures !e.MessageEvent? && !IsPresence(e) ==> Receive(v, e) == v
  {
  }

  /** The view after the frames `es` arrive, in order: earlier messages are kept, and each frame adds at most one. */
  function ReceiveAll(v: View, es: seq<ServerEvent>): (r: View)
    ensures v.messages <= r.messages && |r.messages| <= |v.messages| + |es|
    decreases |es|
  {
    if es == [] then v else ReceiveAll(Receive(v, es[0]), es[1..])
  }

  /** The messages carried by the `message` frames of `es`, in order. */
  function Payloads(es: seq<ServerEvent>): (r: seq<Message>)
    ensures |r| <= |es|
  {
    if es == [] then []
    else (if es[0].MessageEvent? then [es[0].message] else []) + Payloads(es[1..])
  }

  /** The online list of the last presence frame of `es`, if any. */
  function LastRoster(es: seq<ServerEvent>): Option<seq<User>> {
    if es == [] then None
    else match LastRoster(es[1..])
      case Some(users) => Some(users)
      case None => if IsPresence(es[0]) then Some(es[0].users) else None
  }

  lemma {:induction false} PayloadsAppend(es: seq<ServerEvent>, e: ServerEvent)
    ensures Payloads(es + [e]) == Payloads(es) + (if e.MessageEvent? then [e.message] else [])
  {
    if es != [] {
      assert (es + [e])[1..] == es[1..] + [e];
      PayloadsAppend(es[1..], e);
    }
  }

  /** A frame that carries no online list does not change which list is the last one. */
  lemma {:induction false} LastRosterSkipsMessage(es: seq<ServerEvent>, e: ServerEvent)
    requires !IsPresence(e)
    ensures LastRoster(es + [e]) == LastRoster(es)
  {
    if es != [] {
      assert (es + [e])[1..] == es[1..] + [e];
      LastRosterSkipsMessage(es[1..], e);
    }
  }

  /** A presence frame at the end carries the last list. */
  lemma {:induction false} LastRosterPresence(es: seq<ServerEvent>, e: ServerEvent)
    requires IsPresence(e)
    ensures LastRoster(es + [e]) == Some(e.users)
  {
    if es != [] {
      assert (es + [e])[1..] == es[1..] + [e];
      LastRosterPresence(es[1..], e);
    }
  }

  /** The message list only grows, by exactly the messages the server relayed, in the order it relayed them. */
  lemma {:induction false} ReceiveAllMessages(v: View, es: seq<ServerEvent>)
    ensures ReceiveAll(v, es).messages == v.messages + Payloads(es)
    decreases |es|
  {
    if es != [] {
      ReceiveAllMessages(Receive(v, es[0]), es[1..]);
    }
  }

  /** The online list is the one carried by the last presence frame, or unchanged when there was none. */
  lemma {:induction false} ReceiveAllRoster(v: View, es: seq<ServerEvent>)
    ensures ReceiveAll(v, es).onlineUsers == match LastRoster(es) case Some(users) => users case None => v.onlineUsers
    decreases |es|
  {
    if es != [] {
      ReceiveAllRoster(Receive(v, es[0]), es[1..]);
    }
  }

  /** The message `sendMessage` builds: the trimmed input under the logged-in user's name and flag. */
  function Outgoing(user: User, input: string, now: nat, isoTime: string): (m: Message)
    ensures m.id != [] && IsDigits(m.id)
    ensures m.username == user.username && m.isAnonymous == user.isAnonymous && m.timestamp == isoTime
    ensures |m.content| <= |input| && (m.content == [] || (!IsSpace(m.content[0]) && !IsSpace(m.content[|m.content| - 1])))
  {
    Message(Decimal(now), user.username, Trim(input), isoTime, user.isAnonymous)
  }

  /** A message that passes the guard has non-empty content with no white space at either end. */
  lemma OutgoingContent(user: User, input: string, now: nat, isoTime: string)
    requires Trim(input) != []
    ensures var m := Outgoing(user, input, now, isoTime);
      && m.content != [] && Trim(m.content) == m.content
      && m.username == user.username && m.isAnonymous == user.isAnonymous
  {
    TrimIdempotent(input);
  }

  // ---------------------------------------------------------------------------
  // Avatar colour

  const AvatarColors: seq<string> := [
    "bg-gradient-to-br from-purple-500 to-pink-500",
    "bg-gradient-to-br from-blue-500 to-cyan-500",
    "bg-gradient-to-br from-green-500 to-emerald-500",
    "bg-gradient-to-br from-orange-500 to-red-500",
    "bg-gradient-to-br from-indigo-500 to-purple-500",
    "bg-gradient-to-br from-pink-500 to-rose-500"
  ]

  /** The UTF-16 code units of one character (`charCodeAt` on the pieces `split("")` yields). */
  function CodeUnits(c: char): (r: seq<int>)
    ensures 1 <= |r| <= 2
    ensures forall k :: 0 <= k < |r| ==> 0 <= r[k] < 0x1_0000
    ensures c as int < 0x1_0000 ==> r == [c as int]
  {
    var v := c as int;
    if v < 0x1_0000 then [v]
    else [0xD800 + (v - 0x1_0000) / 0x400, 0xDC00 + (v - 0x1_0000) % 0x400]
  }

  /** A JavaScript string as its code units. */
  function Utf16(s: string): (r: seq<int>)
    ensures |r| >= |s|
    ensures forall k :: 0 <= k < |r| ==> 0 <= r[k] < 0x1_0000
  {
    if s == [] then [] else CodeUnits(s[0]) + Utf16(s[1..])
  }

  /** The `reduce((acc, char) => acc + char.charCodeAt(0), 0)` of the code units. */
  function Sum(xs: seq<int>): (r: int)
    ensures (forall k :: 0 <= k < |xs| ==> 0 <= xs[k]) ==> r >= 0
  {
    if xs == [] then 0 else xs[0] + Sum(xs[1..])
  }

  /** `getAvatarColor`'s index: the code-unit sum modulo the number of colours, always a valid index. */
  function AvatarColorIndex(username: string): (r: nat)
    ensures r < |AvatarColors|
  {
    Sum(Utf16(username)) % |AvatarColors|
  }

  function AvatarColor(username: string): (c: string)
    ensures c in AvatarColors
  {
    AvatarColors[AvatarColorIndex(username)]
  }

  lemma {:induction false} SumAppend(a: seq<int>, b: seq<int>)
    ensures Sum(a + b) == Sum(a) + Sum(b)
  {
    if a != [] {
      assert (a + b)[0] == a[0] && (a + b)[1..] == a[1..] + b;
      SumAppend(a[1..], b);
    } else {
      assert a + b == b;
    }
  }

  lemma {:induction false} Utf16Append(a: string, b: string)
    ensures Utf16(a + b) == Utf16(a) + Utf16(b)
  {
    if a != [] {
      assert (a + b)[0] == a[0] && (a + b)[1..] == a[1..] + b;
      Utf16Append(a[1..], b);
      assert CodeUnits(a[0]) + (Utf16(a[1..]) + Utf16(b)) == (CodeUnits(a[0]) + Utf16(a[1..])) + Utf16(b);
    } else {
      assert a + b == b;
    }
  }

  /**
   * The sum behind the colour adds up over the parts of a name: each
   * character contributes its own code units, whatever surrounds it.
   */
  lemma CodeUnitSumAppend(a: string, b: string)
    ensures Sum(Utf16(a + b)) == Sum(Utf16(a)) + Sum(Utf16(b))
  {
    Utf16Append(a, b);
    SumAppend(Utf16(a), Utf16(b));
  }

  // ---------------------------------------------------------------------------
  // The component

  class ChatRoom {
    /** The `user` prop: the logged-in user. */
    const user: User
    var messages: seq<Message>
    var newMessage: string
    var onlineUsers: seq<User>
    var isConnected: bool
    /** Frames written to the WebSocket. */
    var sent: seq<ClientEvent>
    /** Bodies posted to `/api/messages`. */
    var posted: seq<Message>

    function CurrentView(): View
      reads this
    {
      View(messages, onlineUsers)
    }

    constructor (user: User)
      ensures this.user == user
      ensures messages == [] && newMessage == [] && onlineUsers == [] && !isConnected
      ensures sent == [] && posted == []
    {
      this.user := user;
      messages, newMessage, onlineUsers, isConnected := [], [], [], false;
      sent, posted := [], [];
    }

    /** `loadChatHistory`: `response` is the history when the fetch succeeded with an OK status, `None` otherwise. */
    method LoadChatHistory(response: Option<seq<Message>>)
      modifies this
      ensures messages == (match response case Some(history) => history case None => old(messages))
      ensures onlineUsers == old(onlineUsers) && newMessage == old(newMessage) && isConnected == old(isConnected)
      ensures sent == old(sent) && posted == old(posted)
    {
      if response.Some? {
        messages := response.value;
      }
    }

    /** `onopen`: connected, and the user announced with `user_join`. */
    method OnOpen()
      modifies this
      ensures isConnected
      ensures sent == old(sent) + [UserJoin(user)]
      ensures messages == old(messages) && onlineUsers == old(onlineUsers) && newMessage == old(newMessage) && posted == old(posted)
    {
      isConnected := true;
      sent := sent + [UserJoin(user)];
    }

    /** `onmessage`. */
    method OnMessage(e: ServerEvent)
      modifies this
      ensures CurrentView() == Receive(old(CurrentView()), e)
      ensures newMessage == old(newMessage) && isConnected == old(isConnected)
      ensures sent == old(sent) && posted == old(posted)
    {
      match e {
        case MessageEvent(m) => messages := messages + [m];
        case UserJoined(_, users, _) => onlineUsers := users;
        case UserLeft(_, users, _) => onlineUsers := users;
        case UsersUpdate(users) => onlineUsers := users;
        case _ =>
      }
    }

    /** `onclose` and `onerror`: no longer connected (the reconnect timer is not modelled). */
    method OnClose()
      modifies this
      ensures !isConnected
      ensures CurrentView() == old(CurrentView()) && newMessage == old(newMessage) && sent == old(sent) && posted == old(posted)
    {
      isConnected := false;
    }

    /** The input's `onChange`. */
    method SetNewMessage(text: string)
      modifies this
      ensures newMessage == text
      ensures CurrentView() == old(CurrentView()) && isConnected == old(isConnected) && sent == old(sent) && posted == old(posted)
    {
      newMessage := text;
    }

    /**
     * `sendMessage`, with `Date.now()` and `new Date().toISOString()` as
     * parameters. Refused with no change when the trimmed input is empty or
     * the socket is not connected; otherwise the message goes to the socket
     * and to the REST endpoint, and the input is cleared whether or not the
     * POST succeeds. The local message list is not touched: the message
     * appears when the server relays it back.
     */
    method SendMessage(now: nat, isoTime: string)
      modifies this
      ensures Trim(old(newMessage)) == [] || !old(isConnected) ==>
        newMessage == old(newMessage) && sent == old(sent) && posted == old(posted)
      ensures Trim(old(newMessage)) != [] && old(isConnected) ==>
        var m := Outgoing(user, old(newMessage), now, isoTime);
        && sent == old(sent) + [ChatMessage(m)]
        && posted == old(posted) + [m]
        && newMessage == []
      ensures CurrentView() == old(CurrentView()) && isConnected == old(isConnected)
    {
      if Trim(newMessage) == [] || !isConnected {
        return;
      }
      var m := Outgoing(user, newMessage, now, isoTime);
      sent := sent + [ChatMessage(m)];
      posted := posted + [m];
      newMessage := [];
    }
  }
}
