/**
 * What a browser shows after it consumes the frames the Java handler wrote to
 * its socket: the server's broadcasts composed with the client's `onmessage`
 * handler.
 */
module Relay {
  import opened Common
  import opened Protocol
  import opened WebSocketHandler
  import opened ChatRoomComponent

  /**
   * A chat message from a bound session appears exactly once, at the end, in
   * the message list of every client whose session receives broadcasts; the
   * online list it shows does not change.
   */
  lemma RelayedMessageShownOnce(h: HubState, sid: SessionId, m: Message, s: SessionId, v: View)
    requires sid in h.sessionUsers && s in h.sockets
    requires Receives(h.sockets, h.sessions, None, s)
    ensures ReceiveAll(v, Chat(h, sid, m).sockets[s].outbox).messages
         == ReceiveAll(v, h.sockets[s].outbox).messages + [m]
    ensures ReceiveAll(v, Chat(h, sid, m).sockets[s].outbox).onlineUsers
         == ReceiveAll(v, h.sockets[s].outbox).onlineUsers
  {
    var before := h.sockets[s].outbox;
    ChatFromBound(h, sid, m, s);
    assert Chat(h, sid, m).sockets[s].outbox == before + [MessageEvent(m)];
    ReceiveAllMessages(v, before);
    ReceiveAllMessages(v, before + [MessageEvent(m)]);
    PayloadsAppend(before, MessageEvent(m));
    ReceiveAllRoster(v, before);
    ReceiveAllRoster(v, before + [MessageEvent(m)]);
    LastRosterSkipsMessage(before, MessageEvent(m));
  }

  /**
   * A registered open session that joins ends up showing the updated online
   * list: the history frame sent after `user_joined` is ignored by the
   * client, so the last list it saw is the one `user_joined` carried.
   */
  lemma JoinerSeesItself(h: HubState, sid: SessionId, u: User, recent: seq<Message>, now: string, v: View)
    requires sid in h.sockets && sid in h.sessions && h.sockets[sid].open
    ensures ReceiveAll(v, Join(h, sid, u, recent, now).sockets[sid].outbox).onlineUsers == h.onlineUsers + [u]
    ensures ReceiveAll(v, Join(h, sid, u, recent, now).sockets[sid].outbox).messages
         == ReceiveAll(v, h.sockets[sid].outbox).messages
  {
    var before := h.sockets[sid].outbox;
    var joined := UserJoined(u.username, h.onlineUsers + [u], now);
    JoinDelivery(h, sid, u, recent, now, sid);
    assert Join(h, sid, u, recent, now).sockets[sid].outbox == before + [joined] + [MessageHistory(recent)];
    ReceiveAllRoster(v, before + [joined] + [MessageHistory(recent)]);
    LastRosterSkipsMessage(before + [joined], MessageHistory(recent));
    LastRosterPresence(before, joined);
    ReceiveAllMessages(v, before);
    ReceiveAllMessages(v, before + [joined] + [MessageHistory(recent)]);
    PayloadsAppend(before + [joined], MessageHistory(recent));
    PayloadsAppend(before, joined);
  }
}
