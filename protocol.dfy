/**
 * The values that cross the WebSocket between the browser and the Java
 * handler, with the JSON `type` switch replaced by closed datatypes.
 */
module Protocol {

  /** `WebSocketSession.getId()`. */
  type SessionId = string

  /** A chat participant: the handler's `User` class and the client's `User` interface. */
  datatype User = User(id: string, username: string, isAnonymous: bool)

  /** `User.equals`: two users are equal exactly when their ids are. */
  predicate SameUser(a: User, b: User) {
    a.id == b.id
  }

  /** A chat message as the client builds it and the server relays it. */
  datatype Message = Message(id: string, username: string, content: string, timestamp: string, isAnonymous: bool)

  /** Frames a client sends; `Unrecognised` is any other value of the `type` field. */
  datatype ClientEvent =
    | UserJoin(user: User)
    | ChatMessage(message: Message)
    | UserLeave
    | TypingStart
    | TypingStop
    | Unrecognised(tag: string)

  /** Frames a client receives; `Unrecognised` again stands for any other `type`. */
  datatype ServerEvent =
    | UserJoined(joined: string, users: seq<User>, timestamp: string)
    | UserLeft(left: string, users: seq<User>, timestamp: string)
    | UsersUpdate(users: seq<User>)
    | MessageEvent(message: Message)
    | MessageHistory(messages: seq<Message>)
    | TypingStarted(typist: string, timestamp: string)
    | TypingStopped(typist: string, timestamp: string)
    | Other(tag: string)
}
