/** Values exchanged between the chat server and its clients: the payloads the
    socket handlers receive, the messages they store and the deliveries they emit. */
module Wire {

  datatype Option<+T> = None | Some(value: T)

  /** The transport's opaque connection id (`socket.id`). */
  type SocketId = nat

  /** The server clock's reading, passed in where the server calls `new Date()`. */
  type Time = int

  /** The recipient value that means "everyone". */
  const ALL: string := "all"

  /** The sender name of the server's own join and leave announcements. */
  const SYSTEM: string := "System"

  /** How many messages the in-memory history keeps. */
  const HISTORY_CAP: nat := 2000

  /** A chat message as stored and delivered: `from` and `text` as the client
      sent them (both non-empty), `to` as the client sent it (possibly missing),
      `time` stamped by the server on receipt. */
  datatype Msg = Msg(from: string, to: Option<string>, text: string, time: Time)

  /** The object a client sends with 'chat message'; a missing field is None. */
  datatype ChatPayload = ChatPayload(from: Option<string>, to: Option<string>, text: Option<string>)

  /** The object a client sends with 'typing'; it is forwarded unchanged. */
  datatype TypingPayload = TypingPayload(from: Option<string>, to: Option<string>)

  /** What a socket receives: a 'chat message', a 'user list', a 'typing'
      notice, or the acknowledgement of its 'join' carrying the history. */
  datatype Event =
    | ChatMessage(msg: Msg)
    | UserList(names: set<string>)
    | Typing(payload: TypingPayload)
    | JoinAck(history: seq<Msg>)

  /** One event handed to one socket. */
  datatype Delivery = Delivery(target: SocketId, event: Event)

  /** JavaScript truthiness of an optional string: present and non-empty. */
  predicate Truthy(v: Option<string>) {
    v.Some? && v.value != ""
  }

  /** The property name JavaScript uses when an optional string indexes a
      plain object: a missing value becomes the key "undefined". */
  function PropertyKey(v: Option<string>): string {
    match v
    case Some(s) => s
    case None => "undefined"
  }

  /** The announcement a join broadcasts. */
  function JoinNotice(name: string, now: Time): Msg {
    Msg(SYSTEM, Some(ALL), name + " joined the chat", now)
  }

  /** The announcement a disconnect broadcasts. */
  function LeaveNotice(name: string, now: Time): Msg {
    Msg(SYSTEM, Some(ALL), name + " left the chat", now)
  }
}
