# Presence and routing core of a Socket.IO chat server

This project models the heart of `server.js` from a small real-time chat
application: the Socket.IO handlers `join`, `chat message`, `typing` and
`disconnect`, over the shared in-memory state they mutate:

- `users`, the registry from display name to socket id;
- `socket.username`, the name bound to each connection;
- `messagesMemory`, the message history, capped at 2000 entries.

The model covers only the in-memory storage branch, the one the server takes
when no database is configured.

The model is a class, `Server.ChatServer`. Its fields are:

- the connected sockets, in connection order;
- a map from socket id to optional username;
- the `users` registry;
- the history, a `seq<Msg>`;
- a log of every delivery `(target socket, event)` the server has made.

Each handler is a method that changes this state in one atomic step. The
Socket.IO primitives become appends to the log:

- `io.emit` delivers once to every connected socket, joined or not;
- `io.to(id).emit` delivers once to `id` if that socket is still connected;
- `socket.emit` and the join acknowledgement deliver to the sender;
- `socket.broadcast.emit` delivers to every connected socket except the sender.

The wall clock (`new Date()`) becomes a `now` parameter.

The files are:

- `wire.dfy` (module `Wire`): the payloads, stored messages, events and deliveries. It also has JavaScript truthiness (`Truthy`) and the property key a missing value turns into (`PropertyKey`).
- `routing.dfy` (module `Routing`): one pure function per handler giving the deliveries it makes (`ChatOutcome`, `TypingOutcome`, `JoinOutcome`, `LeaveOutcome`), and the history update `Capped`. Its lemmas state what each socket receives (`Received`).
- `server.dfy` (module `Server`): the `ChatServer` class. Each handler method is proved to append exactly the outcome function's deliveries and to keep the class invariant `Valid()`. The invariant says that no socket is listed twice, that the registry never holds an empty name, that the history never exceeds 2000 messages, and that every stored message has a sender and a text.
- `scenarios.dfy` (module `Scenarios`): runs from a fresh server. They pin down exactly what is delivered and stored, including the quirks listed below.

Behaviour kept exactly as the code has it:

- A whitespace-only name is accepted, because only falsy names are refused (server.js:54).
- `from` is never compared with the sender's own name (server.js:87).
- A directed message to one's own name reaches the sender twice (server.js:97, 99).
- A socket that joins twice leaves its first name in `users` (server.js:57-58). After it disconnects, that name points to a closed socket, so messages to it reach only their sender.
- A disconnect deletes `users[socket.username]` even when another socket has since taken that name (server.js:129).
- The join and leave announcements are emitted but never stored in the history (server.js:81-82, 131).
- A chat message with no `to` field is looked up under the key `"undefined"` (server.js:95), because JavaScript turns a missing property name into that string.

Behaviour worth knowing:

- Names are not trimmed before the emptiness check.
- A refused join is silent: the acknowledgement is not called and no error is sent.
- Broadcasts reach every connected socket, not only the registered ones.
- Announcements are not appended to the history.
- A newly joined client receives the whole in-memory buffer, up to 2000 messages, not a window of 1000.
- The registry entry is removed by name, whichever socket holds it.

## Model

| member | source | states |
|---|---|---|
| `Server.ChatServer.constructor` | server.js:45-46 | The server starts with an empty registry, an empty history, no sockets and no deliveries, and its invariant holds. |
| `Server.ChatServer.Connect` | server.js:49 | A new socket is appended to the connected sockets with no name bound; the registry, history and log are unchanged. |
| `Server.ChatServer.Join` | server.js:53-83 | A missing or empty name changes nothing and delivers nothing (no ack). Otherwise the socket's name becomes `u` and `users[u]` becomes the socket, overwriting any earlier holder, with all other entries unchanged. The history is untouched and the log grows by exactly `JoinOutcome`. |
| `Routing.JoinAnnounces` | server.js:74-82 | After a join, every connected socket receives the roster (the registry's keys) and then the "u joined the chat" System message, once each. The joiner first receives the current history when it passed an ack. Other sockets receive nothing. |
| `Routing.Stamp` | server.js:87-88 | A chat payload is accepted if and only if the payload, its `from` and its `text` are present and non-empty. The accepted message keeps the client's `from`, `to` and `text` and carries the server's time. |
| `Server.ChatServer.ChatMessageFrom` | server.js:86-114 | A malformed message changes neither the history nor the log. An accepted one appends exactly `ChatOutcome` to the log and makes the history `Capped(old history, message)`. The registry and the sockets are unchanged. |
| `Server.ChatServer.Route` | server.js:90-100 | The log grows by exactly the deliveries `ChatOutcome` gives for the message. |
| `Routing.BroadcastChat` | server.js:90-92 | A message to "all" reaches every connected socket exactly once, the sender included, and no other socket. There are exactly as many deliveries as connected sockets. |
| `Routing.DirectedChat` | server.js:93-100 | A message to a name reaches `users[to]` once if that socket is connected, and reaches the sender once in every case. The sender gets it twice when it is also the recipient. There are 2 deliveries when the recipient is connected and 1 otherwise, and the sender's copy is last. |
| `Server.ChatServer.Remember` | server.js:110-112 | The history becomes `Capped(old history, message)`. |
| `Routing.Capped` | server.js:110-112 | After a push, the history ends with the new message and is the newest part of the old history followed by it. It grows by one until it holds 2000 messages and then keeps its length. |
| `Routing.CappedShape` | server.js:110-112 | From at most 2000 messages the history stays at or below 2000. A full history loses exactly its oldest message and keeps the rest in order. A history with room loses nothing. |
| `Routing.CappedWellFormed` | server.js:87-112 | The history only ever holds messages with a non-empty sender and text. |
| `Server.ChatServer.TypingFrom` | server.js:116-125 | Only the log changes, and it grows by exactly `TypingOutcome`; the registry and the history are never touched, and the invariant is kept. |
| `Routing.TypingRoutes` | server.js:116-125 | A typing notice without `from` goes nowhere. With a `to` that is set and not "all", it reaches only `users[to]`, when that name is registered and its socket connected. Otherwise it reaches every connected socket except the sender, once each. |
| `Server.ChatServer.Disconnect` | server.js:127-134 | The socket leaves the connected sockets and the name map. A socket without a name changes nothing else and delivers nothing. Otherwise only the key of its name is removed from the registry, and the log grows by exactly `LeaveOutcome` to the remaining sockets. The history is untouched. |
| `Routing.LeaveAnnounces` | server.js:129-131 | After a disconnect, every socket still connected receives the new roster and then the "u left the chat" System message, once each. The leaving socket receives nothing. |
| `Routing.ReceivedFanout` | server.js:78 | `io.emit` to a list of distinct sockets delivers the event exactly once to each socket in the list and to no other. |
| `Routing.Without` | server.js:123 | The sockets `socket.broadcast.emit` reaches are exactly the connected ones other than the sender, without repeats. |
| `Scenarios.TwoClientsJoined` | server.js:53-83 | Two clients join one after the other. Each first receives the empty history; the roster and join announcement reach every socket connected at that moment. |
| `Scenarios.TwoClientsTalk` | server.js:86-113 | With two clients joined, a message to "all" reaches both. A message to the other's name reaches exactly that client and its sender. Both are stored in order with the server's times. |
| `Scenarios.SecondClientLeaves` | server.js:127-134 | When the second client leaves, the first, now alone, receives the roster holding only its own name and then the departure. The history stays empty. |
| `Scenarios.NameTakeover` | server.js:57-131 | A second socket joining under a taken name takes it over. When the first socket leaves, the name disappears from the registry although the second socket still holds it, and a message to it reaches only its sender. |
| `Scenarios.RejoinKeepsFirstName` | server.js:57-129 | A socket that joins twice is listed under both names, and its disconnect removes only the second. |
| `Scenarios.StaleNameRoutesNowhere` | server.js:95-99 | A message to the stale name reaches only the sender, because the socket it maps to has closed. |
| `Scenarios.MissingRecipient` | server.js:93-99 | A chat message without `to` reaches a user who joined as "undefined", and the sender. |
| `Scenarios.BlankNameAccepted` | server.js:54-58 | A name of spaces only is accepted and listed. |
| `Scenarios.SelfDirectedEcho` | server.js:93-100 | A joined client that sends a message to its own name receives it twice, as recipient and as sender. |
| `Scenarios.TypingNotices` | server.js:116-125 | With two clients joined, a typing notice to "all" reaches only the other client, and one to the other's name reaches only that client. Nothing is stored. |

## Left out

- The MongoDB storage branch (server.js:13-39, 61-67, 70-72, 103-108). It talks to an external database that is not part of this model; only the in-memory fallback is modelled.
- Express, the HTTP server, static file serving, `server.listen`, `dotenv` and `console.log` (server.js:2-11, 42, 50, 133, 138-139). They are plumbing with no routing behaviour.
- Concurrency and the Socket.IO transport. Each handler is one atomic step; in the in-memory branch no handler awaits anything.
- The wall clock. The time is a parameter, and date formatting is not modelled.
- The browser client (public/client.js). It is presentation: rendering, search and time formatting.
- Server.ChatServer.Join: the `user list` payload is modelled as the set of registry keys. The order `Object.keys` gives (insertion order, integer-like names first) is not modelled.
- Server.ChatServer.Disconnect: its `user list` payload is also a set, for the same reason.
- Names that clash with properties inherited by a plain JavaScript object (`__proto__`, `constructor`, `toString`, ...). Assigning or looking such a name up in `users` does not behave like a map entry, and the registry is modelled as a map.
- Server.ChatServer.ChatMessageFrom: the server forwards and stores the client's own message object (server.js:88, 92, 97, 99, 110). Any extra property a client adds beyond `from`, `to` and `text` would reach every recipient and be replayed to later joiners. The model keeps only those three fields, so it does not capture this.
- Server.ChatServer.TypingFrom: typing payloads are forwarded as the client sent them (server.js:121, 123). The model keeps only `from` and `to`, so extra properties are not captured.
- Server.ChatServer.Join: `hasAck` says only whether a callback was passed. If the client passes a truthy `ack` that is not a function, server.js:74 throws after server.js:57-58 have already updated `socket.username` and `users`. The name is then registered, but no roster and no announcement are sent. The model does not capture this.
- Payload fields that are not strings (numbers, objects, booleans) and the coercions JavaScript would apply to them. Every field is an optional string.
- Delivery order across sockets within one `io.emit` is taken to be connection order. Socket.IO's internal iteration order is not part of this model.
- Socket ids are assumed never to be reused (the ghost set `issued`), as the transport generates fresh ones.
