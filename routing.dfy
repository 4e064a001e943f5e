/** Which sockets each handler of the chat server delivers to, stated as
    functions of the state the handler reads, and what every socket ends up
    receiving. The class in module Server is proved to append exactly these
    deliveries to its log. */
module Routing {
  import opened Wire

  // ----- Sequences of socket ids -----

  /** No socket id occurs twice. */
  predicate Distinct(ts: seq<SocketId>) {
    ts == [] || (ts[0] !in ts[1..] && Distinct(ts[1..]))
  }

  lemma {:induction false} DistinctAppend(ts: seq<SocketId>, s: SocketId)
    requires Distinct(ts) && s !in ts
    ensures Distinct(ts + [s])
  {
    if ts != [] {
      assert (ts + [s])[1..] == ts[1..] + [s];
      DistinctAppend(ts[1..], s);
    }
  }

  /** `ts` with every occurrence of `s` removed, the others in their order. */
  function Without(ts: seq<SocketId>, s: SocketId): (r: seq<SocketId>)
    ensures forall x :: x in r <==> x in ts && x != s
    ensures |r| <= |ts|
    ensures Distinct(ts) ==> Distinct(r) && |r| == if s in ts then |ts| - 1 else |ts|
  {
    if ts == [] then []
    else if ts[0] == s then Without(ts[1..], s)
    else
      var rest := Without(ts[1..], s);
      assert ([ts[0]] + rest)[1..] == rest;
      [ts[0]] + rest
  }

  // ----- The socket.io emit primitives -----

  /** `io.emit`: one delivery to every socket in `ts`, in that order. */
  function Fanout(ts: seq<SocketId>, ev: Event): (r: seq<Delivery>)
    ensures |r| == |ts|
  {
    if ts == [] then [] else [Delivery(ts[0], ev)] + Fanout(ts[1..], ev)
  }

  /** `io.to(id).emit`: one delivery to `id` if that socket is still
      connected, none otherwise. */
  function ToSocket(connected: seq<SocketId>, id: SocketId, ev: Event): seq<Delivery> {
    if id in connected then [Delivery(id, ev)] else []
  }

  // ----- What one socket receives -----

  /** The events delivered to socket `t`, in delivery order. */
  function Received(ds: seq<Delivery>, t: SocketId): seq<Event> {
    if ds == [] then []
    else (if ds[0].target == t then [ds[0].event] else []) + Received(ds[1..], t)
  }

  lemma {:induction false} ReceivedConcat(a: seq<Delivery>, b: seq<Delivery>, t: SocketId)
    ensures Received(a + b, t) == Received(a, t) + Received(b, t)
  {
    if a == [] {
      assert a + b == b;
    } else {
      var ab := a + b;
      var head := if a[0].target == t then [a[0].event] else [];
      assert ab[0] == a[0] && ab[1..] == a[1..] + b;
      ReceivedConcat(a[1..], b, t);
      calc {
        Received(ab, t);
        head + Received(a[1..] + b, t);
        head + (Received(a[1..], t) + Received(b, t));
        (head + Received(a[1..], t)) + Received(b, t);
        Received(a, t) + Received(b, t);
      }
    }
  }

  /** Every socket of a duplicate-free list gets the event exactly once;
      every other socket gets nothing. */
  lemma {:induction false} ReceivedFanout(ts: seq<SocketId>, ev: Event, t: SocketId)
    requires Distinct(ts)
    ensures Received(Fanout(ts, ev), t) == if t in ts then [ev] else []
  {
    if ts != [] {
      var ds := Fanout(ts, ev);
      assert ds[0] == Delivery(ts[0], ev) && ds[1..] == Fanout(ts[1..], ev);
      ReceivedFanout(ts[1..], ev, t);
      assert t in ts <==> t == ts[0] || t in ts[1..];
    }
  }

  lemma ReceivedToSocket(connected: seq<SocketId>, id: SocketId, ev: Event, t: SocketId)
    ensures Received(ToSocket(connected, id, ev), t) == if id in connected && id == t then [ev] else []
  {
  }

  // ----- The in-memory history buffer -----

  /** `messagesMemory.push(m)` followed by one `shift()` when the buffer
      then holds more than HISTORY_CAP messages. The result ends with `m`, is
      the newest part of the old history followed by `m`, and grows by one
      until it reaches the cap. */
  function Capped(h: seq<Msg>, m: Msg): (r: seq<Msg>)
    ensures |r| == if |h| < HISTORY_CAP then |h| + 1 else |h|
    ensures r == (h + [m])[|h| + 1 - |r|..]
    ensures r[|r| - 1] == m
  {
    var pushed := h + [m];
    if |pushed| > HISTORY_CAP then pushed[1..] else pushed
  }

  /** A full buffer loses exactly its oldest message; a buffer with room loses
      nothing. */
  lemma CappedShape(h: seq<Msg>, m: Msg)
    requires |h| <= HISTORY_CAP
    ensures |Capped(h, m)| <= HISTORY_CAP
    ensures |h| == HISTORY_CAP ==> Capped(h, m) == h[1..] + [m]
    ensures |h| < HISTORY_CAP ==> Capped(h, m) == h + [m]
  {
    var r := Capped(h, m);
    if |h| == HISTORY_CAP {
      assert r == (h + [m])[1..];
      assert (h + [m])[1..] == h[1..] + [m];
    }
  }

  /** Every stored message has a non-empty sender and text. */
  predicate WellFormed(h: seq<Msg>) {
    forall i | 0 <= i < |h| :: h[i].from != "" && h[i].text != ""
  }

  /** The buffer keeps only accepted messages. */
  lemma CappedWellFormed(h: seq<Msg>, m: Msg)
    requires WellFormed(h) && m.from != "" && m.text != ""
    ensures WellFormed(Capped(h, m))
  {
    var r := Capped(h, m);
    var k := |h| + 1 - |r|;
    forall i | 0 <= i < |r|
      ensures r[i].from != "" && r[i].text != ""
    {
      assert r[i] == (h + [m])[k + i];
    }
  }

  // ----- 'chat message' -----

  /** The guard and the stamping of an incoming chat message: it is dropped
      when the payload, its sender or its text is missing or empty; otherwise
      it keeps the client's fields and takes the server's time. */
  function Stamp(p: Option<ChatPayload>, now: Time): (r: Option<Msg>)
    ensures r.Some? <==> p.Some? && Truthy(p.value.from) && Truthy(p.value.text)
    ensures r.Some? ==> r.value == Msg(p.value.from.value, p.value.to, p.value.text.value, now)
  {
    match p
    case None => None
    case Some(c) =>
      if !Truthy(c.from) || !Truthy(c.text) then None
      else Some(Msg(c.from.value, c.to, c.text.value, now))
  }

  /** The deliveries of an accepted chat message `m` sent by `sender`. */
  function ChatOutcome(connected: seq<SocketId>, users: map<string, SocketId>,
                       sender: SocketId, m: Msg): seq<Delivery>
  {
    var ev := ChatMessage(m);
    if m.to == Some(ALL) then Fanout(connected, ev)
    else
      var key := PropertyKey(m.to);
      (if key in users then ToSocket(connected, users[key], ev) else [])
      + [Delivery(sender, ev)]
  }

  /** A message to "all" reaches every connected socket exactly once, the
      sender included, whether or not the socket has joined. */
  lemma BroadcastChat(connected: seq<SocketId>, users: map<string, SocketId>,
                      sender: SocketId, m: Msg, t: SocketId)
    requires Distinct(connected) && m.to == Some(ALL)
    ensures Received(ChatOutcome(connected, users, sender, m), t)
         == if t in connected then [ChatMessage(m)] else []
    ensures |ChatOutcome(connected, users, sender, m)| == |connected|
  {
    ReceivedFanout(connected, ChatMessage(m), t);
  }

  /** A message to anyone but "all" reaches the socket `users` names for its
      recipient (if that socket is still connected) and, in any case, the
      sender; a message to one's own name reaches the sender twice. There are
      two deliveries when the recipient's socket is connected, otherwise one,
      and the sender's copy comes last. */
  lemma DirectedChat(connected: seq<SocketId>, users: map<string, SocketId>,
                     sender: SocketId, m: Msg, t: SocketId)
    requires m.to != Some(ALL)
    ensures (var key := PropertyKey(m.to);
             Received(ChatOutcome(connected, users, sender, m), t)
             == (if key in users && users[key] == t && t in connected then [ChatMessage(m)] else [])
                + (if t == sender then [ChatMessage(m)] else []))
    ensures (var key := PropertyKey(m.to);
             |ChatOutcome(connected, users, sender, m)|
             == if key in users && users[key] in connected then 2 else 1)
    ensures ChatOutcome(connected, users, sender, m)[|ChatOutcome(connected, users, sender, m)| - 1]
         == Delivery(sender, ChatMessage(m))
  {
    var ev := ChatMessage(m);
    var key := PropertyKey(m.to);
    var first := if key in users then ToSocket(connected, users[key], ev) else [];
    ReceivedConcat(first, [Delivery(sender, ev)], t);
    if key in users {
      ReceivedToSocket(connected, users[key], ev, t);
    }
    assert Received([Delivery(sender, ev)], t) == (if t == sender then [ev] else []) + Received([], t);
  }

  // ----- 'typing' -----

  /** The deliveries of a typing notice from `sender`: none without a sender
      name; to the named recipient's socket only when `to` is set and is not
      "all"; otherwise to every other connected socket. */
  function TypingOutcome(connected: seq<SocketId>, users: map<string, SocketId>,
                         sender: SocketId, p: Option<TypingPayload>): seq<Delivery>
  {
    match p
    case None => []
    case Some(q) =>
      if !Truthy(q.from) then []
      else if Truthy(q.to) && q.to.value != ALL then
        if q.to.value in users then ToSocket(connected, users[q.to.value], Typing(q)) else []
      else Fanout(Without(connected, sender), Typing(q))
  }

  lemma TypingRoutes(connected: seq<SocketId>, users: map<string, SocketId>,
                     sender: SocketId, p: Option<TypingPayload>, t: SocketId)
    requires Distinct(connected)
    ensures p.None? || !Truthy(p.value.from) ==> TypingOutcome(connected, users, sender, p) == []
    ensures p.Some? && Truthy(p.value.from) && Truthy(p.value.to) && p.value.to.value != ALL ==>
              (Received(TypingOutcome(connected, users, sender, p), t)
               == if p.value.to.value in users && users[p.value.to.value] == t && t in connected
                  then [Typing(p.value)] else [])
    ensures p.Some? && Truthy(p.value.from) && !(Truthy(p.value.to) && p.value.to.value != ALL) ==>
              (Received(TypingOutcome(connected, users, sender, p), t)
               == if t in connected && t != sender then [Typing(p.value)] else [])
  {
    if p.Some? && Truthy(p.value.from) {
      var q := p.value;
      if Truthy(q.to) && q.to.value != ALL {
        if q.to.value in users {
          ReceivedToSocket(connected, users[q.to.value], Typing(q), t);
        }
      } else {
        ReceivedFanout(Without(connected, sender), Typing(q), t);
      }
    }
  }

  // ----- 'join' and 'disconnect' -----

  /** The deliveries of an accepted join of `joiner` as `name`: the
      acknowledgement carrying the history (when the client asked for one),
      then the roster to everyone connected, then the announcement to
      everyone connected. `users` is the registry after the join. */
  function JoinOutcome(connected: seq<SocketId>, users: map<string, SocketId>, history: seq<Msg>,
                       joiner: SocketId, name: string, hasAck: bool, now: Time): seq<Delivery>
  {
    (if hasAck then [Delivery(joiner, JoinAck(history))] else [])
    + Fanout(connected, UserList(users.Keys))
    + Fanout(connected, ChatMessage(JoinNotice(name, now)))
  }

  /** Every connected socket receives the roster and then the announcement,
      once each; the joiner receives the history before them. */
  lemma JoinAnnounces(connected: seq<SocketId>, users: map<string, SocketId>, history: seq<Msg>,
                      joiner: SocketId, name: string, hasAck: bool, now: Time, t: SocketId)
    requires Distinct(connected) && joiner in connected
    ensures Received(JoinOutcome(connected, users, history, joiner, name, hasAck, now), t)
         == if t in connected
            then (if t == joiner && hasAck then [JoinAck(history)] else [])
                 + [UserList(users.Keys), ChatMessage(JoinNotice(name, now))]
            else []
  {
    var ack: seq<Delivery> := if hasAck then [Delivery(joiner, JoinAck(history))] else [];
    var roster := Fanout(connected, UserList(users.Keys));
    var notice := Fanout(connected, ChatMessage(JoinNotice(name, now)));
    ReceivedConcat(ack + roster, notice, t);
    ReceivedConcat(ack, roster, t);
    ReceivedFanout(connected, UserList(users.Keys), t);
    ReceivedFanout(connected, ChatMessage(JoinNotice(name, now)), t);
    ReceivedAck(joiner, JoinAck(history), hasAck, t);
  }

  /** The optional acknowledgement reaches the joiner alone. */
  lemma ReceivedAck(joiner: SocketId, ev: Event, hasAck: bool, t: SocketId)
    ensures Received(if hasAck then [Delivery(joiner, ev)] else [], t)
         == if t == joiner && hasAck then [ev] else []
  {
    if hasAck {
      assert Received([Delivery(joiner, ev)], t)
          == (if t == joiner then [ev] else []) + Received([], t);
    }
  }

  /** The deliveries of the disconnect of a socket that had joined as `name`:
      the roster and then the departure announcement to every socket still
      connected. `users` is the registry after the removal. */
  function LeaveOutcome(remaining: seq<SocketId>, users: map<string, SocketId>,
                        name: string, now: Time): seq<Delivery>
  {
    Fanout(remaining, UserList(users.Keys)) + Fanout(remaining, ChatMessage(LeaveNotice(name, now)))
  }

  lemma LeaveAnnounces(connected: seq<SocketId>, leaving: SocketId, users: map<string, SocketId>,
                       name: string, now: Time, t: SocketId)
    requires Distinct(connected)
    ensures Received(LeaveOutcome(Without(connected, leaving), users, name, now), t)
         == if t in connected && t != leaving
            then [UserList(users.Keys), ChatMessage(LeaveNotice(name, now))]
            else []
  {
    var remaining := Without(connected, leaving);
    ReceivedConcat(Fanout(remaining, UserList(users.Keys)),
                   Fanout(remaining, ChatMessage(LeaveNotice(name, now))), t);
    ReceivedFanout(remaining, UserList(users.Keys), t);
    ReceivedFanout(remaining, ChatMessage(LeaveNotice(name, now)), t);
  }
}
