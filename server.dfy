/** The chat server's shared state and its four socket handlers, with the
    in-memory storage of messages. Every handler runs as one atomic step. */
module Server {
  import opened Wire
  import opened Routing

  class ChatServer {
    /** The sockets the transport currently holds open, in connection order. */
    var connected: seq<SocketId>
    /** `socket.username` of every connected socket; None until it joins. */
    var names: map<SocketId, Option<string>>
    /** The registry `users`: name -> socket id. */
    var users: map<string, SocketId>
    /** `messagesMemory`. */
    var history: seq<Msg>
    /** Every delivery made so far, in order. */
    var log: seq<Delivery>
    /** Every socket id the transport has ever handed out; it never reuses one. */
    ghost var issued: set<SocketId>

    ghost predicate Valid()
      reads this
    {
      && Distinct(connected)
      && names.Keys == (set s | s in connected)
      && Some("") !in names.Values
      && "" !in users
      && users.Values <= issued
      && (set s | s in connected) <= issued
      && |history| <= HISTORY_CAP
      && WellFormed(history)
    }

    /** The server as it starts: nobody connected, nothing stored, nothing sent. */
    constructor ()
      ensures Valid()
      ensures connected == [] && names == map[] && users == map[]
      ensures history == [] && log == [] && issued == {}
    {
      connected, names, users, history, log := [], map[], map[], [], [];
      issued := {};
    }

    // ----- socket.io primitives -----

    /** `io.emit(ev)`. */
    method Emit(ev: Event)
      modifies this`log
      ensures log == old(log) + Fanout(connected, ev)
    {
      log := log + Fanout(connected, ev);
    }

    /** `io.to(id).emit(ev)`. */
    method EmitTo(id: SocketId, ev: Event)
      modifies this`log
      ensures log == old(log) + ToSocket(connected, id, ev)
    {
      log := log + ToSocket(connected, id, ev);
    }

    /** `socket.emit(ev)` on the socket `s`, and the call of its `ack`. */
    method Reply(s: SocketId, ev: Event)
      modifies this`log
      ensures log == old(log) + [Delivery(s, ev)]
    {
      log := log + [Delivery(s, ev)];
    }

    /** `socket.broadcast.emit(ev)` on the socket `s`. */
    method BroadcastFrom(s: SocketId, ev: Event)
      modifies this`log
      ensures log == old(log) + Fanout(Without(connected, s), ev)
    {
      log := log + Fanout(Without(connected, s), ev);
    }

    // ----- connection lifecycle and handlers -----

    /** The transport opens the socket `s`: 'connection'. */
    method Connect(s: SocketId)
      requires Valid() && s !in issued
      modifies this
      ensures Valid()
      ensures connected == old(connected) + [s] && names == old(names)[s := None]
      ensures issued == old(issued) + {s}
      ensures users == old(users) && history == old(history) && log == old(log)
    {
      DistinctAppend(connected, s);
      connected := connected + [s];
      names := names[s := None];
      issued := issued + {s};
    }

    /** 'join' from `s` with `username`; `hasAck` says whether the client
        passed an acknowledgement callback. A missing or empty name changes
        nothing. Otherwise the name is bound to the socket and the registry
        maps it to `s`, replacing any socket that held it before; no other
        entry changes and the history is kept. */
    method Join(s: SocketId, username: Option<string>, hasAck: bool, now: Time)
      requires Valid() && s in connected
      modifies this
      ensures Valid()
      ensures !Truthy(username) ==>
                names == old(names) && users == old(users) && log == old(log)
      ensures Truthy(username) ==>
                && names == old(names)[s := username]
                && users == old(users)[username.value := s]
                && log == old(log) + JoinOutcome(connected, users, history, s, username.value, hasAck, now)
      ensures connected == old(connected) && history == old(history) && issued == old(issued)
    {
      if !Truthy(username) {
        return;
      }
      var name := username.value;
      names := names[s := username];
      users := users[name := s];
      if hasAck {
        Reply(s, JoinAck(history));
      }
      Emit(UserList(users.Keys));
      Emit(ChatMessage(JoinNotice(name, now)));
    }

    /** The routing part of 'chat message' for an accepted message `m` from
        `s`: to everyone when it is addressed to "all", otherwise to the
        recipient's socket when the registry knows the name, and back to `s`. */
    method Route(s: SocketId, m: Msg)
      modifies this`log
      ensures log == old(log) + ChatOutcome(connected, users, s, m)
    {
      if m.to == Some(ALL) {
        Emit(ChatMessage(m));
      } else {
        var key := PropertyKey(m.to);
        if key in users {
          EmitTo(users[key], ChatMessage(m));
        }
        Reply(s, ChatMessage(m));
      }
    }

    /** `messagesMemory.push(m)`, then `shift()` once it holds more than
        HISTORY_CAP messages. */
    method Remember(m: Msg)
      modifies this`history
      ensures history == Capped(old(history), m)
    {
      history := history + [m];
      if |history| > HISTORY_CAP {
        history := history[1..];
      }
    }

    /** 'chat message' from `s`. A malformed payload changes nothing.
        Otherwise the stamped message is routed (ChatOutcome) and appended to
        the bounded history. Nothing checks `from` against the sender's name. */
    method ChatMessageFrom(s: SocketId, p: Option<ChatPayload>, now: Time)
      requires Valid() && s in connected
      modifies this
      ensures Valid()
      ensures Stamp(p, now).None? ==> history == old(history) && log == old(log)
      ensures Stamp(p, now).Some? ==>
                && history == Capped(old(history), Stamp(p, now).value)
                && log == old(log) + ChatOutcome(connected, users, s, Stamp(p, now).value)
      ensures connected == old(connected) && names == old(names) && users == old(users)
      ensures issued == old(issued)
    {
      var stamped := Stamp(p, now);
      if stamped.None? {
        return;
      }
      var m := stamped.value;
      Route(s, m);
      CappedWellFormed(history, m);
      Remember(m);
    }

    /** 'typing' from `s`: routed by TypingOutcome; no state but the log changes. */
    method TypingFrom(s: SocketId, p: Option<TypingPayload>)
      requires Valid() && s in connected
      modifies this`log
      ensures Valid()
      ensures log == old(log) + TypingOutcome(connected, users, s, p)
    {
      if p.None? || !Truthy(p.value.from) {
        return;
      }
      var q := p.value;
      if Truthy(q.to) && q.to.value != ALL {
        if q.to.value in users {
          EmitTo(users[q.to.value], Typing(q));
        }
      } else {
        BroadcastFrom(s, Typing(q));
      }
    }

    /** The transport closes `s`: 'disconnect'. The socket leaves first. If
        it had joined, the registry loses the key of its name, whichever
        socket that key maps to now, and the remaining sockets hear of it. */
    method Disconnect(s: SocketId, now: Time)
      requires Valid() && s in connected
      modifies this
      ensures Valid()
      ensures connected == Without(old(connected), s) && names == old(names) - {s}
      ensures old(names)[s].None? ==> users == old(users) && log == old(log)
      ensures old(names)[s].Some? ==>
                && users == old(users) - {old(names)[s].value}
                && log == old(log) + LeaveOutcome(connected, users, old(names)[s].value, now)
      ensures history == old(history) && issued == old(issued)
    {
      var name := names[s];
      connected := Without(connected, s);
      names := names - {s};
      if Truthy(name) {
        users := users - {name.value};
        Emit(UserList(users.Keys));
        Emit(ChatMessage(LeaveNotice(name.value, now)));
      }
    }
  }
}
