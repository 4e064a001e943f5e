/** Runs of the chat server from a fresh start, each stating exactly what the
    handlers deliver and leave behind. */
module Scenarios {
  import opened Wire
  import opened Routing
  import opened Server

  /** Closing one of two connected sockets. */
  lemma WithoutOfTwo(a: SocketId, b: SocketId)
    requires a != b
    ensures Without([a, b], a) == [b] && Without([a, b], b) == [a]
  {
    assert [a, b][1..] == [b];
    assert [b][1..] == [];
  }

  /** `io.emit` with one or two sockets connected. */
  lemma FanoutTwo(a: SocketId, b: SocketId, ev: Event)
    ensures Fanout([a], ev) == [Delivery(a, ev)]
    ensures Fanout([a, b], ev) == [Delivery(a, ev), Delivery(b, ev)]
  {
    assert [a][1..] == [];
    assert [a, b][1..] == [b];
    assert [b][1..] == [];
  }

  /** Two clients connect and join, the first before the second connects.
      Each gets its (empty) history first; the roster and the announcement of
      each join reach every socket connected at that moment. */
  method TwoClientsJoined(a: SocketId, b: SocketId, alice: string, bob: string, t0: Time, t1: Time)
    returns (srv: ChatServer, aJoins: seq<Delivery>, bJoins: seq<Delivery>)
    requires a != b && alice != bob && alice != "" && bob != ""
    ensures fresh(srv) && srv.Valid()
    ensures srv.connected == [a, b] && srv.users == map[alice := a, bob := b]
    ensures srv.names == map[a := Some(alice), b := Some(bob)] && srv.history == []
    ensures srv.log == aJoins + bJoins
    ensures aJoins == [ Delivery(a, JoinAck([])),
                        Delivery(a, UserList({alice})),
                        Delivery(a, ChatMessage(JoinNotice(alice, t0))) ]
    ensures bJoins == [ Delivery(b, JoinAck([])),
                        Delivery(a, UserList({alice, bob})),
                        Delivery(b, UserList({alice, bob})),
                        Delivery(a, ChatMessage(JoinNotice(bob, t1))),
                        Delivery(b, ChatMessage(JoinNotice(bob, t1))) ]
  {
    srv := new ChatServer();
    srv.Connect(a);
    assert srv.connected == [a];
    srv.Join(a, Some(alice), true, t0);
    assert srv.users.Keys == {alice};
    FanoutTwo(a, b, UserList({alice}));
    FanoutTwo(a, b, ChatMessage(JoinNotice(alice, t0)));
    aJoins := srv.log;

    srv.Connect(b);
    assert srv.connected == [a, b];
    srv.Join(b, Some(bob), true, t1);
    assert srv.users.Keys == {alice, bob};
    FanoutTwo(a, b, UserList({alice, bob}));
    FanoutTwo(a, b, ChatMessage(JoinNotice(bob, t1)));
    bJoins := srv.log[|aJoins|..];
  }

  /** With both clients joined, a message to "all" reaches both sockets and
      a message to the other client's name reaches that client and its
      sender; both are stored, with the server's times. */
  method TwoClientsTalk(a: SocketId, b: SocketId, alice: string, bob: string, hi: string, hey: string,
                        t0: Time, t1: Time, t2: Time, t3: Time)
    returns (hiSent: seq<Delivery>, heySent: seq<Delivery>, history: seq<Msg>)
    requires a != b && alice != bob && alice != "" && bob != "" && alice != ALL
    requires hi != "" && hey != ""
    ensures history == [Msg(alice, Some(ALL), hi, t2), Msg(bob, Some(alice), hey, t3)]
    ensures hiSent == [Delivery(a, ChatMessage(history[0])), Delivery(b, ChatMessage(history[0]))]
    ensures heySent == [Delivery(a, ChatMessage(history[1])), Delivery(b, ChatMessage(history[1]))]
  {
    var srv, _, _ := TwoClientsJoined(a, b, alice, bob, t0, t1);
    var m1 := Msg(alice, Some(ALL), hi, t2);
    assert Stamp(Some(ChatPayload(Some(alice), Some(ALL), Some(hi))), t2) == Some(m1);
    FanoutTwo(a, b, ChatMessage(m1));
    var before := srv.log;
    srv.ChatMessageFrom(a, Some(ChatPayload(Some(alice), Some(ALL), Some(hi))), t2);
    hiSent := srv.log[|before|..];

    var m2 := Msg(bob, Some(alice), hey, t3);
    assert Stamp(Some(ChatPayload(Some(bob), Some(alice), Some(hey))), t3) == Some(m2);
    assert ChatOutcome([a, b], srv.users, b, m2) == [Delivery(a, ChatMessage(m2)), Delivery(b, ChatMessage(m2))];
    before := srv.log;
    srv.ChatMessageFrom(b, Some(ChatPayload(Some(bob), Some(alice), Some(hey))), t3);
    heySent := srv.log[|before|..];
    history := srv.history;
  }

  /** With both clients joined, the second one's disconnect removes its name
      and tells the first one, the only socket left, the new roster and then
      the departure; nothing is stored. */
  method SecondClientLeaves(a: SocketId, b: SocketId, alice: string, bob: string, t0: Time, t1: Time, t2: Time)
    returns (bLeaves: seq<Delivery>, roster: set<string>, history: seq<Msg>)
    requires a != b && alice != bob && alice != "" && bob != ""
    ensures bLeaves == [ Delivery(a, UserList({alice})),
                         Delivery(a, ChatMessage(LeaveNotice(bob, t2))) ]
    ensures roster == {alice} && history == []
  {
    var srv, _, _ := TwoClientsJoined(a, b, alice, bob, t0, t1);
    WithoutOfTwo(a, b);
    assert (map[alice := a, bob := b] - {bob}).Keys == {alice};
    FanoutTwo(a, b, UserList({alice}));
    FanoutTwo(a, b, ChatMessage(LeaveNotice(bob, t2)));
    var before := srv.log;
    srv.Disconnect(b, t2);
    bLeaves := srv.log[|before|..];
    roster, history := srv.users.Keys, srv.history;
  }

  /** A second socket joining under a taken name takes it over; when the
      first socket then leaves, the name is deleted from the registry although
      the second socket still holds it, and a message to that name reaches
      only its sender. */
  method NameTakeover(a: SocketId, b: SocketId, name: string, now: Time)
    returns (roster: set<string>, bName: Option<string>, last: seq<Delivery>)
    requires a != b && name != "" && name != ALL
    ensures bName == Some(name) && name !in roster
    ensures last == [Delivery(b, ChatMessage(Msg(name, Some(name), "hi", now)))]
  {
    var srv := new ChatServer();
    srv.Connect(a);
    srv.Connect(b);
    srv.Join(a, Some(name), false, now);
    srv.Join(b, Some(name), false, now);
    srv.Disconnect(a, now);
    roster, bName := srv.users.Keys, srv.names[b];
    assert name !in srv.users;
    var m := Msg(name, Some(name), "hi", now);
    assert Stamp(Some(ChatPayload(Some(name), Some(name), Some("hi"))), now) == Some(m);
    assert ChatOutcome(srv.connected, srv.users, b, m) == [Delivery(b, ChatMessage(m))];
    var before := srv.log;
    srv.ChatMessageFrom(b, Some(ChatPayload(Some(name), Some(name), Some("hi"))), now);
    last := srv.log[|before|..];
  }

  /** A socket that joins twice keeps its first name in the registry, and
      its disconnect removes only the second one: the first stays listed. */
  method RejoinKeepsFirstName(a: SocketId, first: string, second: string, now: Time)
    returns (rosterWhileOnline: set<string>, rosterAfterLeave: set<string>)
    requires first != "" && second != "" && first != second
    ensures rosterWhileOnline == {first, second}
    ensures rosterAfterLeave == {first}
  {
    var srv := new ChatServer();
    srv.Connect(a);
    srv.Join(a, Some(first), false, now);
    srv.Join(a, Some(second), false, now);
    rosterWhileOnline := srv.users.Keys;
    srv.Disconnect(a, now);
    rosterAfterLeave := srv.users.Keys;
  }

  /** The stale name left by a rejoin still maps to its socket after that
      socket has closed, so a message to it reaches only its sender. */
  method StaleNameRoutesNowhere(a: SocketId, b: SocketId, first: string, second: string,
                                sender: string, text: string, now: Time)
    returns (last: seq<Delivery>)
    requires a != b && first != "" && second != "" && first != second && first != ALL
    requires sender != "" && text != ""
    ensures last == [Delivery(b, ChatMessage(Msg(sender, Some(first), text, now)))]
  {
    var srv := new ChatServer();
    srv.Connect(a);
    srv.Connect(b);
    srv.Join(a, Some(first), false, now);
    srv.Join(a, Some(second), false, now);
    WithoutOfTwo(a, b);
    srv.Disconnect(a, now);
    var m := Msg(sender, Some(first), text, now);
    assert Stamp(Some(ChatPayload(Some(sender), Some(first), Some(text))), now) == Some(m);
    assert ChatOutcome([b], srv.users, b, m) == [Delivery(b, ChatMessage(m))];
    var before := srv.log;
    srv.ChatMessageFrom(b, Some(ChatPayload(Some(sender), Some(first), Some(text))), now);
    last := srv.log[|before|..];
  }

  /** A chat message without a `to` field is looked up under the key
      "undefined", so it reaches a user who joined under that name, and the
      sender. */
  method MissingRecipient(a: SocketId, b: SocketId, sender: string, text: string, now: Time)
    returns (last: seq<Delivery>)
    requires a != b && sender != "" && text != ""
    ensures last == [ Delivery(a, ChatMessage(Msg(sender, None, text, now))),
                      Delivery(b, ChatMessage(Msg(sender, None, text, now))) ]
  {
    var srv := new ChatServer();
    srv.Connect(a);
    srv.Connect(b);
    srv.Join(a, Some("undefined"), false, now);
    assert srv.users["undefined"] == a && srv.connected == [a, b];
    var m := Msg(sender, None, text, now);
    assert Stamp(Some(ChatPayload(Some(sender), None, Some(text))), now) == Some(m);
    assert ChatOutcome([a, b], srv.users, b, m) == [Delivery(a, ChatMessage(m)), Delivery(b, ChatMessage(m))];
    var before := srv.log;
    srv.ChatMessageFrom(b, Some(ChatPayload(Some(sender), None, Some(text))), now);
    last := srv.log[|before|..];
  }

  /** A name made only of spaces is not empty, so it is accepted and listed. */
  method BlankNameAccepted(a: SocketId, now: Time) returns (roster: set<string>, name: Option<string>)
    ensures roster == {" "} && name == Some(" ")
  {
    var srv := new ChatServer();
    srv.Connect(a);
    srv.Join(a, Some(" "), false, now);
    roster, name := srv.users.Keys, srv.names[a];
  }

  /** A joined client that addresses a message to its own name gets it twice:
      once as the recipient and once as the sender. */
  method SelfDirectedEcho(a: SocketId, name: string, text: string, now: Time)
    returns (last: seq<Delivery>)
    requires name != "" && name != ALL && text != ""
    ensures last == [ Delivery(a, ChatMessage(Msg(name, Some(name), text, now))),
                      Delivery(a, ChatMessage(Msg(name, Some(name), text, now))) ]
  {
    var srv := new ChatServer();
    srv.Connect(a);
    srv.Join(a, Some(name), false, now);
    assert srv.users[name] == a && srv.connected == [a];
    var m := Msg(name, Some(name), text, now);
    assert Stamp(Some(ChatPayload(Some(name), Some(name), Some(text))), now) == Some(m);
    assert ChatOutcome([a], srv.users, a, m) == [Delivery(a, ChatMessage(m)), Delivery(a, ChatMessage(m))];
    var before := srv.log;
    srv.ChatMessageFrom(a, Some(ChatPayload(Some(name), Some(name), Some(text))), now);
    last := srv.log[|before|..];
  }

  /** With both clients joined, a typing notice to "all" reaches the other
      client only, and a typing notice to the other's name reaches that
      client only; neither is stored. */
  method TypingNotices(a: SocketId, b: SocketId, alice: string, bob: string, t0: Time, t1: Time)
    returns (toAll: seq<Delivery>, toBob: seq<Delivery>, history: seq<Msg>)
    requires a != b && alice != bob && alice != "" && bob != "" && bob != ALL
    ensures toAll == [Delivery(b, Typing(TypingPayload(Some(alice), Some(ALL))))]
    ensures toBob == [Delivery(b, Typing(TypingPayload(Some(alice), Some(bob))))]
    ensures history == []
  {
    var srv, _, _ := TwoClientsJoined(a, b, alice, bob, t0, t1);
    WithoutOfTwo(a, b);
    FanoutTwo(b, a, Typing(TypingPayload(Some(alice), Some(ALL))));
    var before := srv.log;
    srv.TypingFrom(a, Some(TypingPayload(Some(alice), Some(ALL))));
    toAll := srv.log[|before|..];
    before := srv.log;
    srv.TypingFrom(a, Some(TypingPayload(Some(alice), Some(bob))));
    toBob := srv.log[|before|..];
    history := srv.history;
  }
}
