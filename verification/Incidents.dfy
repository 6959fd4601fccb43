/** Two short runs, from the start of a replica, in which it does what its clients would not expect. */
module Incidents {
  import opened Json
  import opened RoomEvents
  import opened Wrappers
  import opened Rooms
  import opened RoomSafety

  lemma SameServer(s: Server, t: Server)
    requires s.pid == t.pid && s.throttle == t.throttle && s.now == t.now && s.rooms == t.rooms && s.users == t.users
    requires s.conns == t.conns && s.asks == t.asks && s.granted == t.granted && s.own == t.own && s.log == t.log
    requires s.outbox == t.outbox && s.replies == t.replies
    ensures s == t
  {
  }

  // ---- how both begin: client 0 of user "u" connects and enters room "m" ----

  const CLIENT := NewConn("u", "m")

  function Fresh(users: map<User, set<ConnId>>, conns: map<ConnId, Conn>): Server {
    Server(0, 0, 0, map[], users, conns, multiset{}, {}, 0, [], map[], map[])
  }

  /** Client 0 is in room "m" and nobody else is. */
  function Inside(users: map<User, set<ConnId>>, conns: map<ConnId, Conn>): Server {
    Fresh(users, conns).(rooms := map["m" := {0}], granted := {("u", "m")}, own := 1,
      log := [Record(MsgId(Some(0), 0), 0, "m", UserJoined("u", Null).Message(), Presence, Some(0), {0}, {})])
  }

  /** Client 0 once it has joined, before its initialisation ends. */
  function Entered(pending: seq<ClientMessage>): Conn {
    CLIENT.(current := Some("m"), phase := Initialising, pending := pending)
  }

  function Started(conn: Conn, attached: bool): Conn {
    conn.(phase := Ready, pending := [], beat := StartHeartbeat(conn.beat, 0), attached := attached)
  }

  const JOINING := [Connect(0, "u", "m"), SubscribeOk(0), InitialReply(0, true, None)]

  const USER := map["u" := {0}]

  function JoiningState(k: nat): Server {
    if k == 0 then Fresh(map[], map[])
    else if k == 1 then Fresh(map[], map[0 := CLIENT])
    else if k == 2 then Fresh(USER, map[0 := CLIENT.(phase := Authorising)])
    else Inside(USER, map[0 := Entered([])])
  }

  lemma JoiningStep(k: nat)
    requires k < 3
    ensures Enabled(JoiningState(k), JOINING[k]) && Next(JoiningState(k), JOINING[k]) == JoiningState(k + 1)
  {
    hide Payload, RoomEvent.Message, JoinReply, Process, Cleanup, FinishInit;
    assert {} + {0} == {0};
    match k
    case 0 => SameServer(Next(JoiningState(0), JOINING[0]), JoiningState(1));
    case 1 => SameServer(Next(JoiningState(1), JOINING[1]), JoiningState(2));
    case 2 => Joins();
  }

  lemma Joins()
    ensures Enabled(JoiningState(2), JOINING[2]) && Next(JoiningState(2), JOINING[2]) == JoiningState(3)
  {
    hide Payload, RoomEvent.Message, Process, Cleanup, FinishInit, Broadcast, JoinReply;
    var s := JoiningState(2);
    JoinIs(s);
    Announced(BeforeAnnounced(s));
    assert Next(s, JOINING[2]).conns == JoiningState(3).conns;
    SameServer(Next(s, JOINING[2]), JoiningState(3));
  }

  function BeforeAnnounced(s: Server): Server
    requires 0 in s.conns
  {
    Put(s.(granted := {("u", "m")}), 0, s.conns[0].(current := Some("m"))).(rooms := map["m" := {0}])
  }

  lemma JoinIs(s: Server)
    requires s.granted == {} && s.rooms == map[] && 0 in s.conns && s.conns[0].user == "u" && s.conns[0].name.None?
    requires s.conns[0].current.None? && s.conns[0].open
    ensures JoinReply(s, 0, "m", true, None)
            == Broadcast(BeforeAnnounced(s), "m", UserJoined("u", Null).Message(), Presence, 0)
  {
    hide Broadcast, RoomEvent.Message;
    var s1 := Grant(s, 0, "m", None);
    assert {} + {0} == {0} && s1.rooms["m" := {0}] == map["m" := {0}] && s1.granted == {("u", "m")};
    assert s1.conns == s.conns;
  }

  lemma Announced(s: Server)
    requires s.rooms == map["m" := {0}] && s.pid == 0 && s.own == 0 && s.now == 0 && s.log == [] && s.outbox == map[]
    ensures Broadcast(s, "m", UserJoined("u", Null).Message(), Presence, 0)
            == s.(own := 1, log := Inside(USER, map[]).log)
  {
    hide Payload, RoomEvent.Message;
    assert Audience(s, "m", Some(0)) == {};
  }

  // ---- a client is announced in a room that it never entered ----

  const FOREIGN_LEAVE :=
    JOINING + [InitDone(0), Connect(1, "v", ""), SubscribeOk(1), InitDone(1), Message(1, LeaveModel("m"))]

  const OTHER := NewConn("v", "")

  const USERS := map["u" := {0}, "v" := {1}]

  function Told(): Delivery {
    Delivery(MsgId(Some(0), 1), Payload(UserLeft("v").Message()))
  }

  function ForeignState(k: nat): Server {
    var first := Started(Entered([]), true);
    if k <= 3 then JoiningState(k)
    else if k == 4 then Inside(USER, map[0 := first])
    else if k == 5 then Inside(USER, map[0 := first, 1 := OTHER])
    else if k == 6 then Inside(USERS, map[0 := first, 1 := OTHER.(phase := Initialising)])
    else if k == 7 then Inside(USERS, map[0 := first, 1 := Started(OTHER, true)])
    else
      var before := Inside(USERS, map[0 := first, 1 := Started(OTHER, true).(done := [LeaveModel("m")])]);
      var left := Record(MsgId(Some(0), 1), 0, "m", UserLeft("v").Message(), Presence, Some(1), {0}, {0});
      before.(own := 2, outbox := map[0 := [Told()]], log := before.log + [left])
  }

  lemma ForeignStep(k: nat)
    requires k < 8
    ensures Enabled(ForeignState(k), FOREIGN_LEAVE[k])
    ensures Next(ForeignState(k), FOREIGN_LEAVE[k]) == ForeignState(k + 1)
  {
    if k < 3 {
      JoiningStep(k);
    } else if k == 4 || k == 5 {
      OtherArrives(k);
    } else if k < 7 {
      BothStart(k);
    } else {
      ForeignLeaves();
    }
  }

  lemma OtherArrives(k: nat)
    requires k == 4 || k == 5
    ensures Enabled(ForeignState(k), FOREIGN_LEAVE[k])
    ensures Next(ForeignState(k), FOREIGN_LEAVE[k]) == ForeignState(k + 1)
  {
    hide Payload, RoomEvent.Message, Process, JoinReply, Cleanup, PongTimeout, Tick, BroadcastToLocalRoom, FinishInit;
    assert {} + {1} == {1};
    match k
    case 4 => SameServer(Next(ForeignState(4), FOREIGN_LEAVE[4]), ForeignState(5));
    case 5 => SameServer(Next(ForeignState(5), FOREIGN_LEAVE[5]), ForeignState(6));
  }

  lemma BothStart(k: nat)
    requires k == 3 || k == 6
    ensures Enabled(ForeignState(k), FOREIGN_LEAVE[k])
    ensures Next(ForeignState(k), FOREIGN_LEAVE[k]) == ForeignState(k + 1)
  {
    hide Payload, RoomEvent.Message, Process, JoinReply, Cleanup, PongTimeout, Tick, BroadcastToLocalRoom, FinishInit;
    match k
    case 3 =>
      Initialised(ForeignState(3), 0);
      SameServer(Next(ForeignState(3), FOREIGN_LEAVE[3]), ForeignState(4));
    case 6 =>
      Initialised(ForeignState(6), 1);
      SameServer(Next(ForeignState(6), FOREIGN_LEAVE[6]), ForeignState(7));
  }

  lemma Initialised(s: Server, c: ConnId)
    requires c in s.conns && s.conns[c].pending == [] && s.now == 0
    ensures FinishInit(s, c) == Put(s, c, Started(s.conns[c], true))
  {
    hide Process;
  }

  lemma ForeignLeaves()
    ensures Enabled(ForeignState(7), FOREIGN_LEAVE[7]) && Next(ForeignState(7), FOREIGN_LEAVE[7]) == ForeignState(8)
  {
    hide Payload, RoomEvent.Message;
    var s := ForeignState(7);
    assert s.conns[1].done + [LeaveModel("m")] == [LeaveModel("m")];
    var s1 := Put(s, 1, s.conns[1].(done := [LeaveModel("m")]));
    assert {0} - {1} == {0} && s1.rooms["m" := {0}] == s1.rooms;
    assert Audience(s1, "m", Some(1)) == {0} && [] + [Told()] == [Told()];
    assert SendTo(s1.outbox, {0}, Told()) == map[0 := [Told()]];
    assert LeaveRoom(s1, 1, "m") == Broadcast(s1, "m", UserLeft("v").Message(), Presence, 1);
    SameServer(Next(s, FOREIGN_LEAVE[7]), ForeignState(8));
  }

  lemma NeverInRoom(k: nat, m: Model)
    requires k < 9
    ensures 1 !in Members(ForeignState(k), m)
  {
    hide Payload, RoomEvent.Message, StartHeartbeat;
  }

  /** Client 1 has never been in any room, and client 0, in room "m", is told that its user has left. */
  lemma ForeignLeaveIsTold()
    ensures exists states: seq<Server> ::
              && IsRun(states, FOREIGN_LEAVE)
              && (forall k, m | 0 <= k < 9 :: 1 !in Members(states[k], m))
              && Got(states[8], 0) == [Delivery(MsgId(Some(0), 1), Payload(UserLeft("v").Message()))]
  {
    hide Payload, RoomEvent.Message;
    var states := seq(9, k requires 0 <= k < 9 => ForeignState(k));
    forall k, m | 0 <= k < 9 ensures 1 !in Members(states[k], m) { NeverInRoom(k, m); }
    assert Got(states[8], 0) == [Told()] && Initial(states[0]);
    hide ForeignState, Enabled, Next;
    forall k | 0 <= k < 8 ensures Enabled(states[k], FOREIGN_LEAVE[k]) && states[k + 1] == Next(states[k], FOREIGN_LEAVE[k]) {
      ForeignStep(k);
    }
    assert IsRun(states, FOREIGN_LEAVE);
  }

  // ---- a queued JSON null ----

  const NULL_QUEUED := JOINING + [Message(0, Throws), Message(0, Ping), InitDone(0), Closed(0)]

  function NullState(k: nat): Server {
    var ready := Started(Entered([]), false);
    if k <= 3 then JoiningState(k)
    else if k == 4 then Inside(USER, map[0 := Entered([Throws])])
    else if k == 5 then Inside(USER, map[0 := Entered([Throws, Ping])])
    else if k == 6 then Inside(USER, map[0 := ready])
    else Inside(USER, map[0 := ready.(open := false)])
  }

  lemma NullStep(k: nat)
    requires k < 7
    ensures Enabled(NullState(k), NULL_QUEUED[k]) && Next(NullState(k), NULL_QUEUED[k]) == NullState(k + 1)
  {
    if k < 3 {
      JoiningStep(k);
    } else if k < 5 {
      NullArrives(k);
    } else {
      NullEnds(k);
    }
  }

  lemma NullArrives(k: nat)
    requires 3 <= k < 5
    ensures Enabled(NullState(k), NULL_QUEUED[k]) && Next(NullState(k), NULL_QUEUED[k]) == NullState(k + 1)
  {
    hide Payload, RoomEvent.Message, Process, JoinReply, Cleanup, PongTimeout, Tick, FinishInit, BroadcastToLocalRoom;
    assert [] + [Throws] == [Throws] && [Throws] + [Ping] == [Throws, Ping];
    match k
    case 3 => SameServer(Next(NullState(3), NULL_QUEUED[3]), NullState(4));
    case 4 => SameServer(Next(NullState(4), NULL_QUEUED[4]), NullState(5));
  }

  lemma NullEnds(k: nat)
    requires 5 <= k < 7
    ensures Enabled(NullState(k), NULL_QUEUED[k]) && Next(NullState(k), NULL_QUEUED[k]) == NullState(k + 1)
  {
    hide Payload, RoomEvent.Message, Process, JoinReply, Cleanup, PongTimeout, Tick, BroadcastToLocalRoom;
    match k
    case 5 =>
      assert Readable([Throws, Ping]) == [];
      SameServer(Next(NullState(5), NULL_QUEUED[5]), NullState(6));
    case 6 => SameServer(Next(NullState(6), NULL_QUEUED[6]), NullState(7));
  }

  /**
   The PING behind a JSON null is never handled, and when the socket closes nobody cleans up: the client is still in
   its room and in its user's set, until the next tick.
   */
  lemma NullLosesTheQueue()
    ensures exists states: seq<Server> ::
              && IsRun(states, NULL_QUEUED)
              && 0 in states[7].conns && states[7].conns[0].phase.Ready? && !states[7].conns[0].open
              && states[7].conns[0].done == [] && Replies(states[7], 0) == []
              && 0 in Members(states[7], "m") && Registered(states[7], 0)
  {
    hide RoomEvent.Message;
    var states := seq(8, k requires 0 <= k < 8 => NullState(k));
    var s := states[7];
    assert 0 in s.conns && s.conns[0].phase.Ready? && !s.conns[0].open && s.conns[0].done == [] && Replies(s, 0) == [];
    assert 0 in Members(s, "m") && Registered(s, 0) && Initial(states[0]);
    hide NullState, Enabled, Next;
    forall k | 0 <= k < 7 ensures Enabled(states[k], NULL_QUEUED[k]) && states[k + 1] == Next(states[k], NULL_QUEUED[k]) {
      NullStep(k);
    }
    assert IsRun(states, NULL_QUEUED);
  }
}
