/**
 What every reachable state of a replica satisfies: the maps agree with each connection's current
 model, membership rests on a granted authorisation, and cursor and annotation broadcasts stay in
 the sender's own room.
 */
module RoomSafety {
  import opened Json
  import opened RoomEvents
  import opened Wrappers
  import opened Rooms

  /** Registered in userConnections: from the confirmed subscription until cleanup. */
  predicate Active(conn: Conn) {
    (conn.phase.Authorising? || conn.phase.Initialising? || conn.phase.Ready?) && !conn.cleaned
  }

  predicate InRoom(rooms: map<Model, set<ConnId>>, m: Model, c: ConnId) {
    m in rooms && c in rooms[m]
  }

  predicate InUser(users: map<User, set<ConnId>>, u: User, c: ConnId) {
    u in users && c in users[u]
  }

  ghost predicate RoomsAgree(rooms: map<Model, set<ConnId>>, conns: map<ConnId, Conn>) {
    && (forall m | m in rooms :: rooms[m] != {})
    && (forall m, c | InRoom(rooms, m, c) :: c in conns && conns[c].current == Some(m))
    && (forall c | c in conns && conns[c].current.Some? :: InRoom(rooms, conns[c].current.value, c))
  }

  ghost predicate UsersAgree(users: map<User, set<ConnId>>, conns: map<ConnId, Conn>) {
    && (forall u | u in users :: users[u] != {})
    && (forall u, c | InUser(users, u, c) :: c in conns && conns[c].user == u && Active(conns[c]))
    && (forall c | c in conns && Active(conns[c]) :: InUser(users, conns[c].user, c))
  }

  predicate ConnOk(conn: Conn, granted: set<(User, Model)>) {
    && (conn.current.Some? ==> Active(conn) && (conn.user, conn.current.value) in granted)
    && (conn.cleaned ==> conn.phase.Ready? && !conn.open)
    && (conn.beat.due.Some? || conn.beat.pending != {} ==> conn.phase.Ready?)
  }

  ghost predicate ConnsOk(conns: map<ConnId, Conn>, granted: set<(User, Model)>, asks: multiset<Ask>) {
    && (forall c | c in conns :: ConnOk(conns[c], granted))
    && (forall a | a in asks :: a.conn in conns && conns[a.conn].phase.Ready?)
  }

  /** A cursor or annotation broadcast went to the room its sender was in, with an authorisation for it. */
  ghost predicate RecordOk(r: Record, conns: map<ConnId, Conn>, granted: set<(User, Model)>) {
    && (r.sender.Some? ==> r.sender.value in conns && r.sender.value !in r.audience)
    && r.audience <= r.members
    && (r.kind.CursorTrail? || r.kind.AnnotationRelay? ==>
      && r.sender.Some?
      && r.sender.value in r.members
      && (conns[r.sender.value].user, r.model) in granted)
  }

  ghost predicate LogOk(log: seq<Record>, conns: map<ConnId, Conn>, granted: set<(User, Model)>) {
    forall i | 0 <= i < |log| :: RecordOk(log[i], conns, granted)
  }

  ghost predicate Inv(s: Server) {
    && RoomsAgree(s.rooms, s.conns)
    && UsersAgree(s.users, s.conns)
    && ConnsOk(s.conns, s.granted, s.asks)
    && LogOk(s.log, s.conns, s.granted)
  }

  /** Connections stay, with the same user, cleaned ones stay so, and authorisations are never withdrawn. */
  ghost predicate Grows(s: Server, r: Server) {
    && s.granted <= r.granted
    && forall c | c in s.conns ::
      c in r.conns && r.conns[c].user == s.conns[c].user && (s.conns[c].cleaned ==> r.conns[c].cleaned)
  }

  ghost predicate Steady(s: Server, r: Server) {
    Grows(s, r) && r.granted == s.granted
  }

  lemma LogOkGrows(s: Server, r: Server)
    requires LogOk(s.log, s.conns, s.granted) && Grows(s, r)
    ensures LogOk(s.log, r.conns, r.granted)
  {
    forall i | 0 <= i < |s.log| ensures RecordOk(s.log[i], r.conns, r.granted) {
      assert RecordOk(s.log[i], s.conns, s.granted);
    }
  }

  lemma BroadcastKeeps(s: Server, m: Model, message: Value, kind: Kind, c: ConnId)
    requires LogOk(s.log, s.conns, s.granted) && c in s.conns
    requires kind.CursorTrail? || kind.AnnotationRelay? ==> c in Members(s, m) && (s.conns[c].user, m) in s.granted
    ensures LogOk(Broadcast(s, m, message, kind, c).log, s.conns, s.granted)
  {
    hide Payload, RoomEvent.Message;
  }

  lemma RemoteKeeps(s: Server, id: MsgId, m: Model, message: Value)
    requires LogOk(s.log, s.conns, s.granted)
    ensures LogOk(BroadcastToLocalRoom(s, id, m, message, FromOutside, None).log, s.conns, s.granted)
  {
    hide Payload, RoomEvent.Message;
  }

  lemma RoomsAgreeFrame(rooms: map<Model, set<ConnId>>, conns: map<ConnId, Conn>, c: ConnId, conn: Conn)
    requires RoomsAgree(rooms, conns) && c in conns && conn.current == conns[c].current
    ensures RoomsAgree(rooms, conns[c := conn])
  {
  }

  lemma UsersAgreeFrame(users: map<User, set<ConnId>>, conns: map<ConnId, Conn>, c: ConnId, conn: Conn)
    requires UsersAgree(users, conns) && c in conns
    requires conn.user == conns[c].user && Active(conn) == Active(conns[c])
    ensures UsersAgree(users, conns[c := conn])
  {
  }

  lemma ConnsOkFrame(conns: map<ConnId, Conn>, granted: set<(User, Model)>, asks: multiset<Ask>, c: ConnId, conn: Conn)
    requires ConnsOk(conns, granted, asks) && c in conns
    requires ConnOk(conn, granted) && (conns[c].phase.Ready? ==> conn.phase.Ready?)
    ensures ConnsOk(conns[c := conn], granted, asks)
  {
  }

  /** Replacing a connection by one with the same room and the same standing keeps the invariant. */
  lemma PutKeeps(s: Server, c: ConnId, conn: Conn)
    requires Inv(s) && c in s.conns
    requires conn.user == s.conns[c].user && conn.current == s.conns[c].current
    requires Active(conn) == Active(s.conns[c]) && ConnOk(conn, s.granted)
    requires s.conns[c].phase.Ready? ==> conn.phase.Ready?
    requires s.conns[c].cleaned ==> conn.cleaned
    ensures Inv(Put(s, c, conn)) && Steady(s, Put(s, c, conn))
  {
    hide RoomsAgree, UsersAgree, ConnsOk, LogOk;
    RoomsAgreeFrame(s.rooms, s.conns, c, conn);
    UsersAgreeFrame(s.users, s.conns, c, conn);
    ConnsOkFrame(s.conns, s.granted, s.asks, c, conn);
    LogOkGrows(s, Put(s, c, conn));
  }

  lemma LeaveRoomsAgree(rooms: map<Model, set<ConnId>>, conns: map<ConnId, Conn>, c: ConnId, m: Model)
    requires RoomsAgree(rooms, conns) && c in conns && m in rooms
    ensures var rest := rooms[m] - {c};
            RoomsAgree(if rest == {} then rooms - {m} else rooms[m := rest],
                       if conns[c].current == Some(m) then conns[c := conns[c].(current := None)] else conns)
  {
    var rest := rooms[m] - {c};
    var rooms1 := if rest == {} then rooms - {m} else rooms[m := rest];
    forall n, d ensures InRoom(rooms1, n, d) <==> InRoom(rooms, n, d) && !(n == m && d == c) {
      if n == m && d != c && d in rooms[m] { assert d in rest; }
    }
  }

  lemma LeaveShape(s: Server, c: ConnId, m: Model)
    requires c in s.conns && m in s.rooms
    ensures var r, rest, conn := LeaveRoom(s, c, m), s.rooms[m] - {c}, s.conns[c];
            && r.rooms == (if rest == {} then s.rooms - {m} else s.rooms[m := rest])
            && r.conns == (if conn.current == Some(m) then s.conns[c := conn.(current := None)] else s.conns)
            && r.users == s.users && r.granted == s.granted && r.asks == s.asks
            && r.log == Broadcast(s.(rooms := s.rooms[m := rest]), m, UserLeft(conn.user).Message(), Presence, c).log
  {
    hide Payload, RoomEvent.Message;
  }

  lemma LeaveKeeps(s: Server, c: ConnId, m: Model)
    requires Inv(s) && c in s.conns
    ensures var r := LeaveRoom(s, c, m);
            && Inv(r) && Steady(s, r)
            && r.conns == if s.conns[c].current == Some(m)
                          then s.conns[c := s.conns[c].(current := None)] else s.conns
  {
    hide Payload, RoomEvent.Message, RoomsAgree, UsersAgree, LogOk, Broadcast;
    if m in s.rooms {
      LeaveShape(s, c, m);
      LeaveRoomsAgree(s.rooms, s.conns, c, m);
      BroadcastKeeps(s.(rooms := s.rooms[m := s.rooms[m] - {c}]), m, UserLeft(s.conns[c].user).Message(), Presence, c);
      var r, conn := LeaveRoom(s, c, m), s.conns[c];
      assert ConnOk(conn, s.granted);
      hide LeaveRoom, ConnsOk;
      if conn.current == Some(m) {
        UsersAgreeFrame(s.users, s.conns, c, conn.(current := None));
        ConnsOkFrame(s.conns, s.granted, s.asks, c, conn.(current := None));
      }
      LogOkGrows(s.(log := r.log), r);
    } else {
      NotThere(s, c, m);
    }
  }

  lemma NotThere(s: Server, c: ConnId, m: Model)
    requires RoomsAgree(s.rooms, s.conns) && c in s.conns && m !in s.rooms
    ensures s.conns[c].current != Some(m)
  {
  }

  lemma LeaveCurrentKeeps(s: Server, c: ConnId)
    requires Inv(s) && c in s.conns
    ensures var r := LeaveCurrent(s, c);
            Inv(r) && Steady(s, r) && r.conns == s.conns[c := s.conns[c].(current := None)]
  {
    hide Payload, RoomEvent.Message;
    if s.conns[c].current.Some? {
      LeaveKeeps(s, c, s.conns[c].current.value);
    } else {
      assert s.conns == s.conns[c := s.conns[c].(current := None)];
    }
  }

  lemma EnterRoomsAgree(rooms: map<Model, set<ConnId>>, conns: map<ConnId, Conn>, c: ConnId, m: Model)
    requires RoomsAgree(rooms, conns) && c in conns && conns[c].current.None?
    ensures RoomsAgree(rooms[m := (if m in rooms then rooms[m] else {}) + {c}],
                       conns[c := conns[c].(current := Some(m))])
  {
    var rooms1 := rooms[m := (if m in rooms then rooms[m] else {}) + {c}];
    forall n, d ensures InRoom(rooms1, n, d) <==> InRoom(rooms, n, d) || (n == m && d == c) {}
  }

  lemma EnterKeeps(s: Server, c: ConnId, m: Model)
    requires Inv(s) && c in s.conns && s.conns[c].current.None?
    requires Active(s.conns[c]) && (s.conns[c].user, m) in s.granted
    ensures Inv(EnterRoom(s, c, m)) && Steady(s, EnterRoom(s, c, m))
    ensures EnterRoom(s, c, m).conns == s.conns[c := s.conns[c].(current := Some(m))]
  {
    hide Payload, RoomEvent.Message, RoomsAgree, UsersAgree, LogOk;
    var conn := s.conns[c].(current := Some(m));
    EnterRoomsAgree(s.rooms, s.conns, c, m);
    assert ConnOk(s.conns[c], s.granted);
    UsersAgreeFrame(s.users, s.conns, c, conn);
    ConnsOkFrame(s.conns, s.granted, s.asks, c, conn);
    var s2 := Put(s, c, conn).(rooms := s.rooms[m := Members(s, m) + {c}]);
    LogOkGrows(s, s2);
    BroadcastKeeps(s2, m, UserJoined(s.conns[c].user, NameValue(s.conns[c].name)).Message(), Presence, c);
  }

  lemma JoinRoomKeeps(s: Server, c: ConnId, m: Model)
    requires Inv(s) && c in s.conns
    requires Active(s.conns[c]) && (s.conns[c].user, m) in s.granted
    ensures Inv(JoinRoom(s, c, m)) && Steady(s, JoinRoom(s, c, m))
    ensures JoinRoom(s, c, m).conns == s.conns[c := s.conns[c].(current := Some(m))]
  {
    hide EnterRoom, LeaveCurrent, RoomsAgree, UsersAgree, LogOk;
    if s.conns[c].current == Some(m) {
      assert s.conns == s.conns[c := s.conns[c].(current := Some(m))];
    } else {
      LeaveCurrentKeeps(s, c);
      EnterKeeps(LeaveCurrent(s, c), c, m);
    }
  }

  lemma MoreGrantsKeep(s: Server, granted: set<(User, Model)>)
    requires Inv(s) && s.granted <= granted
    ensures Inv(s.(granted := granted))
  {
    LogOkGrows(s, s.(granted := granted));
  }

  lemma GrantKeeps(s: Server, c: ConnId, m: Model, name: Option<string>)
    requires Inv(s) && c in s.conns
    ensures var r := Grant(s, c, m, name);
            && Inv(r) && Grows(s, r) && (s.conns[c].user, m) in r.granted
  {
    hide Inv;
    MoreGrantsKeep(s, s.granted + {(s.conns[c].user, m)});
    NameKeeps(s.(granted := s.granted + {(s.conns[c].user, m)}), c, name);
  }

  lemma NameKeeps(s: Server, c: ConnId, name: Option<string>)
    requires Inv(s) && c in s.conns
    ensures Inv(Put(s, c, if s.conns[c].name.None? then s.conns[c].(name := name) else s.conns[c]))
  {
    hide RoomsAgree, UsersAgree, LogOk;
    assert ConnOk(s.conns[c], s.granted);
    PutKeeps(s, c, if s.conns[c].name.None? then s.conns[c].(name := name) else s.conns[c]);
  }

  lemma JoinReplyKeeps(s: Server, c: ConnId, m: Model, authorized: bool, name: Option<string>)
    requires Inv(s) && c in s.conns
    requires s.conns[c].phase.Authorising? || s.conns[c].phase.Ready?
    ensures var r := JoinReply(s, c, m, authorized, name);
            && Inv(r) && Grows(s, r) && c in r.conns
            && r.conns[c].phase == s.conns[c].phase && r.conns[c].cleaned == s.conns[c].cleaned
  {
    hide JoinRoom, RoomsAgree, UsersAgree, LogOk;
    if authorized {
      GrantKeeps(s, c, m, name);
      var s1 := Grant(s, c, m, name);
      assert s1.conns[c].phase == s.conns[c].phase && s1.conns[c].cleaned == s.conns[c].cleaned;
      if s1.conns[c].open {
        assert ConnOk(s1.conns[c], s1.granted);
        JoinRoomKeeps(s1, c, m);
      }
    }
  }

  lemma UnregisterAgrees(users: map<User, set<ConnId>>, conns: map<ConnId, Conn>, c: ConnId)
    requires UsersAgree(users, conns) && c in conns
    ensures UsersAgree(DropUser(users, conns[c].user, c), conns[c := conns[c].(cleaned := true)])
  {
    var u := conns[c].user;
    var users1 := DropUser(users, u, c);
    forall v, d ensures InUser(users1, v, d) <==> InUser(users, v, d) && !(v == u && d == c) {
      if v == u && d != c && InUser(users, u, d) { assert d in users[u] - {c}; }
    }
  }

  lemma UnregisterKeeps(s: Server, c: ConnId)
    requires Inv(s) && c in s.conns && s.conns[c].phase.Ready? && !s.conns[c].open && s.conns[c].current.None?
    ensures Inv(Unregister(s, c)) && Steady(s, Unregister(s, c))
  {
    hide RoomsAgree, UsersAgree, LogOk, DropUser;
    UnregisterAgrees(s.users, s.conns, c);
    RoomsAgreeFrame(s.rooms, s.conns, c, s.conns[c].(cleaned := true));
    LogOkGrows(s, Unregister(s, c));
  }

  /** A heartbeat change touches no map and no standing. */
  lemma BeatKeeps(s: Server, c: ConnId, beat: Heartbeat)
    requires Inv(s) && c in s.conns && s.conns[c].phase.Ready?
    ensures Inv(Put(s, c, s.conns[c].(beat := beat))) && Steady(s, Put(s, c, s.conns[c].(beat := beat)))
  {
    hide RoomsAgree, UsersAgree, LogOk;
    assert ConnOk(s.conns[c], s.granted);
    PutKeeps(s, c, s.conns[c].(beat := beat));
  }

  lemma CleanupKeeps(s: Server, c: ConnId)
    requires Inv(s) && c in s.conns && s.conns[c].phase.Ready? && !s.conns[c].open
    ensures var r := Cleanup(s, c);
            && Inv(r) && Steady(s, r)
            && r.conns == s.conns[c := s.conns[c].(current := None, cleaned := true, beat := StopHeartbeat(s.conns[c].beat))]
  {
    hide Inv, LeaveCurrent, StopHeartbeat, DropUser;
    BeatKeeps(s, c, StopHeartbeat(s.conns[c].beat));
    var s1 := Put(s, c, s.conns[c].(beat := StopHeartbeat(s.conns[c].beat)));
    LeaveCurrentKeeps(s1, c);
    UnregisterKeeps(LeaveCurrent(s1, c), c);
  }

  lemma ProcessKeeps(s: Server, c: ConnId, msg: ClientMessage)
    requires Inv(s) && c in s.conns && s.conns[c].phase.Ready?
    ensures var r := Process(s, c, msg);
            && Inv(r) && Steady(s, r) && c in r.conns && r.conns[c].phase.Ready?
  {
    hide LeaveRoom, SeePong, MoveCursor, RelayEvent, RoomsAgree, UsersAgree, ConnsOk, LogOk;
    match msg
    case JoinModel(m) => AskKeeps(s, c, m);
    case LeaveModel(m) => LeaveKeeps(s, c, m);
    case CursorMove(position, normal) => CursorKeeps(s, c, position, normal);
    case Ping =>
    case Pong => BeatKeeps(s, c, SeePong(s.conns[c].beat, s.now));
    case Relay(kind, data) => RelayKeeps(s, c, kind, data);
    case Unknown =>
    case Throws =>
  }

  lemma AskKeeps(s: Server, c: ConnId, m: Model)
    requires Inv(s) && c in s.conns && s.conns[c].phase.Ready?
    ensures Inv(s.(asks := s.asks + multiset{Ask(c, m)}))
  {
  }

  lemma RelayKeeps(s: Server, c: ConnId, kind: RelayKind, data: Value)
    requires Inv(s) && c in s.conns && s.conns[c].phase.Ready?
    ensures var r := RelayEvent(s, c, kind, data);
            Inv(r) && Steady(s, r) && c in r.conns && r.conns[c].phase.Ready?
  {
    hide Payload, RoomEvent.Message, UsersAgree;
    var conn := s.conns[c];
    if conn.current.Some? {
      assert ConnOk(conn, s.granted);
      assert InRoom(s.rooms, conn.current.value, c);
      BroadcastKeeps(s, conn.current.value, Relayed(kind, conn.user, data).Message(), AnnotationRelay, c);
    }
  }

  lemma CursorKeeps(s: Server, c: ConnId, position: Value, normal: Value)
    requires Inv(s) && c in s.conns && s.conns[c].phase.Ready?
    ensures var r := MoveCursor(s, c, position, normal);
            Inv(r) && Steady(s, r) && c in r.conns && r.conns[c].phase.Ready?
  {
    hide Payload, RoomEvent.Message, UsersAgree, IsVector3;
    var conn := s.conns[c];
    if conn.current.Some? {
      assert ConnOk(conn, s.granted);
      assert InRoom(s.rooms, conn.current.value, c);
      PutKeeps(s, c, conn.(lastCursor := s.now));
      BroadcastKeeps(Put(s, c, conn.(lastCursor := s.now)), conn.current.value,
                     CursorMoved(conn.user, position).Message(), CursorTrail, c);
    }
  }

  lemma HandleKeeps(s: Server, c: ConnId, msg: ClientMessage)
    requires Inv(s) && c in s.conns && s.conns[c].phase.Ready?
    ensures var r := Handle(s, c, msg);
            && Inv(r) && Steady(s, r) && c in r.conns && r.conns[c].phase.Ready?
  {
    hide Inv, Process;
    DoneKeeps(s, c, msg);
    ProcessKeeps(Put(s, c, s.conns[c].(done := s.conns[c].done + [msg])), c, msg);
  }

  lemma DoneKeeps(s: Server, c: ConnId, msg: ClientMessage)
    requires Inv(s) && c in s.conns
    ensures Inv(Put(s, c, s.conns[c].(done := s.conns[c].done + [msg])))
  {
    hide RoomsAgree, UsersAgree, LogOk;
    assert ConnOk(s.conns[c], s.granted);
    PutKeeps(s, c, s.conns[c].(done := s.conns[c].done + [msg]));
  }

  lemma {:induction false} DrainKeeps(s: Server, c: ConnId, msgs: seq<ClientMessage>)
    requires Inv(s) && c in s.conns && s.conns[c].phase.Ready?
    ensures Inv(Drain(s, c, msgs)) && Steady(s, Drain(s, c, msgs))
    decreases |msgs|
  {
    hide Inv, Handle;
    if msgs != [] {
      HandleKeeps(s, c, msgs[0]);
      DrainKeeps(Handle(s, c, msgs[0]), c, msgs[1..]);
    }
  }

  lemma FinishInitKeeps(s: Server, c: ConnId)
    requires Inv(s) && c in s.conns && s.conns[c].phase.Initialising?
    ensures Inv(FinishInit(s, c)) && Steady(s, FinishInit(s, c))
  {
    hide RoomsAgree, UsersAgree, LogOk, Drain, StartHeartbeat;
    var conn := s.conns[c];
    var readable := Readable(conn.pending);
    var conn1 := conn.(phase := Ready, beat := StartHeartbeat(conn.beat, s.now), pending := []);
    assert ConnOk(conn, s.granted);
    PutKeeps(s, c, conn1);
    DrainKeeps(Put(s, c, conn1), c, readable);
    var r := Drain(Put(s, c, conn1), c, readable);
    assert ConnOk(r.conns[c], r.granted);
    PutKeeps(r, c, r.conns[c].(attached := readable == conn.pending));
  }

  lemma RegisterAgrees(users: map<User, set<ConnId>>, conns: map<ConnId, Conn>, c: ConnId, conn: Conn)
    requires UsersAgree(users, conns) && c in conns && conn.user == conns[c].user && Active(conn)
    ensures UsersAgree(users[conn.user := (if conn.user in users then users[conn.user] else {}) + {c}], conns[c := conn])
  {
    var users1 := users[conn.user := (if conn.user in users then users[conn.user] else {}) + {c}];
    forall v, d ensures InUser(users1, v, d) <==> InUser(users, v, d) || (v == conn.user && d == c) {}
  }

  lemma RegisterSteady(s: Server, c: ConnId)
    requires c in s.conns
    ensures Steady(s, Register(s, c))
  {
  }

  lemma RegisterKeeps(s: Server, c: ConnId)
    requires Inv(s) && c in s.conns && s.conns[c].phase.Subscribing?
    ensures Inv(Register(s, c)) && Steady(s, Register(s, c))
  {
    hide RoomsAgree, UsersAgree, LogOk, Grows;
    RegisterSteady(s, c);
    var conn := s.conns[c];
    var conn1 := conn.(phase := if conn.initial != "" then Authorising else Initialising);
    assert ConnOk(conn, s.granted) && ConnOk(conn1, s.granted);
    hide ConnOk;
    RegisterAgrees(s.users, s.conns, c, conn1);
    RoomsAgreeFrame(s.rooms, s.conns, c, conn1);
    ConnsOkFrame(s.conns, s.granted, s.asks, c, conn1);
    hide ConnsOk;
    LogOkGrows(s, Register(s, c));
  }

  lemma NewConnAgrees(s: Server, c: ConnId, conn: Conn)
    requires Inv(s) && c !in s.conns && conn.current.None? && !Active(conn)
    ensures RoomsAgree(s.rooms, s.conns[c := conn]) && UsersAgree(s.users, s.conns[c := conn])
  {
  }

  lemma ConnectKeeps(s: Server, c: ConnId, user: User, initial: Model)
    requires Inv(s) && c !in s.conns
    ensures Inv(Put(s, c, NewConn(user, initial))) && Steady(s, Put(s, c, NewConn(user, initial)))
  {
    hide LogOk, RoomsAgree, UsersAgree;
    NewConnAgrees(s, c, NewConn(user, initial));
    LogOkGrows(s, Put(s, c, NewConn(user, initial)));
  }

  /** The socket leaving the open state changes no map. */
  lemma ShutKeeps(s: Server, c: ConnId)
    requires Inv(s) && c in s.conns
    ensures var r := Put(s, c, s.conns[c].(open := false)); Inv(r) && Steady(s, r)
  {
    hide RoomsAgree, UsersAgree, LogOk;
    assert ConnOk(s.conns[c], s.granted);
    PutKeeps(s, c, s.conns[c].(open := false));
  }

  lemma InitialReplyKeeps(s: Server, c: ConnId, authorized: bool, name: Option<string>)
    requires Inv(s) && c in s.conns && s.conns[c].phase.Authorising?
    ensures var r := Next(s, InitialReply(c, authorized, name)); Inv(r) && Grows(s, r)
  {
    hide JoinReply, RoomsAgree, UsersAgree, LogOk;
    JoinReplyKeeps(s, c, s.conns[c].initial, authorized, name);
    var s1 := JoinReply(s, c, s.conns[c].initial, authorized, name);
    assert ConnOk(s1.conns[c], s1.granted);
    PutKeeps(s1, c, s1.conns[c].(phase := Initialising));
  }

  lemma AnswerKeeps(s: Server, ask: Ask, authorized: bool, name: Option<string>)
    requires Inv(s) && Enabled(s, JoinAnswer(ask, authorized, name))
    ensures var r := Next(s, JoinAnswer(ask, authorized, name)); Inv(r) && Grows(s, r)
  {
    hide JoinReply, RoomsAgree, UsersAgree, LogOk;
    var s1 := s.(asks := s.asks - multiset{ask});
    assert Inv(s1);
    JoinReplyKeeps(s1, ask.conn, ask.model, authorized, name);
  }

  lemma RepliesKeep(s: Server, replies: map<ConnId, seq<Reply>>)
    requires Inv(s)
    ensures Inv(s.(replies := replies))
  {
  }

  lemma TickKeeps(s: Server, c: ConnId)
    requires Inv(s) && c in s.conns && s.conns[c].phase.Ready?
    ensures Inv(Tick(s, c)) && Steady(s, Tick(s, c))
  {
    hide Inv, Cleanup, TickBeat;
    var conn := s.conns[c];
    if conn.open {
      BeatKeeps(s, c, TickBeat(conn.beat, s.now));
      RepliesKeep(Put(s, c, conn.(beat := TickBeat(conn.beat, s.now))), s.replies[c := Replies(s, c) + [PingOut]]);
    } else {
      CleanupKeeps(s, c);
    }
  }

  lemma ExpireKeeps(s: Server, c: ConnId, beat: Heartbeat)
    requires Inv(s) && c in s.conns && s.conns[c].phase.Ready?
    ensures Inv(Expire(s, c, beat)) && Steady(s, Expire(s, c, beat))
  {
    hide RoomsAgree, UsersAgree, LogOk;
    assert ConnOk(s.conns[c], s.granted);
    PutKeeps(s, c, Expire(s, c, beat).conns[c]);
  }

  lemma TimeoutKeeps(s: Server, c: ConnId, deadline: int)
    requires Inv(s) && c in s.conns && s.conns[c].phase.Ready?
    ensures Inv(PongTimeout(s, c, deadline)) && Steady(s, PongTimeout(s, c, deadline))
  {
    hide Inv, Cleanup;
    var fired := s.conns[c].beat.(pending := s.conns[c].beat.pending - {deadline});
    if fired.alive {
      BeatKeeps(s, c, fired);
    } else {
      ExpireKeeps(s, c, fired);
      CleanupKeeps(Expire(s, c, fired), c);
    }
  }

  lemma ReceiveKeeps(s: Server, c: ConnId, msg: ClientMessage)
    requires Inv(s) && c in s.conns
    ensures Inv(Receive(s, c, msg)) && Steady(s, Receive(s, c, msg))
  {
    hide RoomsAgree, UsersAgree, LogOk, Handle;
    if s.conns[c].phase.Ready? {
      HandleKeeps(s, c, msg);
    } else if |s.conns[c].pending| < MAX_PENDING_MESSAGES {
      assert ConnOk(s.conns[c], s.granted);
      PutKeeps(s, c, Receive(s, c, msg).conns[c]);
    }
  }

  lemma ClosedKeeps(s: Server, c: ConnId)
    requires Inv(s) && c in s.conns
    ensures Inv(Next(s, Closed(c))) && Steady(s, Next(s, Closed(c)))
  {
    hide Inv, Cleanup;
    ShutKeeps(s, c);
    if s.conns[c].phase.Ready? && s.conns[c].attached { CleanupKeeps(Put(s, c, s.conns[c].(open := false)), c); }
  }

  lemma RefusedKeeps(s: Server, c: ConnId)
    requires Inv(s) && c in s.conns && s.conns[c].phase.Subscribing?
    ensures Inv(Next(s, SubscribeFailed(c))) && Steady(s, Next(s, SubscribeFailed(c)))
  {
    hide RoomsAgree, UsersAgree, LogOk;
    assert ConnOk(s.conns[c], s.granted);
    PutKeeps(s, c, s.conns[c].(phase := Refused, open := false));
  }

  /** Every handler keeps the invariant. */
  lemma NextKeeps(s: Server, e: Step)
    requires Inv(s) && Enabled(s, e)
    ensures Inv(Next(s, e)) && Grows(s, Next(s, e))
  {
    hide Inv, Grows, Receive, Register, FinishInit, Tick, PongTimeout, JoinReply, Cleanup, BroadcastToLocalRoom;
    match e
    case Connect(c, user, initial) => ConnectKeeps(s, c, user, initial);
    case SubscribeOk(c) => RegisterKeeps(s, c);
    case SubscribeFailed(c) => RefusedKeeps(s, c);
    case InitialReply(c, authorized, name) => InitialReplyKeeps(s, c, authorized, name);
    case InitDone(c) => FinishInitKeeps(s, c);
    case Message(c, msg) => ReceiveKeeps(s, c, msg);
    case JoinAnswer(ask, authorized, name) => AnswerKeeps(s, ask, authorized, name);
    case GoingAway(c) => ShutKeeps(s, c);
    case Closed(c) => ClosedKeeps(s, c);
    case HeartbeatTick(c) => InvConn(s, c); TickKeeps(s, c);
    case PongDeadline(c, d) => InvConn(s, c); TimeoutKeeps(s, c, d);
    case Remote(id, m, message) => RemoteStepKeeps(s, id, m, message);
    case Pass(ms) => PassKeeps(s, ms);
  }

  lemma InvConn(s: Server, c: ConnId)
    requires Inv(s) && c in s.conns
    ensures ConnOk(s.conns[c], s.granted)
  {
    hide RoomsAgree, UsersAgree, LogOk;
  }

  lemma PassKeeps(s: Server, ms: int)
    requires Inv(s)
    ensures Inv(s.(now := s.now + ms)) && Steady(s, s.(now := s.now + ms))
  {
    hide RoomsAgree, UsersAgree, LogOk, ConnsOk;
  }

  lemma RemoteStepKeeps(s: Server, id: MsgId, m: Model, message: Value)
    requires Inv(s)
    ensures Inv(Next(s, Remote(id, m, message))) && Steady(s, Next(s, Remote(id, m, message)))
  {
    hide Payload, RoomsAgree, UsersAgree, ConnsOk, LogOk;
    RemoteKeeps(s, id, m, message);
  }

  // ---- whole runs ----

  ghost predicate IsRun(states: seq<Server>, steps: seq<Step>) {
    && |states| == |steps| + 1
    && Initial(states[0])
    && forall i | 0 <= i < |steps| :: Enabled(states[i], steps[i]) && states[i + 1] == Next(states[i], steps[i])
  }

  lemma {:induction false} RunKeeps(states: seq<Server>, steps: seq<Step>, i: nat)
    requires IsRun(states, steps) && i < |states|
    ensures Inv(states[i])
  {
    hide Next, Enabled, Inv;
    if i == 0 {
      InitialOk(states[0]);
    } else {
      RunKeeps(states, steps, i - 1);
      NextKeeps(states[i - 1], steps[i - 1]);
    }
  }

  lemma InitialOk(s: Server)
    requires Initial(s)
    ensures Inv(s)
  {
  }

  /**
   In every reachable state a client is in a room exactly when that is its current model, no stored
   set is empty, and every room member is registered under its user.
   */
  lemma RoomsMatchClients(states: seq<Server>, steps: seq<Step>, i: nat)
    requires IsRun(states, steps) && i < |states|
    ensures var s := states[i];
            && (forall m, c :: c in Members(s, m) <==> c in s.conns && s.conns[c].current == Some(m))
            && (forall m | m in s.rooms :: s.rooms[m] != {})
            && (forall u | u in s.users :: s.users[u] != {})
            && (forall m, c | c in Members(s, m) :: Registered(s, c))
  {
    hide IsRun;
    RunKeeps(states, steps, i);
    var s := states[i];
    forall m, c ensures c in Members(s, m) <==> c in s.conns && s.conns[c].current == Some(m) {
      assert c in Members(s, m) <==> InRoom(s.rooms, m, c);
    }
    forall m, c | c in Members(s, m) ensures c in s.conns && Registered(s, c) {
      assert ConnOk(s.conns[c], s.granted);
      assert InUser(s.users, s.conns[c].user, c);
    }
  }

  lemma {:induction false} CleanedForever(states: seq<Server>, steps: seq<Step>, c: ConnId, i: nat, j: nat)
    requires IsRun(states, steps) && i <= j < |states|
    requires c in states[i].conns && states[i].conns[c].cleaned
    ensures c in states[j].conns && states[j].conns[c].cleaned
  {
    hide Next, Enabled, Inv;
    if i < j {
      CleanedForever(states, steps, c, i, j - 1);
      RunKeeps(states, steps, j - 1);
      NextKeeps(states[j - 1], steps[j - 1]);
    }
  }

  /** The handlers that call cleanup: 'close' or 'error', a tick that finds the socket closed, a missed pong. */
  predicate RunsCleanup(s: Server, e: Step, c: ConnId)
    requires c in s.conns
  {
    match e
    case Closed(d) => d == c && s.conns[c].phase.Ready? && s.conns[c].attached
    case HeartbeatTick(d) => d == c && !s.conns[c].open
    case PongDeadline(d, _) => d == c && !s.conns[c].beat.alive
    case _ => false
  }

  lemma CleanupMarks(s: Server, e: Step, c: ConnId)
    requires Inv(s) && Enabled(s, e) && c in s.conns && RunsCleanup(s, e, c)
    ensures c in Next(s, e).conns && Next(s, e).conns[c].cleaned
  {
    hide RoomsAgree, UsersAgree, LogOk, Cleanup;
    assert ConnOk(s.conns[c], s.granted);
    match e
    case Closed(_) =>
      ShutKeeps(s, c);
      CleanupKeeps(Put(s, c, s.conns[c].(open := false)), c);
    case HeartbeatTick(_) => CleanupKeeps(s, c);
    case PongDeadline(_, d) =>
      var fired := s.conns[c].beat.(pending := s.conns[c].beat.pending - {d});
      ExpireKeeps(s, c, fired);
      CleanupKeeps(Expire(s, c, fired), c);
    case _ =>
  }

  lemma NobodyCleaned(s: Server, c: ConnId)
    requires Inv(s) && c in s.conns && s.conns[c].cleaned
    ensures forall m :: c !in Members(s, m)
    ensures forall u :: !InUser(s.users, u, c)
  {
    forall m ensures c !in Members(s, m) {
      assert ConnOk(s.conns[c], s.granted);
      assert c in Members(s, m) ==> InRoom(s.rooms, m, c);
    }
  }

  /**
   Once cleanup has run for a client it is in no room and no user set ever after, with join replies
   still in flight, messages still arriving, or cleanup running again.
   */
  lemma CleanedStaysOut(states: seq<Server>, steps: seq<Step>, c: ConnId, i: nat, j: nat)
    requires IsRun(states, steps) && i < j < |states|
    requires c in states[i].conns && RunsCleanup(states[i], steps[i], c)
    ensures forall m :: c !in Members(states[j], m)
    ensures forall u :: !InUser(states[j].users, u, c)
  {
    hide Next, Enabled, Inv, RunsCleanup;
    RunKeeps(states, steps, i);
    CleanupMarks(states[i], steps[i], c);
    CleanedForever(states, steps, c, i + 1, j);
    RunKeeps(states, steps, j);
    NobodyCleaned(states[j], c);
  }

  // ---- authorisation ----

  /** A reply of the authorisation service that grants `u` access to `m`. */
  predicate Grants(s: Server, e: Step, u: User, m: Model) {
    match e
    case InitialReply(c, authorized, _) => authorized && c in s.conns && s.conns[c].user == u && s.conns[c].initial == m
    case JoinAnswer(ask, authorized, _) => authorized && ask.conn in s.conns && s.conns[ask.conn].user == u && ask.model == m
    case _ => false
  }

  lemma JoinReplyGrants(s: Server, c: ConnId, m: Model, authorized: bool, name: Option<string>)
    requires Inv(s) && c in s.conns && (s.conns[c].phase.Authorising? || s.conns[c].phase.Ready?)
    ensures JoinReply(s, c, m, authorized, name).granted
         == s.granted + if authorized then {(s.conns[c].user, m)} else {}
  {
    hide Inv, JoinRoom;
    if authorized {
      GrantKeeps(s, c, m, name);
      var s1 := Grant(s, c, m, name);
      if s1.conns[c].open {
        OpenIsActive(s1, c);
        JoinRoomKeeps(s1, c, m);
      }
    }
  }

  lemma OpenIsActive(s: Server, c: ConnId)
    requires Inv(s) && c in s.conns && (s.conns[c].phase.Authorising? || s.conns[c].phase.Ready?) && s.conns[c].open
    ensures Active(s.conns[c])
  {
    assert ConnOk(s.conns[c], s.granted);
  }

  /** Requests are only sent by connections that process messages. */
  lemma FewerAsks(s: Server, ask: Ask)
    requires Inv(s) && ask in s.asks
    ensures ask.conn in s.conns && s.conns[ask.conn].phase.Ready? && Inv(s.(asks := s.asks - multiset{ask}))
  {
    hide RoomsAgree, UsersAgree, LogOk;
  }

  lemma GrantsOnlyByReply(s: Server, e: Step, u: User, m: Model)
    requires Inv(s) && Enabled(s, e) && (u, m) in Next(s, e).granted && (u, m) !in s.granted
    ensures Grants(s, e, u, m)
  {
    hide Inv, JoinReply, Receive, Register, FinishInit, Tick, PongTimeout, Cleanup;
    match e
    case SubscribeOk(c) => RegisterKeeps(s, c);
    case InitialReply(c, authorized, name) => JoinReplyGrants(s, c, s.conns[c].initial, authorized, name);
    case InitDone(c) => FinishInitKeeps(s, c);
    case Message(c, msg) => ReceiveKeeps(s, c, msg);
    case JoinAnswer(ask, authorized, name) =>
      FewerAsks(s, ask);
      JoinReplyGrants(s.(asks := s.asks - multiset{ask}), ask.conn, ask.model, authorized, name);
    case Closed(c) => ClosedKeeps(s, c);
    case HeartbeatTick(c) => InvConn(s, c); TickKeeps(s, c);
    case PongDeadline(c, d) => InvConn(s, c); TimeoutKeeps(s, c, d);
    case Remote(id, model, message) => RemoteStepKeeps(s, id, model, message);
    case _ =>
  }

  lemma {:induction false} GrantedEarlier(states: seq<Server>, steps: seq<Step>, i: nat, u: User, m: Model) returns (j: nat)
    requires IsRun(states, steps) && i < |states| && (u, m) in states[i].granted
    ensures j < i && j < |steps| && Grants(states[j], steps[j], u, m)
  {
    hide Next, Enabled, Inv, Grants;
    RunKeeps(states, steps, i - 1);
    if (u, m) in states[i - 1].granted {
      j := GrantedEarlier(states, steps, i - 1, u, m);
    } else {
      GrantsOnlyByReply(states[i - 1], steps[i - 1], u, m);
      j := i - 1;
    }
  }

  /** Whoever is in a room, an earlier reply granted that user that model, however the joins overlapped. */
  lemma MembersWereAuthorised(states: seq<Server>, steps: seq<Step>, i: nat, m: Model, c: ConnId)
    requires IsRun(states, steps) && i < |states| && c in Members(states[i], m)
    ensures c in states[i].conns
    ensures exists j | 0 <= j < i :: Grants(states[j], steps[j], states[i].conns[c].user, m)
  {
    hide IsRun, RoomsAgree, UsersAgree, LogOk;
    RunKeeps(states, steps, i);
    RoomsMatchClients(states, steps, i);
    assert ConnOk(states[i].conns[c], states[i].granted);
    var j := GrantedEarlier(states, steps, i, states[i].conns[c].user, m);
  }

  /**
   Every cursor or annotation broadcast, in any run, went to clients of the room its sender was in at
   that moment, never back to the sender, and the sender's user had been granted that model.
   */
  lemma BroadcastsStayInRoom(states: seq<Server>, steps: seq<Step>, i: nat, k: nat)
    requires IsRun(states, steps) && i < |states| && k < |states[i].log|
    ensures var r := states[i].log[k];
            r.kind.CursorTrail? || r.kind.AnnotationRelay? ==>
            && r.sender.Some? && r.sender.value in states[i].conns
            && r.sender.value in r.members && r.audience <= r.members - {r.sender.value}
            && exists j | 0 <= j < i :: Grants(states[j], steps[j], states[i].conns[r.sender.value].user, r.model)
  {
    hide IsRun, RoomsAgree, UsersAgree, ConnsOk;
    RunKeeps(states, steps, i);
    var r := states[i].log[k];
    assert RecordOk(r, states[i].conns, states[i].granted);
    if r.kind.CursorTrail? || r.kind.AnnotationRelay? {
      var j := GrantedEarlier(states, steps, i, states[i].conns[r.sender.value].user, r.model);
    }
  }
}
