/** What the other clients of a replica are told when somebody joins, leaves or disappears, and who is told. */
module Presence {
  import opened Json
  import opened RoomEvents
  import opened Wrappers
  import opened Rooms
  import opened RoomSafety
  import opened Audiences

  /** The other open clients of a room. */
  predicate Hears(s: Server, m: Model, c: ConnId, d: ConnId) {
    d != c && d in Members(s, m) && IsOpen(s, d)
  }

  /** What `d` gets when `c` shows `payload` to room `m`, as broadcast k of the replica. */
  function Told(s: Server, m: Model, c: ConnId, d: ConnId, k: nat, payload: Value): seq<Delivery> {
    if Hears(s, m, c, d) then [Delivery(MsgId(Some(s.pid), k), payload)] else []
  }

  lemma BroadcastTells(s: Server, m: Model, e: RoomEvent, kind: Kind, c: ConnId, d: ConnId)
    ensures Got(Broadcast(s, m, e.Message(), kind, c), d) == Got(s, d) + Told(s, m, c, d, s.own, Payload(e.Message()))
  {
    hide Payload, RoomEvent.Message;
  }

  /** Leaving a room tells each other open member once, and nobody else. */
  lemma LeaveTells(s: Server, c: ConnId, m: Model, d: ConnId)
    requires c in s.conns && m in s.rooms
    ensures var r := LeaveRoom(s, c, m);
            && Got(r, d) == Got(s, d) + Told(s, m, c, d, s.own, Payload(UserLeft(s.conns[c].user).Message()))
            && r.own == s.own + 1 && r.pid == s.pid
            && (forall n, e | e != c :: e in Members(r, n) <==> e in Members(s, n))
            && (forall e | e != c :: IsOpen(r, e) <==> IsOpen(s, e))
  {
    hide Payload, RoomEvent.Message;
    var s1 := s.(rooms := s.rooms[m := s.rooms[m] - {c}]);
    BroadcastTells(s1, m, UserLeft(s.conns[c].user), Presence, c, d);
  }

  /** What `d` gets when `c` changes to room `m`: who has left, if it was in the old room, and who has joined. */
  function JoinNews(s: Server, c: ConnId, m: Model, d: ConnId, left: Value, joined: Value): seq<Delivery>
    requires c in s.conns
  {
    var was := s.conns[c].current;
    (if was.None? then [] else Told(s, was.value, c, d, s.own, left))
    + Told(s, m, c, d, if was.None? then s.own else s.own + 1, joined)
  }

  /** Who is sent what when the client's current room changes to `m`. */
  lemma JoinDelivers(s: Server, c: ConnId, m: Model, d: ConnId)
    requires Inv(s) && c in s.conns && s.conns[c].current != Some(m)
    ensures var r, was, conn := JoinRoom(s, c, m), s.conns[c].current, s.conns[c];
            Got(r, d) == Got(s, d)
              + (if was.None? then [] else Told(s, was.value, c, d, s.own, Payload(UserLeft(conn.user).Message())))
              + Told(s, m, c, d, if was.None? then s.own else s.own + 1,
                     Payload(UserJoined(conn.user, NameValue(conn.name)).Message()))
  {
    hide Payload, RoomEvent.Message, LeaveRoom, UsersAgree, ConnsOk, LogOk, Broadcast;
    if s.conns[c].current.Some? {
      var was := s.conns[c].current.value;
      assert InRoom(s.rooms, was, c);
      LeaveTells(s, c, was, d);
      LeaveSame(s, c, was);
    }
    EnterTells(LeaveCurrent(s, c), c, m, d);
  }

  /**
   Everyone but the client itself who is told, and what they are shown, when the client's current room changes to `m`:
   who has left, to the old room, and then who has joined, with the name if one is known, to the new one.
   */
  lemma JoinTells(s: Server, c: ConnId, m: Model, d: ConnId) returns (left: Value, joined: Value)
    requires Inv(s) && c in s.conns && s.conns[c].current != Some(m)
    ensures ShowsLeave(left, s.conns[c].user)
    ensures ShowsJoin(joined, s.conns[c].user, if s.conns[c].name.Some? then Str(s.conns[c].name.value) else Null)
    ensures Got(JoinRoom(s, c, m), d) == Got(s, d) + JoinNews(s, c, m, d, left, joined)
  {
    hide Inv, ShowsLeave, ShowsJoin, RoomEvent.Message, Payload, JoinRoom, Told;
    var conn := s.conns[c];
    left, joined := Payload(UserLeft(conn.user).Message()), Payload(UserJoined(conn.user, NameValue(conn.name)).Message());
    LeaveShown(conn.user);
    JoinShown(conn.user, NameValue(conn.name));
    JoinDelivers(s, c, m, d);
  }

  lemma LeaveSame(s: Server, c: ConnId, m: Model)
    requires c in s.conns
    ensures var r := LeaveRoom(s, c, m);
            c in r.conns && r.conns[c].user == s.conns[c].user && r.conns[c].name == s.conns[c].name
  {
    hide Payload, RoomEvent.Message;
  }

  lemma EnterTells(s: Server, c: ConnId, m: Model, d: ConnId)
    requires c in s.conns
    ensures var r, conn := EnterRoom(s, c, m), s.conns[c];
            Got(r, d) == Got(s, d)
              + Told(s, m, c, d, s.own, Payload(UserJoined(conn.user, NameValue(conn.name)).Message()))
  {
    hide Payload, RoomEvent.Message, Broadcast;
    var s1 := Put(s, c, s.conns[c].(current := Some(m)));
    var s2 := s1.(rooms := s1.rooms[m := Members(s1, m) + {c}]);
    BroadcastTells(s2, m, UserJoined(s.conns[c].user, NameValue(s.conns[c].name)), Presence, c, d);
    assert Hears(s2, m, c, d) <==> Hears(s, m, c, d);
  }

  lemma CleanupDelivers(s: Server, c: ConnId, d: ConnId)
    requires Inv(s) && c in s.conns
    ensures var r, was := Cleanup(s, c), s.conns[c].current;
            && Got(r, d) == Got(s, d) + (if was.None? then [] else
                 Told(s, was.value, c, d, s.own, Payload(UserLeft(s.conns[c].user).Message())))
            && c in r.conns && r.conns[c].current.None?
            && Got(Cleanup(r, c), d) == Got(r, d)
  {
    hide Payload, RoomEvent.Message, LeaveRoom, UsersAgree, ConnsOk, LogOk;
    var s1 := Put(s, c, s.conns[c].(beat := StopHeartbeat(s.conns[c].beat)));
    if s.conns[c].current.Some? {
      var m := s.conns[c].current.value;
      assert InRoom(s.rooms, m, c);
      LeaveTells(s1, c, m, d);
      LeaveClears(s1, c, m);
      assert Hears(s1, m, c, d) <==> Hears(s, m, c, d);
    }
  }

  /** Cleanup shows the room, if there is one, that the user has left; running it again tells nobody anything. */
  lemma CleanupTells(s: Server, c: ConnId, d: ConnId) returns (left: Value)
    requires Inv(s) && c in s.conns
    ensures ShowsLeave(left, s.conns[c].user)
    ensures var r, was := Cleanup(s, c), s.conns[c].current;
            && Got(r, d) == Got(s, d) + (if was.None? then [] else Told(s, was.value, c, d, s.own, left))
            && c in r.conns && r.conns[c].current.None?
            && Got(Cleanup(r, c), d) == Got(r, d)
  {
    hide Inv, ShowsLeave, RoomEvent.Message, Payload, Cleanup, Told;
    left := Payload(UserLeft(s.conns[c].user).Message());
    LeaveShown(s.conns[c].user);
    CleanupDelivers(s, c, d);
  }

  // ---- the same, step by step ----

  lemma GrantSame(s: Server, c: ConnId, m: Model, name: Option<string>)
    requires c in s.conns
    ensures var t := Grant(s, c, m, name);
            && c in t.conns && t.conns[c].user == s.conns[c].user && t.conns[c].current == s.conns[c].current
            && t.conns[c].open == s.conns[c].open && t.outbox == s.outbox && t.own == s.own
            && t.conns[c].name == (if s.conns[c].name.Some? then s.conns[c].name else name)
  {
  }

  lemma GrantTold(s: Server, c: ConnId, m: Model, name: Option<string>, n: Model, d: ConnId, k: nat, p: Value)
    requires c in s.conns
    ensures Told(Grant(s, c, m, name), n, c, d, k, p) == Told(s, n, c, d, k, p)
  {
  }

  lemma ReplyGot(s: Server, c: ConnId, m: Model, authorized: bool, name: Option<string>, d: ConnId)
    requires c in s.conns
    ensures var t := Grant(s, c, m, name);
            && c in t.conns
            && Got(JoinReply(s, c, m, authorized, name), d) ==
                 if !authorized || !s.conns[c].open || s.conns[c].current == Some(m) then Got(s, d)
                 else Got(JoinRoom(t, c, m), d)
  {
    hide LeaveCurrent, EnterRoom;
  }

  /**
   The answer to a join: if it is granted, the socket open and the room another one, the old room is shown who has left
   and the new one who has joined, under the name that the client is known by; otherwise nobody is told anything.
   */
  lemma ReplyShows(s: Server, c: ConnId, m: Model, authorized: bool, name: Option<string>, d: ConnId)
    returns (left: Value, joined: Value)
    requires Inv(s) && c in s.conns
    ensures ShowsLeave(left, s.conns[c].user)
    ensures var known := if s.conns[c].name.Some? then s.conns[c].name else name;
            ShowsJoin(joined, s.conns[c].user, if known.Some? then Str(known.value) else Null)
    ensures Got(JoinReply(s, c, m, authorized, name), d) == Got(s, d) +
              if !authorized || !s.conns[c].open || s.conns[c].current == Some(m) then []
              else JoinNews(s, c, m, d, left, joined)
  {
    hide Inv, Grant, Grows, Told, ShowsLeave, ShowsJoin, JoinRoom, JoinReply, Got, Payload, RoomEvent.Message, JoinNews;
    var t := Grant(s, c, m, name);
    GrantKeeps(s, c, m, name);
    GrantSame(s, c, m, name);
    ReplyGot(s, c, m, authorized, name, d);
    if t.conns[c].current != Some(m) {
      left, joined := JoinTells(t, c, m, d);
      GrantNews(s, c, m, name, d, left, joined);
    } else {
      left, joined := Payload(UserLeft(t.conns[c].user).Message()),
                      Payload(UserJoined(t.conns[c].user, NameValue(t.conns[c].name)).Message());
      LeaveShown(t.conns[c].user);
      JoinShown(t.conns[c].user, NameValue(t.conns[c].name));
    }
  }

  lemma GrantNews(s: Server, c: ConnId, m: Model, name: Option<string>, d: ConnId, left: Value, joined: Value)
    requires c in s.conns
    ensures c in Grant(s, c, m, name).conns && Got(Grant(s, c, m, name), d) == Got(s, d)
    ensures JoinNews(Grant(s, c, m, name), c, m, d, left, joined) == JoinNews(s, c, m, d, left, joined)
  {
    GrantSame(s, c, m, name);
    if s.conns[c].current.Some? { GrantTold(s, c, m, name, s.conns[c].current.value, d, s.own, left); }
    GrantTold(s, c, m, name, m, d, if s.conns[c].current.None? then s.own else s.own + 1, joined);
    hide Grant, Told;
    assert Got(Grant(s, c, m, name), d) == Got(s, d);
  }

  /** LEAVE_MODEL shows the room that it names, if that exists, who has left, whether the client was in it or not. */
  lemma LeaveShows(s: Server, c: ConnId, m: Model, d: ConnId) returns (left: Value)
    requires c in s.conns && s.conns[c].phase.Ready?
    ensures Enabled(s, Message(c, LeaveModel(m))) && ShowsLeave(left, s.conns[c].user)
    ensures Got(Next(s, Message(c, LeaveModel(m))), d)
            == Got(s, d) + if m != "" && m in s.rooms then Told(s, m, c, d, s.own, left) else []
  {
    var s1 := Put(s, c, s.conns[c].(done := s.conns[c].done + [LeaveModel(m)]));
    left := Payload(UserLeft(s.conns[c].user).Message());
    LeaveShown(s.conns[c].user);
    hide Payload, RoomEvent.Message, LeaveRoom, ShowsLeave;
    if m != "" && m in s.rooms {
      LeaveTells(s1, c, m, d);
      assert Hears(s1, m, c, d) <==> Hears(s, m, c, d);
    } else if m !in s.rooms {
      NoRoomNobody(s1, c, m);
    }
  }

  lemma NoRoomNobody(s: Server, c: ConnId, m: Model)
    requires c in s.conns && m !in s.rooms
    ensures LeaveRoom(s, c, m) == s
  {
  }

  lemma HasDeadline(s: Server, c: ConnId)
    requires Inv(s) && c in s.conns && s.conns[c].beat.pending != {}
    ensures s.conns[c].phase.Ready?
  {
    assert ConnOk(s.conns[c], s.granted);
  }

  /** What `d` gets when `c` is cleaned up. */
  function CleanupNews(s: Server, c: ConnId, d: ConnId, left: Value): seq<Delivery>
    requires c in s.conns
  {
    if s.conns[c].current.None? then [] else Told(s, s.conns[c].current.value, c, d, s.own, left)
  }

  lemma NewsAlike(s: Server, c: ConnId, t: Server, d: ConnId, left: Value)
    requires c in s.conns && c in t.conns && t == Put(s, c, t.conns[c]) && t.conns[c].current == s.conns[c].current
    ensures Got(t, d) == Got(s, d) && CleanupNews(t, c, d, left) == CleanupNews(s, c, d, left)
  {
  }

  lemma CleanupAlike(s: Server, c: ConnId, t: Server, d: ConnId)
    requires Inv(t) && c in s.conns && c in t.conns && t == Put(s, c, t.conns[c])
    requires t.conns[c].user == s.conns[c].user && t.conns[c].current == s.conns[c].current
    ensures Got(Cleanup(t, c), d)
            == Got(s, d) + CleanupNews(s, c, d, Payload(UserLeft(s.conns[c].user).Message()))
  {
    NewsAlike(s, c, t, d, Payload(UserLeft(s.conns[c].user).Message()));
    hide Inv, Cleanup, Payload, RoomEvent.Message, Told, Put;
    CleanupDelivers(t, c, d);
  }

  lemma ClosedShows(s: Server, c: ConnId, d: ConnId)
    requires Inv(s) && Enabled(s, Closed(c))
    ensures var left := Payload(UserLeft(s.conns[c].user).Message());
            Got(Next(s, Closed(c)), d)
            == Got(s, d) + if RunsCleanup(s, Closed(c), c) then CleanupNews(s, c, d, left) else []
  {
    hide Inv, Cleanup, Payload, RoomEvent.Message, CleanupNews, Steady;
    ShutKeeps(s, c);
    CleanupAlike(s, c, Put(s, c, s.conns[c].(open := false)), d);
  }

  lemma TickShows(s: Server, c: ConnId, d: ConnId)
    requires Inv(s) && Enabled(s, HeartbeatTick(c))
    ensures var left := Payload(UserLeft(s.conns[c].user).Message());
            Got(Next(s, HeartbeatTick(c)), d)
            == Got(s, d) + if RunsCleanup(s, HeartbeatTick(c), c) then CleanupNews(s, c, d, left) else []
  {
    hide Inv, Cleanup, Payload, RoomEvent.Message, CleanupNews, TickBeat;
    CleanupAlike(s, c, s, d);
  }

  lemma DeadlineShows(s: Server, c: ConnId, t: int, d: ConnId)
    requires Inv(s) && Enabled(s, PongDeadline(c, t))
    ensures var left := Payload(UserLeft(s.conns[c].user).Message());
            Got(Next(s, PongDeadline(c, t)), d)
            == Got(s, d) + if RunsCleanup(s, PongDeadline(c, t), c) then CleanupNews(s, c, d, left) else []
  {
    hide Inv, Cleanup, Payload, RoomEvent.Message, CleanupNews, Steady;
    var fired := s.conns[c].beat.(pending := s.conns[c].beat.pending - {t});
    HasDeadline(s, c);
    ExpireKeeps(s, c, fired);
    CleanupAlike(s, c, Expire(s, c, fired), d);
  }

  /** Every step that cleans up shows the client's room, if there is one, that its user has left, and no other step does. */
  lemma CleanupShows(s: Server, e: Step, d: ConnId) returns (left: Value)
    requires Inv(s) && Enabled(s, e) && (e.Closed? || e.HeartbeatTick? || e.PongDeadline?)
    ensures ShowsLeave(left, s.conns[e.c].user)
    ensures Got(Next(s, e), d) == Got(s, d) + if RunsCleanup(s, e, e.c) then CleanupNews(s, e.c, d, left) else []
  {
    hide Inv, Next, Payload, RoomEvent.Message, ShowsLeave, CleanupNews, RunsCleanup;
    left := Payload(UserLeft(s.conns[e.c].user).Message());
    LeaveShown(s.conns[e.c].user);
    match e
    case Closed(c) => ClosedShows(s, c, d);
    case HeartbeatTick(c) => TickShows(s, c, d);
    case PongDeadline(c, t) => DeadlineShows(s, c, t, d);
    case _ =>
  }

  lemma LeaveClears(s: Server, c: ConnId, m: Model)
    requires c in s.conns && m in s.rooms && s.conns[c].current == Some(m)
    ensures c in LeaveRoom(s, c, m).conns && LeaveRoom(s, c, m).conns[c].current.None?
  {
    hide Payload, RoomEvent.Message;
  }

  // ---- which rooms are told ----

  /** A presence broadcast from record k on that does not go to the room `own`. */
  ghost predicate TellsOther(log: seq<Record>, k: nat, own: Option<Model>) {
    exists i | k <= i < |log| :: log[i].kind.Presence? && Some(log[i].model) != own
  }

  lemma LeaveRecords(s: Server, c: ConnId, m: Model)
    requires c in s.conns
    ensures var log := LeaveRoom(s, c, m).log;
            if m in s.rooms then |log| == |s.log| + 1 && log[|s.log|].kind.Presence? && log[|s.log|].model == m
            else log == s.log
  {
    hide Payload, RoomEvent.Message;
  }

  /**
   A message makes its sender tell a room that it is not in if and only if the message is LEAVE_MODEL for some other
   room that exists: leaving does not ask whether the client was there.
   */
  lemma MessageTellsOther(s: Server, c: ConnId, msg: ClientMessage)
    requires c in s.conns
    ensures TellsOther(Process(s, c, msg).log, |s.log|, s.conns[c].current)
            <==> msg.LeaveModel? && msg.model != "" && msg.model in s.rooms && s.conns[c].current != Some(msg.model)
  {
    hide Payload, RoomEvent.Message, LeaveRoom, IsVector3;
    match msg
    case LeaveModel(m) => LeaveRecords(s, c, m);
    case JoinModel(_) =>
    case CursorMove(_, _) =>
    case Ping =>
    case Pong =>
    case Relay(_, _) =>
    case Unknown =>
    case Throws =>
  }

  /** Cleanup tells only the room that the client is in. */
  lemma CleanupTellsOwn(s: Server, c: ConnId)
    requires c in s.conns
    ensures !TellsOther(Cleanup(s, c).log, |s.log|, s.conns[c].current)
  {
    hide Payload, RoomEvent.Message, LeaveRoom, StopHeartbeat, DropUser;
    if s.conns[c].current.Some? {
      LeaveRecords(Put(s, c, s.conns[c].(beat := StopHeartbeat(s.conns[c].beat))), c, s.conns[c].current.value);
    }
  }

  lemma EnterRecords(s: Server, c: ConnId, m: Model)
    requires c in s.conns
    ensures var log := EnterRoom(s, c, m).log;
            && |log| == |s.log| + 1 && log[..|s.log|] == s.log
            && log[|s.log|].model == m && c in log[|s.log|].members
  {
    hide Payload, RoomEvent.Message;
  }

  /** A join tells the room that the client was in, and the one that it enters as a member. */
  lemma JoinTellsOwn(s: Server, c: ConnId, m: Model)
    requires c in s.conns
    ensures var log := JoinRoom(s, c, m).log;
            forall i | |s.log| <= i < |log| ::
              Some(log[i].model) == s.conns[c].current || (log[i].model == m && c in log[i].members)
  {
    hide Payload, RoomEvent.Message, LeaveRoom, EnterRoom;
    if s.conns[c].current != Some(m) {
      if s.conns[c].current.Some? {
        LeaveRecords(s, c, s.conns[c].current.value);
        LeaveSame(s, c, s.conns[c].current.value);
      }
      EnterRecords(LeaveCurrent(s, c), c, m);
      var before, log := LeaveCurrent(s, c).log, JoinRoom(s, c, m).log;
      forall i | |s.log| <= i < |before| ensures log[i] == before[i] {
        assert log[..|before|] == before;
      }
    }
  }

  lemma JoinEnters(s: Server, c: ConnId, m: Model)
    requires c in s.conns
    ensures var r := JoinRoom(s, c, m); c in r.conns && r.conns[c].current == Some(m)
  {
    hide Payload, RoomEvent.Message, LeaveRoom;
    LeaveKeepsConn(s, c);
  }

  lemma ReplyTells(s: Server, e: Step, i: nat)
    requires Enabled(s, e) && (e.InitialReply? || e.JoinAnswer?) && |s.log| <= i < |Next(s, e).log|
    ensures var c, m := Handler(e).value, Some(Next(s, e).log[i].model);
            c in s.conns && c in Next(s, e).conns && (m == s.conns[c].current || m == Next(s, e).conns[c].current)
  {
    hide JoinRoom;
    var c := Handler(e).value;
    var s0 := if e.JoinAnswer? then s.(asks := s.asks - multiset{e.ask}) else s;
    var m := if e.JoinAnswer? then e.ask.model else s.conns[c].initial;
    var s1 := Grant(s0, c, m, e.name);
    JoinTellsOwn(s1, c, m);
    JoinEnters(s1, c, m);
  }

  lemma TimerTells(s: Server, e: Step, i: nat)
    requires Enabled(s, e) && (e.Closed? || e.HeartbeatTick? || e.PongDeadline?)
    requires |s.log| <= i < |Next(s, e).log| && Next(s, e).log[i].kind.Presence?
    ensures Some(Next(s, e).log[i].model) == s.conns[e.c].current
  {
    hide Cleanup, TickBeat;
    match e
    case Closed(c) => CleanupTellsOwn(Put(s, c, s.conns[c].(open := false)), c);
    case HeartbeatTick(c) => CleanupTellsOwn(s, c);
    case PongDeadline(c, d) =>
      CleanupTellsOwn(Expire(s, c, s.conns[c].beat.(pending := s.conns[c].beat.pending - {d})), c);
    case _ =>
  }

  lemma LeaveCurrentIs(s: Server, c: ConnId, m: Model)
    requires c in s.conns
    ensures var r := LeaveRoom(s, c, m);
            c in r.conns && r.conns[c].current ==
              if m in s.rooms && s.conns[c].current == Some(m) then None else s.conns[c].current
  {
    hide Payload, RoomEvent.Message;
  }

  lemma HandleCurrent(s: Server, c: ConnId, msg: ClientMessage)
    requires c in s.conns
    ensures Handle(s, c, msg).conns[c].current in {s.conns[c].current, None}
  {
    hide Payload, RoomEvent.Message, LeaveRoom, IsVector3, SendTo, Audience;
    if msg.LeaveModel? { LeaveCurrentIs(Put(s, c, s.conns[c].(done := s.conns[c].done + [msg])), c, msg.model); }
  }

  lemma {:induction false} DrainCurrent(s: Server, c: ConnId, msgs: seq<ClientMessage>)
    requires c in s.conns
    ensures Drain(s, c, msgs).conns[c].current in {s.conns[c].current, None}
    decreases |msgs|
  {
    hide Handle;
    if msgs != [] {
      HandleCurrent(s, c, msgs[0]);
      DrainCurrent(Handle(s, c, msgs[0]), c, msgs[1..]);
    }
  }

  lemma InitCurrent(s: Server, c: ConnId)
    requires Enabled(s, InitDone(c))
    ensures c in s.conns && c in Next(s, InitDone(c)).conns
    ensures Next(s, InitDone(c)).conns[c].current in {s.conns[c].current, None}
  {
    hide Drain, Readable, StartHeartbeat;
    var conn := s.conns[c];
    var s1 := Put(s, c, conn.(phase := Ready, beat := StartHeartbeat(conn.beat, s.now), pending := []));
    DrainCurrent(s1, c, Readable(conn.pending));
  }

  lemma MessageTells(s: Server, c: ConnId, msg: ClientMessage, i: nat)
    requires Enabled(s, Message(c, msg))
    requires var r := Next(s, Message(c, msg)); |s.log| <= i < |r.log| && r.log[i].kind.Presence?
    ensures var r := Next(s, Message(c, msg));
            && c in s.conns && c in r.conns
            && (Some(r.log[i].model) != s.conns[c].current ==>
                  msg == LeaveModel(r.log[i].model) && r.conns[c].current == s.conns[c].current)
  {
    hide Handle;
    HandleTells(s, c, msg, i);
  }

  /** Of all messages only LEAVE_MODEL announces anything, to the room that it names. */
  lemma HandleTells(s: Server, c: ConnId, msg: ClientMessage, i: nat)
    requires c in s.conns
    requires var log := Handle(s, c, msg).log; |s.log| <= i < |log| && log[i].kind.Presence?
    ensures var r := Handle(s, c, msg);
            && msg == LeaveModel(r.log[i].model)
            && (s.conns[c].current != Some(msg.model) ==> r.conns[c].current == s.conns[c].current)
  {
    hide LeaveRoom, SeePong, Payload, RoomEvent.Message, IsVector3, SendTo, Audience;
    var s1 := Put(s, c, s.conns[c].(done := s.conns[c].done + [msg]));
    if msg.LeaveModel? {
      LeaveRecords(s1, c, msg.model);
      LeaveCurrentIs(s1, c, msg.model);
    }
  }

  lemma {:induction false} DrainTells(s: Server, c: ConnId, msgs: seq<ClientMessage>, i: nat)
    requires c in s.conns
    requires var log := Drain(s, c, msgs).log; |s.log| <= i < |log| && log[i].kind.Presence?
    ensures LeaveModel(Drain(s, c, msgs).log[i].model) in msgs
    decreases |msgs|
  {
    hide Handle, Audience;
    if msgs != [] {
      var s1 := Handle(s, c, msgs[0]);
      HandleSends(s, c, msgs[0]);
      DrainSends(s1, c, msgs[1..]);
      if i < |s1.log| {
        assert Drain(s1, c, msgs[1..]).log[..|s1.log|][i] == s1.log[i];
        HandleTells(s, c, msgs[0], i);
      } else {
        DrainTells(s1, c, msgs[1..], i);
      }
    }
  }

  lemma InitTells(s: Server, c: ConnId, i: nat)
    requires Enabled(s, InitDone(c)) && |s.log| <= i < |Next(s, InitDone(c)).log|
    requires Next(s, InitDone(c)).log[i].kind.Presence?
    ensures LeaveModel(Next(s, InitDone(c)).log[i].model) in s.conns[c].pending
  {
    hide Drain, Readable, StartHeartbeat;
    var conn := s.conns[c];
    var s1 := Put(s, c, conn.(phase := Ready, beat := StartHeartbeat(conn.beat, s.now), pending := []));
    DrainTells(s1, c, Readable(conn.pending), i);
  }

  /** Where the room of a presence broadcast comes from. */
  lemma StepTells(s: Server, e: Step, i: nat)
    requires Enabled(s, e) && |s.log| <= i < |Next(s, e).log| && Next(s, e).log[i].kind.Presence?
    ensures Handler(e).Some?
    ensures var c, m := Handler(e).value, Next(s, e).log[i].model;
            && c in s.conns && c in Next(s, e).conns && Next(s, e).log[i].sender == Some(c)
            && (s.conns[c].current != Some(m) && Next(s, e).conns[c].current != Some(m)
                <==> (e == Message(c, LeaveModel(m)) || e == InitDone(c)) && s.conns[c].current != Some(m))
            && (e == InitDone(c) ==> LeaveModel(m) in s.conns[c].pending)
  {
    StepReachesRooms(s, e);
    hide JoinReply, Receive, FinishInit, Tick, PongTimeout, Cleanup, SendTo, Payload, Audience;
    match e
    case InitialReply(_, _, _) => ReplyTells(s, e, i);
    case JoinAnswer(_, _, _) => ReplyTells(s, e, i);
    case InitDone(c) =>
      InitCurrent(s, c);
      InitTells(s, c, i);
    case Message(c, msg) => MessageTells(s, c, msg, i);
    case Closed(_) => TimerTells(s, e, i);
    case HeartbeatTick(_) => TimerTells(s, e, i);
    case PongDeadline(_, _) => TimerTells(s, e, i);
    case _ =>
  }

  /**
   In every run, a presence broadcast goes to a room that its sender is in before or after the step, except exactly
   when the step handles a LEAVE_MODEL, at once or from the queue, for a room that the sender is not in.
   */
  lemma PresenceStaysInRoom(states: seq<Server>, steps: seq<Step>, k: nat, i: nat)
    requires IsRun(states, steps) && k < |steps|
    requires |states[k].log| <= i < |states[k + 1].log| && states[k + 1].log[i].kind.Presence?
    ensures states[k + 1].log[i].sender.Some?
    ensures var c, m := states[k + 1].log[i].sender.value, states[k + 1].log[i].model;
            c !in Members(states[k], m) && c !in Members(states[k + 1], m)
            <==> (steps[k] == Message(c, LeaveModel(m)) || steps[k] == InitDone(c)) && c !in Members(states[k], m)
    ensures var c, m := states[k + 1].log[i].sender.value, states[k + 1].log[i].model;
            steps[k] == InitDone(c) ==> c in states[k].conns && LeaveModel(m) in states[k].conns[c].pending
  {
    assert Enabled(states[k], steps[k]) && states[k + 1] == Next(states[k], steps[k]);
    RoomsMatchClients(states, steps, k);
    RoomsMatchClients(states, steps, k + 1);
    hide IsRun, Next, Enabled, Members;
    StepTells(states[k], steps[k], i);
  }
}
