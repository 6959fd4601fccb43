/**
 Who a broadcast is sent to, told by the rooms as they were before the handler ran: whatever the handler of a
 connection does, each of its broadcasts goes to the open members of the room but that connection.
 */
module Audiences {
  import opened Json
  import opened RoomEvents
  import opened Wrappers
  import opened Rooms

  /** The connection whose handler a step runs; a publication has none. */
  function Handler(e: Step): Option<ConnId> {
    if e.JoinAnswer? then Some(e.ask.conn)
    else if e.Remote? || e.Pass? then None
    else Some(e.c)
  }

  /** The records that `t` has added are sent to the rooms of `s`, without `sender`. */
  ghost predicate SentToRooms(s: Server, t: Server, sender: Option<ConnId>) {
    && |s.log| <= |t.log| && t.log[..|s.log|] == s.log
    && forall i | |s.log| <= i < |t.log| ::
      t.log[i].sender == sender && t.log[i].audience == Audience(s, t.log[i].model, sender)
  }

  /** `c` broadcasts to the others in the rooms, and moves none of them. */
  ghost predicate Sends(s: Server, t: Server, c: ConnId) {
    && SentToRooms(s, t, Some(c))
    && forall m: Model :: Audience(t, m, Some(c)) == Audience(s, m, Some(c))
  }

  lemma SendsThen(s: Server, t: Server, r: Server, c: ConnId)
    requires Sends(s, t, c) && Sends(t, r, c)
    ensures Sends(s, r, c)
  {
    hide Audience;
    forall i | |s.log| <= i < |t.log| ensures r.log[i] == t.log[i] {
      assert r.log[..|t.log|][i] == r.log[i];
    }
    assert r.log[..|s.log|] == r.log[..|t.log|][..|s.log|];
  }

  /** A step without broadcasts that touches only `c`. */
  lemma SendsNothing(s: Server, t: Server, c: ConnId)
    requires t.log == s.log
    requires forall m: Model, d | d != c :: d in Members(t, m) <==> d in Members(s, m)
    requires forall d | d != c :: IsOpen(t, d) <==> IsOpen(s, d)
    ensures Sends(s, t, c)
  {
  }

  lemma PutSends(s: Server, c: ConnId, conn: Conn)
    ensures Sends(s, Put(s, c, conn), c)
  {
    SendsNothing(s, Put(s, c, conn), c);
  }

  lemma BroadcastSends(s: Server, m: Model, message: Value, kind: Kind, c: ConnId)
    ensures Sends(s, Broadcast(s, m, message, kind, c), c)
  {
    hide Payload, SendTo;
  }

  lemma LeaveSends(s: Server, c: ConnId, m: Model)
    requires c in s.conns
    ensures Sends(s, LeaveRoom(s, c, m), c)
  {
    hide Payload, RoomEvent.Message, SendTo;
    if m in s.rooms {
      var rest := s.rooms[m] - {c};
      var s0 := s.(rooms := s.rooms[m := rest]);
      SendsNothing(s, s0, c);
      var s1 := Broadcast(s0, m, UserLeft(s.conns[c].user).Message(), Presence, c);
      BroadcastSends(s0, m, UserLeft(s.conns[c].user).Message(), Presence, c);
      SendsThen(s, s0, s1, c);
      SendsNothing(s1, LeaveRoom(s, c, m), c);
      SendsThen(s, s1, LeaveRoom(s, c, m), c);
    } else {
      SendsNothing(s, s, c);
    }
  }

  lemma LeaveCurrentSends(s: Server, c: ConnId)
    requires c in s.conns
    ensures Sends(s, LeaveCurrent(s, c), c)
  {
    hide LeaveRoom, Sends;
    if s.conns[c].current.Some? { LeaveSends(s, c, s.conns[c].current.value); } else { SendsNothing(s, s, c); }
  }

  lemma EnterSends(s: Server, c: ConnId, m: Model)
    requires c in s.conns
    ensures Sends(s, EnterRoom(s, c, m), c)
  {
    hide Payload, RoomEvent.Message, Broadcast, Sends;
    var s1 := Put(s, c, s.conns[c].(current := Some(m)));
    var s2 := s1.(rooms := s1.rooms[m := Members(s1, m) + {c}]);
    SendsNothing(s, s2, c);
    var joined := UserJoined(s.conns[c].user, NameValue(s.conns[c].name)).Message();
    BroadcastSends(s2, m, joined, Presence, c);
    SendsThen(s, s2, EnterRoom(s, c, m), c);
  }

  lemma JoinReplySends(s: Server, c: ConnId, m: Model, authorized: bool, name: Option<string>)
    requires c in s.conns
    ensures Sends(s, JoinReply(s, c, m, authorized, name), c)
  {
    hide LeaveCurrent, EnterRoom, Sends;
    if authorized {
      var s1 := Grant(s, c, m, name);
      SendsNothing(s, s1, c);
      if s1.conns[c].open && s1.conns[c].current != Some(m) {
        LeaveCurrentSends(s1, c);
        LeaveKeepsConn(s1, c);
        EnterSends(LeaveCurrent(s1, c), c, m);
        SendsThen(s, s1, LeaveCurrent(s1, c), c);
        SendsThen(s, LeaveCurrent(s1, c), EnterRoom(LeaveCurrent(s1, c), c, m), c);
      }
    } else {
      SendsNothing(s, JoinReply(s, c, m, authorized, name), c);
    }
  }

  lemma LeaveKeepsConn(s: Server, c: ConnId)
    requires c in s.conns
    ensures c in LeaveCurrent(s, c).conns
  {
    hide Payload, RoomEvent.Message;
  }

  lemma CleanupSends(s: Server, c: ConnId)
    requires c in s.conns
    ensures Sends(s, Cleanup(s, c), c)
  {
    hide LeaveCurrent, Sends, StopHeartbeat, DropUser;
    var s1 := Put(s, c, s.conns[c].(beat := StopHeartbeat(s.conns[c].beat)));
    PutSends(s, c, s1.conns[c]);
    LeaveCurrentSends(s1, c);
    LeaveKeepsConn(s1, c);
    var s2 := LeaveCurrent(s1, c);
    SendsThen(s, s1, s2, c);
    SendsNothing(s2, Unregister(s2, c), c);
    SendsThen(s, s2, Unregister(s2, c), c);
  }

  lemma ProcessSends(s: Server, c: ConnId, msg: ClientMessage)
    requires c in s.conns
    ensures Sends(s, Process(s, c, msg), c)
  {
    hide Sends, LeaveRoom, Broadcast, RoomEvent.Message, IsVector3, SeePong;
    var conn := s.conns[c];
    match msg
    case LeaveModel(m) => if m != "" { LeaveSends(s, c, m); } else { SendsNothing(s, s, c); }
    case CursorMove(position, normal) =>
      var s1 := Put(s, c, conn.(lastCursor := s.now));
      if MoveCursor(s, c, position, normal) == s {
        SendsNothing(s, s, c);
      } else {
        var m, moved := conn.current.value, CursorMoved(conn.user, position).Message();
        PutSends(s, c, s1.conns[c]);
        BroadcastSends(s1, m, moved, CursorTrail, c);
        SendsThen(s, s1, Broadcast(s1, m, moved, CursorTrail, c), c);
      }
    case Relay(kind, data) =>
      if conn.current.Some? {
        BroadcastSends(s, conn.current.value, Relayed(kind, conn.user, data).Message(), AnnotationRelay, c);
      } else {
        SendsNothing(s, s, c);
      }
    case JoinModel(_) => SendsNothing(s, Process(s, c, msg), c);
    case Ping => SendsNothing(s, Process(s, c, msg), c);
    case Pong => SendsNothing(s, Process(s, c, msg), c);
    case Unknown => SendsNothing(s, s, c);
    case Throws => SendsNothing(s, s, c);
  }

  lemma HandleSends(s: Server, c: ConnId, msg: ClientMessage)
    requires c in s.conns
    ensures Sends(s, Handle(s, c, msg), c)
  {
    hide Sends, Process;
    var s1 := Put(s, c, s.conns[c].(done := s.conns[c].done + [msg]));
    PutSends(s, c, s1.conns[c]);
    ProcessSends(s1, c, msg);
    SendsThen(s, s1, Handle(s, c, msg), c);
  }

  lemma {:induction false} DrainSends(s: Server, c: ConnId, msgs: seq<ClientMessage>)
    requires c in s.conns
    ensures Sends(s, Drain(s, c, msgs), c)
    decreases |msgs|
  {
    hide Sends, Handle;
    if msgs == [] {
      SendsNothing(s, s, c);
    } else {
      var s1 := Handle(s, c, msgs[0]);
      HandleSends(s, c, msgs[0]);
      DrainSends(s1, c, msgs[1..]);
      SendsThen(s, s1, Drain(s1, c, msgs[1..]), c);
    }
  }

  lemma FinishInitSends(s: Server, c: ConnId)
    requires c in s.conns
    ensures Sends(s, FinishInit(s, c), c)
  {
    hide Sends, Drain, Readable, StartHeartbeat;
    var conn := s.conns[c];
    var s1 := Put(s, c, conn.(phase := Ready, beat := StartHeartbeat(conn.beat, s.now), pending := []));
    var s2 := Drain(s1, c, Readable(conn.pending));
    PutSends(s, c, s1.conns[c]);
    DrainSends(s1, c, Readable(conn.pending));
    SendsThen(s, s1, s2, c);
    PutSends(s2, c, FinishInit(s, c).conns[c]);
    SendsThen(s, s2, FinishInit(s, c), c);
  }

  lemma TimerSends(s: Server, e: Step)
    requires Enabled(s, e) && (e.Closed? || e.HeartbeatTick? || e.PongDeadline?)
    ensures Sends(s, Next(s, e), e.c)
  {
    hide Sends, Cleanup, TickBeat;
    match e
    case Closed(c) =>
      var s1 := Put(s, c, s.conns[c].(open := false));
      PutSends(s, c, s1.conns[c]);
      CleanupSends(s1, c);
      SendsThen(s, s1, Cleanup(s1, c), c);
    case HeartbeatTick(c) =>
      CleanupSends(s, c);
      if s.conns[c].open { SendsNothing(s, Next(s, e), c); }
    case PongDeadline(c, d) =>
      var fired := s.conns[c].beat.(pending := s.conns[c].beat.pending - {d});
      PutSends(s, c, s.conns[c].(beat := fired));
      var s1 := Expire(s, c, fired);
      SendsNothing(s, s1, c);
      CleanupSends(s1, c);
      SendsThen(s, s1, Cleanup(s1, c), c);
    case _ =>
  }

  lemma ReplySends(s: Server, e: Step)
    requires Enabled(s, e) && (e.InitialReply? || e.JoinAnswer?)
    ensures Sends(s, Next(s, e), Handler(e).value)
  {
    hide Sends, JoinReply;
    match e
    case InitialReply(c, authorized, name) =>
      var s1 := JoinReply(s, c, s.conns[c].initial, authorized, name);
      JoinReplySends(s, c, s.conns[c].initial, authorized, name);
      SendsNothing(s1, Next(s, e), c);
      SendsThen(s, s1, Next(s, e), c);
    case JoinAnswer(ask, authorized, name) =>
      var s1 := s.(asks := s.asks - multiset{ask});
      SendsNothing(s, s1, ask.conn);
      JoinReplySends(s1, ask.conn, ask.model, authorized, name);
      SendsThen(s, s1, Next(s, e), ask.conn);
    case _ =>
  }

  /** Each broadcast of a step goes to the open members of its room, as they were before the step, but the handler's own. */
  lemma StepReachesRooms(s: Server, e: Step)
    requires Enabled(s, e)
    ensures SentToRooms(s, Next(s, e), Handler(e))
  {
    hide Handle, JoinReply, Cleanup, FinishInit, PongTimeout, Tick, Audience, SendTo, Payload, Register;
    match e
    case InitialReply(_, _, _) => ReplySends(s, e);
    case JoinAnswer(_, _, _) => ReplySends(s, e);
    case InitDone(c) => FinishInitSends(s, c);
    case Message(c, msg) => if s.conns[c].phase.Ready? { HandleSends(s, c, msg); }
    case Closed(_) => TimerSends(s, e);
    case HeartbeatTick(_) => TimerSends(s, e);
    case PongDeadline(_, _) => TimerSends(s, e);
    case SubscribeOk(_) => RegisterSends(s, e);
    case _ =>
  }

  lemma RegisterSends(s: Server, e: Step)
    requires Enabled(s, e) && e.SubscribeOk?
    ensures Next(s, e).log == s.log
  {
  }
}
