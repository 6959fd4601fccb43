/**
 What the handlers of a replica add to its log of broadcasts: own broadcasts are numbered one after
 the other, each client's outbox is exactly the log read with that client's eyes, and the cursor
 broadcasts of one client keep their distance.
 */
module RoomEffects {
  import opened Json
  import opened RoomEvents
  import opened Wrappers
  import opened Rooms

  /** The deliveries of one client, in the order in which the replica sent them. */
  function Inbox(log: seq<Record>, c: ConnId): seq<Delivery> {
    if log == [] then []
    else
      var r := log[|log| - 1];
      Inbox(log[..|log| - 1], c) + if c in r.audience then [Delivery(r.id, Payload(r.message))] else []
  }

  ghost predicate OutboxOk(s: Server) {
    forall c :: Got(s, c) == Inbox(s.log, c)
  }

  predicate CursorBy(r: Record, c: ConnId) {
    r.kind.CursorTrail? && r.sender == Some(c)
  }

  /** Two cursor broadcasts of a client lie at least `throttle` apart, the last one no later than lastCursorBroadcastAt. */
  ghost predicate ThrottleOk(s: Server) {
    && s.throttle >= 0
    && (forall i, j, c | 0 <= i < j < |s.log| && CursorBy(s.log[i], c) && CursorBy(s.log[j], c) ::
         s.log[j].at - s.log[i].at >= s.throttle)
    && (forall i, c | 0 <= i < |s.log| && CursorBy(s.log[i], c) :: c in s.conns && s.log[i].at <= s.conns[c].lastCursor)
  }

  ghost predicate Emits(s: Server, r: Server) {
    && r.pid == s.pid && r.throttle == s.throttle && r.now == s.now
    && s.log <= r.log
    && r.own == s.own + (|r.log| - |s.log|)
    && forall i | |s.log| <= i < |r.log| ::
         && r.log[i].id == MsgId(Some(s.pid), s.own + i - |s.log|)
         && r.log[i].sender.Some? && IsEvent(r.log[i].message)
  }

  ghost predicate Effect(s: Server, r: Server) {
    && Emits(s, r)
    && (OutboxOk(s) ==> OutboxOk(r))
    && (ThrottleOk(s) ==> ThrottleOk(r))
  }

  lemma EffectTransitive(s: Server, t: Server, r: Server)
    requires Effect(s, t) && Effect(t, r)
    ensures Effect(s, r)
  {
    hide OutboxOk, ThrottleOk, IsEvent;
    forall i | |s.log| <= i < |r.log|
      ensures r.log[i].id == MsgId(Some(s.pid), s.own + i - |s.log|)
      ensures r.log[i].sender.Some? && IsEvent(r.log[i].message)
    {
      if i < |t.log| { assert r.log[i] == t.log[i]; }
    }
  }

  /** A change that leaves the log, the outboxes and the throttle clocks alone. */
  lemma Silent(s: Server, r: Server)
    requires r.pid == s.pid && r.throttle == s.throttle && r.now == s.now && r.own == s.own
    requires r.log == s.log && r.outbox == s.outbox
    requires forall c | c in s.conns :: c in r.conns && r.conns[c].lastCursor == s.conns[c].lastCursor
    ensures Effect(s, r)
  {
  }

  lemma LocalOutbox(s: Server, id: MsgId, m: Model, message: Value, kind: Kind, sender: Option<ConnId>)
    requires OutboxOk(s)
    ensures OutboxOk(BroadcastToLocalRoom(s, id, m, message, kind, sender))
  {
    hide Payload;
    var r := BroadcastToLocalRoom(s, id, m, message, kind, sender);
    forall c ensures Got(r, c) == Inbox(r.log, c) {
      assert r.log[..|r.log| - 1] == s.log;
      assert Got(s, c) == Inbox(s.log, c);
    }
  }

  lemma BroadcastEffect(s: Server, m: Model, message: Value, kind: Kind, c: ConnId)
    requires !kind.CursorTrail? && IsEvent(message)
    ensures Effect(s, Broadcast(s, m, message, kind, c))
  {
    hide Payload, IsEvent;
    var r := Broadcast(s, m, message, kind, c);
    if OutboxOk(s) {
      LocalOutbox(s, MsgId(Some(s.pid), s.own), m, message, kind, Some(c));
      assert forall d :: Got(r, d) == Got(BroadcastToLocalRoom(s, MsgId(Some(s.pid), s.own), m, message, kind, Some(c)), d);
    }
  }

  lemma CursorEffect(s: Server, c: ConnId, m: Model, message: Value)
    requires c in s.conns && s.now - s.conns[c].lastCursor >= s.throttle && IsEvent(message)
    ensures Effect(s, Broadcast(Put(s, c, s.conns[c].(lastCursor := s.now)), m, message, CursorTrail, c))
  {
    hide Payload, IsEvent;
    var s1 := Put(s, c, s.conns[c].(lastCursor := s.now));
    var r := Broadcast(s1, m, message, CursorTrail, c);
    if OutboxOk(s) {
      assert OutboxOk(s1) by { assert forall d :: Got(s1, d) == Got(s, d); }
      LocalOutbox(s1, MsgId(Some(s.pid), s.own), m, message, CursorTrail, Some(c));
      assert forall d :: Got(r, d) == Got(BroadcastToLocalRoom(s1, MsgId(Some(s.pid), s.own), m, message, CursorTrail, Some(c)), d);
    }
    if ThrottleOk(s) {
      CursorSpacing(s, c, r);
    }
  }

  lemma CursorSpacing(s: Server, c: ConnId, r: Server)
    requires ThrottleOk(s) && c in s.conns && s.now - s.conns[c].lastCursor >= s.throttle
    requires r.throttle == s.throttle && r.conns == s.conns[c := s.conns[c].(lastCursor := s.now)]
    requires |r.log| == |s.log| + 1 && r.log[..|s.log|] == s.log
    requires r.log[|s.log|].at == s.now && forall d | CursorBy(r.log[|s.log|], d) :: d == c
    ensures ThrottleOk(r)
  {
  }

  // ---- one lemma for each handler: its effect on the log, and on the connection it works for ----

  /** Only the room, the cached name and the cursor clock of `c` may differ. */
  ghost predicate Moves(s: Server, r: Server, c: ConnId, beat: Heartbeat)
    requires c in s.conns
  {
    && r.now == s.now
    && c in r.conns
    && r.conns == s.conns[c := s.conns[c].(current := r.conns[c].current, name := r.conns[c].name,
                                           lastCursor := r.conns[c].lastCursor, beat := beat)]
  }

  lemma LeaveRoomMoves(s: Server, c: ConnId, m: Model)
    requires c in s.conns
    ensures Moves(s, LeaveRoom(s, c, m), c, s.conns[c].beat)
  {
    hide Broadcast, RoomEvent.Message;
    if m in s.rooms {
      BroadcastConns(s.(rooms := s.rooms[m := s.rooms[m] - {c}]), m, UserLeft(s.conns[c].user).Message(), Presence, c);
    }
  }

  lemma LeaveRoomEffect(s: Server, c: ConnId, m: Model)
    requires c in s.conns
    ensures Effect(s, LeaveRoom(s, c, m)) && Moves(s, LeaveRoom(s, c, m), c, s.conns[c].beat)
  {
    hide Broadcast, RoomEvent.Message, Effect, BroadcastToLocalRoom, Members;
    LeaveRoomMoves(s, c, m);
    hide Moves;
    if m !in s.rooms {
      Silent(s, s);
    } else {
      var rest := s.rooms[m] - {c};
      var s0 := s.(rooms := s.rooms[m := rest]);
      var message := UserLeft(s.conns[c].user).Message();
      EventIs(UserLeft(s.conns[c].user));
      Silent(s, s0);
      BroadcastEffect(s0, m, message, Presence, c);
      BroadcastConns(s0, m, message, Presence, c);
      var s1 := Broadcast(s0, m, message, Presence, c);
      Silent(s1, LeaveRoom(s, c, m));
      EffectTransitive(s, s0, s1);
      EffectTransitive(s, s1, LeaveRoom(s, c, m));
    }
  }

  lemma BroadcastConns(s: Server, m: Model, message: Value, kind: Kind, c: ConnId)
    ensures var r := Broadcast(s, m, message, kind, c);
            r.conns == s.conns && r.rooms == s.rooms && r.users == s.users && r.now == s.now
  {
    hide Payload;
  }

  lemma LeaveCurrentEffect(s: Server, c: ConnId)
    requires c in s.conns
    ensures Effect(s, LeaveCurrent(s, c)) && Moves(s, LeaveCurrent(s, c), c, s.conns[c].beat)
  {
    hide LeaveRoom, Effect;
    if s.conns[c].current.Some? { LeaveRoomEffect(s, c, s.conns[c].current.value); } else { Silent(s, s); }
  }

  lemma EnterRoomEffect(s: Server, c: ConnId, m: Model)
    requires c in s.conns
    ensures Effect(s, EnterRoom(s, c, m)) && Moves(s, EnterRoom(s, c, m), c, s.conns[c].beat)
  {
    hide Broadcast, RoomEvent.Message, Effect;
    var s1 := Put(s, c, s.conns[c].(current := Some(m)));
    var s2 := s1.(rooms := s1.rooms[m := Members(s1, m) + {c}]);
    var message := UserJoined(s.conns[c].user, NameValue(s.conns[c].name)).Message();
    EventIs(UserJoined(s.conns[c].user, NameValue(s.conns[c].name)));
    Silent(s, s2);
    BroadcastEffect(s2, m, message, Presence, c);
    BroadcastConns(s2, m, message, Presence, c);
    EffectTransitive(s, s2, EnterRoom(s, c, m));
  }

  lemma JoinRoomEffect(s: Server, c: ConnId, m: Model)
    requires c in s.conns
    ensures Effect(s, JoinRoom(s, c, m)) && Moves(s, JoinRoom(s, c, m), c, s.conns[c].beat)
  {
    hide LeaveCurrent, EnterRoom, Effect;
    if s.conns[c].current == Some(m) {
      Silent(s, s);
    } else {
      LeaveCurrentEffect(s, c);
      EnterRoomEffect(LeaveCurrent(s, c), c, m);
      EffectTransitive(s, LeaveCurrent(s, c), JoinRoom(s, c, m));
    }
  }

  lemma JoinReplyEffect(s: Server, c: ConnId, m: Model, authorized: bool, name: Option<string>)
    requires c in s.conns
    ensures Effect(s, JoinReply(s, c, m, authorized, name))
    ensures Moves(s, JoinReply(s, c, m, authorized, name), c, s.conns[c].beat)
  {
    hide JoinRoom, Effect;
    if authorized {
      var s1 := Grant(s, c, m, name);
      Silent(s, s1);
      if s1.conns[c].open {
        JoinRoomEffect(s1, c, m);
        EffectTransitive(s, s1, JoinRoom(s1, c, m));
      }
    } else {
      Silent(s, JoinReply(s, c, m, authorized, name));
    }
  }

  lemma CleanupEffect(s: Server, c: ConnId)
    requires c in s.conns
    ensures var r := Cleanup(s, c);
            && Effect(s, r) && r.now == s.now && c in r.conns
            && r.conns == s.conns[c := s.conns[c].(current := r.conns[c].current, name := r.conns[c].name,
                                                   lastCursor := r.conns[c].lastCursor, cleaned := true,
                                                   beat := StopHeartbeat(s.conns[c].beat))]
  {
    hide LeaveCurrent, Effect, StopHeartbeat, DropUser;
    var s1 := Put(s, c, s.conns[c].(beat := StopHeartbeat(s.conns[c].beat)));
    Silent(s, s1);
    LeaveCurrentEffect(s1, c);
    var s2 := LeaveCurrent(s1, c);
    Silent(s2, Cleanup(s, c));
    EffectTransitive(s, s1, s2);
    EffectTransitive(s, s2, Cleanup(s, c));
  }

  function BeatAfter(b: Heartbeat, msg: ClientMessage, now: int): Heartbeat {
    if msg.Pong? then SeePong(b, now) else b
  }

  lemma MoveCursorEffect(s: Server, c: ConnId, position: Value, normal: Value)
    requires c in s.conns
    ensures Effect(s, MoveCursor(s, c, position, normal))
    ensures Moves(s, MoveCursor(s, c, position, normal), c, s.conns[c].beat)
  {
    hide Effect, RoomEvent.Message, IsVector3, Broadcast;
    var conn := s.conns[c];
    Silent(s, s);
    if conn.current.Some? && s.now - conn.lastCursor >= s.throttle {
      var message := CursorMoved(conn.user, position).Message();
      EventIs(CursorMoved(conn.user, position));
      CursorEffect(s, c, conn.current.value, message);
      BroadcastConns(Put(s, c, conn.(lastCursor := s.now)), conn.current.value, message, CursorTrail, c);
    }
  }

  lemma RelayEventEffect(s: Server, c: ConnId, kind: RelayKind, data: Value)
    requires c in s.conns
    ensures Effect(s, RelayEvent(s, c, kind, data)) && Moves(s, RelayEvent(s, c, kind, data), c, s.conns[c].beat)
  {
    hide Effect, RoomEvent.Message, Broadcast;
    var conn := s.conns[c];
    Silent(s, s);
    if conn.current.Some? {
      EventIs(Relayed(kind, conn.user, data));
      BroadcastEffect(s, conn.current.value, Relayed(kind, conn.user, data).Message(), AnnotationRelay, c);
      BroadcastConns(s, conn.current.value, Relayed(kind, conn.user, data).Message(), AnnotationRelay, c);
    }
  }

  lemma ProcessEffect(s: Server, c: ConnId, msg: ClientMessage)
    requires c in s.conns
    ensures Effect(s, Process(s, c, msg))
    ensures Moves(s, Process(s, c, msg), c, BeatAfter(s.conns[c].beat, msg, s.now))
  {
    hide LeaveRoom, Effect, SeePong, MoveCursor, RelayEvent, Moves;
    match msg
    case LeaveModel(m) => if m != "" { LeaveRoomEffect(s, c, m); } else { NothingEffect(s, c); }
    case CursorMove(position, normal) => MoveCursorEffect(s, c, position, normal);
    case Relay(kind, data) => RelayEventEffect(s, c, kind, data);
    case JoinModel(_) => OwnEffect(s, c, msg);
    case Ping => OwnEffect(s, c, msg);
    case Pong => OwnEffect(s, c, msg);
    case Unknown => NothingEffect(s, c);
    case Throws => NothingEffect(s, c);
  }

  lemma NothingEffect(s: Server, c: ConnId)
    requires c in s.conns
    ensures Effect(s, s) && Moves(s, s, c, s.conns[c].beat)
  {
    hide Effect;
    Silent(s, s);
  }

  lemma OwnEffect(s: Server, c: ConnId, msg: ClientMessage)
    requires c in s.conns && (msg.JoinModel? || msg.Ping? || msg.Pong?)
    ensures Effect(s, Process(s, c, msg))
    ensures Moves(s, Process(s, c, msg), c, BeatAfter(s.conns[c].beat, msg, s.now))
  {
    hide Effect, Moves, SeePong, Replies;
    Silent(s, Process(s, c, msg));
    OwnMoves(s, c, msg);
  }

  lemma OwnMoves(s: Server, c: ConnId, msg: ClientMessage)
    requires c in s.conns && (msg.JoinModel? || msg.Ping? || msg.Pong?)
    ensures Moves(s, Process(s, c, msg), c, BeatAfter(s.conns[c].beat, msg, s.now))
  {
    hide SeePong, Replies, LeaveRoom, MoveCursor, RelayEvent;
  }

  lemma HandleEffect(s: Server, c: ConnId, msg: ClientMessage)
    requires c in s.conns
    ensures var r := Handle(s, c, msg);
            && Effect(s, r) && c in r.conns
            && Moves(Put(s, c, s.conns[c].(done := s.conns[c].done + [msg])), r, c, BeatAfter(s.conns[c].beat, msg, s.now))
  {
    hide Process, Effect;
    var s1 := Put(s, c, s.conns[c].(done := s.conns[c].done + [msg]));
    Silent(s, s1);
    ProcessEffect(s1, c, msg);
    EffectTransitive(s, s1, Handle(s, c, msg));
  }

  function BeatAfterAll(b: Heartbeat, msgs: seq<ClientMessage>, now: int): Heartbeat
    decreases |msgs|
  {
    if msgs == [] then b else BeatAfterAll(BeatAfter(b, msgs[0], now), msgs[1..], now)
  }

  lemma {:induction false} DrainEffect(s: Server, c: ConnId, msgs: seq<ClientMessage>)
    requires c in s.conns
    ensures var r := Drain(s, c, msgs);
            && Effect(s, r) && c in r.conns
            && Moves(Put(s, c, s.conns[c].(done := s.conns[c].done + msgs)), r, c, BeatAfterAll(s.conns[c].beat, msgs, s.now))
    decreases |msgs|
  {
    hide Handle, Effect, BeatAfter;
    if msgs == [] {
      Silent(s, s);
      assert s.conns[c].done + msgs == s.conns[c].done;
    } else {
      var s1 := Handle(s, c, msgs[0]);
      assert Drain(s, c, msgs) == Drain(s1, c, msgs[1..]);
      hide Drain, Moves;
      HandleEffect(s, c, msgs[0]);
      DrainEffect(s1, c, msgs[1..]);
      EffectTransitive(s, s1, Drain(s, c, msgs));
      MovesThen(s, s1, Drain(s, c, msgs), c, msgs, BeatAfter(s.conns[c].beat, msgs[0], s.now),
                BeatAfterAll(s.conns[c].beat, msgs, s.now));
    }
  }

  lemma MovesThen(s: Server, t: Server, r: Server, c: ConnId, msgs: seq<ClientMessage>, b: Heartbeat, beat: Heartbeat)
    requires c in s.conns && c in t.conns && msgs != []
    requires Moves(Put(s, c, s.conns[c].(done := s.conns[c].done + [msgs[0]])), t, c, b)
    requires Moves(Put(t, c, t.conns[c].(done := t.conns[c].done + msgs[1..])), r, c, beat)
    ensures Moves(Put(s, c, s.conns[c].(done := s.conns[c].done + msgs)), r, c, beat)
    ensures t.conns[c].beat == b && t.now == s.now
  {
    assert s.conns[c].done + [msgs[0]] + msgs[1..] == s.conns[c].done + msgs;
  }

  /** Initialisation before the queue is drained. */
  function Opened(s: Server, c: ConnId): Server
    requires c in s.conns
  {
    Put(s, c, s.conns[c].(phase := Ready, beat := StartHeartbeat(s.conns[c].beat, s.now), pending := []))
  }

  lemma FinishInitMoves(s: Server, c: ConnId)
    requires c in s.conns
    ensures var conn := s.conns[c];
            Moves(Put(s, c, conn.(phase := Ready, pending := [], done := conn.done + Readable(conn.pending),
                                  attached := Readable(conn.pending) == conn.pending)), FinishInit(s, c), c,
                  BeatAfterAll(StartHeartbeat(conn.beat, s.now), Readable(conn.pending), s.now))
  {
    hide Drain, Effect, StartHeartbeat, BeatAfterAll, Readable;
    DrainEffect(Opened(s, c), c, Readable(s.conns[c].pending));
  }

  lemma FinishInitEffect(s: Server, c: ConnId)
    requires c in s.conns
    ensures var conn := s.conns[c];
            var r := FinishInit(s, c);
            && Effect(s, r) && c in r.conns
            && Moves(Put(s, c, conn.(phase := Ready, pending := [], done := conn.done + Readable(conn.pending),
                                     attached := Readable(conn.pending) == conn.pending)), r, c,
                     BeatAfterAll(StartHeartbeat(conn.beat, s.now), Readable(conn.pending), s.now))
  {
    FinishInitMoves(s, c);
    hide Drain, Effect, Moves, StartHeartbeat, BeatAfterAll, Readable;
    var s1, readable := Opened(s, c), Readable(s.conns[c].pending);
    Silent(s, s1);
    DrainEffect(s1, c, readable);
    EffectTransitive(s, s1, Drain(s1, c, readable));
    Silent(Drain(s1, c, readable), FinishInit(s, c));
    EffectTransitive(s, Drain(s1, c, readable), FinishInit(s, c));
  }

  lemma TimeoutEffect(s: Server, c: ConnId, deadline: int)
    requires c in s.conns
    ensures Effect(s, PongTimeout(s, c, deadline))
  {
    hide Cleanup, Effect;
    var fired := s.conns[c].beat.(pending := s.conns[c].beat.pending - {deadline});
    if fired.alive {
      Silent(s, Put(s, c, s.conns[c].(beat := fired)));
    } else {
      Silent(s, Expire(s, c, fired));
      CleanupEffect(Expire(s, c, fired), c);
      EffectTransitive(s, Expire(s, c, fired), PongTimeout(s, c, deadline));
    }
  }

  lemma ReceiveEffect(s: Server, c: ConnId, msg: ClientMessage)
    requires c in s.conns
    ensures Effect(s, Receive(s, c, msg))
  {
    hide Handle, Effect;
    if s.conns[c].phase.Ready? { HandleEffect(s, c, msg); } else { Silent(s, Receive(s, c, msg)); }
  }

  lemma ClosedEffect(s: Server, c: ConnId)
    requires c in s.conns
    ensures Effect(s, Next(s, Closed(c)))
  {
    hide Cleanup, Effect;
    var s1 := Put(s, c, s.conns[c].(open := false));
    Silent(s, s1);
    CleanupEffect(s1, c);
    if s1.conns[c].phase.Ready? && s1.conns[c].attached { EffectTransitive(s, s1, Cleanup(s1, c)); }
  }

  lemma ReplyEffect(s: Server, e: Step)
    requires Enabled(s, e) && (e.InitialReply? || e.JoinAnswer?)
    ensures Effect(s, Next(s, e))
  {
    hide JoinReply, Effect;
    match e
    case InitialReply(c, authorized, name) =>
      JoinReplyEffect(s, c, s.conns[c].initial, authorized, name);
      var s1 := JoinReply(s, c, s.conns[c].initial, authorized, name);
      Silent(s1, Next(s, e));
      EffectTransitive(s, s1, Next(s, e));
    case JoinAnswer(ask, authorized, name) =>
      var s1 := s.(asks := s.asks - multiset{ask});
      Silent(s, s1);
      JoinReplyEffect(s1, ask.conn, ask.model, authorized, name);
      EffectTransitive(s, s1, Next(s, e));
    case _ =>
  }

  lemma TickEffect(s: Server, c: ConnId)
    requires c in s.conns
    ensures Effect(s, Tick(s, c))
  {
    hide Cleanup, Effect, TickBeat;
    if s.conns[c].open { Silent(s, Tick(s, c)); } else { CleanupEffect(s, c); }
  }

  /** Every handler of this replica only adds own broadcasts to the log. */
  lemma NextEffect(s: Server, e: Step)
    requires Enabled(s, e) && !e.Remote? && !e.Pass?
    ensures Effect(s, Next(s, e))
  {
    hide Effect, FinishInit, PongTimeout, Receive, Tick;
    match e
    case InitialReply(_, _, _) => ReplyEffect(s, e);
    case JoinAnswer(_, _, _) => ReplyEffect(s, e);
    case InitDone(c) => FinishInitEffect(s, c);
    case Message(c, msg) => ReceiveEffect(s, c, msg);
    case Closed(c) => ClosedEffect(s, c);
    case HeartbeatTick(c) => TickEffect(s, c);
    case PongDeadline(c, d) => TimeoutEffect(s, c, d);
    case Connect(_, _, _) => Silent(s, Next(s, e));
    case SubscribeOk(_) => Silent(s, Next(s, e));
    case SubscribeFailed(_) => Silent(s, Next(s, e));
    case GoingAway(_) => Silent(s, Next(s, e));
    case Remote(_, _, _) =>
    case Pass(_) =>
  }

  lemma RemoteEffect(s: Server, id: MsgId, m: Model, message: Value)
    ensures var r := Next(s, Remote(id, m, message));
            && (OutboxOk(s) ==> OutboxOk(r))
            && (ThrottleOk(s) ==> ThrottleOk(r))
            && r.pid == s.pid && r.own == s.own && r.now == s.now && r.throttle == s.throttle && r.conns == s.conns
            && (id.origin == Some(s.pid) ==> r == s)
            && (id.origin != Some(s.pid) ==>
                r.log == s.log + [Record(id, s.now, m, message, FromOutside, None, Members(s, m), Audience(s, m, None))])
  {
    hide Payload, OutboxOk;
    if OutboxOk(s) { LocalOutbox(s, id, m, message, FromOutside, None); }
  }
}
