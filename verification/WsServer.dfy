/**
 The websocket server with its state updated in place, handler by handler. Every method is tied to the
 step function of the same name in `Rooms`, about which the whole-run theorems are proved.
 */
module WsServer {
  import opened Json
  import opened RoomEvents
  import opened Wrappers
  import R = Rooms
  import T = CursorThrottle

  lemma LeaveKeepsConn(s: R.Server, c: R.ConnId)
    requires c in s.conns
    ensures c in R.LeaveCurrent(s, c).conns
  {
    hide Payload, RoomEvent.Message;
  }

  lemma SendToNone(outbox: map<R.ConnId, seq<R.Delivery>>, d: R.Delivery)
    ensures R.SendTo(outbox, {}, d) == outbox
  {
  }

  lemma SendToOneMore(outbox: map<R.ConnId, seq<R.Delivery>>, sent: set<R.ConnId>, c: R.ConnId, d: R.Delivery)
    requires c !in sent
    ensures var now := R.SendTo(outbox, sent, d);
            R.SendTo(outbox, sent + {c}, d) == now[c := (if c in now then now[c] else []) + [d]]
  {
  }

  /** What the queue leads to once its first `i` messages have been handled. */
  ghost function Drained(s: R.Server, c: R.ConnId, queued: seq<R.ClientMessage>, i: nat): R.Server
    requires c in s.conns && i <= |queued|
  {
    R.Drain(s, c, R.Readable(queued[i..]))
  }

  ghost predicate ReadSoFar(queued: seq<R.ClientMessage>, i: nat)
    requires i <= |queued|
  {
    queued[..i] + R.Readable(queued[i..]) == R.Readable(queued)
  }

  lemma QueueStarts(s: R.Server, c: R.ConnId, queued: seq<R.ClientMessage>)
    requires c in s.conns
    ensures Drained(s, c, queued, 0) == R.Drain(s, c, R.Readable(queued)) && ReadSoFar(queued, 0)
  {
    hide R.Drain, R.Readable;
    assert queued[0..] == queued && queued[..0] == [];
  }

  lemma NextQueued(s: R.Server, c: R.ConnId, queued: seq<R.ClientMessage>, i: nat)
    requires c in s.conns && i < |queued| && !queued[i].Throws?
    ensures Drained(s, c, queued, i) == Drained(R.Handle(s, c, queued[i]), c, queued, i + 1)
    ensures ReadSoFar(queued, i) ==> ReadSoFar(queued, i + 1)
  {
    hide R.Handle;
    var rest := R.Readable(queued[i + 1..]);
    assert queued[i..][0] == queued[i] && queued[i..][1..] == queued[i + 1..];
    assert ([queued[i]] + rest)[1..] == rest;
    assert queued[..i] + ([queued[i]] + rest) == queued[..i + 1] + rest;
  }

  lemma QueueStops(s: R.Server, c: R.ConnId, queued: seq<R.ClientMessage>, i: nat)
    requires c in s.conns && i <= |queued| && (i == |queued| || queued[i].Throws?)
    ensures Drained(s, c, queued, i) == s
    ensures ReadSoFar(queued, i) ==> queued[..i] == R.Readable(queued)
  {
    assert R.Readable(queued[i..]) == [];
    assert queued[..i] + [] == queued[..i];
  }

  class WsServer {
    const pid: R.Pid
    const throttle: int
    var now: int
    var rooms: map<R.Model, set<R.ConnId>>
    var userConnections: map<User, set<R.ConnId>>
    var conns: map<R.ConnId, R.Conn>
    var outbox: map<R.ConnId, seq<R.Delivery>>
    var replies: map<R.ConnId, seq<R.Reply>>
    var asks: multiset<R.Ask>
    var own: nat
    ghost var granted: set<(User, R.Model)>
    ghost var log: seq<R.Record>

    ghost function View(): R.Server
      reads this
    {
      R.Server(pid, throttle, now, rooms, userConnections, conns, asks, granted, own, log, outbox, replies)
    }

    constructor (pid: R.Pid, throttle: int, now: int)
      ensures R.Initial(View()) && this.pid == pid && this.throttle == throttle && this.now == now
    {
      this.pid, this.throttle, this.now := pid, throttle, now;
      rooms, userConnections, conns, outbox, replies := map[], map[], map[], map[], map[];
      asks, own, granted, log := multiset{}, 0, {}, [];
    }

    method Send(c: R.ConnId, reply: R.Reply)
      requires c in conns
      modifies this`replies
      ensures replies == if conns[c].open then old(replies)[c := R.Replies(old(View()), c) + [reply]] else old(replies)
    {
      if conns[c].open {
        replies := replies[c := (if c in replies then replies[c] else []) + [reply]];
      }
    }

    /** The loop over the room: every open client but the excluded one is sent the payload. */
    method SendToRoom(room: set<R.ConnId>, delivery: R.Delivery, exclude: Option<R.ConnId>, ghost audience: set<R.ConnId>)
      requires audience <= room
      requires forall c | c in room :: c in audience <==> R.IsOpen(View(), c) && Some(c) != exclude
      modifies this`outbox
      ensures outbox == R.SendTo(old(outbox), audience, delivery)
    {
      hide R.SendTo;
      var left := room;
      ghost var sent: set<R.ConnId> := {};
      SendToNone(outbox, delivery);
      while left != {}
        invariant left <= room && sent == audience - left
        invariant outbox == R.SendTo(old(outbox), sent, delivery)
        decreases left
      {
        var c :| c in left;
        left := left - {c};
        if Some(c) != exclude && c in conns && conns[c].open {
          SendToOneMore(old(outbox), sent, c, delivery);
          outbox := outbox[c := (if c in outbox then outbox[c] else []) + [delivery]];
          sent := sent + {c};
        }
      }
      assert sent == audience;
    }

    method BroadcastToLocalRoom(id: R.MsgId, m: R.Model, message: Value, ghost kind: R.Kind, exclude: Option<R.ConnId>)
      modifies this`outbox, this`log
      ensures View() == R.BroadcastToLocalRoom(old(View()), id, m, message, kind, exclude)
    {
      hide Payload, R.SendTo;
      ghost var audience := R.Audience(View(), m, exclude);
      log := log + [R.Record(id, now, m, message, kind, exclude, R.Members(View(), m), audience)];
      if m in rooms {
        SendToRoom(rooms[m], R.Delivery(id, Payload(message)), exclude, audience);
      } else {
        SendToNone(outbox, R.Delivery(id, Payload(message)));
        assert audience == {};
      }
    }

    method Broadcast(m: R.Model, message: Value, ghost kind: R.Kind, sender: R.ConnId)
      modifies this`outbox, this`log, this`own
      ensures View() == R.Broadcast(old(View()), m, message, kind, sender)
    {
      BroadcastToLocalRoom(R.MsgId(Some(pid), own), m, message, kind, Some(sender));
      own := own + 1;
    }

    method LeaveRoom(c: R.ConnId, m: R.Model)
      requires c in conns
      modifies this`rooms, this`conns, this`outbox, this`log, this`own
      ensures View() == R.LeaveRoom(old(View()), c, m)
    {
      if m !in rooms { return; }
      rooms := rooms[m := rooms[m] - {c}];
      Broadcast(m, UserLeft(conns[c].user).Message(), R.Presence, c);
      if rooms[m] == {} {
        rooms := rooms - {m};
      }
      if conns[c].current == Some(m) {
        conns := conns[c := conns[c].(current := None)];
      }
    }

    method JoinRoom(c: R.ConnId, m: R.Model)
      requires c in conns
      modifies this`rooms, this`conns, this`outbox, this`log, this`own
      ensures View() == R.JoinRoom(old(View()), c, m)
    {
      hide Payload, RoomEvent.Message, R.LeaveRoom, R.Broadcast;
      if conns[c].current == Some(m) { return; }
      ghost var before := View();
      if conns[c].current.Some? {
        LeaveRoom(c, conns[c].current.value);
      }
      assert View() == R.LeaveCurrent(before, c);
      ghost var left := R.LeaveCurrent(before, c);
      LeaveKeepsConn(before, c);
      conns := conns[c := conns[c].(current := Some(m))];
      if m !in rooms {
        rooms := rooms[m := {}];
      }
      rooms := rooms[m := rooms[m] + {c}];
      assert rooms == left.rooms[m := R.Members(left, m) + {c}];
      Broadcast(m, UserJoined(conns[c].user, R.NameValue(conns[c].name)).Message(), R.Presence, c);
    }

    /** requestJoinRoom, resumed with the reply of the authorisation service. */
    method JoinReply(c: R.ConnId, m: R.Model, authorized: bool, name: Option<string>)
      requires c in conns
      modifies this`rooms, this`conns, this`outbox, this`log, this`own, this`granted, this`replies
      ensures View() == R.JoinReply(old(View()), c, m, authorized, name)
    {
      if !authorized {
        Send(c, R.AccessDenied);
        return;
      }
      if conns[c].name.None? {
        conns := conns[c := conns[c].(name := name)];
      } else {
        assert conns == conns[c := conns[c]];
      }
      granted := granted + {(conns[c].user, m)};
      if !conns[c].open { return; }
      JoinRoom(c, m);
    }

    method StopHeartbeat(c: R.ConnId)
      requires c in conns
      modifies this`conns
      ensures conns == old(conns)[c := old(conns)[c].(beat := R.StopHeartbeat(old(conns)[c].beat))]
    {
      var b := conns[c].beat;
      b := b.(due := None);
      if b.pongTimer.Some? {
        b := b.(pending := b.pending - {b.pongTimer.value});
      }
      b := b.(pongTimer := None);
      conns := conns[c := conns[c].(beat := b)];
    }

    method Cleanup(c: R.ConnId)
      requires c in conns
      modifies this`rooms, this`conns, this`outbox, this`log, this`own, this`userConnections
      ensures View() == R.Cleanup(old(View()), c)
    {
      StopHeartbeat(c);
      if conns[c].current.Some? {
        LeaveRoom(c, conns[c].current.value);
      }
      var u := conns[c].user;
      if u in userConnections {
        var userSet := userConnections[u] - {c};
        if userSet == {} {
          userConnections := userConnections - {u};
        } else {
          userConnections := userConnections[u := userSet];
        }
      }
      conns := conns[c := conns[c].(cleaned := true)];
    }

    method OnCursorMove(c: R.ConnId, position: Value, normal: Value)
      requires c in conns
      modifies this`conns, this`outbox, this`log, this`own
      ensures View() == R.MoveCursor(old(View()), c, position, normal)
      ensures View() == old(View()) <==>
                || old(conns)[c].current.None?
                || !IsVector3(position) || (!normal.Undefined? && !IsVector3(normal))
                || now - old(conns)[c].lastCursor < throttle
    {
      T.RefusedMoveChangesNothing(View(), c, position, normal);
      if conns[c].current.Some? {
        if !IsVector3(position) || (!normal.Undefined? && !IsVector3(normal)) { return; }
        if now - conns[c].lastCursor < throttle { return; }
        conns := conns[c := conns[c].(lastCursor := now)];
        Broadcast(conns[c].current.value, CursorMoved(conns[c].user, position).Message(), R.CursorTrail, c);
      }
    }

    method ProcessMessage(c: R.ConnId, msg: R.ClientMessage)
      requires c in conns
      modifies this`rooms, this`conns, this`outbox, this`log, this`own, this`asks, this`replies
      ensures View() == R.Handle(old(View()), c, msg)
    {
      hide R.MoveCursor, R.LeaveRoom, R.Broadcast, IsVector3, RoomEvent.Message;
      conns := conns[c := conns[c].(done := conns[c].done + [msg])];
      match msg
      case JoinModel(m) =>
        if m != "" { asks := asks + multiset{R.Ask(c, m)}; }
      case LeaveModel(m) =>
        if m != "" { LeaveRoom(c, m); }
      case CursorMove(position, normal) =>
        OnCursorMove(c, position, normal);
      case Ping => Send(c, R.PongOut);
      case Pong =>
        var b := conns[c].beat.(alive := true, history := conns[c].beat.history + [R.PongSeen(now)]);
        if b.pongTimer.Some? {
          b := b.(pending := b.pending - {b.pongTimer.value});
        }
        conns := conns[c := conns[c].(beat := b)];
      case Relay(kind, data) =>
        if conns[c].current.Some? {
          Broadcast(conns[c].current.value, Relayed(kind, conns[c].user, data).Message(), R.AnnotationRelay, c);
        }
      case Unknown =>
      case Throws =>
    }

    /** The 'message' listener; an exception that leaves it ends the process. */
    method OnMessage(c: R.ConnId, raw: Option<Value>) returns (thrown: bool)
      requires c in conns
      modifies this
      ensures thrown <==> old(conns)[c].phase.Ready? && R.ReadMessage(raw).Throws?
      ensures View() == if thrown then old(View()) else R.Next(old(View()), R.Message(c, R.ReadMessage(raw)))
    {
      var msg := R.ReadMessage(raw);
      thrown := false;
      if conns[c].phase.Ready? && msg.Throws? {
        return true;
      }
      if !conns[c].phase.Ready? {
        if |conns[c].pending| >= R.MAX_PENDING_MESSAGES { return; }
        conns := conns[c := conns[c].(pending := conns[c].pending + [msg])];
        return;
      }
      ProcessMessage(c, msg);
    }

    /** The end of the connection handler: heartbeat started, gate open, queue drained. */
    method InitDone(c: R.ConnId)
      requires c in conns && conns[c].phase.Initialising?
      modifies this
      ensures View() == R.Next(old(View()), R.InitDone(c))
    {
      hide R.Handle, R.Drain, R.Readable;
      var b := conns[c].beat.(due := Some(now + R.HEARTBEAT_INTERVAL_MS), start := now);
      var queued := conns[c].pending;
      conns := conns[c := conns[c].(phase := R.Ready, beat := b, pending := [])];
      var i := DrainQueue(c, queued);
      assert i == |queued| <==> R.Readable(queued) == queued by { assert queued[..|queued|] == queued; }
      conns := conns[c := conns[c].(attached := i == |queued|)];
    }

    /** The loop over the queue, up to the end or to the message that throws. */
    method DrainQueue(c: R.ConnId, queued: seq<R.ClientMessage>) returns (i: nat)
      requires c in conns
      modifies this`rooms, this`conns, this`outbox, this`log, this`own, this`asks, this`replies
      ensures i <= |queued| && queued[..i] == R.Readable(queued)
      ensures View() == R.Drain(old(View()), c, R.Readable(queued))
    {
      hide R.Handle, R.Drain, R.Readable, Drained, ReadSoFar;
      i := 0;
      QueueStarts(View(), c, queued);
      while i < |queued| && !queued[i].Throws?
        invariant i <= |queued| && c in conns && ReadSoFar(queued, i)
        invariant Drained(View(), c, queued, i) == R.Drain(old(View()), c, R.Readable(queued))
      {
        NextQueued(View(), c, queued, i);
        ProcessMessage(c, queued[i]);
        i := i + 1;
      }
      QueueStops(View(), c, queued, i);
    }

    method SubscribeDone(c: R.ConnId, ok: bool)
      requires c in conns && conns[c].phase.Subscribing?
      modifies this
      ensures View() == R.Next(old(View()), if ok then R.SubscribeOk(c) else R.SubscribeFailed(c))
    {
      if !ok {
        conns := conns[c := conns[c].(phase := R.Refused, open := false)];
        return;
      }
      var u := conns[c].user;
      if u !in userConnections {
        userConnections := userConnections[u := {}];
      }
      userConnections := userConnections[u := userConnections[u] + {c}];
      conns := conns[c := conns[c].(phase := if conns[c].initial != "" then R.Authorising else R.Initialising)];
    }

    method OnInitialReply(c: R.ConnId, authorized: bool, name: Option<string>)
      requires c in conns && conns[c].phase.Authorising?
      modifies this
      ensures View() == R.Next(old(View()), R.InitialReply(c, authorized, name))
    {
      JoinReply(c, conns[c].initial, authorized, name);
      conns := conns[c := conns[c].(phase := R.Initialising)];
    }

    method OnJoinAnswer(ask: R.Ask, authorized: bool, name: Option<string>)
      requires ask in asks && ask.conn in conns
      modifies this
      ensures View() == R.Next(old(View()), R.JoinAnswer(ask, authorized, name))
    {
      asks := asks - multiset{ask};
      JoinReply(ask.conn, ask.model, authorized, name);
    }

    method OnClose(c: R.ConnId)
      requires c in conns
      modifies this
      ensures View() == R.Next(old(View()), R.Closed(c))
    {
      conns := conns[c := conns[c].(open := false)];
      if conns[c].phase.Ready? && conns[c].attached { Cleanup(c); }
    }

    method OnHeartbeat(c: R.ConnId)
      requires c in conns && conns[c].beat.due == Some(now)
      modifies this
      ensures View() == R.Next(old(View()), R.HeartbeatTick(c))
    {
      if !conns[c].open {
        Cleanup(c);
        return;
      }
      var b := conns[c].beat.(alive := false);
      Send(c, R.PingOut);
      b := b.(pongTimer := Some(now + R.PONG_TIMEOUT_MS), pending := b.pending + {now + R.PONG_TIMEOUT_MS},
              due := Some(now + R.HEARTBEAT_INTERVAL_MS), history := b.history + [R.PingSent(now)]);
      conns := conns[c := conns[c].(beat := b)];
    }

    method OnPongTimer(c: R.ConnId, deadline: int)
      requires c in conns && deadline in conns[c].beat.pending && deadline == now
      modifies this
      ensures View() == R.Next(old(View()), R.PongDeadline(c, deadline))
    {
      hide R.Cleanup;
      var b := conns[c].beat.(pending := conns[c].beat.pending - {deadline});
      if b.alive {
        conns := conns[c := conns[c].(beat := b)];
      } else {
        conns := conns[c := conns[c].(open := false, beat := b.(history := b.history + [R.TimedOut(now)]))];
        assert View() == R.Expire(old(View()), c, b);
        Cleanup(c);
      }
    }

    /** The 'pmessage' listener. */
    method OnRoomEvent(id: R.MsgId, m: R.Model, message: Value)
      modifies this`outbox, this`log
      ensures View() == R.Next(old(View()), R.Remote(id, m, message))
    {
      if id.origin == Some(pid) { return; }
      BroadcastToLocalRoom(id, m, message, R.FromOutside, None);
    }
  }
}
