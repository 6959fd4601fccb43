/** What a client's messages are read as, and what it is answered: PONG, PING and the refusal of a join. */
module Answers {
  import opened Json
  import opened RoomEvents
  import opened Wrappers
  import opened Rooms
  import opened RoomSafety
  import opened Audiences

  // ---- the messages ----

  /** The message as a browser writes it. */
  function ClientText(msg: ClientMessage): Value
    requires !msg.Unknown? && !msg.Throws?
  {
    match msg
    case JoinModel(m) => Obj(map[Event := Str("JOIN_MODEL"), ModelId := Str(m)])
    case LeaveModel(m) => Obj(map[Event := Str("LEAVE_MODEL"), ModelId := Str(m)])
    case CursorMove(position, normal) =>
      Obj(map[Event := Str("CURSOR_MOVE"), Position := position, Normal := normal])
    case Ping => Obj(map[Event := Str("PING")])
    case Pong => Obj(map[Event := Str("PONG")])
    case Relay(kind, data) =>
      var name := match kind
        case AnnotationCreated => "ANNOTATION_CREATED"
        case AnnotationUpdated => "ANNOTATION_UPDATED"
        case AnnotationDeleted => "ANNOTATION_DELETED"
        case ModelSync => "MODEL_SYNC";
      Obj(map[Event := Str(name), Data := data])
  }

  const EVENTS := {"JOIN_MODEL", "LEAVE_MODEL", "CURSOR_MOVE", "PING", "PONG", "ANNOTATION_CREATED", "ANNOTATION_UPDATED",
    "ANNOTATION_DELETED", "MODEL_SYNC"}

  /** What the message carries, after JSON. */
  function Sent(msg: ClientMessage): ClientMessage {
    match msg
    case CursorMove(position, normal) => CursorMove(position.OnWire(), normal.OnWire())
    case Relay(kind, data) => Relay(kind, data.OnWire())
    case _ => msg
  }

  /** Each message arrives as what was sent, and nothing else is taken for a message. */
  lemma MessagesReadBack(msg: ClientMessage)
    requires !msg.Unknown? && !msg.Throws?
    ensures ReadMessage(Some(ClientText(msg).OnWire())) == Sent(msg)
  {
    var v := ClientText(msg);
    OnWireGet(v, Event);
    StrStays(v.Get(Event).s);
    match msg
    case Relay(kind, data) => RelayReadsBack(kind, data);
    case CursorMove(_, _) =>
      OnWireGet(v, Position);
      OnWireGet(v, Normal);
      hide Value.OnWire;
    case JoinModel(m) =>
      OnWireGet(v, ModelId);
      StrStays(m);
      hide Value.OnWire;
    case LeaveModel(m) =>
      OnWireGet(v, ModelId);
      StrStays(m);
      hide Value.OnWire;
    case Ping => hide Value.OnWire;
    case Pong => hide Value.OnWire;
  }

  lemma RelayReadsBack(kind: RelayKind, data: Value)
    ensures ReadMessage(Some(ClientText(Relay(kind, data)).OnWire())) == Relay(kind, data.OnWire())
  {
    var v := ClientText(Relay(kind, data));
    OnWireGet(v, Event);
    OnWireGet(v, Data);
    StrStays(v.Get(Event).s);
    hide Value.OnWire;
  }

  lemma StrStays(text: string)
    ensures Str(text).OnWire() == Str(text)
  {
  }

  lemma OthersReadAsUnknown(raw: Option<Value>)
    ensures ReadMessage(raw).Throws? <==> raw == Some(Null) || raw == Some(Undefined)
    ensures ReadMessage(raw).Unknown? <==>
              raw.None? || (raw != Some(Null) && raw != Some(Undefined)
                            && !(raw.value.Get(Event).Str? && raw.value.Get(Event).s in EVENTS))
  {
  }

  // ---- the answers ----

  /** Nothing is answered and no name is learnt. */
  ghost predicate Tacit(s: Server, t: Server) {
    && t.replies == s.replies
    && forall c | c in s.conns :: c in t.conns && t.conns[c].name == s.conns[c].name && t.conns[c].open == s.conns[c].open
  }

  lemma LeaveTacit(s: Server, c: ConnId, m: Model)
    requires c in s.conns
    ensures Tacit(s, LeaveRoom(s, c, m))
  {
    hide Payload, RoomEvent.Message, SendTo, Audience;
  }

  lemma LeaveCurrentTacit(s: Server, c: ConnId)
    requires c in s.conns
    ensures Tacit(s, LeaveCurrent(s, c))
  {
    hide LeaveRoom;
    if s.conns[c].current.Some? { LeaveTacit(s, c, s.conns[c].current.value); }
  }

  lemma JoinTacit(s: Server, c: ConnId, m: Model)
    requires c in s.conns
    ensures Tacit(s, JoinRoom(s, c, m))
  {
    hide Payload, RoomEvent.Message, LeaveCurrent;
    LeaveCurrentTacit(s, c);
  }

  lemma CleanupTacit(s: Server, c: ConnId)
    requires c in s.conns
    ensures Tacit(s, Cleanup(s, c))
  {
    hide LeaveCurrent, StopHeartbeat, DropUser;
    LeaveCurrentTacit(Put(s, c, s.conns[c].(beat := StopHeartbeat(s.conns[c].beat))), c);
  }

  /** `c` is answered with `more`; its name may change to `name`; nobody else is answered and no other name changes. */
  ghost predicate Answered(s: Server, t: Server, c: ConnId, more: seq<Reply>, name: Option<string>)
    requires c in s.conns
  {
    && c in t.conns && Replies(t, c) == Replies(s, c) + more && t.conns[c].name == name
    && (forall d | d != c :: Replies(t, d) == Replies(s, d))
    && forall d | d in s.conns && d != c :: d in t.conns && t.conns[d].name == s.conns[d].name
  }

  lemma AnsweredFrom(s: Server, s1: Server, t: Server, c: ConnId, more: seq<Reply>, name: Option<string>)
    requires c in s.conns && c in s1.conns && Answered(s1, t, c, more, name)
    requires s1.replies == s.replies && s1.conns == s.conns[c := s1.conns[c]]
    ensures Answered(s, t, c, more, name)
  {
  }

  lemma AnsweredThen(s: Server, t: Server, r: Server, c: ConnId, more: seq<Reply>, name: Option<string>)
    requires c in s.conns && Answered(s, t, c, more, name) && c in t.conns && c in r.conns
    requires r.replies == t.replies && r.conns == t.conns[c := r.conns[c]] && r.conns[c].name == t.conns[c].name
    ensures Answered(s, r, c, more, name)
  {
  }

  /** A refused join is answered while the socket is open; a granted one teaches the name, the first time. */
  lemma JoinAnswered(s: Server, c: ConnId, m: Model, authorized: bool, name: Option<string>)
    requires c in s.conns
    ensures Answered(s, JoinReply(s, c, m, authorized, name), c, if !authorized && s.conns[c].open then [AccessDenied] else [],
                     if authorized && s.conns[c].name.None? then name else s.conns[c].name)
  {
    hide JoinRoom;
    if authorized { JoinTacit(Grant(s, c, m, name), c, m); }
  }

  lemma MoveTacit(s: Server, c: ConnId, position: Value, normal: Value)
    requires c in s.conns
    ensures Tacit(s, MoveCursor(s, c, position, normal))
  {
    hide Payload, RoomEvent.Message, IsVector3, SendTo, Audience;
  }

  lemma RelayTacit(s: Server, c: ConnId, kind: RelayKind, data: Value)
    requires c in s.conns
    ensures Tacit(s, RelayEvent(s, c, kind, data))
  {
    hide Payload, RoomEvent.Message, SendTo, Audience;
  }

  lemma ProcessTacit(s: Server, c: ConnId, msg: ClientMessage)
    requires c in s.conns && !msg.Ping?
    ensures Tacit(s, Process(s, c, msg))
  {
    hide LeaveRoom, MoveCursor, RelayEvent, SeePong;
    match msg
    case LeaveModel(m) => LeaveTacit(s, c, m);
    case CursorMove(position, normal) => MoveTacit(s, c, position, normal);
    case Relay(kind, data) => RelayTacit(s, c, kind, data);
    case _ =>
  }

  lemma HandleAnswered(s: Server, c: ConnId, msg: ClientMessage)
    requires c in s.conns
    ensures Answered(s, Handle(s, c, msg), c, if msg.Ping? && s.conns[c].open then [PongOut] else [], s.conns[c].name)
    ensures Handle(s, c, msg).conns[c].open == s.conns[c].open
  {
    if !msg.Ping? {
      ProcessTacit(Put(s, c, s.conns[c].(done := s.conns[c].done + [msg])), c, msg);
      hide Process;
    }
  }

  /** One PONG for each PING. */
  function Pongs(msgs: seq<ClientMessage>): seq<Reply> {
    if msgs == [] then [] else (if msgs[0].Ping? then [PongOut] else []) + Pongs(msgs[1..])
  }

  lemma {:induction false} DrainAnswered(s: Server, c: ConnId, msgs: seq<ClientMessage>)
    requires c in s.conns
    ensures Answered(s, Drain(s, c, msgs), c, if s.conns[c].open then Pongs(msgs) else [], s.conns[c].name)
    decreases |msgs|
  {
    hide Handle;
    if msgs != [] {
      HandleAnswered(s, c, msgs[0]);
      DrainAnswered(Handle(s, c, msgs[0]), c, msgs[1..]);
    }
  }

  /** What a step answers to its own client. */
  function AnswersTo(s: Server, e: Step): seq<Reply>
    requires Enabled(s, e) && Handler(e).Some? && Handler(e).value in s.conns
  {
    if !s.conns[Handler(e).value].open then []
    else match e
      case HeartbeatTick(_) => [PingOut]
      case Message(c, msg) => if s.conns[c].phase.Ready? && msg.Ping? then [PongOut] else []
      case InitialReply(_, authorized, _) => if authorized then [] else [AccessDenied]
      case JoinAnswer(_, authorized, _) => if authorized then [] else [AccessDenied]
      case InitDone(c) => Pongs(Readable(s.conns[c].pending))
      case _ => []
  }

  /** The first name that a granted join brings is kept. */
  function NameAfter(s: Server, e: Step): Option<string>
    requires Enabled(s, e) && Handler(e).Some? && Handler(e).value in s.conns
  {
    var known := s.conns[Handler(e).value].name;
    if known.None? && (e.InitialReply? || e.JoinAnswer?) && e.authorized then e.name else known
  }

  /**
   A client is sent a PING at each tick, a PONG for each of its PINGs, at once or from the queue, and a refusal for each
   join that is not authorised, all while its socket is open, and nothing else; nobody else is answered.
   */
  lemma StepAnswers(s: Server, e: Step)
    requires Enabled(s, e) && Handler(e).Some? && Handler(e).value in s.conns
    ensures Answered(s, Next(s, e), Handler(e).value, AnswersTo(s, e), NameAfter(s, e))
  {
    hide Handle, JoinReply, Cleanup, FinishInit, TickBeat, Readable, Register, Answered, AnswersTo, PongTimeout, Tick;
    match e
    case InitialReply(_, _, _) => ReplyAnswered(s, e);
    case JoinAnswer(_, _, _) => ReplyAnswered(s, e);
    case InitDone(_) => OwnAnswered(s, e);
    case Message(_, _) => OwnAnswered(s, e);
    case Closed(_) => TimerAnswered(s, e);
    case HeartbeatTick(_) => TimerAnswered(s, e);
    case PongDeadline(_, _) => TimerAnswered(s, e);
    case Connect(_, _, _) => OtherAnswered(s, e);
    case SubscribeOk(_) => OtherAnswered(s, e);
    case SubscribeFailed(_) => OtherAnswered(s, e);
    case GoingAway(_) => OtherAnswered(s, e);
  }

  lemma ReplyAnswered(s: Server, e: Step)
    requires Enabled(s, e) && (e.InitialReply? || e.JoinAnswer?) && Handler(e).value in s.conns
    ensures Answered(s, Next(s, e), Handler(e).value, AnswersTo(s, e), NameAfter(s, e))
  {
    hide JoinReply;
    match e
    case InitialReply(c, authorized, name) => JoinAnswered(s, c, s.conns[c].initial, authorized, name);
    case JoinAnswer(ask, authorized, name) =>
      JoinAnswered(s.(asks := s.asks - multiset{ask}), ask.conn, ask.model, authorized, name);
    case _ =>
  }

  lemma OwnAnswered(s: Server, e: Step)
    requires Enabled(s, e) && (e.InitDone? || e.Message?) && e.c in s.conns
    ensures Answered(s, Next(s, e), e.c, AnswersTo(s, e), NameAfter(s, e))
  {
    hide Handle, FinishInit, Readable;
    match e
    case InitDone(c) => InitAnswered(s, c);
    case Message(c, msg) => if s.conns[c].phase.Ready? { HandleAnswered(s, c, msg); }
    case _ =>
  }

  lemma TimerAnswered(s: Server, e: Step)
    requires Enabled(s, e) && (e.Closed? || e.HeartbeatTick? || e.PongDeadline?) && e.c in s.conns
    ensures Answered(s, Next(s, e), e.c, AnswersTo(s, e), NameAfter(s, e))
  {
    hide Cleanup, TickBeat, Answered;
    match e
    case Closed(c) =>
      var s1 := Put(s, c, s.conns[c].(open := false));
      CleanedAnswered(s1, c);
      AnsweredFrom(s, s1, Cleanup(s1, c), c, [], s.conns[c].name);
      NotAnswered(s, s1, c);
    case HeartbeatTick(c) =>
      CleanedAnswered(s, c);
      if s.conns[c].open { Pinged(s, c); }
    case PongDeadline(c, d) =>
      var fired := s.conns[c].beat.(pending := s.conns[c].beat.pending - {d});
      var s1 := Expire(s, c, fired);
      CleanedAnswered(s1, c);
      AnsweredFrom(s, s1, Cleanup(s1, c), c, [], s.conns[c].name);
      NotAnswered(s, Put(s, c, s.conns[c].(beat := fired)), c);
    case _ =>
  }

  lemma CleanedAnswered(s: Server, c: ConnId)
    requires c in s.conns
    ensures Answered(s, Cleanup(s, c), c, [], s.conns[c].name)
  {
    CleanupTacit(s, c);
    hide Cleanup;
  }

  lemma NotAnswered(s: Server, t: Server, c: ConnId)
    requires c in s.conns && c in t.conns && t.replies == s.replies && t.conns == s.conns[c := t.conns[c]]
    requires t.conns[c].name == s.conns[c].name
    ensures Answered(s, t, c, [], s.conns[c].name)
  {
  }

  lemma Pinged(s: Server, c: ConnId)
    requires c in s.conns && s.conns[c].open
    ensures Answered(s, Tick(s, c), c, [PingOut], s.conns[c].name)
  {
    hide Cleanup, TickBeat;
  }

  lemma OtherAnswered(s: Server, e: Step)
    requires Enabled(s, e) && (e.Connect? || e.SubscribeOk? || e.SubscribeFailed? || e.GoingAway?) && e.c in s.conns
    ensures Answered(s, Next(s, e), e.c, AnswersTo(s, e), NameAfter(s, e))
  {
  }

  lemma InitAnswered(s: Server, c: ConnId)
    requires Enabled(s, InitDone(c))
    ensures Answered(s, FinishInit(s, c), c, if s.conns[c].open then Pongs(Readable(s.conns[c].pending)) else [],
                     s.conns[c].name)
  {
    hide Drain, Readable, StartHeartbeat, Pongs;
    var conn, msgs := s.conns[c], Readable(s.conns[c].pending);
    var s1 := Put(s, c, conn.(phase := Ready, beat := StartHeartbeat(conn.beat, s.now), pending := []));
    var s2 := Drain(s1, c, msgs);
    DrainAnswered(s1, c, msgs);
    AnsweredFrom(s, s1, s2, c, if conn.open then Pongs(msgs) else [], conn.name);
    hide Answered;
    AnsweredThen(s, s2, FinishInit(s, c), c, if conn.open then Pongs(msgs) else [], conn.name);
  }

  /** All that a client has been sent besides room messages, told by the steps of the run. */
  function AllAnswers(states: seq<Server>, steps: seq<Step>, i: nat, c: ConnId): seq<Reply>
    requires i <= |steps| < |states| && forall k | 0 <= k < i :: Enabled(states[k], steps[k])
  {
    if i == 0 then []
    else
      var s, e := states[i - 1], steps[i - 1];
      AllAnswers(states, steps, i - 1, c) + if Handler(e) == Some(c) && c in s.conns then AnswersTo(s, e) else []
  }

  lemma AnswersGrow(s: Server, e: Step, c: ConnId)
    requires Enabled(s, e)
    ensures Replies(Next(s, e), c)
            == Replies(s, c) + if Handler(e) == Some(c) && c in s.conns then AnswersTo(s, e) else []
  {
    if Handler(e).Some? && Handler(e).value in s.conns {
      StepAnswers(s, e);
      hide Next, AnswersTo, NameAfter;
    } else {
      NoHandlerNoAnswer(s, e);
      hide Next, AnswersTo;
    }
  }

  lemma NoHandlerNoAnswer(s: Server, e: Step)
    requires Enabled(s, e) && (Handler(e).Some? ==> Handler(e).value !in s.conns)
    ensures Next(s, e).replies == s.replies
  {
    hide Payload, SendTo, Audience;
  }

  /** Over every run: the PINGs, PONGs and refusals that a client has been sent, in order, are exactly these. */
  lemma {:induction false} RunAnswers(states: seq<Server>, steps: seq<Step>, i: nat, c: ConnId)
    requires IsRun(states, steps) && i < |states|
    ensures forall k | 0 <= k < i :: Enabled(states[k], steps[k])
    ensures Replies(states[i], c) == AllAnswers(states, steps, i, c)
  {
    hide Next, Enabled, AnswersTo;
    if i == 0 {
      assert Initial(states[0]);
    } else {
      RunAnswers(states, steps, i - 1, c);
      AnswersGrow(states[i - 1], steps[i - 1], c);
    }
  }
}
