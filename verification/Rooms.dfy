/**
 One websocket replica as a state machine. JavaScript runs one handler at a time between awaits, so
 every handler is one atomic step: `Enabled` says when it can run, `Next` what it does.

 `log`, `outbox`, `granted`, `done`, `cleaned`, `Heartbeat.history` and the numbers in `MsgId` are
 history: the server keeps none of them and no step reads them to decide anything.
 */
module Rooms {
  import opened Json
  import opened RoomEvents
  import opened Wrappers

  const MAX_PENDING_MESSAGES := 100
  const HEARTBEAT_INTERVAL_MS := 30_000
  const PONG_TIMEOUT_MS := 10_000

  type Pid = nat
  type ConnId = nat
  type Model = string

  datatype ClientMessage =
    | JoinModel(model: Model)
    | LeaveModel(model: Model)
    | CursorMove(position: Value, normal: Value)
    | Ping
    | Pong
    | Relay(kind: RelayKind, data: Value)
    | Unknown
    | Throws

  /** The text of a model id as the `if (msg.model_id)` guards see it; the empty text is falsy. */
  function ModelText(v: Value): string {
    if v.Str? then v.s else ""
  }

  /** `None` is a text that is not JSON; a text that is JSON null makes `msg.event` throw. */
  function ReadMessage(raw: Option<Value>): ClientMessage {
    if raw.None? then Unknown
    else if raw.value.Null? || raw.value.Undefined? then Throws
    else
      var msg := raw.value;
      var event := msg.Get(Event);
      if event == Str("JOIN_MODEL") then JoinModel(ModelText(msg.Get(ModelId)))
      else if event == Str("LEAVE_MODEL") then LeaveModel(ModelText(msg.Get(ModelId)))
      else if event == Str("CURSOR_MOVE") then CursorMove(msg.Get(Position), msg.Get(Normal))
      else if event == Str("PING") then Ping
      else if event == Str("PONG") then Pong
      else if event == Str("ANNOTATION_CREATED") then Relay(AnnotationCreated, msg.Get(Data))
      else if event == Str("ANNOTATION_UPDATED") then Relay(AnnotationUpdated, msg.Get(Data))
      else if event == Str("ANNOTATION_DELETED") then Relay(AnnotationDeleted, msg.Get(Data))
      else if event == Str("MODEL_SYNC") then Relay(ModelSync, msg.Get(Data))
      else Unknown
  }

  /**
   Subscribing: the Redis subscription is in flight. Refused: it failed, the socket was closed.
   Authorising: the initial join waits for its reply. Initialising: about to start the heartbeat.
   Ready: messages are processed as they come.
   */
  datatype Phase = Subscribing | Refused | Authorising | Initialising | Ready

  datatype Beat = PingSent(at: int) | PongSeen(at: int) | TimedOut(at: int)

  /** `pending` holds the deadlines of all pong timers that have not fired or been cleared. */
  datatype Heartbeat = Heartbeat(
    due: Option<int>, pending: set<int>, pongTimer: Option<int>, alive: bool, start: int, history: seq<Beat>)

  /** `attached`: cleanup listens for 'close' and 'error'. */
  datatype Conn = Conn(
    user: User, initial: Model, phase: Phase, open: bool, current: Option<Model>, name: Option<string>,
    lastCursor: int, pending: seq<ClientMessage>, beat: Heartbeat, attached: bool,
    done: seq<ClientMessage>, cleaned: bool)

  /** The k-th broadcast of a replica, or of the API when there is no origin process. */
  datatype MsgId = MsgId(origin: Option<Pid>, k: nat)

  datatype Kind = Presence | CursorTrail | AnnotationRelay | FromOutside

  /** One run of broadcastToLocalRoom: who was in the room, and to whom the payload was sent. */
  datatype Record = Record(
    id: MsgId, at: int, model: Model, message: Value, kind: Kind, sender: Option<ConnId>,
    members: set<ConnId>, audience: set<ConnId>)

  datatype Delivery = Delivery(id: MsgId, payload: Value)

  datatype Reply = PingOut | PongOut | AccessDenied

  /** A JOIN_MODEL whose authorisation request is in flight. */
  datatype Ask = Ask(conn: ConnId, model: Model)

  datatype Server = Server(
    pid: Pid, throttle: int, now: int,
    rooms: map<Model, set<ConnId>>, users: map<User, set<ConnId>>, conns: map<ConnId, Conn>,
    asks: multiset<Ask>, granted: set<(User, Model)>,
    own: nat, log: seq<Record>, outbox: map<ConnId, seq<Delivery>>, replies: map<ConnId, seq<Reply>>)

  function Members(s: Server, m: Model): set<ConnId> {
    if m in s.rooms then s.rooms[m] else {}
  }

  predicate Registered(s: Server, c: ConnId)
    requires c in s.conns
  {
    var u := s.conns[c].user;
    u in s.users && c in s.users[u]
  }

  function Got(s: Server, c: ConnId): seq<Delivery> {
    if c in s.outbox then s.outbox[c] else []
  }

  function Replies(s: Server, c: ConnId): seq<Reply> {
    if c in s.replies then s.replies[c] else []
  }

  predicate IsOpen(s: Server, c: ConnId) {
    c in s.conns && s.conns[c].open
  }

  /** The clients broadcastToLocalRoom sends to. */
  function Audience(s: Server, m: Model, sender: Option<ConnId>): set<ConnId> {
    set c | c in Members(s, m) && IsOpen(s, c) && Some(c) != sender
  }

  function SendTo(outbox: map<ConnId, seq<Delivery>>, audience: set<ConnId>, d: Delivery): map<ConnId, seq<Delivery>> {
    outbox + map c | c in audience :: (if c in outbox then outbox[c] else []) + [d]
  }

  function BroadcastToLocalRoom(s: Server, id: MsgId, m: Model, message: Value, kind: Kind, sender: Option<ConnId>): Server {
    var to := Audience(s, m, sender);
    s.(log := s.log + [Record(id, s.now, m, message, kind, sender, Members(s, m), to)],
       outbox := SendTo(s.outbox, to, Delivery(id, Payload(message))))
  }

  function Broadcast(s: Server, m: Model, message: Value, kind: Kind, sender: ConnId): Server {
    BroadcastToLocalRoom(s, MsgId(Some(s.pid), s.own), m, message, kind, Some(sender)).(own := s.own + 1)
  }

  function Put(s: Server, c: ConnId, conn: Conn): Server {
    s.(conns := s.conns[c := conn])
  }

  function LeaveRoom(s: Server, c: ConnId, m: Model): Server
    requires c in s.conns
  {
    if m !in s.rooms then s
    else
      var rest := s.rooms[m] - {c};
      var s1 := Broadcast(s.(rooms := s.rooms[m := rest]), m, UserLeft(s.conns[c].user).Message(), Presence, c);
      var s2 := if rest == {} then s1.(rooms := s1.rooms - {m}) else s1;
      if s2.conns[c].current == Some(m) then Put(s2, c, s2.conns[c].(current := None)) else s2
  }

  function LeaveCurrent(s: Server, c: ConnId): Server
    requires c in s.conns
  {
    if s.conns[c].current.Some? then LeaveRoom(s, c, s.conns[c].current.value) else s
  }

  function NameValue(name: Option<string>): Value {
    if name.Some? then Str(name.value) else Null
  }

  function EnterRoom(s: Server, c: ConnId, m: Model): Server
    requires c in s.conns
  {
    var s1 := Put(s, c, s.conns[c].(current := Some(m)));
    var s2 := s1.(rooms := s1.rooms[m := Members(s1, m) + {c}]);
    Broadcast(s2, m, UserJoined(s.conns[c].user, NameValue(s.conns[c].name)).Message(), Presence, c)
  }

  function JoinRoom(s: Server, c: ConnId, m: Model): Server
    requires c in s.conns
  {
    if s.conns[c].current == Some(m) then s else EnterRoom(LeaveCurrent(s, c), c, m)
  }

  function Grant(s: Server, c: ConnId, m: Model, name: Option<string>): Server
    requires c in s.conns
  {
    var conn := s.conns[c];
    Put(s.(granted := s.granted + {(conn.user, m)}), c, if conn.name.None? then conn.(name := name) else conn)
  }

  /** The part of requestJoinRoom after its await. */
  function JoinReply(s: Server, c: ConnId, m: Model, authorized: bool, name: Option<string>): Server
    requires c in s.conns
  {
    if !authorized then
      if s.conns[c].open then s.(replies := s.replies[c := Replies(s, c) + [AccessDenied]]) else s
    else
      var s1 := Grant(s, c, m, name);
      if s1.conns[c].open then JoinRoom(s1, c, m) else s1
  }

  function StopHeartbeat(b: Heartbeat): Heartbeat {
    var pending := if b.pongTimer.Some? then b.pending - {b.pongTimer.value} else b.pending;
    b.(due := None, pending := pending, pongTimer := None)
  }

  function DropUser(users: map<User, set<ConnId>>, u: User, c: ConnId): map<User, set<ConnId>> {
    if u !in users then users
    else if users[u] - {c} == {} then users - {u}
    else users[u := users[u] - {c}]
  }

  function Unregister(s: Server, c: ConnId): Server
    requires c in s.conns
  {
    Put(s.(users := DropUser(s.users, s.conns[c].user, c)), c, s.conns[c].(cleaned := true))
  }

  function Cleanup(s: Server, c: ConnId): Server
    requires c in s.conns
  {
    Unregister(LeaveCurrent(Put(s, c, s.conns[c].(beat := StopHeartbeat(s.conns[c].beat))), c), c)
  }

  function SeePong(b: Heartbeat, now: int): Heartbeat {
    var pending := if b.pongTimer.Some? then b.pending - {b.pongTimer.value} else b.pending;
    b.(alive := true, pending := pending, history := b.history + [PongSeen(now)])
  }

  function MoveCursor(s: Server, c: ConnId, position: Value, normal: Value): Server
    requires c in s.conns
  {
    var conn := s.conns[c];
    if conn.current.None? then s
    else if !IsVector3(position) || (!normal.Undefined? && !IsVector3(normal)) then s
    else if s.now - conn.lastCursor < s.throttle then s
    else
      Broadcast(Put(s, c, conn.(lastCursor := s.now)), conn.current.value,
                CursorMoved(conn.user, position).Message(), CursorTrail, c)
  }

  function RelayEvent(s: Server, c: ConnId, kind: RelayKind, data: Value): Server
    requires c in s.conns
  {
    var conn := s.conns[c];
    if conn.current.None? then s
    else Broadcast(s, conn.current.value, Relayed(kind, conn.user, data).Message(), AnnotationRelay, c)
  }

  /** processMessage */
  function Process(s: Server, c: ConnId, msg: ClientMessage): (r: Server)
    requires c in s.conns
    ensures r.conns.Keys == s.conns.Keys
  {
    var conn := s.conns[c];
    match msg
    case JoinModel(m) => if m != "" then s.(asks := s.asks + multiset{Ask(c, m)}) else s
    case LeaveModel(m) => if m != "" then LeaveRoom(s, c, m) else s
    case CursorMove(position, normal) => MoveCursor(s, c, position, normal)
    case Ping => if conn.open then s.(replies := s.replies[c := Replies(s, c) + [PongOut]]) else s
    case Pong => Put(s, c, conn.(beat := SeePong(conn.beat, s.now)))
    case Relay(kind, data) => RelayEvent(s, c, kind, data)
    case Unknown => s
    case Throws => s  // never processed: see Readable and Enabled
  }

  function Handle(s: Server, c: ConnId, msg: ClientMessage): (r: Server)
    requires c in s.conns
    ensures r.conns.Keys == s.conns.Keys
  {
    Process(Put(s, c, s.conns[c].(done := s.conns[c].done + [msg])), c, msg)
  }

  function Drain(s: Server, c: ConnId, msgs: seq<ClientMessage>): (r: Server)
    requires c in s.conns
    ensures r.conns.Keys == s.conns.Keys
    decreases |msgs|
  {
    if msgs == [] then s else Drain(Handle(s, c, msgs[0]), c, msgs[1..])
  }

  function StartHeartbeat(b: Heartbeat, now: int): Heartbeat {
    b.(due := Some(now + HEARTBEAT_INTERVAL_MS), start := now)
  }

  /** The queued messages that are processed: one that throws ends the loop. */
  function Readable(msgs: seq<ClientMessage>): (r: seq<ClientMessage>)
    ensures r <= msgs
  {
    if msgs == [] || msgs[0].Throws? then [] else [msgs[0]] + Readable(msgs[1..])
  }

  /** The end of the connection handler. If the queue throws, the listeners for 'close' and 'error' are not reached. */
  function FinishInit(s: Server, c: ConnId): Server
    requires c in s.conns
  {
    var conn := s.conns[c];
    var readable := Readable(conn.pending);
    var r := Drain(Put(s, c, conn.(phase := Ready, beat := StartHeartbeat(conn.beat, s.now), pending := [])), c, readable);
    Put(r, c, r.conns[c].(attached := readable == conn.pending))
  }

  function Receive(s: Server, c: ConnId, msg: ClientMessage): Server
    requires c in s.conns
  {
    var conn := s.conns[c];
    if conn.phase.Ready? then Handle(s, c, msg)
    else if |conn.pending| >= MAX_PENDING_MESSAGES then s
    else Put(s, c, conn.(pending := conn.pending + [msg]))
  }

  function Register(s: Server, c: ConnId): Server
    requires c in s.conns
  {
    var conn := s.conns[c];
    var others := if conn.user in s.users then s.users[conn.user] else {};
    Put(s.(users := s.users[conn.user := others + {c}]), c,
        conn.(phase := if conn.initial != "" then Authorising else Initialising))
  }

  function TickBeat(b: Heartbeat, now: int): Heartbeat {
    b.(due := Some(now + HEARTBEAT_INTERVAL_MS),
       pending := b.pending + {now + PONG_TIMEOUT_MS},
       pongTimer := Some(now + PONG_TIMEOUT_MS),
       alive := false,
       history := b.history + [PingSent(now)])
  }

  function Tick(s: Server, c: ConnId): Server
    requires c in s.conns
  {
    var conn := s.conns[c];
    if !conn.open then Cleanup(s, c)
    else Put(s, c, conn.(beat := TickBeat(conn.beat, s.now))).(replies := s.replies[c := Replies(s, c) + [PingOut]])
  }

  /** No pong in time: the socket is closed. */
  function Expire(s: Server, c: ConnId, beat: Heartbeat): Server
    requires c in s.conns
  {
    Put(s, c, s.conns[c].(open := false, beat := beat.(history := beat.history + [TimedOut(s.now)])))
  }

  function PongTimeout(s: Server, c: ConnId, deadline: int): Server
    requires c in s.conns
  {
    var fired := s.conns[c].beat.(pending := s.conns[c].beat.pending - {deadline});
    if fired.alive then Put(s, c, s.conns[c].(beat := fired)) else Cleanup(Expire(s, c, fired), c)
  }

  function NewConn(user: User, initial: Model): Conn {
    Conn(user, initial, Subscribing, true, None, None, 0, [],
         Heartbeat(None, {}, None, true, 0, []), false, [], false)
  }

  datatype Step =
    | Connect(c: ConnId, user: User, initial: Model)
    | SubscribeOk(c: ConnId)
    | SubscribeFailed(c: ConnId)
    | InitialReply(c: ConnId, authorized: bool, name: Option<string>)
    | InitDone(c: ConnId)
    | Message(c: ConnId, msg: ClientMessage)
    | JoinAnswer(ask: Ask, authorized: bool, name: Option<string>)
    | GoingAway(c: ConnId)           // the socket leaves the open state, no handler has run yet
    | Closed(c: ConnId)              // 'close' or 'error'; both find the socket no longer open
    | HeartbeatTick(c: ConnId)
    | PongDeadline(c: ConnId, deadline: int)
    | Remote(id: MsgId, model: Model, message: Value)  // a publication arrives from Redis
    | Pass(ms: int)

  /** Timers fire on time: the clock does not pass a due timer. */
  predicate MayPass(s: Server, ms: int) {
    && ms >= 0
    && forall c | c in s.conns ::
      var b := s.conns[c].beat;
      && (b.due.Some? ==> s.now + ms <= b.due.value)
      && forall d | d in b.pending :: s.now + ms <= d
  }

  predicate Enabled(s: Server, e: Step) {
    match e
    case Connect(c, _, _) => c !in s.conns
    case SubscribeOk(c) => c in s.conns && s.conns[c].phase.Subscribing?
    case SubscribeFailed(c) => c in s.conns && s.conns[c].phase.Subscribing?
    case InitialReply(c, _, _) => c in s.conns && s.conns[c].phase.Authorising?
    case InitDone(c) => c in s.conns && s.conns[c].phase.Initialising?
    case Message(c, msg) => c in s.conns && !(s.conns[c].phase.Ready? && msg.Throws?)  // that would end the process
    case JoinAnswer(ask, _, _) => ask in s.asks && ask.conn in s.conns
    case GoingAway(c) => c in s.conns
    case Closed(c) => c in s.conns
    case HeartbeatTick(c) => c in s.conns && s.conns[c].beat.due == Some(s.now)
    case PongDeadline(c, d) => c in s.conns && d in s.conns[c].beat.pending && d == s.now
    case Remote(_, _, _) => true
    case Pass(ms) => MayPass(s, ms)
  }

  function Next(s: Server, e: Step): Server
    requires Enabled(s, e)
  {
    match e
    case Connect(c, user, initial) => Put(s, c, NewConn(user, initial))
    case SubscribeOk(c) => Register(s, c)
    case SubscribeFailed(c) => Put(s, c, s.conns[c].(phase := Refused, open := false))
    case InitialReply(c, authorized, name) =>
      var s1 := JoinReply(s, c, s.conns[c].initial, authorized, name);
      Put(s1, c, s1.conns[c].(phase := Initialising))
    case InitDone(c) => FinishInit(s, c)
    case Message(c, msg) => Receive(s, c, msg)
    case JoinAnswer(ask, authorized, name) =>
      JoinReply(s.(asks := s.asks - multiset{ask}), ask.conn, ask.model, authorized, name)
    case GoingAway(c) => Put(s, c, s.conns[c].(open := false))
    case Closed(c) =>
      var s1 := Put(s, c, s.conns[c].(open := false));
      if s1.conns[c].phase.Ready? && s1.conns[c].attached then Cleanup(s1, c) else s1
    case HeartbeatTick(c) => Tick(s, c)
    case PongDeadline(c, d) => PongTimeout(s, c, d)
    case Remote(id, m, message) =>
      if id.origin == Some(s.pid) then s else BroadcastToLocalRoom(s, id, m, message, FromOutside, None)
    case Pass(ms) => s.(now := s.now + ms)
  }

  predicate Initial(s: Server) {
    && s.rooms == map[] && s.users == map[] && s.conns == map[] && s.asks == multiset{} && s.granted == {}
    && s.own == 0 && s.log == [] && s.outbox == map[] && s.replies == map[]
  }
}
