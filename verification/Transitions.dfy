/** What each step does to the connection whose handler it runs, and to the joins that wait for their authorisation. */
module Transitions {
  import opened Json
  import opened RoomEvents
  import opened Wrappers
  import opened Rooms
  import opened RoomSafety
  import opened RoomEffects
  import opened Audiences
  import opened Presence

  // ---- the connection ----

  function PhaseAfter(a: Conn, e: Step): Phase {
    match e
    case SubscribeOk(_) => if a.initial == "" then Initialising else Authorising
    case SubscribeFailed(_) => Refused
    case InitialReply(_, _, _) => Initialising
    case InitDone(_) => Ready
    case _ => a.phase
  }

  /** The steps that close the socket, or find that it has closed. */
  predicate Closes(a: Conn, e: Step) {
    e.SubscribeFailed? || e.GoingAway? || e.Closed? || (e.PongDeadline? && !a.beat.alive)
  }

  /** The room that a client is in after a step, if any. */
  function RoomAfter(s: Server, e: Step, c: ConnId): Option<Model>
    requires c in s.conns
  {
    var a := s.conns[c];
    if RunsCleanup(s, e, c) then None
    else match e
      case InitialReply(_, authorized, _) => if authorized && a.open then Some(a.initial) else a.current
      case JoinAnswer(ask, authorized, _) => if authorized && a.open then Some(ask.model) else a.current
      case Message(_, msg) => if a.phase.Ready? && Leaves(msg, a.current) then None else a.current
      case InitDone(_) => if LeavesIn(Readable(a.pending), a.current) then None else a.current
      case _ => a.current
  }

  predicate Leaves(msg: ClientMessage, current: Option<Model>) {
    msg.LeaveModel? && msg.model != "" && current == Some(msg.model)
  }

  predicate LeavesIn(msgs: seq<ClientMessage>, current: Option<Model>) {
    exists i | 0 <= i < |msgs| :: Leaves(msgs[i], current)
  }

  lemma LeaveExactly(s: Server, c: ConnId, m: Model)
    requires Inv(s) && c in s.conns
    ensures var r := LeaveRoom(s, c, m);
            c in r.conns && r.conns[c].current == if s.conns[c].current == Some(m) then None else s.conns[c].current
  {
    LeaveCurrentIs(s, c, m);
    hide LeaveRoom, UsersAgree, ConnsOk, LogOk;
    if s.conns[c].current == Some(m) { assert InRoom(s.rooms, m, c); }
  }

  lemma HandleRoom(s: Server, c: ConnId, msg: ClientMessage)
    requires Inv(s) && c in s.conns && s.conns[c].phase.Ready?
    ensures var a := s.conns[c];
            Handle(s, c, msg).conns[c].current == if Leaves(msg, a.current) then None else a.current
  {
    HandleEffect(s, c, msg);
    DoneKeeps(s, c, msg);
    HandleCurrentOf(s, c, msg);
  }

  lemma HandleCurrentOf(s: Server, c: ConnId, msg: ClientMessage)
    requires c in s.conns && Inv(Put(s, c, s.conns[c].(done := s.conns[c].done + [msg])))
    ensures var a := s.conns[c];
            Handle(s, c, msg).conns[c].current == if Leaves(msg, a.current) then None else a.current
  {
    hide Inv, LeaveRoom, Payload, RoomEvent.Message, SendTo, Audience, IsVector3, SeePong;
    if msg.LeaveModel? { LeaveExactly(Put(s, c, s.conns[c].(done := s.conns[c].done + [msg])), c, msg.model); }
  }

  lemma {:induction false} DrainRoom(s: Server, c: ConnId, msgs: seq<ClientMessage>)
    requires Inv(s) && c in s.conns && s.conns[c].phase.Ready?
    ensures var a := s.conns[c];
            Drain(s, c, msgs).conns[c].current == if LeavesIn(msgs, a.current) then None else a.current
    decreases |msgs|
  {
    hide Inv, Handle;
    if msgs != [] {
      var current := s.conns[c].current;
      HandleRoom(s, c, msgs[0]);
      HandleKeeps(s, c, msgs[0]);
      DrainRoom(Handle(s, c, msgs[0]), c, msgs[1..]);
      LeavesFirst(msgs, current);
    }
  }

  lemma LeavesFirst(msgs: seq<ClientMessage>, current: Option<Model>)
    requires msgs != []
    ensures LeavesIn(msgs, current) <==> Leaves(msgs[0], current) || LeavesIn(msgs[1..], current)
    ensures !LeavesIn(msgs, None)
  {
    if i :| 0 <= i < |msgs| && Leaves(msgs[i], current) {
      if i > 0 { assert msgs[1..][i - 1] == msgs[i]; }
    }
  }

  lemma JoinReplyRoom(s: Server, c: ConnId, m: Model, authorized: bool, name: Option<string>)
    requires c in s.conns
    ensures c in JoinReply(s, c, m, authorized, name).conns
    ensures JoinReply(s, c, m, authorized, name).conns[c].current
            == if authorized && s.conns[c].open then Some(m) else s.conns[c].current
  {
    hide JoinRoom;
    if authorized { JoinEnters(Grant(s, c, m, name), c, m); }
  }

  /** All of a connection but its name, queue, clock and heartbeat. */
  ghost predicate Becomes(s: Server, t: Server, c: ConnId, phase: Phase, open: bool, cleaned: bool, current: Option<Model>)
    requires c in s.conns
  {
    && c in t.conns
    && t.conns[c].user == s.conns[c].user && t.conns[c].initial == s.conns[c].initial
    && t.conns[c].phase == phase && t.conns[c].open == open && t.conns[c].cleaned == cleaned && t.conns[c].current == current
    && forall d | d in s.conns && d != c :: d in t.conns && t.conns[d] == s.conns[d]
  }

  /**
   The life of a connection, step by step: its phases, when its socket closes, when it is cleaned up, and which room it
   is in. A granted join puts it into that room as long as the socket is open, LEAVE_MODEL takes it out of its own
   room, cleanup out of any; nothing else moves it, and no other connection is touched.
   */
  lemma StepConn(s: Server, e: Step)
    requires Inv(s) && Enabled(s, e) && Handler(e).Some? && Handler(e).value in s.conns
    ensures var c, a := Handler(e).value, s.conns[Handler(e).value];
            Becomes(s, Next(s, e), c, PhaseAfter(a, e), a.open && !Closes(a, e), a.cleaned || RunsCleanup(s, e, c),
                    RoomAfter(s, e, c))
  {
    hide Inv, JoinReply, Cleanup, FinishInit, Handle, Becomes, RoomAfter, RunsCleanup, Register, Tick, PongTimeout;
    match e
    case InitialReply(_, _, _) => ReplyConn(s, e);
    case JoinAnswer(_, _, _) => ReplyConn(s, e);
    case InitDone(_) => InitConn(s, e.c);
    case Message(c, msg) => MessageConn(s, c, msg);
    case Closed(_) => TimerConn(s, e);
    case HeartbeatTick(_) => TimerConn(s, e);
    case PongDeadline(_, _) => TimerConn(s, e);
    case Connect(_, _, _) => OtherConn(s, e);
    case SubscribeOk(_) => OtherConn(s, e);
    case SubscribeFailed(_) => OtherConn(s, e);
    case GoingAway(_) => OtherConn(s, e);
  }

  lemma OtherConn(s: Server, e: Step)
    requires Enabled(s, e) && (e.Connect? || e.SubscribeOk? || e.SubscribeFailed? || e.GoingAway?) && e.c in s.conns
    ensures var a := s.conns[e.c];
            Becomes(s, Next(s, e), e.c, PhaseAfter(a, e), a.open && !Closes(a, e), a.cleaned || RunsCleanup(s, e, e.c),
                    RoomAfter(s, e, e.c))
  {
  }

  lemma ReplyConn(s: Server, e: Step)
    requires Enabled(s, e) && (e.InitialReply? || e.JoinAnswer?) && Handler(e).value in s.conns
    ensures var c, a := Handler(e).value, s.conns[Handler(e).value];
            Becomes(s, Next(s, e), c, PhaseAfter(a, e), a.open && !Closes(a, e), a.cleaned || RunsCleanup(s, e, c),
                    RoomAfter(s, e, c))
  {
    hide JoinReply, Effect;
    match e
    case InitialReply(c, authorized, name) =>
      JoinReplyEffect(s, c, s.conns[c].initial, authorized, name);
      JoinReplyRoom(s, c, s.conns[c].initial, authorized, name);
    case JoinAnswer(ask, authorized, name) =>
      var s1 := s.(asks := s.asks - multiset{ask});
      JoinReplyEffect(s1, ask.conn, ask.model, authorized, name);
      JoinReplyRoom(s1, ask.conn, ask.model, authorized, name);
    case _ =>
  }

  lemma MessageConn(s: Server, c: ConnId, msg: ClientMessage)
    requires Inv(s) && Enabled(s, Message(c, msg))
    ensures var a, e := s.conns[c], Message(c, msg);
            Becomes(s, Next(s, e), c, PhaseAfter(a, e), a.open && !Closes(a, e), a.cleaned || RunsCleanup(s, e, c),
                    RoomAfter(s, e, c))
  {
    hide Inv, Handle, Leaves;
    if s.conns[c].phase.Ready? {
      hide Becomes;
      HandledConn(s, c, msg);
    }
  }

  lemma HandledConn(s: Server, c: ConnId, msg: ClientMessage)
    requires Inv(s) && c in s.conns && s.conns[c].phase.Ready?
    ensures var a := s.conns[c];
            Becomes(s, Handle(s, c, msg), c, a.phase, a.open, a.cleaned, if Leaves(msg, a.current) then None else a.current)
  {
    HandleRoom(s, c, msg);
    HandleEffect(s, c, msg);
    hide Inv, Handle, Effect, BeatAfter, Leaves;
  }

  lemma InitConn(s: Server, c: ConnId)
    requires Inv(s) && Enabled(s, InitDone(c))
    ensures var a, e := s.conns[c], InitDone(c);
            Becomes(s, Next(s, e), c, PhaseAfter(a, e), a.open && !Closes(a, e), a.cleaned || RunsCleanup(s, e, c),
                    RoomAfter(s, e, c))
  {
    InitRoom(s, c);
    FinishInitEffect(s, c);
    hide Inv, Effect, BeatAfterAll, Drain, Readable, StartHeartbeat, LeavesIn, FinishInit;
  }

  lemma InitRoom(s: Server, c: ConnId)
    requires Inv(s) && Enabled(s, InitDone(c))
    ensures c in FinishInit(s, c).conns
    ensures var a := s.conns[c];
            FinishInit(s, c).conns[c].current == if LeavesIn(Readable(a.pending), a.current) then None else a.current
  {
    OpenedKeeps(s, c);
    hide Inv, Drain, Readable, StartHeartbeat, LeavesIn;
    DrainRoom(Opened(s, c), c, Readable(s.conns[c].pending));
  }

  lemma OpenedKeeps(s: Server, c: ConnId)
    requires Inv(s) && c in s.conns && s.conns[c].phase.Initialising?
    ensures Inv(Opened(s, c))
  {
    hide RoomsAgree, UsersAgree, LogOk;
    assert ConnOk(s.conns[c], s.granted);
    PutKeeps(s, c, Opened(s, c).conns[c]);
  }

  lemma TimerConn(s: Server, e: Step)
    requires Inv(s) && Enabled(s, e) && (e.Closed? || e.HeartbeatTick? || e.PongDeadline?)
    ensures var a := s.conns[e.c];
            Becomes(s, Next(s, e), e.c, PhaseAfter(a, e), a.open && !Closes(a, e), a.cleaned || RunsCleanup(s, e, e.c),
                    RoomAfter(s, e, e.c))
  {
    hide Inv, Cleanup, Becomes, RoomAfter, RunsCleanup, Tick, PongTimeout;
    match e
    case Closed(c) => ClosedConn(s, c);
    case HeartbeatTick(c) => TickConn(s, c);
    case PongDeadline(c, d) => DeadlineConn(s, c, d);
    case _ =>
  }

  lemma ClosedConn(s: Server, c: ConnId)
    requires Inv(s) && Enabled(s, Closed(c))
    ensures var a, e := s.conns[c], Closed(c);
            Becomes(s, Next(s, e), c, PhaseAfter(a, e), a.open && !Closes(a, e), a.cleaned || RunsCleanup(s, e, c),
                    RoomAfter(s, e, c))
  {
    hide Inv, Cleanup;
    if s.conns[c].phase.Ready? && s.conns[c].attached {
      hide Becomes, Steady;
      ShutKeeps(s, c);
      ShutCleaned(s, c, Put(s, c, s.conns[c].(open := false)));
    }
  }

  lemma TickConn(s: Server, c: ConnId)
    requires Inv(s) && Enabled(s, HeartbeatTick(c))
    ensures var a, e := s.conns[c], HeartbeatTick(c);
            Becomes(s, Next(s, e), c, PhaseAfter(a, e), a.open && !Closes(a, e), a.cleaned || RunsCleanup(s, e, c),
                    RoomAfter(s, e, c))
  {
    assert ConnOk(s.conns[c], s.granted);
    hide Inv, Cleanup, TickBeat, Steady, StopHeartbeat;
    if !s.conns[c].open {
      ShutCleaned(s, c, s);
      hide Becomes;
    }
  }

  lemma DeadlineConn(s: Server, c: ConnId, d: int)
    requires Inv(s) && Enabled(s, PongDeadline(c, d))
    ensures var a, e := s.conns[c], PongDeadline(c, d);
            Becomes(s, Next(s, e), c, PhaseAfter(a, e), a.open && !Closes(a, e), a.cleaned || RunsCleanup(s, e, c),
                    RoomAfter(s, e, c))
  {
    hide Inv, Cleanup;
    var fired := s.conns[c].beat.(pending := s.conns[c].beat.pending - {d});
    if !fired.alive {
      hide Becomes, Steady;
      BeatingIsReady(s, c);
      ExpireKeeps(s, c, fired);
      ShutCleaned(s, c, Expire(s, c, fired));
    }
  }

  lemma BeatingIsReady(s: Server, c: ConnId)
    requires Inv(s) && c in s.conns && (s.conns[c].beat.due.Some? || s.conns[c].beat.pending != {})
    ensures s.conns[c].phase.Ready?
  {
    assert ConnOk(s.conns[c], s.granted);
  }

  /** Cleanup of a connection whose socket is closed. */
  lemma ShutCleaned(s: Server, c: ConnId, t: Server)
    requires Inv(t) && c in s.conns && c in t.conns && t.conns[c].phase.Ready? && !t.conns[c].open
    requires t.conns == s.conns[c := t.conns[c]]
    requires t.conns[c].user == s.conns[c].user && t.conns[c].initial == s.conns[c].initial
    ensures Becomes(s, Cleanup(t, c), c, Ready, false, true, None)
  {
    CleanupKeeps(t, c);
    hide Inv, Cleanup, Steady, StopHeartbeat;
  }

  // ---- joins under way ----

  /** How often the messages ask for a join: each JOIN_MODEL with a model asks once. */
  function Times(c: ConnId, msgs: seq<ClientMessage>, a: Ask): nat {
    if msgs == [] then 0
    else (if c == a.conn && msgs[0] == JoinModel(a.model) && a.model != "" then 1 else 0) + Times(c, msgs[1..], a)
  }

  function TimesBy(s: Server, e: Step, a: Ask): nat
    requires Enabled(s, e)
  {
    match e
    case Message(c, msg) => if s.conns[c].phase.Ready? then Times(c, [msg], a) else 0
    case InitDone(c) => Times(c, Readable(s.conns[c].pending), a)
    case _ => 0
  }

  lemma RoomOpsKeepAsks(s: Server, c: ConnId, m: Model)
    requires c in s.conns
    ensures LeaveRoom(s, c, m).asks == s.asks && LeaveCurrent(s, c).asks == s.asks
    ensures JoinRoom(s, c, m).asks == s.asks && Cleanup(s, c).asks == s.asks
  {
    LeaveKeepsAsks(s, c, m);
    if s.conns[c].current.Some? { LeaveKeepsAsks(s, c, s.conns[c].current.value); }
    var s1 := Put(s, c, s.conns[c].(beat := StopHeartbeat(s.conns[c].beat)));
    if s.conns[c].current.Some? { LeaveKeepsAsks(s1, c, s.conns[c].current.value); }
    hide LeaveRoom, Payload, RoomEvent.Message, SendTo, Audience, StopHeartbeat, DropUser;
  }

  lemma LeaveKeepsAsks(s: Server, c: ConnId, m: Model)
    requires c in s.conns
    ensures LeaveRoom(s, c, m).asks == s.asks && c in LeaveRoom(s, c, m).conns
  {
    hide Payload, RoomEvent.Message, SendTo, Audience;
  }

  lemma JoinReplyKeepsAsks(s: Server, c: ConnId, m: Model, authorized: bool, name: Option<string>)
    requires c in s.conns
    ensures JoinReply(s, c, m, authorized, name).asks == s.asks
  {
    hide JoinRoom;
    if authorized { RoomOpsKeepAsks(Grant(s, c, m, name), c, m); }
  }

  lemma HandleAsks(s: Server, c: ConnId, msg: ClientMessage, a: Ask)
    requires c in s.conns
    ensures Handle(s, c, msg).asks[a] == s.asks[a] + Times(c, [msg], a)
  {
    hide LeaveRoom, Payload, RoomEvent.Message, SendTo, Audience, IsVector3, SeePong;
    assert Times(c, [msg][1..], a) == 0;
    if msg.LeaveModel? { RoomOpsKeepAsks(Put(s, c, s.conns[c].(done := s.conns[c].done + [msg])), c, msg.model); }
  }

  lemma {:induction false} DrainAsks(s: Server, c: ConnId, msgs: seq<ClientMessage>, a: Ask)
    requires c in s.conns
    ensures Drain(s, c, msgs).asks[a] == s.asks[a] + Times(c, msgs, a)
    decreases |msgs|
  {
    hide Handle;
    if msgs != [] {
      HandleAsks(s, c, msgs[0], a);
      DrainAsks(Handle(s, c, msgs[0]), c, msgs[1..], a);
      assert Times(c, [msgs[0]][1..], a) == 0;
    }
  }

  lemma StepAsks(s: Server, e: Step, a: Ask)
    requires Enabled(s, e)
    ensures Next(s, e).asks[a] + (if e.JoinAnswer? && e.ask == a then 1 else 0) == s.asks[a] + TimesBy(s, e, a)
  {
    hide Handle, JoinReply, Cleanup, Drain, Readable, Times, StartHeartbeat, TickBeat, SendTo, Audience, Payload;
    match e
    case InitialReply(c, authorized, name) => JoinReplyKeepsAsks(s, c, s.conns[c].initial, authorized, name);
    case JoinAnswer(ask, authorized, name) =>
      JoinReplyKeepsAsks(s.(asks := s.asks - multiset{ask}), ask.conn, ask.model, authorized, name);
    case InitDone(c) =>
      var conn := s.conns[c];
      var s1 := Put(s, c, conn.(phase := Ready, beat := StartHeartbeat(conn.beat, s.now), pending := []));
      DrainAsks(s1, c, Readable(conn.pending), a);
    case Message(c, msg) => if s.conns[c].phase.Ready? { HandleAsks(s, c, msg, a); }
    case Closed(c) => RoomOpsKeepAsks(Put(s, c, s.conns[c].(open := false)), c, "");
    case HeartbeatTick(c) => RoomOpsKeepAsks(s, c, "");
    case PongDeadline(c, d) =>
      RoomOpsKeepAsks(Expire(s, c, s.conns[c].beat.(pending := s.conns[c].beat.pending - {d})), c, "");
    case _ =>
  }

  function AskedBefore(states: seq<Server>, steps: seq<Step>, i: nat, a: Ask): nat
    requires i <= |steps| < |states| && forall k | 0 <= k < i :: Enabled(states[k], steps[k])
  {
    if i == 0 then 0 else AskedBefore(states, steps, i - 1, a) + TimesBy(states[i - 1], steps[i - 1], a)
  }

  function AnsweredBefore(steps: seq<Step>, i: nat, a: Ask): nat
    requires i <= |steps|
  {
    if i == 0 then 0
    else AnsweredBefore(steps, i - 1, a) + if steps[i - 1].JoinAnswer? && steps[i - 1].ask == a then 1 else 0
  }

  /** Over every run, each JOIN_MODEL that is processed is either still under way or has been answered, once. */
  lemma {:induction false} JoinsConserved(states: seq<Server>, steps: seq<Step>, i: nat, a: Ask)
    requires IsRun(states, steps) && i < |states|
    ensures forall k | 0 <= k < i :: Enabled(states[k], steps[k])
    ensures states[i].asks[a] + AnsweredBefore(steps, i, a) == AskedBefore(states, steps, i, a)
  {
    hide Next, Enabled, TimesBy;
    if i == 0 {
      assert Initial(states[0]);
    } else {
      JoinsConserved(states, steps, i - 1, a);
      StepAsks(states[i - 1], steps[i - 1], a);
    }
  }

  // ---- what a connection has been through ----

  /** `asked`: an answer about its initial model has come. */
  predicate StageOk(a: Conn, asked: bool) {
    match a.phase
    case Subscribing => !asked
    case Refused => !asked && !a.open
    case Authorising => !asked && a.initial != ""
    case Initialising => a.initial != "" <==> asked
    case Ready => a.initial != "" <==> asked
  }

  predicate Asks(e: Step, c: ConnId) {
    e.InitialReply? && e.c == c
  }

  lemma StageStep(s: Server, e: Step, c: ConnId, asked: bool)
    requires Inv(s) && Enabled(s, e) && c in s.conns && StageOk(s.conns[c], asked)
    ensures c in Next(s, e).conns && StageOk(Next(s, e).conns[c], asked || Asks(e, c))
  {
    hide Inv, Next, RoomAfter, RunsCleanup, Enabled, PhaseAfter, Closes, StageOk;
    if Handler(e).Some? && Handler(e).value in s.conns {
      StepConn(s, e);
      if Handler(e).value == c { StagePhase(s, e, Next(s, e).conns[c], asked); }
    } else {
      ConnectStep(s, e);
    }
  }

  lemma StagePhase(s: Server, e: Step, b: Conn, asked: bool)
    requires Enabled(s, e) && Handler(e).Some? && Handler(e).value in s.conns
    requires var a := s.conns[Handler(e).value];
             && StageOk(a, asked)
             && b.initial == a.initial && b.phase == PhaseAfter(a, e) && b.open == (a.open && !Closes(a, e))
    ensures StageOk(b, asked || Asks(e, Handler(e).value))
  {
  }

  lemma ConnectStep(s: Server, e: Step)
    requires Enabled(s, e) && (Handler(e).Some? ==> Handler(e).value !in s.conns)
    ensures Next(s, e).conns == if e.Connect? then s.conns[e.c := NewConn(e.user, e.initial)] else s.conns
  {
    hide Payload, SendTo, Audience;
  }

  lemma FirstSeen(s: Server, e: Step, c: ConnId)
    requires Inv(s) && Enabled(s, e) && c !in s.conns && c in Next(s, e).conns
    ensures StageOk(Next(s, e).conns[c], false) && !Asks(e, c)
  {
    if Handler(e).Some? && Handler(e).value in s.conns {
      OthersOnly(s, e, c);
    } else {
      ConnectStep(s, e);
    }
  }

  /** No handler adds a connection but its own. */
  lemma OthersOnly(s: Server, e: Step, c: ConnId)
    requires Enabled(s, e) && Handler(e).Some? && Handler(e).value in s.conns && c !in s.conns
    ensures c !in Next(s, e).conns
  {
    hide JoinReply, Handle, Cleanup, Drain, Readable, Effect;
    match e
    case InitialReply(d, authorized, name) => JoinReplyEffect(s, d, s.conns[d].initial, authorized, name);
    case JoinAnswer(ask, authorized, name) =>
      JoinReplyEffect(s.(asks := s.asks - multiset{ask}), ask.conn, ask.model, authorized, name);
    case Closed(d) => CleanupEffect(Put(s, d, s.conns[d].(open := false)), d);
    case HeartbeatTick(d) => CleanupEffect(s, d);
    case PongDeadline(d, t) =>
      CleanupEffect(Expire(s, d, s.conns[d].beat.(pending := s.conns[d].beat.pending - {t})), d);
    case _ =>
  }

  ghost predicate AskedBy(steps: seq<Step>, i: nat, c: ConnId)
    requires i <= |steps|
  {
    exists k | 0 <= k < i :: Asks(steps[k], c)
  }

  lemma {:induction false} NotSeenNotAsked(states: seq<Server>, steps: seq<Step>, i: nat, c: ConnId)
    requires IsRun(states, steps) && i < |states| && c !in states[i].conns
    ensures !AskedBy(steps, i, c)
  {
    hide Next, Inv;
    if i > 0 {
      RunKeeps(states, steps, i - 1);
      NextKeeps(states[i - 1], steps[i - 1]);
      assert Enabled(states[i - 1], steps[i - 1]);
      NotSeenNotAsked(states, steps, i - 1, c);
    }
  }

  /**
   In every run a connection that named a model waits for the answer about it before it is initialised, and one that
   named none has no such answer; one whose subscription failed is closed and is never asked about or made ready.
   */
  lemma {:induction false} InitialIsAsked(states: seq<Server>, steps: seq<Step>, i: nat, c: ConnId)
    requires IsRun(states, steps) && i < |states| && c in states[i].conns
    ensures var a := states[i].conns[c];
            && (a.phase.Initialising? || a.phase.Ready? ==> (a.initial != "" <==> AskedBy(steps, i, c)))
            && (a.phase.Authorising? ==> a.initial != "" && !AskedBy(steps, i, c))
            && (a.phase.Subscribing? ==> !AskedBy(steps, i, c))
            && (a.phase.Refused? ==> !a.open && !AskedBy(steps, i, c))
  {
    hide Next, Inv, AskedBy, Enabled;
    assert i > 0 by { assert Initial(states[0]); }
    RunKeeps(states, steps, i - 1);
    assert Enabled(states[i - 1], steps[i - 1]) && states[i] == Next(states[i - 1], steps[i - 1]);
    OneMoreAsked(steps, i - 1, c);
    if c in states[i - 1].conns {
      InitialIsAsked(states, steps, i - 1, c);
      StageStep(states[i - 1], steps[i - 1], c, AskedBy(steps, i - 1, c));
    } else {
      NotSeenNotAsked(states, steps, i - 1, c);
      FirstSeen(states[i - 1], steps[i - 1], c);
    }
  }

  lemma OneMoreAsked(steps: seq<Step>, i: nat, c: ConnId)
    requires i < |steps|
    ensures AskedBy(steps, i + 1, c) <==> AskedBy(steps, i, c) || Asks(steps[i], c)
  {
  }
}
