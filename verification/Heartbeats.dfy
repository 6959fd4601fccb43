/**
 Heartbeat timing: a PING every 30 s, 10 s to answer it. Timers fire on time, which `MayPass` states.
 */
module Heartbeats {
  import opened Json
  import opened RoomEvents
  import opened Wrappers
  import opened Rooms
  import opened RoomSafety
  import opened RoomEffects

  /** When the last PING was sent; the start of the heartbeat if there was none. */
  function LastPing(h: seq<Beat>, start: int): int {
    if h == [] then start
    else if h[|h| - 1].PingSent? then h[|h| - 1].at
    else LastPing(h[..|h| - 1], start)
  }

  /** When the last PING that was answered by a PONG was sent; the start of the heartbeat if there was none. */
  function LastAnswered(h: seq<Beat>, start: int): int {
    if h == [] then start
    else if h[|h| - 1].PongSeen? then LastPing(h[..|h| - 1], start)
    else LastAnswered(h[..|h| - 1], start)
  }

  predicate Unanswered(h: seq<Beat>) {
    h != [] && h[|h| - 1].PingSent?
  }

  /** A timeout directly follows, 10 s later, a PING with no PONG in between. */
  ghost predicate TimeoutsEarned(h: seq<Beat>) {
    forall i | 0 <= i < |h| && h[i].TimedOut? :: i > 0 && h[i - 1] == PingSent(h[i].at - PONG_TIMEOUT_MS)
  }

  ghost predicate Running(b: Heartbeat, now: int) {
    var last := LastPing(b.history, b.start);
    && b.due == Some(last + HEARTBEAT_INTERVAL_MS)
    && last <= now <= last + HEARTBEAT_INTERVAL_MS
    && if Unanswered(b.history) then
         && !b.alive
         && b.pending == {last + PONG_TIMEOUT_MS}
         && b.pongTimer == Some(last + PONG_TIMEOUT_MS)
         && now <= last + PONG_TIMEOUT_MS
         && LastAnswered(b.history, b.start) == last - HEARTBEAT_INTERVAL_MS
       else
         && b.pending == {}
         && LastAnswered(b.history, b.start) == last
  }

  ghost predicate BeatOk(conn: Conn, now: int) {
    var b := conn.beat;
    && TimeoutsEarned(b.history)
    && (!conn.phase.Ready? ==> b.history == [] && b.pending == {} && b.due.None?)
    && (conn.phase.Ready? && conn.cleaned ==> b.pending == {} && b.due.None?)
    && (conn.phase.Ready? && !conn.cleaned ==> Running(b, now))
  }

  ghost predicate BeatsOk(s: Server) {
    forall c | c in s.conns :: BeatOk(s.conns[c], s.now)
  }

  lemma PongKeeps(conn: Conn, now: int)
    requires BeatOk(conn, now) && conn.phase.Ready?
    ensures BeatOk(conn.(beat := SeePong(conn.beat, now)), now)
  {
    var b := conn.beat;
    var h := SeePong(b, now).history;
    assert h[..|h| - 1] == b.history;
  }

  lemma {:induction false} PongsKeep(conn: Conn, msgs: seq<ClientMessage>, now: int)
    requires BeatOk(conn, now) && conn.phase.Ready?
    ensures BeatOk(conn.(beat := BeatAfterAll(conn.beat, msgs, now)), now)
    decreases |msgs|
  {
    if msgs == [] {
      assert conn.(beat := conn.beat) == conn;
    } else {
      hide BeatOk, SeePong;
      var conn1 := conn.(beat := BeatAfter(conn.beat, msgs[0], now));
      if msgs[0].Pong? { PongKeeps(conn, now); } else { assert conn1 == conn; }
      PongsKeep(conn1, msgs[1..], now);
    }
  }

  lemma StartKeeps(conn: Conn, now: int)
    requires BeatOk(conn, now) && !conn.phase.Ready? && !conn.cleaned
    ensures BeatOk(conn.(phase := Ready, beat := StartHeartbeat(conn.beat, now)), now)
  {
  }

  lemma TickKeeps(conn: Conn, now: int)
    requires BeatOk(conn, now) && conn.beat.due == Some(now)
    ensures BeatOk(conn.(beat := TickBeat(conn.beat, now)), now)
  {
    var h := TickBeat(conn.beat, now).history;
    assert h[..|h| - 1] == conn.beat.history;
  }

  lemma StopKeeps(conn: Conn, now: int)
    requires BeatOk(conn, now) && conn.phase.Ready?
    ensures BeatOk(conn.(beat := StopHeartbeat(conn.beat), cleaned := true), now)
  {
  }

  /** A pong timer that fires finds no PONG since its PING. */
  lemma FireKeeps(conn: Conn, now: int)
    requires BeatOk(conn, now) && now in conn.beat.pending
    ensures !conn.beat.alive && conn.phase.Ready?
    ensures var fired := conn.beat.(pending := conn.beat.pending - {now}, history := conn.beat.history + [TimedOut(now)]);
            BeatOk(conn.(open := false, cleaned := true, beat := StopHeartbeat(fired)), now)
  {
  }

  lemma PassKeeps(s: Server, ms: int)
    requires BeatsOk(s) && MayPass(s, ms)
    ensures BeatsOk(s.(now := s.now + ms))
  {
    forall c | c in s.conns ensures BeatOk(s.conns[c], s.now + ms) {
      assert BeatOk(s.conns[c], s.now);
    }
  }

  /** The connection a step works for, and its state afterwards as far as the heartbeat goes. */
  lemma OneChanges(s: Server, r: Server, c: ConnId, conn: Conn)
    requires BeatsOk(s) && r.now == s.now && r.conns == s.conns[c := conn] && BeatOk(conn, s.now)
    ensures BeatsOk(r)
  {
  }

  lemma ReplyBeats(s: Server, e: Step)
    requires Inv(s) && BeatsOk(s) && Enabled(s, e) && (e.InitialReply? || e.JoinAnswer?)
    ensures BeatsOk(Next(s, e))
  {
    hide JoinReply, Inv, Effect;
    match e
    case InitialReply(c, authorized, name) =>
      JoinReplyEffect(s, c, s.conns[c].initial, authorized, name);
      OneChanges(s, Next(s, e), c, Next(s, e).conns[c]);
    case JoinAnswer(ask, authorized, name) =>
      var s1 := s.(asks := s.asks - multiset{ask});
      JoinReplyEffect(s1, ask.conn, ask.model, authorized, name);
      OneChanges(s, Next(s, e), ask.conn, Next(s, e).conns[ask.conn]);
    case _ =>
  }

  lemma InitBeats(s: Server, c: ConnId)
    requires Inv(s) && BeatsOk(s) && Enabled(s, InitDone(c))
    ensures BeatsOk(Next(s, InitDone(c)))
  {
    hide FinishInit, RoomsAgree, UsersAgree, LogOk, BeatAfterAll;
    var conn := s.conns[c];
    FinishInitEffect(s, c);
    assert ConnOk(conn, s.granted);
    StartKeeps(conn, s.now);
    var conn1 := conn.(phase := Ready, beat := StartHeartbeat(conn.beat, s.now));
    PongsKeep(conn1, Readable(conn.pending), s.now);
    OneChanges(s, FinishInit(s, c), c, FinishInit(s, c).conns[c]);
  }

  lemma HandleBeats(s: Server, c: ConnId, msg: ClientMessage)
    requires BeatsOk(s) && c in s.conns && s.conns[c].phase.Ready?
    ensures BeatsOk(Handle(s, c, msg))
  {
    hide Handle, Running, Effect;
    HandleEffect(s, c, msg);
    if msg.Pong? { PongKeeps(s.conns[c], s.now); }
    OneChanges(s, Handle(s, c, msg), c, Handle(s, c, msg).conns[c]);
  }

  lemma MessageBeats(s: Server, c: ConnId, msg: ClientMessage)
    requires BeatsOk(s) && c in s.conns
    ensures BeatsOk(Receive(s, c, msg))
  {
    hide Handle, Running;
    if s.conns[c].phase.Ready? {
      HandleBeats(s, c, msg);
    } else {
      OneChanges(s, Receive(s, c, msg), c, Receive(s, c, msg).conns[c]);
    }
  }

  lemma ClosedBeats(s: Server, c: ConnId)
    requires Inv(s) && BeatsOk(s) && c in s.conns
    ensures BeatsOk(Next(s, Closed(c)))
  {
    hide Cleanup, Inv, Effect;
    var s1 := Put(s, c, s.conns[c].(open := false));
    OneChanges(s, s1, c, s1.conns[c]);
    if s.conns[c].phase.Ready? && s.conns[c].attached {
      CleanupEffect(s1, c);
      StopKeeps(s1.conns[c], s.now);
      OneChanges(s1, Cleanup(s1, c), c, Cleanup(s1, c).conns[c]);
    }
  }

  lemma TimerBeats(s: Server, e: Step)
    requires Inv(s) && BeatsOk(s) && Enabled(s, e) && (e.HeartbeatTick? || e.PongDeadline?)
    ensures BeatsOk(Next(s, e))
  {
    hide Cleanup, Inv, TickBeat, Effect;
    match e
    case HeartbeatTick(c) =>
      if s.conns[c].open {
        TickKeeps(s.conns[c], s.now);
      } else {
        CleanupEffect(s, c);
        StopKeeps(s.conns[c], s.now);
      }
      OneChanges(s, Next(s, e), c, Next(s, e).conns[c]);
    case PongDeadline(c, d) =>
      FireKeeps(s.conns[c], s.now);
      var fired := s.conns[c].beat.(pending := s.conns[c].beat.pending - {d});
      CleanupEffect(Expire(s, c, fired), c);
      OneChanges(s, Next(s, e), c, Next(s, e).conns[c]);
    case _ =>
  }

  lemma BeatsKept(s: Server, e: Step)
    requires Inv(s) && BeatsOk(s) && Enabled(s, e)
    ensures BeatsOk(Next(s, e))
  {
    hide Inv, FinishInit, Receive, Tick, PongTimeout, BroadcastToLocalRoom, OutboxOk, ThrottleOk;
    match e
    case InitialReply(_, _, _) => ReplyBeats(s, e);
    case JoinAnswer(_, _, _) => ReplyBeats(s, e);
    case InitDone(c) => InitBeats(s, c);
    case Message(c, msg) => MessageBeats(s, c, msg);
    case Closed(c) => ClosedBeats(s, c);
    case HeartbeatTick(_) => TimerBeats(s, e);
    case PongDeadline(_, _) => TimerBeats(s, e);
    case Remote(id, m, message) => RemoteEffect(s, id, m, message);
    case Pass(ms) => PassKeeps(s, ms);
    case Connect(c, _, _) => OneChanges(s, Next(s, e), c, Next(s, e).conns[c]);
    case SubscribeOk(c) => OneChanges(s, Next(s, e), c, Next(s, e).conns[c]);
    case SubscribeFailed(c) => OneChanges(s, Next(s, e), c, Next(s, e).conns[c]);
    case GoingAway(c) => OneChanges(s, Next(s, e), c, Next(s, e).conns[c]);
  }

  lemma {:induction false} BeatsInRuns(states: seq<Server>, steps: seq<Step>, i: nat)
    requires IsRun(states, steps) && i < |states|
    ensures Inv(states[i]) && BeatsOk(states[i])
  {
    hide Next, Enabled, Inv, BeatsOk;
    RunKeeps(states, steps, i);
    if i == 0 {
      InitialBeats(states[0]);
    } else {
      BeatsInRuns(states, steps, i - 1);
      BeatsKept(states[i - 1], steps[i - 1]);
    }
  }

  lemma InitialBeats(s: Server)
    requires Initial(s)
    ensures BeatsOk(s)
  {
  }

  /** At most one pong timer of a connection is pending at any time. */
  lemma OnePongTimer(states: seq<Server>, steps: seq<Step>, i: nat, c: ConnId)
    requires IsRun(states, steps) && i < |states| && c in states[i].conns
    ensures |states[i].conns[c].beat.pending| <= 1
  {
    hide IsRun, Inv;
    BeatsInRuns(states, steps, i);
    assert BeatOk(states[i].conns[c], states[i].now);
  }

  /** A client that has answered no PING sent later than 40 s ago is out, by its history. */
  lemma SilentByHistory(states: seq<Server>, steps: seq<Step>, i: nat, c: ConnId)
    requires IsRun(states, steps) && i < |states| && c in states[i].conns && states[i].conns[c].phase.Ready?
    requires var conn := states[i].conns[c];
             || conn.cleaned
             || states[i].now
                > LastAnswered(conn.beat.history, conn.beat.start) + HEARTBEAT_INTERVAL_MS + PONG_TIMEOUT_MS
    ensures !states[i].conns[c].open
    ensures forall m :: c !in Members(states[i], m)
    ensures forall u :: !InUser(states[i].users, u, c)
  {
    hide IsRun, RoomsAgree, UsersAgree, LogOk;
    BeatsInRuns(states, steps, i);
    assert BeatOk(states[i].conns[c], states[i].now);
    assert ConnOk(states[i].conns[c], states[i].granted);
    NobodyCleaned(states[i], c);
  }

  // ---- the same, told by the steps of a run instead of the history ----

  predicate NoPings(h: seq<Beat>) {
    forall i | 0 <= i < |h| :: !h[i].PingSent?
  }

  predicate NoPongs(h: seq<Beat>) {
    forall i | 0 <= i < |h| :: !h[i].PongSeen?
  }

  /** PINGs enter a history when a tick finds the socket open, PONGs when a ready connection receives one. */
  ghost predicate HistoryStep(a: Conn, b: Conn, ticks: bool, pongs: bool, now: int) {
    && a.beat.history <= b.beat.history
    && (ticks && a.open ==> b.beat.history == a.beat.history + [PingSent(now)])
    && (!ticks || !a.open ==> NoPings(b.beat.history[|a.beat.history|..]))
    && (pongs && a.phase.Ready? ==> b.beat.history == a.beat.history + [PongSeen(now)])
    && (a.phase.Ready? && !pongs ==> NoPongs(b.beat.history[|a.beat.history|..]))
    && (a.phase.Ready? ==> b.phase.Ready? && b.beat.start == a.beat.start)
    && (!a.open ==> !b.open)
  }

  ghost predicate HistoriesStep(s: Server, e: Step, r: Server) {
    && (forall c | c in s.conns ::
         c in r.conns && HistoryStep(s.conns[c], r.conns[c], e == HeartbeatTick(c), e == Message(c, Pong), s.now))
    && (forall c | c in r.conns && c !in s.conns :: r.conns[c].beat.history == [])
  }

  lemma {:induction false} PongHistory(b: Heartbeat, msgs: seq<ClientMessage>, now: int)
    ensures var r := BeatAfterAll(b, msgs, now);
            && b.history <= r.history && NoPings(r.history[|b.history|..]) && r.start == b.start
    decreases |msgs|
  {
    if msgs != [] {
      PongHistory(BeatAfter(b, msgs[0], now), msgs[1..], now);
    }
  }

  lemma OneSteps(s: Server, e: Step, r: Server, c: ConnId)
    requires c in s.conns && c in r.conns && r.conns == s.conns[c := r.conns[c]]
    requires HistoryStep(s.conns[c], r.conns[c], e == HeartbeatTick(c), e == Message(c, Pong), s.now)
    requires forall d :: d != c ==> e != HeartbeatTick(d) && e != Message(d, Pong)
    ensures HistoriesStep(s, e, r)
  {
  }

  lemma HistoryStepsInit(s: Server, e: Step)
    requires Enabled(s, e) && (e.InitialReply? || e.JoinAnswer? || e.InitDone?)
    ensures HistoriesStep(s, e, Next(s, e))
  {
    hide JoinReply, FinishInit, BeatAfterAll, Effect;
    match e
    case InitialReply(c, authorized, name) =>
      JoinReplyEffect(s, c, s.conns[c].initial, authorized, name);
      OneSteps(s, e, Next(s, e), c);
    case JoinAnswer(ask, authorized, name) =>
      JoinReplyEffect(s.(asks := s.asks - multiset{ask}), ask.conn, ask.model, authorized, name);
      OneSteps(s, e, Next(s, e), ask.conn);
    case InitDone(c) =>
      FinishInitEffect(s, c);
      PongHistory(StartHeartbeat(s.conns[c].beat, s.now), Readable(s.conns[c].pending), s.now);
      OneSteps(s, e, Next(s, e), c);
    case _ =>
  }

  lemma HistoryStepsTimers(s: Server, e: Step)
    requires Enabled(s, e) && (e.Closed? || e.HeartbeatTick? || e.PongDeadline?)
    ensures HistoriesStep(s, e, Next(s, e))
  {
    hide Cleanup, Effect, PongTimeout;
    match e
    case Closed(c) =>
      CleanupEffect(Put(s, c, s.conns[c].(open := false)), c);
      OneSteps(s, e, Next(s, e), c);
    case HeartbeatTick(c) =>
      CleanupEffect(s, c);
      OneSteps(s, e, Next(s, e), c);
    case PongDeadline(c, t) => HistoryStepsTimeout(s, c, t);
    case _ =>
  }

  lemma HistoryStepsTimeout(s: Server, c: ConnId, t: int)
    requires Enabled(s, PongDeadline(c, t))
    ensures HistoriesStep(s, PongDeadline(c, t), Next(s, PongDeadline(c, t)))
  {
    hide Cleanup, Effect;
    var fired := s.conns[c].beat.(pending := s.conns[c].beat.pending - {t});
    CleanupEffect(Expire(s, c, fired), c);
    OneSteps(s, PongDeadline(c, t), PongTimeout(s, c, t), c);
  }

  lemma ReceiveConn(s: Server, c: ConnId, msg: ClientMessage)
    requires c in s.conns
    ensures c in Receive(s, c, msg).conns
    ensures var a, r := s.conns[c], Receive(s, c, msg);
            var b := r.conns[c];
            && r.conns == s.conns[c := b]
            && b.phase == a.phase && b.open == a.open
            && b.beat == if a.phase.Ready? then BeatAfter(a.beat, msg, s.now) else a.beat
  {
    hide Handle, Effect, BeatAfter;
    if s.conns[c].phase.Ready? { HandleEffect(s, c, msg); }
  }

  lemma HistoryStepsMessage(s: Server, c: ConnId, msg: ClientMessage)
    requires Enabled(s, Message(c, msg))
    ensures HistoriesStep(s, Message(c, msg), Next(s, Message(c, msg)))
  {
    hide Receive, HistoriesStep;
    ReceiveConn(s, c, msg);
    OneSteps(s, Message(c, msg), Receive(s, c, msg), c);
  }

  lemma HistorySteps(s: Server, e: Step)
    requires Enabled(s, e)
    ensures HistoriesStep(s, e, Next(s, e))
  {
    hide JoinReply, Receive, FinishInit, BroadcastToLocalRoom, PongTimeout, Tick, Cleanup, OutboxOk, ThrottleOk;
    match e
    case InitialReply(_, _, _) => HistoryStepsInit(s, e);
    case JoinAnswer(_, _, _) => HistoryStepsInit(s, e);
    case InitDone(_) => HistoryStepsInit(s, e);
    case Message(c, msg) => HistoryStepsMessage(s, c, msg);
    case Closed(_) => HistoryStepsTimers(s, e);
    case HeartbeatTick(_) => HistoryStepsTimers(s, e);
    case PongDeadline(_, _) => HistoryStepsTimers(s, e);
    case Remote(id, m, message) => RemoteEffect(s, id, m, message);
    case Connect(_, _, _) =>
    case SubscribeOk(c) => OneSteps(s, e, Next(s, e), c);
    case SubscribeFailed(c) => OneSteps(s, e, Next(s, e), c);
    case GoingAway(c) => OneSteps(s, e, Next(s, e), c);
    case Pass(_) =>
  }

  lemma LastIsNew(h: seq<Beat>, g: seq<Beat>)
    requires h <= g && NoPings(g[|h|..])
    ensures Unanswered(g) ==> h == g
  {
    if |g| > |h| { assert g[|h|..][|g| - 1 - |h|] == g[|g| - 1]; }
  }

  lemma HistoryBefore(states: seq<Server>, steps: seq<Step>, i: nat, c: ConnId)
    requires IsRun(states, steps) && i < |states| && c in states[i].conns && states[i].conns[c].beat.history != []
    ensures i > 0 && c in states[i - 1].conns
    ensures var a, e := states[i - 1].conns[c], steps[i - 1];
            && HistoryStep(a, states[i].conns[c], e == HeartbeatTick(c), e == Message(c, Pong), states[i - 1].now)
            && (!a.phase.Ready? ==> a.beat.history == [])
  {
    hide Next, Enabled, HistoryStep;
    assert i > 0 by { assert Initial(states[0]); }
    HistorySteps(states[i - 1], steps[i - 1]);
    BeatsInRuns(states, steps, i - 1);
    assert BeatOk(states[i - 1].conns[c], states[i - 1].now);
  }

  lemma TickPings(a: Conn, b: Conn, pongs: bool, now: int)
    requires HistoryStep(a, b, true, pongs, now) && a.open
    ensures b.beat.history == a.beat.history + [PingSent(now)]
  {
  }

  lemma NoNewPing(a: Conn, b: Conn, ticks: bool, pongs: bool, now: int)
    requires HistoryStep(a, b, ticks, pongs, now) && Unanswered(b.beat.history) && !(ticks && a.open)
    requires !a.phase.Ready? ==> a.beat.history == []
    ensures b.beat.history == a.beat.history && !pongs
  {
    LastIsNew(a.beat.history, b.beat.history);
  }

  /** The tick that sent the last, still unanswered, PING. */
  lemma {:induction false} PingOrigin(states: seq<Server>, steps: seq<Step>, i: nat, c: ConnId) returns (j: nat)
    requires IsRun(states, steps) && i < |states| && c in states[i].conns
    requires Unanswered(states[i].conns[c].beat.history)
    ensures j < i && steps[j] == HeartbeatTick(c)
    ensures var h := states[i].conns[c].beat.history; h[|h| - 1] == PingSent(states[j].now)
    ensures forall k | j < k < i :: steps[k] != Message(c, Pong)
  {
    hide Next, Enabled, HistoryStep;
    HistoryBefore(states, steps, i, c);
    var a, b, e := states[i - 1].conns[c], states[i].conns[c], steps[i - 1];
    if e == HeartbeatTick(c) && a.open {
      TickPings(a, b, e == Message(c, Pong), states[i - 1].now);
      j := i - 1;
    } else {
      NoNewPing(a, b, e == HeartbeatTick(c), e == Message(c, Pong), states[i - 1].now);
      j := PingOrigin(states, steps, i - 1, c);
    }
  }

  /**
   The heartbeat closes a client only when a PING went out exactly 10 s before and no PONG has been
   processed since; a client that answers each PING in time is never closed by it.
   */
  lemma TimeoutIsEarned(states: seq<Server>, steps: seq<Step>, i: nat, c: ConnId, d: int)
    requires IsRun(states, steps) && i < |steps| && steps[i] == PongDeadline(c, d)
    ensures exists j | 0 <= j < i ::
      && steps[j] == HeartbeatTick(c)
      && states[j].now == states[i].now - 10_000
      && forall k | j < k < i :: steps[k] != Message(c, Pong)
  {
    hide Next, Inv;
    assert Enabled(states[i], steps[i]);
    BeatsInRuns(states, steps, i);
    assert BeatOk(states[i].conns[c], states[i].now);
    var j := PingOrigin(states, steps, i, c);
  }

  lemma {:induction false} LastPingSame(h: seq<Beat>, g: seq<Beat>, start: int)
    requires h <= g && NoPings(g[|h|..])
    ensures LastPing(g, start) == LastPing(h, start)
    decreases |g|
  {
    if |g| > |h| {
      assert g[|h|..][|g| - 1 - |h|] == g[|g| - 1];
      var t := g[..|g| - 1][|h|..];
      forall k | 0 <= k < |t| ensures !t[k].PingSent? {
        assert t[k] == g[|h|..][k];
      }
      LastPingSame(h, g[..|g| - 1], start);
    } else {
      assert h == g;
    }
  }

  lemma {:induction false} ShutSeesNoPing(states: seq<Server>, steps: seq<Step>, i: nat, j: nat, c: ConnId)
    requires IsRun(states, steps) && i <= j < |states|
    requires c in states[i].conns && states[i].conns[c].phase.Ready? && !states[i].conns[c].open
    ensures c in states[j].conns
    ensures var a, b := states[i].conns[c], states[j].conns[c];
            && b.phase.Ready? && !b.open && b.beat.start == a.beat.start
            && LastPing(b.beat.history, b.beat.start) == LastPing(a.beat.history, a.beat.start)
  {
    hide Next, Enabled;
    if i < j {
      ShutSeesNoPing(states, steps, i, j - 1, c);
      var s, e := states[j - 1], steps[j - 1];
      assert Enabled(s, e) && states[j] == Next(s, e);
      HistorySteps(s, e);
      assert HistoryStep(s.conns[c], states[j].conns[c], e == HeartbeatTick(c), e == Message(c, Pong), s.now);
      LastPingSame(s.conns[c].beat.history, states[j].conns[c].beat.history, s.conns[c].beat.start);
    }
  }

  lemma {:induction false} LastAnsweredSame(h: seq<Beat>, g: seq<Beat>, start: int)
    requires h <= g && NoPongs(g[|h|..])
    ensures LastAnswered(g, start) == LastAnswered(h, start)
    decreases |g|
  {
    if |g| > |h| {
      assert g[|h|..][|g| - 1 - |h|] == g[|g| - 1];
      var t := g[..|g| - 1][|h|..];
      forall k | 0 <= k < |t| ensures !t[k].PongSeen? {
        assert t[k] == g[|h|..][k];
      }
      LastAnsweredSame(h, g[..|g| - 1], start);
    } else {
      assert h == g;
    }
  }

  /** No PONG comes in after the tick that follows step j, up to step i. */
  ghost predicate SilentAfter(steps: seq<Step>, j: nat, i: nat, c: ConnId)
    requires i <= |steps|
  {
    forall k, l | j < k < l < i && steps[k] == HeartbeatTick(c) :: steps[l] != Message(c, Pong)
  }

  ghost predicate NoTick(steps: seq<Step>, j: nat, i: nat, c: ConnId)
    requires i <= |steps|
  {
    forall k | j < k < i :: steps[k] != HeartbeatTick(c)
  }

  lemma FirstPing(states: seq<Server>, steps: seq<Step>, j: nat, c: ConnId)
    requires IsRun(states, steps) && j < |steps| && (steps[j] == HeartbeatTick(c) || steps[j] == InitDone(c))
    ensures c in states[j + 1].conns && states[j + 1].conns[c].phase.Ready?
    ensures var b := states[j + 1].conns[c];
            b.cleaned || LastPing(b.beat.history, b.beat.start) == states[j].now
  {
    hide Cleanup, FinishInit, Inv, BeatAfterAll, TickBeat, Effect;
    var s, e := states[j], steps[j];
    assert Enabled(s, e) && states[j + 1] == Next(s, e);
    BeatsInRuns(states, steps, j);
    assert BeatOk(s.conns[c], s.now);
    if e.InitDone? {
      FinishInitEffect(s, c);
      var b, msgs := StartHeartbeat(s.conns[c].beat, s.now), Readable(s.conns[c].pending);
      PongHistory(b, msgs, s.now);
      assert BeatAfterAll(b, msgs, s.now).history[0..] == BeatAfterAll(b, msgs, s.now).history;
      LastPingSame([], BeatAfterAll(b, msgs, s.now).history, s.now);
    } else if s.conns[c].open {
      HistorySteps(s, e);
      TickPings(s.conns[c], states[j + 1].conns[c], false, s.now);
    } else {
      CleanupEffect(s, c);
    }
  }

  lemma AnsweredNext(a: Conn, b: Conn, ticks: bool, pongs: bool, now: int, later: int, t: int, first: bool)
    requires a.phase.Ready? && HistoryStep(a, b, ticks, pongs, now) && (b.cleaned || Running(b.beat, later))
    requires LastAnswered(a.beat.history, a.beat.start) <= t
    requires first ==> LastPing(a.beat.history, a.beat.start) == t
    requires pongs ==> first && !ticks
    ensures first && !ticks ==> LastPing(b.beat.history, b.beat.start) == t
    ensures b.cleaned || LastAnswered(b.beat.history, b.beat.start) <= t
  {
    if !ticks { LastPingSame(a.beat.history, b.beat.history, a.beat.start); }
    if !pongs { LastAnsweredSame(a.beat.history, b.beat.history, a.beat.start); }
  }

  lemma StaysReady(a: Conn, b: Conn, ticks: bool, pongs: bool, now: int)
    requires a.phase.Ready? && HistoryStep(a, b, ticks, pongs, now)
    ensures b.phase.Ready?
  {
  }

  lemma {:induction false} AnsweredSince(states: seq<Server>, steps: seq<Step>, j: nat, i: nat, c: ConnId)
    requires IsRun(states, steps) && j < i < |states| && SilentAfter(steps, j, i, c)
    requires steps[j] == HeartbeatTick(c) || steps[j] == InitDone(c)
    ensures c in states[i].conns && states[i].conns[c].phase.Ready?
    ensures var b := states[i].conns[c];
            || b.cleaned
            || (&& LastAnswered(b.beat.history, b.beat.start) <= states[j].now
                && (NoTick(steps, j, i, c) ==> LastPing(b.beat.history, b.beat.start) == states[j].now))
  {
    hide Next, Enabled, Inv, HistoryStep, LastPing, LastAnswered;
    BeatsInRuns(states, steps, i);
    if i == j + 1 {
      FirstPing(states, steps, j, c);
      var b := states[i].conns[c];
      assert BeatOk(b, states[i].now);
    } else {
      AnsweredSince(states, steps, j, i - 1, c);
      var s, e := states[i - 1], steps[i - 1];
      HistorySteps(s, e);
      var a, b := s.conns[c], states[i].conns[c];
      StaysReady(a, b, e == HeartbeatTick(c), e == Message(c, Pong), s.now);
      assert BeatOk(b, states[i].now);
      if a.cleaned {
        CleanedForever(states, steps, c, i - 1, i);
      } else {
        AnsweredNext(a, b, e == HeartbeatTick(c), e == Message(c, Pong), s.now, states[i].now, states[j].now,
                     NoTick(steps, j, i - 1, c));
      }
    }
  }

  /** Ticks are 30 s apart, the first one 30 s after the end of initialisation, for as long as nobody cleans up. */
  lemma TicksApart(states: seq<Server>, steps: seq<Step>, j: nat, k: nat, c: ConnId)
    requires IsRun(states, steps) && j < k < |steps| && steps[k] == HeartbeatTick(c)
    requires steps[j] == HeartbeatTick(c) || steps[j] == InitDone(c)
    requires forall i | j < i < k :: steps[i] != HeartbeatTick(c)
    ensures states[k].now == states[j].now + 30_000
  {
    assert Enabled(states[k], steps[k]);
    hide IsRun, LastAnswered, LastPing, Inv;
    AnsweredSince(states, steps, j, k, c);
    BeatsInRuns(states, steps, k);
    assert BeatOk(states[k].conns[c], states[k].now);
  }

  /**
   Let a PING be sent, or the heartbeat start, at step j. If no PONG comes in after the next PING, then 40 s after
   step j the client has been closed and is in no room and no user set.
   */
  lemma SilentClientsAreRemoved(states: seq<Server>, steps: seq<Step>, j: nat, i: nat, c: ConnId)
    requires IsRun(states, steps) && j < i < |states|
    requires steps[j] == HeartbeatTick(c) || steps[j] == InitDone(c)
    requires forall k, l | j < k < l < i && steps[k] == HeartbeatTick(c) :: steps[l] != Message(c, Pong)
    requires states[i].now > states[j].now + 40_000
    ensures c in states[i].conns && !states[i].conns[c].open
    ensures forall m :: c !in Members(states[i], m)
    ensures forall u :: !InUser(states[i].users, u, c)
  {
    hide IsRun, LastAnswered, LastPing;
    AnsweredSince(states, steps, j, i, c);
    SilentByHistory(states, steps, i, c);
  }

  /**
   A socket that has left the open state is gone from every map once the tick after that is due, whether it closed
   during initialisation or later, and whether or not cleanup listens for the close.
   */
  lemma ClosedIsRemoved(states: seq<Server>, steps: seq<Step>, i: nat, j: nat, c: ConnId)
    requires IsRun(states, steps) && i <= j < |states| && c in states[i].conns
    requires states[i].conns[c].phase.Ready? && !states[i].conns[c].open
    requires states[j].now > states[i].now + 30_000
    ensures forall m :: c !in Members(states[j], m)
    ensures forall u :: !InUser(states[j].users, u, c)
  {
    hide Inv, IsRun, HistoryStep, LastPing, LastAnswered, TimeoutsEarned;
    BeatsInRuns(states, steps, i);
    assert BeatOk(states[i].conns[c], states[i].now);
    BeatsInRuns(states, steps, j);
    if states[i].conns[c].cleaned {
      CleanedForever(states, steps, c, i, j);
    } else {
      ShutSeesNoPing(states, steps, i, j, c);
      assert BeatOk(states[j].conns[c], states[j].now);
    }
    NobodyCleaned(states[j], c);
  }

  /** A socket that closed while the connection was being initialised is gone from every map by the first tick. */
  lemma ClosedDuringInit(states: seq<Server>, steps: seq<Step>, i: nat, j: nat, c: ConnId)
    requires IsRun(states, steps) && i < j < |states| && steps[i] == InitDone(c) && c in states[i].conns
    requires !states[i].conns[c].open
    requires states[j].now > states[i].now + 30_000
    ensures forall m :: c !in Members(states[j], m)
    ensures forall u :: !InUser(states[j].users, u, c)
  {
    hide FinishInit, Inv, BeatAfterAll;
    assert Enabled(states[i], steps[i]);
    FinishInitEffect(states[i], c);
    ClosedIsRemoved(states, steps, i + 1, j, c);
  }
}
