/** Messages that arrive before a connection is ready: the first hundred are kept and processed in order. */
module ReadyQueue {
  import opened Json
  import opened Wrappers
  import opened Rooms
  import opened RoomSafety
  import opened RoomEffects

  /** What client `c` sent during the first `i` steps. */
  function Arrived(steps: seq<Step>, c: ConnId, i: nat): seq<ClientMessage>
    requires i <= |steps|
  {
    if i == 0 then []
    else
      var e := steps[i - 1];
      Arrived(steps, c, i - 1) + if e.Message? && e.c == c then [e.msg] else []
  }

  function FirstHundred(msgs: seq<ClientMessage>): seq<ClientMessage> {
    if |msgs| <= 100 then msgs else msgs[..100]
  }

  predicate QueueStep(a: Conn, b: Conn, arrives: Option<ClientMessage>, initDone: bool) {
    if initDone then b.phase.Ready? && b.pending == [] && b.done == a.done + Readable(a.pending)
    else
      && (b.phase.Ready? <==> a.phase.Ready?)
      && (arrives.None? ==> b.pending == a.pending && b.done == a.done)
      && (arrives.Some? && a.phase.Ready? ==> b.pending == a.pending && b.done == a.done + [arrives.value])
      && (arrives.Some? && !a.phase.Ready? ==>
        b.done == a.done && b.pending == if |a.pending| < MAX_PENDING_MESSAGES then a.pending + [arrives.value] else a.pending)
  }

  function Arrives(e: Step, c: ConnId): Option<ClientMessage> {
    if e.Message? && e.c == c then Some(e.msg) else None
  }

  ghost predicate QueuesStep(s: Server, e: Step, r: Server) {
    && (forall c | c in s.conns :: c in r.conns && QueueStep(s.conns[c], r.conns[c], Arrives(e, c), e == InitDone(c)))
    && (forall c | c in r.conns && c !in s.conns ::
         r.conns[c].pending == [] && r.conns[c].done == [] && !r.conns[c].phase.Ready? && e.Connect? && e.c == c)
  }

  lemma OneSteps(s: Server, e: Step, r: Server, c: ConnId)
    requires c in s.conns && c in r.conns && r.conns == s.conns[c := r.conns[c]]
    requires QueueStep(s.conns[c], r.conns[c], Arrives(e, c), e == InitDone(c))
    requires forall d :: d != c ==> Arrives(e, d).None? && e != InitDone(d)
    ensures QueuesStep(s, e, r)
  {
  }

  lemma QueueStepsInit(s: Server, e: Step)
    requires Enabled(s, e) && (e.InitialReply? || e.JoinAnswer? || e.InitDone?)
    ensures QueuesStep(s, e, Next(s, e))
  {
    hide JoinReply, FinishInit, BeatAfterAll, Effect;
    match e
    case InitialReply(c, authorized, name) =>
      JoinReplyEffect(s, c, s.conns[c].initial, authorized, name);
      OneSteps(s, e, Next(s, e), c);
    case JoinAnswer(ask, authorized, name) =>
      JoinReplyEffect(s.(asks := s.asks - multiset{ask}), ask.conn, ask.model, authorized, name);
      OneSteps(s, e, Next(s, e), ask.conn);
    case InitDone(c) =>
      FinishInitEffect(s, c);
      OneSteps(s, e, Next(s, e), c);
    case _ =>
  }

  lemma QueueStepsTimers(s: Server, e: Step)
    requires Enabled(s, e) && (e.Closed? || e.HeartbeatTick? || e.PongDeadline?)
    ensures QueuesStep(s, e, Next(s, e))
  {
    hide Cleanup, StopHeartbeat, TickBeat, Effect;
    match e
    case Closed(c) =>
      CleanupEffect(Put(s, c, s.conns[c].(open := false)), c);
      OneSteps(s, e, Next(s, e), c);
    case HeartbeatTick(c) =>
      CleanupEffect(s, c);
      OneSteps(s, e, Next(s, e), c);
    case PongDeadline(c, t) =>
      var fired := s.conns[c].beat.(pending := s.conns[c].beat.pending - {t});
      CleanupEffect(Expire(s, c, fired), c);
      OneSteps(s, e, Next(s, e), c);
    case _ =>
  }

  lemma QueueSteps(s: Server, e: Step)
    requires Enabled(s, e)
    ensures QueuesStep(s, e, Next(s, e))
  {
    hide JoinReply, Handle, FinishInit, BroadcastToLocalRoom, PongTimeout, Tick, Cleanup, Effect, OutboxOk, ThrottleOk;
    match e
    case InitialReply(_, _, _) => QueueStepsInit(s, e);
    case JoinAnswer(_, _, _) => QueueStepsInit(s, e);
    case InitDone(_) => QueueStepsInit(s, e);
    case Message(c, msg) =>
      if s.conns[c].phase.Ready? { HandleEffect(s, c, msg); }
      OneSteps(s, e, Next(s, e), c);
    case Closed(_) => QueueStepsTimers(s, e);
    case HeartbeatTick(_) => QueueStepsTimers(s, e);
    case PongDeadline(_, _) => QueueStepsTimers(s, e);
    case Remote(id, m, message) => RemoteEffect(s, id, m, message);
    case Connect(_, _, _) =>
    case SubscribeOk(c) => OneSteps(s, e, Next(s, e), c);
    case SubscribeFailed(c) => OneSteps(s, e, Next(s, e), c);
    case GoingAway(c) => OneSteps(s, e, Next(s, e), c);
    case Pass(_) =>
  }

  lemma MessageNeedsConn(s: Server, e: Step, c: ConnId)
    requires Enabled(s, e) && c !in s.conns
    ensures !(e.Message? && e.c == c)
  {
  }

  lemma RunStep(states: seq<Server>, steps: seq<Step>, i: nat)
    requires IsRun(states, steps) && 0 < i < |states|
    ensures Enabled(states[i - 1], steps[i - 1]) && states[i] == Next(states[i - 1], steps[i - 1])
  {
    hide Enabled, Next;
  }

  lemma {:induction false} NothingBeforeConnect(states: seq<Server>, steps: seq<Step>, i: nat, c: ConnId)
    requires IsRun(states, steps) && i < |states| && c !in states[i].conns
    ensures Arrived(steps, c, i) == []
  {
    hide Next, Enabled, QueueStep;
    if i > 0 {
      RunStep(states, steps, i);
      var s, e := states[i - 1], steps[i - 1];
      QueueSteps(s, e);
      assert !(e.Message? && e.c == c) by { MessageNeedsConn(s, e, c); }
      NothingBeforeConnect(states, steps, i - 1, c);
    }
  }

  /** Until a connection is ready it holds the first hundred messages and has processed none. */
  lemma {:induction false} QueueBeforeReady(states: seq<Server>, steps: seq<Step>, i: nat, c: ConnId)
    requires IsRun(states, steps) && i < |states| && c in states[i].conns && !states[i].conns[c].phase.Ready?
    ensures states[i].conns[c].pending == FirstHundred(Arrived(steps, c, i)) && states[i].conns[c].done == []
  {
    hide Next;
    assert i > 0 by { assert Initial(states[0]); }
    var s, e := states[i - 1], steps[i - 1];
    assert Enabled(s, e) && states[i] == Next(s, e);
    QueueSteps(s, e);
    if c in s.conns {
      QueueBeforeReady(states, steps, i - 1, c);
    } else {
      NothingBeforeConnect(states, steps, i - 1, c);
    }
  }

  /**
   A ready connection has processed, in order of arrival, the first hundred messages that came before its
   initialisation finished (step k), up to one that throws, and every message that came after.
   */
  lemma {:induction false} ProcessedInOrder(states: seq<Server>, steps: seq<Step>, i: nat, c: ConnId) returns (k: nat)
    requires IsRun(states, steps) && i < |states| && c in states[i].conns && states[i].conns[c].phase.Ready?
    ensures k < i && steps[k] == InitDone(c)
    ensures var before, all := Arrived(steps, c, k), Arrived(steps, c, i);
            before <= all && states[i].conns[c].done == Readable(FirstHundred(before)) + all[|before|..]
  {
    hide Next;
    assert i > 0 by { assert Initial(states[0]); }
    var s, e := states[i - 1], steps[i - 1];
    assert Enabled(s, e) && states[i] == Next(s, e);
    QueueSteps(s, e);
    if e == InitDone(c) {
      k := i - 1;
      QueueBeforeReady(states, steps, i - 1, c);
    } else {
      k := ProcessedInOrder(states, steps, i - 1, c);
    }
  }
}
