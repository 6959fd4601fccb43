/** How many cursor broadcasts one connection can cause in a stretch of time. */
module CursorThrottle {
  import opened Json
  import opened Wrappers
  import opened Rooms
  import opened RoomSafety
  import opened RoomEffects

  lemma ThrottleKept(s: Server, e: Step)
    requires Enabled(s, e) && ThrottleOk(s)
    ensures ThrottleOk(Next(s, e)) && Next(s, e).throttle == s.throttle
  {
    match e
    case Remote(id, m, message) => RemoteEffect(s, id, m, message);
    case Pass(ms) =>
    case _ =>
      hide Next, Enabled, ThrottleOk;
      NextEffect(s, e);
  }

  lemma {:induction false} ThrottleInRuns(states: seq<Server>, steps: seq<Step>, i: nat)
    requires IsRun(states, steps) && i < |states| && states[0].throttle >= 0
    ensures ThrottleOk(states[i]) && states[i].throttle == states[0].throttle
  {
    hide Next, Enabled;
    if i > 0 {
      ThrottleInRuns(states, steps, i - 1);
      hide ThrottleOk;
      ThrottleKept(states[i - 1], steps[i - 1]);
    }
  }

  /** Cursor broadcasts of `c` in the closed window from `a` to `b`. */
  function CursorCount(log: seq<Record>, c: ConnId, a: int, b: int): nat {
    if log == [] then 0
    else
      var r := log[|log| - 1];
      CursorCount(log[..|log| - 1], c, a, b) + if CursorBy(r, c) && a <= r.at <= b then 1 else 0
  }

  ghost predicate Spaced(log: seq<Record>, c: ConnId, gap: int) {
    forall i, j | 0 <= i < j < |log| && CursorBy(log[i], c) && CursorBy(log[j], c) :: log[j].at - log[i].at >= gap
  }

  /** The n-th broadcast in the window comes at least (n - 1) gaps after its start. */
  lemma {:induction false} LastInWindow(log: seq<Record>, c: ConnId, gap: int, a: int, b: int) returns (k: int)
    requires Spaced(log, c, gap) && gap >= 0
    ensures CursorCount(log, c, a, b) > 0 ==>
      0 <= k < |log| && CursorBy(log[k], c) && a + (CursorCount(log, c, a, b) - 1) * gap <= log[k].at <= b
  {
    k := 0;
    if log != [] {
      var last := |log| - 1;
      k := LastInWindow(log[..last], c, gap, a, b);
      var n := CursorCount(log[..last], c, a, b);
      if CursorBy(log[last], c) && a <= log[last].at <= b {
        if n > 0 {
          assert log[last].at - log[k].at >= gap;
          assert (n - 1) * gap + gap == n * gap;
        }
        k := last;
      }
    }
  }

  /**
   With a throttle T > 0 one connection emits at most floor(W / T) + 1 cursor broadcasts in any window
   of W milliseconds, whatever arrives and whatever else the replica does.
   */
  lemma CursorRate(states: seq<Server>, steps: seq<Step>, i: nat, c: ConnId, a: int, w: nat)
    requires IsRun(states, steps) && i < |states| && states[0].throttle > 0
    ensures CursorCount(states[i].log, c, a, a + w) <= w / states[0].throttle + 1
  {
    var t := states[0].throttle;
    ThrottleInRuns(states, steps, i);
    var n := CursorCount(states[i].log, c, a, a + w);
    var k := LastInWindow(states[i].log, c, t, a, a + w);
    if n > w / t + 1 {
      AtLeast(n - 1, w, t);
    }
  }

  lemma AtLeast(n: int, w: int, t: int)
    requires t > 0 && n > w / t
    ensures n * t > w
  {
    assert n * t >= (w / t + 1) * t;
  }

  /** A cursor move leaves the replica as it was exactly when it is refused: without a room, malformed or throttled. */
  lemma RefusedMoveChangesNothing(s: Server, c: ConnId, position: Value, normal: Value)
    requires c in s.conns
    ensures MoveCursor(s, c, position, normal) == s <==>
      || s.conns[c].current.None?
      || !IsVector3(position) || (!normal.Undefined? && !IsVector3(normal))
      || s.now - s.conns[c].lastCursor < s.throttle
  {
    var r := MoveCursor(s, c, position, normal);
    if r == s { assert r.own == s.own; }
  }
}
