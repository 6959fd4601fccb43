/**
 The fixed-window rate limiter: a request reads the hour bucket, then increments the bucket's Redis counter, and the
 one that created the counter sets its expiry. Requests interleave freely between these. Times are in milliseconds.
 */
module RateLimit {
  import opened Wrappers
  import opened Bytes

  const HOUR := 3_600_000

  /** Start of the hour. */
  function Bucket(now: nat): nat {
    now / HOUR * HOUR
  }

  /** The Redis key; the bucket in it is in seconds. */
  function RateLimitKey(id: string, bucket: nat): string {
    "ratelimit:" + id + ":" + Decimal(bucket / 1000)
  }

  datatype Window = Window(id: string, bucket: nat)

  datatype Counter = Counter(count: nat, expiresAt: Option<nat>)

  datatype Phase = Read | Created | Finished

  datatype Request = Request(window: Window, limit: nat, phase: Phase)

  /** One increment: what the log remembers of it. */
  datatype Hit = Hit(window: Window, at: nat, limit: nat, admitted: bool)

  datatype State = State(now: nat, counters: map<Window, Counter>, requests: map<nat, Request>, log: seq<Hit>)

  const INIT := State(0, map[], map[], [])

  datatype Step =
    | Arrive(r: nat, id: string, limit: nat)
    | Increment(r: nat)
    | LateIncrement(r: nat)
    | SetExpiry(r: nat)
    | Drop(r: nat)
    | Tick(ms: nat)

  predicate InPhase(s: State, r: nat, phase: Phase) {
    r in s.requests && s.requests[r].phase == phase
  }

  /** Increment is for a request still in the hour that it read; LateIncrement for one that is not. */
  predicate Enabled(s: State, step: Step) {
    match step
    case Arrive(r, _, _) => r !in s.requests
    case Increment(r) => InPhase(s, r, Read) && s.requests[r].window.bucket == Bucket(s.now)
    case LateIncrement(r) => InPhase(s, r, Read) && s.requests[r].window.bucket != Bucket(s.now)
    case SetExpiry(r) => InPhase(s, r, Created)
    case Drop(r) => r in s.requests
    case Tick(_) => true
  }

  function Live(counters: map<Window, Counter>, now: nat): map<Window, Counter> {
    map w | w in counters && (counters[w].expiresAt.None? || now < counters[w].expiresAt.value) :: counters[w]
  }

  function Incremented(s: State, r: nat): State
    requires r in s.requests
  {
    var q := s.requests[r];
    var was := if q.window in s.counters then s.counters[q.window] else Counter(0, None);
    var count := was.count + 1;
    State(s.now, s.counters[q.window := was.(count := count)],
          s.requests[r := q.(phase := if count == 1 then Created else Finished)],
          s.log + [Hit(q.window, s.now, q.limit, count <= q.limit)])
  }

  function Next(s: State, step: Step): State
    requires Enabled(s, step)
  {
    match step
    case Arrive(r, id, limit) => s.(requests := s.requests[r := Request(Window(id, Bucket(s.now)), limit, Read)])
    case Increment(r) => Incremented(s, r)
    case LateIncrement(r) => Incremented(s, r)
    case SetExpiry(r) =>
      var q := s.requests[r];
      var w := q.window;
      s.(requests := s.requests[r := q.(phase := Finished)],
         counters := if w in s.counters then s.counters[w := s.counters[w].(expiresAt := Some(s.now + HOUR))]
                     else s.counters)
    case Drop(r) => s.(requests := s.requests[r := s.requests[r].(phase := Finished)])
    case Tick(ms) => s.(now := s.now + ms, counters := Live(s.counters, s.now + ms))
  }

  ghost predicate IsRun(states: seq<State>, steps: seq<Step>) {
    && |states| == |steps| + 1 && states[0] == INIT
    && forall i | 0 <= i < |steps| :: Enabled(states[i], steps[i]) && states[i + 1] == Next(states[i], steps[i])
  }

  /** How many increments of the window the log holds. */
  function Hits(log: seq<Hit>, w: Window): nat {
    if log == [] then 0 else Hits(log[..|log| - 1], w) + (if log[|log| - 1].window == w then 1 else 0)
  }

  /** What Redis would answer to a GET of the counter. */
  function Count(s: State, w: Window): nat {
    if w in s.counters then s.counters[w].count else 0
  }

  /** Exactly the first `limit` of a window are admitted. */
  ghost predicate FirstOnes(log: seq<Hit>) {
    forall i | 0 <= i < |log| :: log[i].admitted <==> Hits(log[..i], log[i].window) + 1 <= log[i].limit
  }

  // ---- what every step keeps ----

  ghost predicate Timed(s: State) {
    && (forall i | 0 <= i < |s.log| :: s.log[i].window.bucket <= s.log[i].at <= s.now)
    && (forall r | r in s.requests :: s.requests[r].window.bucket <= s.now)
    && (forall w | w in s.counters :: w.bucket <= s.now)
  }

  /**
   No counter exceeds the number of its increments, and the counter of the current hour, there from the first
   increment on, is that number.
   */
  ghost predicate Counts(s: State) {
    && (forall w: Window :: Count(s, w) <= Hits(s.log, w))
    && (forall w: Window | w.bucket == Bucket(s.now) :: Count(s, w) == Hits(s.log, w))
    && (forall w | w in s.counters :: s.counters[w].count >= 1)
    && (forall w | w in s.counters && s.counters[w].expiresAt.Some? :: w.bucket + HOUR <= s.counters[w].expiresAt.value)
  }

  ghost predicate Inv(s: State) {
    Timed(s) && Counts(s)
  }

  lemma HitsAppend(log: seq<Hit>, h: Hit, w: Window)
    ensures Hits(log + [h], w) == Hits(log, w) + (if h.window == w then 1 else 0)
  {
    assert (log + [h])[..|log|] == log;
  }

  lemma {:induction false} NoHitsYet(log: seq<Hit>, w: Window)
    requires forall i | 0 <= i < |log| :: log[i].window != w
    ensures Hits(log, w) == 0
  {
    if log != [] { NoHitsYet(log[..|log| - 1], w); }
  }

  lemma BucketBounds(now: nat)
    ensures Bucket(now) <= now < Bucket(now) + HOUR
    ensures Bucket(now) % HOUR == 0
  {
  }

  lemma BucketsStep(a: nat, b: nat)
    requires a <= b
    ensures Bucket(a) <= Bucket(b)
    ensures Bucket(a) < Bucket(b) ==> Bucket(a) + HOUR <= Bucket(b)
  {
  }

  /** An increment, on time or late, raises its own counter and its own number of hits by one. */
  lemma IncrementCounts(s: State, r: nat, w: Window)
    requires r in s.requests
    ensures var t, one := Incremented(s, r), if s.requests[r].window == w then 1 else 0;
            Count(t, w) == Count(s, w) + one && Hits(t.log, w) == Hits(s.log, w) + one
  {
    hide Hits;
    HitsAppend(s.log, Incremented(s, r).log[|s.log|], w);
  }

  lemma IncrementKeeps(s: State, r: nat)
    requires Inv(s) && r in s.requests
    ensures Inv(Incremented(s, r))
  {
    hide Bucket, Hits, Count;
    var t := Incremented(s, r);
    forall w: Window
      ensures Count(t, w) <= Hits(t.log, w)
      ensures w.bucket == Bucket(s.now) ==> Count(t, w) == Hits(t.log, w)
    {
      IncrementCounts(s, r, w);
    }
  }

  lemma TickKeeps(s: State, ms: nat)
    requires Inv(s)
    ensures Inv(Next(s, Tick(ms)))
  {
    hide Bucket, Hits, FirstOnes;
    var t := Next(s, Tick(ms));
    BucketBounds(s.now);
    BucketBounds(t.now);
    BucketsStep(s.now, t.now);
    if Bucket(s.now) < Bucket(t.now) {
      forall w: Window | w.bucket == Bucket(t.now) ensures w !in s.counters && Hits(s.log, w) == 0 {
        NoHitsYet(s.log, w);
      }
    }
  }

  lemma OthersKeep(s: State, step: Step)
    requires Inv(s) && Enabled(s, step) && !step.LateIncrement? && !step.Increment? && !step.Tick?
    ensures Inv(Next(s, step))
  {
    hide Bucket, Hits;
    BucketBounds(s.now);
    forall w: Window ensures Count(Next(s, step), w) == Count(s, w) {}
    hide Count;
  }

  lemma NextKeeps(s: State, step: Step)
    requires Inv(s) && Enabled(s, step)
    ensures Inv(Next(s, step))
  {
    match step
    case Increment(r) => IncrementKeeps(s, r);
    case LateIncrement(r) => IncrementKeeps(s, r);
    case Tick(ms) => TickKeeps(s, ms);
    case Arrive(_, _, _) => OthersKeep(s, step);
    case SetExpiry(_) => OthersKeep(s, step);
    case Drop(_) => OthersKeep(s, step);
  }

  lemma {:induction false} RunKeeps(states: seq<State>, steps: seq<Step>, n: nat)
    requires IsRun(states, steps) && n < |states|
    ensures Inv(states[n])
  {
    if n > 0 {
      hide Inv, Enabled, Next;
      RunKeeps(states, steps, n - 1);
      NextKeeps(states[n - 1], steps[n - 1]);
    }
  }

  /** In every run, an expiry never reopens the current hour: its counter is the number of its requests. */
  lemma ExpiryKeepsTheHour(states: seq<State>, steps: seq<Step>, n: nat, id: string)
    requires IsRun(states, steps) && n < |states|
    ensures var w := Window(id, Bucket(states[n].now)); Count(states[n], w) == Hits(states[n].log, w)
  {
    hide IsRun;
    RunKeeps(states, steps, n);
  }

  // ---- who is admitted ----

  /** The bucket is full for this request, but its counter has come to say otherwise. */
  predicate Reopened(s: State, r: nat)
    requires r in s.requests
  {
    var q := s.requests[r];
    Count(s, q.window) < q.limit <= Hits(s.log, q.window)
  }

  lemma FirstOnesAppend(log: seq<Hit>, h: Hit)
    ensures FirstOnes(log + [h]) <==> FirstOnes(log) && (h.admitted <==> Hits(log, h.window) + 1 <= h.limit)
  {
    hide Hits;
    var all := log + [h];
    assert all[..|log|] == log && all[|log|] == h;
    forall i | 0 <= i < |log| ensures all[..i] == log[..i] && all[i] == log[i] {}
    if FirstOnes(all) {
      forall i | 0 <= i < |log| ensures log[i].admitted <==> Hits(log[..i], log[i].window) + 1 <= log[i].limit {
        assert all[i].admitted <==> Hits(all[..i], all[i].window) + 1 <= all[i].limit;
      }
    }
  }

  /** An increment gets the right verdict if and only if its bucket was not reopened for it. */
  lemma IncrementExact(s: State, r: nat)
    requires Inv(s) && r in s.requests
    ensures FirstOnes(Incremented(s, r).log) <==> FirstOnes(s.log) && !Reopened(s, r)
  {
    hide Hits, FirstOnes;
    FirstOnesAppend(s.log, Incremented(s, r).log[|s.log|]);
  }

  /** An increment in its own hour never finds its bucket reopened. */
  lemma OnTimeIsExact(s: State, r: nat)
    requires Inv(s) && Enabled(s, Increment(r))
    ensures !Reopened(s, r)
  {
  }

  lemma StepExact(s: State, step: Step)
    requires Inv(s) && Enabled(s, step)
    ensures FirstOnes(Next(s, step).log) <==>
              FirstOnes(s.log) && (step.LateIncrement? ==> !Reopened(s, step.r))
  {
    hide FirstOnes, Inv, Reopened, Hits;
    match step
    case Increment(r) =>
      IncrementExact(s, r);
      OnTimeIsExact(s, r);
    case LateIncrement(r) => IncrementExact(s, r);
    case Arrive(_, _, _) =>
    case SetExpiry(_) =>
    case Drop(_) =>
    case Tick(_) =>
  }

  /**
   Over every interleaving, whenever and whether expiries are set: exactly the first `limit` requests of an identifier
   in an hour are admitted if and only if no increment that slipped past its hour found its bucket reopened.
   */
  lemma {:induction false} FirstRequestsExactly(states: seq<State>, steps: seq<Step>, n: nat)
    requires IsRun(states, steps) && n < |states|
    ensures forall i | 0 <= i < n && steps[i].LateIncrement? :: steps[i].r in states[i].requests
    ensures FirstOnes(states[n].log) <==>
            forall i | 0 <= i < n && steps[i].LateIncrement? :: !Reopened(states[i], steps[i].r)
  {
    if n > 0 {
      assert Enabled(states[n - 1], steps[n - 1]);
      hide Inv, Next, FirstOnes, Reopened;
      FirstRequestsExactly(states, steps, n - 1);
      RunKeeps(states, steps, n - 1);
      StepExact(states[n - 1], steps[n - 1]);
    }
  }

  /** With every increment in its own hour, exactly the first `limit` requests of an hour are admitted. */
  lemma FirstRequestsAdmitted(states: seq<State>, steps: seq<Step>, n: nat)
    requires IsRun(states, steps) && n < |states| && forall i | 0 <= i < n :: !steps[i].LateIncrement?
    ensures FirstOnes(states[n].log)
  {
    hide IsRun, FirstOnes;
    FirstRequestsExactly(states, steps, n);
  }

  // ---- when a late increment finds its bucket reopened ----

  /** The counter of the window expires. */
  predicate Lapses(s: State, step: Step, w: Window) {
    step.Tick? && w in s.counters && w !in Live(s.counters, s.now + step.ms)
  }

  lemma StepDifference(s: State, step: Step, w: Window)
    requires Inv(s) && Enabled(s, step)
    ensures var t := Next(s, step);
            if Lapses(s, step, w) then Count(t, w) == 0 < Count(s, w) && t.log == s.log
            else Hits(t.log, w) - Count(t, w) == Hits(s.log, w) - Count(s, w)
  {
    hide Hits, Bucket;
    match step
    case Increment(r) => IncrementCounts(s, r, w);
    case LateIncrement(r) => IncrementCounts(s, r, w);
    case Arrive(_, _, _) =>
    case SetExpiry(_) =>
    case Drop(_) =>
    case Tick(_) =>
  }

  /** A counter is the number of its increments if and only if it has never lapsed. */
  lemma {:induction false} CountsUntilLapse(states: seq<State>, steps: seq<Step>, n: nat, w: Window)
    requires IsRun(states, steps) && n < |states|
    ensures Count(states[n], w) == Hits(states[n].log, w) <==> forall i | 0 <= i < n :: !Lapses(states[i], steps[i], w)
  {
    if n > 0 {
      var s, step := states[n - 1], steps[n - 1];
      assert Enabled(s, step) && states[n] == Next(s, step);
      hide Next, Lapses, Live, Hits;
      CountsUntilLapse(states, steps, n - 1, w);
      RunKeeps(states, steps, n - 1);
      RunKeeps(states, steps, n);
      StepDifference(s, step, w);
    }
  }

  /**
   A late increment leaves the verdicts right exactly when its counter has never lapsed, or has since been filled up
   again, or its bucket was not yet full: with no counter there, when the limit is zero or not yet reached.
   */
  lemma LateIncrementExactly(states: seq<State>, steps: seq<Step>, n: nat, r: nat)
    requires IsRun(states, steps) && n < |steps| && steps[n] == LateIncrement(r) && FirstOnes(states[n].log)
    ensures r in states[n].requests
    ensures var s := states[n];
            var w, limit := s.requests[r].window, s.requests[r].limit;
            && (FirstOnes(states[n + 1].log) <==>
                  || (forall i | 0 <= i < n :: !Lapses(states[i], steps[i], w))
                  || Count(s, w) >= limit
                  || Hits(s.log, w) < limit)
            && (w !in s.counters ==>
                  (FirstOnes(states[n + 1].log) <==> limit == 0 || Hits(s.log, w) < limit))
  {
    assert Enabled(states[n], steps[n]) && states[n + 1] == Next(states[n], steps[n]);
    hide Next, FirstOnes, Lapses, Hits, Inv;
    RunKeeps(states, steps, n);
    StepExact(states[n], steps[n]);
    CountsUntilLapse(states, steps, n, states[n].requests[r].window);
  }

  // ---- how many in any 3600 s ----

  /** Admitted requests of the identifier between two times, both included. */
  function AdmittedIn(log: seq<Hit>, id: string, from: int, to: int): nat {
    if log == [] then 0
    else
      var h := log[|log| - 1];
      AdmittedIn(log[..|log| - 1], id, from, to)
      + (if h.window.id == id && h.admitted && from <= h.at <= to then 1 else 0)
  }

  function AdmittedOf(log: seq<Hit>, w: Window): nat {
    if log == [] then 0
    else AdmittedOf(log[..|log| - 1], w) + (if log[|log| - 1].window == w && log[|log| - 1].admitted then 1 else 0)
  }

  lemma {:induction false} WindowBound(log: seq<Hit>, w: Window, limit: nat)
    requires FirstOnes(log) && forall i | 0 <= i < |log| :: log[i].window == w ==> log[i].limit <= limit
    ensures AdmittedOf(log, w) <= limit && AdmittedOf(log, w) <= Hits(log, w)
  {
    if log != [] {
      var init := log[..|log| - 1];
      forall i | 0 <= i < |init| ensures init[..i] == log[..i] {}
      WindowBound(init, w, limit);
    }
  }

  lemma {:induction false} SpanOfTwo(log: seq<Hit>, id: string, from: nat)
    requires forall i | 0 <= i < |log| :: log[i].window.bucket == Bucket(log[i].at)
    ensures AdmittedIn(log, id, from, from + HOUR)
         <= AdmittedOf(log, Window(id, Bucket(from))) + AdmittedOf(log, Window(id, Bucket(from) + HOUR))
  {
    if log != [] {
      SpanOfTwo(log[..|log| - 1], id, from);
      var h := log[|log| - 1];
      if from <= h.at <= from + HOUR {
        BucketsStep(from, h.at);
        BucketsStep(h.at, from + HOUR);
        assert Bucket(from + HOUR) == Bucket(from) + HOUR;
      }
    }
  }

  /** Any span of 3600 s, both ends included, admits at most twice the largest limit that applied. */
  lemma AtMostTwice(states: seq<State>, steps: seq<Step>, n: nat, id: string, limit: nat, from: nat)
    requires IsRun(states, steps) && n < |states| && forall i | 0 <= i < n :: !steps[i].LateIncrement?
    requires forall i | 0 <= i < |states[n].log| ::
               states[n].log[i].window.id == id ==> states[n].log[i].limit <= limit
    ensures AdmittedIn(states[n].log, id, from, from + 3_600_000) <= 2 * limit
  {
    var log := states[n].log;
    hide Bucket, FirstOnes, AdmittedIn, AdmittedOf, Hits;
    FirstRequestsAdmitted(states, steps, n);
    OwnHours(states, steps, n);
    SpanOfTwo(log, id, from);
    WindowBound(log, Window(id, Bucket(from)), limit);
    WindowBound(log, Window(id, Bucket(from) + HOUR), limit);
  }

  lemma {:induction false} OwnHours(states: seq<State>, steps: seq<Step>, n: nat)
    requires IsRun(states, steps) && n < |states| && forall i | 0 <= i < n :: !steps[i].LateIncrement?
    ensures forall i | 0 <= i < |states[n].log| :: states[n].log[i].window.bucket == Bucket(states[n].log[i].at)
  {
    if n > 0 {
      OwnHours(states, steps, n - 1);
      assert Enabled(states[n - 1], steps[n - 1]) && states[n] == Next(states[n - 1], steps[n - 1]);
      hide Bucket;
    }
  }

  // ---- a run with a late increment ----

  const LATE_RUN :=
    [Arrive(0, "u", 1), Increment(0), SetExpiry(0), Tick(HOUR - 1), Arrive(1, "u", 1), Tick(1), LateIncrement(1)]

  const LATE_WINDOW := Window("u", 0)

  function FirstRequest(first: Phase): map<nat, Request> {
    map[0 := Request(LATE_WINDOW, 1, first)]
  }

  function BothRequests(second: Phase): map<nat, Request> {
    map[0 := Request(LATE_WINDOW, 1, Finished), 1 := Request(LATE_WINDOW, 1, second)]
  }

  function LateState(k: nat): State {
    var hit := Hit(LATE_WINDOW, 0, 1, true);
    var kept := map[LATE_WINDOW := Counter(1, Some(HOUR))];
    if k == 0 then INIT
    else if k == 1 then State(0, map[], FirstRequest(Read), [])
    else if k == 2 then State(0, map[LATE_WINDOW := Counter(1, None)], FirstRequest(Created), [hit])
    else if k == 3 then State(0, kept, FirstRequest(Finished), [hit])
    else if k == 4 then State(HOUR - 1, kept, FirstRequest(Finished), [hit])
    else if k == 5 then State(HOUR - 1, kept, BothRequests(Read), [hit])
    else if k == 6 then State(HOUR, map[], BothRequests(Read), [hit])
    else
      State(HOUR, map[LATE_WINDOW := Counter(1, None)], BothRequests(Created), [hit, Hit(LATE_WINDOW, HOUR, 1, true)])
  }

  lemma LateStep(k: nat)
    requires k < 7
    ensures Enabled(LateState(k), LATE_RUN[k]) && Next(LateState(k), LATE_RUN[k]) == LateState(k + 1)
  {
    assert Bucket(0) == Bucket(HOUR - 1) == 0 && Bucket(HOUR) == HOUR;
    var s, t, step := LateState(k), LateState(k + 1), LATE_RUN[k];
    if k == 3 { assert Live(s.counters, HOUR - 1) == s.counters; }
    if k == 5 { assert Live(s.counters, HOUR) == map[]; }
    assert Next(s, step).requests == t.requests && Next(s, step).counters == t.counters && Next(s, step).log == t.log;
  }

  lemma LateLog()
    ensures !FirstOnes(LateState(7).log)
  {
    var hit, late := Hit(LATE_WINDOW, 0, 1, true), Hit(LATE_WINDOW, HOUR, 1, true);
    HitsAppend([], hit, LATE_WINDOW);
    assert [] + [hit] == [hit] && [hit] + [late] == LateState(7).log;
    hide FirstOnes, LateState;
    FirstOnesAppend([hit], late);
  }

  /** With a limit of 1, both requests of one bucket are admitted: the second is a millisecond late. */
  lemma LateRun()
    ensures exists states: seq<State> :: IsRun(states, LATE_RUN) && !FirstOnes(states[7].log)
  {
    var states := seq(8, k requires 0 <= k < 8 => LateState(k));
    LateLog();
    assert states[0] == INIT;
    hide LateState, Enabled, Next, FirstOnes;
    forall k | 0 <= k < 7 ensures Enabled(states[k], LATE_RUN[k]) && states[k + 1] == Next(states[k], LATE_RUN[k]) {
      LateStep(k);
    }
    assert IsRun(states, LATE_RUN);
  }

  /** The identifier may hold ':' itself; the key still tells identifier and bucket. */
  lemma KeyInjective(a: string, x: nat, b: string, y: nat)
    requires x % 1000 == 0 && y % 1000 == 0 && RateLimitKey(a, x) == RateLimitKey(b, y)
    ensures a == b && x == y
  {
    var k, l := RateLimitKey(a, x), RateLimitKey(b, y);
    var d, e := Decimal(x / 1000), Decimal(y / 1000);
    assert k[10 + |a|] == ':' && l[10 + |b|] == ':';
    assert forall i | 0 <= i < |d| :: k[11 + |a| + i] == d[i];
    assert forall i | 0 <= i < |e| :: l[11 + |b| + i] == e[i];
    if |a| < |b| { assert false; }
    if |b| < |a| { assert false; }
    assert a == k[10..10 + |a|] && b == l[10..10 + |b|];
    assert d == k[11 + |a|..] && e == l[11 + |b|..];
    DecimalInjective(x / 1000, y / 1000);
  }

  // ---- the middleware's own steps, on the shared counters ----

  class Limiter {
    var now: nat
    var counters: map<Window, Counter>
    var requests: map<nat, Request>
    ghost var log: seq<Hit>

    ghost function View(): State
      reads this
    {
      State(now, counters, requests, log)
    }

    constructor ()
      ensures View() == INIT && Inv(View())
    {
      now, counters, requests, log := 0, map[], map[], [];
    }

    method ReadBucket(r: nat, id: string, limit: nat)
      requires Inv(View()) && Enabled(View(), Arrive(r, id, limit))
      modifies this`requests
      ensures View() == Next(old(View()), Arrive(r, id, limit)) && Inv(View())
    {
      NextKeeps(View(), Arrive(r, id, limit));
      requests := requests[r := Request(Window(id, Bucket(now)), limit, Read)];
    }

    /** INCR, and the verdict: right unless the bucket was reopened, which cannot happen within the hour. */
    method Increment(r: nat) returns (admitted: bool)
      requires Inv(View()) && InPhase(View(), r, Read)
      modifies this`counters, this`requests, this`log
      ensures View() == Incremented(old(View()), r) && Inv(View())
      ensures log == old(log) + [Hit(old(requests)[r].window, now, old(requests)[r].limit, admitted)]
      ensures old(Reopened(View(), r)) <==>
                admitted && Hits(old(log), old(requests)[r].window) >= old(requests)[r].limit
      ensures old(requests)[r].window.bucket == Bucket(now) ==>
                (admitted <==> Hits(old(log), old(requests)[r].window) < old(requests)[r].limit)
    {
      IncrementKeeps(View(), r);
      hide Inv, Hits, Bucket;
      IncrementVerdict(View(), r);
      var q := requests[r];
      var count, expiry := 1, None;
      if q.window in counters {
        count, expiry := counters[q.window].count + 1, counters[q.window].expiresAt;
      }
      admitted := count <= q.limit;
      counters := counters[q.window := Counter(count, expiry)];
      requests := requests[r := q.(phase := if count == 1 then Created else Finished)];
      log := log + [Hit(q.window, now, q.limit, admitted)];
    }

    /** EXPIRE, by the request whose increment gave 1; it does nothing to a counter that is gone. */
    method SetExpiry(r: nat)
      requires Inv(View()) && Enabled(View(), Step.SetExpiry(r))
      modifies this`counters, this`requests
      ensures View() == Next(old(View()), Step.SetExpiry(r)) && Inv(View())
    {
      NextKeeps(View(), Step.SetExpiry(r));
      hide Inv;
      var q := requests[r];
      requests := requests[r := q.(phase := Finished)];
      if q.window in counters {
        counters := counters[q.window := counters[q.window].(expiresAt := Some(now + HOUR))];
      }
    }
  }

  lemma IncrementVerdict(s: State, r: nat)
    requires Inv(s) && r in s.requests
    ensures var q := s.requests[r];
            && (Reopened(s, r) <==> Count(s, q.window) + 1 <= q.limit && Hits(s.log, q.window) >= q.limit)
            && (q.window.bucket == Bucket(s.now) ==> Count(s, q.window) == Hits(s.log, q.window))
  {
  }
}
