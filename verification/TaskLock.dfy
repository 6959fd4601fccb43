/**
 The Redis lock of one task on one model, under redelivery: any number of runs start, take the lock with
 SET NX EX, delete it without looking, crash, or are killed at the hard time limit. Times are in seconds.
 */
module TaskLock {
  import opened Wrappers

  const TTL := 2100
  const SOFT_TIME_LIMIT := 1500
  const TIME_LIMIT := 1800

  /** How a call to Redis ends: answered, carried out before the connection broke, or lost before that. */
  datatype RedisCall = Answered | Unheard | Lost

  datatype Phase = Started | Holding | Released | Ended

  datatype Run = Run(startedAt: int, phase: Phase)

  /** `owner`, the run that set the key, is what the model remembers; the key itself holds "1". */
  datatype Key = Key(expiresAt: int, owner: nat)

  datatype State = State(clock: int, key: Option<Key>, runs: map<nat, Run>)

  datatype Step =
    | Start(run: nat)
    | Acquire(run: nat, call: RedisCall)
    | Release(run: nat, call: RedisCall)
    | ReleaseAgain(run: nat, call: RedisCall)  // the handler of the soft time limit, when it fires after a release
    | End(run: nat)
    | Tick(seconds: nat)

  const INIT := State(0, None, map[])

  predicate InPhase(s: State, run: nat, phase: Phase) {
    run in s.runs && s.runs[run].phase == phase
  }

  /** No run outlives its time limit. */
  predicate WithinLimits(runs: map<nat, Run>, clock: int) {
    forall r | r in runs :: runs[r].phase != Ended ==> clock <= runs[r].startedAt + TIME_LIMIT
  }

  predicate Enabled(s: State, step: Step) {
    match step
    case Start(r) => r !in s.runs
    case Acquire(r, _) => InPhase(s, r, Started)
    case Release(r, _) => InPhase(s, r, Holding)
    case ReleaseAgain(r, _) => InPhase(s, r, Released) && s.clock >= s.runs[r].startedAt + SOFT_TIME_LIMIT
    case End(r) => r in s.runs
    case Tick(d) => WithinLimits(s.runs, s.clock + d)
  }

  function Moved(s: State, run: nat, phase: Phase): State
    requires run in s.runs
  {
    s.(runs := s.runs[run := s.runs[run].(phase := phase)])
  }

  function Deleted(s: State, call: RedisCall): State {
    if call.Lost? then s else s.(key := None)
  }

  function Next(s: State, step: Step): State
    requires Enabled(s, step)
  {
    match step
    case Start(r) => s.(runs := s.runs[r := Run(s.clock, Started)])
    case Acquire(r, call) =>
      if call.Lost? then Moved(s, r, Holding)
      else if s.key.Some? then Moved(s, r, if call.Unheard? then Holding else Ended)
      else Moved(s, r, Holding).(key := Some(Key(s.clock + TTL, r)))
    case Release(r, call) => Deleted(Moved(s, r, Released), call)
    case ReleaseAgain(r, call) => Deleted(Moved(s, r, Released), call)
    case End(r) => Moved(s, r, Ended)
    case Tick(d) =>
      var now := s.clock + d;
      State(now, if s.key.Some? && s.key.value.expiresAt <= now then None else s.key, s.runs)
  }

  ghost predicate IsRun(states: seq<State>, steps: seq<Step>) {
    && |states| == |steps| + 1 && states[0] == INIT
    && forall i | 0 <= i < |steps| :: Enabled(states[i], steps[i]) && states[i + 1] == Next(states[i], steps[i])
  }

  // ---- the holder's key ----

  /** Every run between acquire and release has the key, and the key outlives the run. */
  ghost predicate HolderHasKey(s: State) {
    forall r | InPhase(s, r, Holding) ::
      s.key.Some? && s.key.value.owner == r && s.key.value.expiresAt >= s.runs[r].startedAt + TTL
  }

  /** What holds whatever happens: the clock, the limits, and that only a run that was let through owns a key. */
  ghost predicate Timed(s: State) {
    && WithinLimits(s.runs, s.clock)
    && (forall r | r in s.runs :: s.runs[r].startedAt <= s.clock)
    && (s.key.Some? ==> s.clock < s.key.value.expiresAt <= s.clock + TTL)
    && (s.key.Some? ==> s.key.value.owner in s.runs && s.runs[s.key.value.owner].phase != Started)
  }

  predicate NobodyHolds(s: State) {
    forall r | r in s.runs :: s.runs[r].phase != Holding
  }

  /** An acquire that is let through although it has not set the key. */
  predicate FailsOpen(s: State, step: Step) {
    step.Acquire? && (step.call.Lost? || (step.call.Unheard? && s.key.Some?))
  }

  /** No acquire that fails open, and no second delete that is carried out while a run holds the lock. */
  predicate Harmless(s: State, step: Step) {
    !FailsOpen(s, step) && (step.ReleaseAgain? && !step.call.Lost? ==> NobodyHolds(s))
  }

  lemma NextTimed(s: State, step: Step)
    requires Timed(s) && Enabled(s, step)
    ensures Timed(Next(s, step))
  {
  }

  /** One step keeps the holder's key if and only if it is harmless. */
  lemma KeepsExactly(s: State, step: Step)
    requires Timed(s) && HolderHasKey(s) && Enabled(s, step)
    ensures HolderHasKey(Next(s, step)) <==> Harmless(s, step)
  {
    var t := Next(s, step);
    if FailsOpen(s, step) {
      assert InPhase(t, step.run, Holding);
    } else if step.ReleaseAgain? && !step.call.Lost? && !NobodyHolds(s) {
      var r :| r in s.runs && s.runs[r].phase == Holding;
      assert InPhase(t, r, Holding);
    }
  }

  lemma {:induction false} RunTimed(states: seq<State>, steps: seq<Step>, n: nat)
    requires IsRun(states, steps) && n < |states|
    ensures Timed(states[n])
  {
    hide Timed, Enabled, Next;
    if n == 0 {
      InitTimed();
    } else {
      RunTimed(states, steps, n - 1);
      NextTimed(states[n - 1], steps[n - 1]);
    }
  }

  lemma InitTimed()
    ensures Timed(INIT) && HolderHasKey(INIT)
  {
  }

  lemma {:induction false} HarmlessKeeps(states: seq<State>, steps: seq<Step>, n: nat)
    requires IsRun(states, steps) && n < |states|
    requires forall i | 0 <= i < n :: Harmless(states[i], steps[i])
    ensures Timed(states[n]) && HolderHasKey(states[n])
  {
    hide Timed, HolderHasKey, Enabled, Next, Harmless;
    RunTimed(states, steps, n);
    if n == 0 {
      InitTimed();
    } else {
      HarmlessKeeps(states, steps, n - 1);
      KeepsExactly(states[n - 1], steps[n - 1]);
    }
  }

  /**
   Over a whole run every holder has its key all the time if and only if no acquire failed open and each second
   delete that was carried out found nobody holding the lock.
   */
  lemma KeyKeptExactly(states: seq<State>, steps: seq<Step>)
    requires IsRun(states, steps)
    ensures (forall n | 0 <= n < |states| :: HolderHasKey(states[n]))
            <==> (forall i | 0 <= i < |steps| :: Harmless(states[i], steps[i]))
  {
    hide HolderHasKey, Harmless, Timed, Enabled, Next;
    if forall i | 0 <= i < |steps| :: Harmless(states[i], steps[i]) {
      forall n | 0 <= n < |states| ensures HolderHasKey(states[n]) { HarmlessKeeps(states, steps, n); }
    }
    if forall n | 0 <= n < |states| :: HolderHasKey(states[n]) {
      forall i | 0 <= i < |steps| ensures Harmless(states[i], steps[i]) {
        assert HolderHasKey(states[i]) && HolderHasKey(states[i + 1]);
        RunTimed(states, steps, i);
        KeepsExactly(states[i], steps[i]);
      }
    }
  }

  /** Two runs are never both between acquire and release, and the one that is has its key. */
  lemma MutualExclusion(states: seq<State>, steps: seq<Step>, n: nat)
    requires IsRun(states, steps) && n < |states|
    requires forall i | 0 <= i < n :: Harmless(states[i], steps[i])
    ensures forall a, b | InPhase(states[n], a, Holding) && InPhase(states[n], b, Holding) :: a == b
    ensures forall a | InPhase(states[n], a, Holding) ::
              states[n].key.Some? && states[n].key.value.owner == a
  {
    hide IsRun, Harmless;
    HarmlessKeeps(states, steps, n);
  }

  /** The step that ends one holder's key is that holder's own release: not the clock, and not another's delete. */
  lemma KeyOutlivesItsHolder(states: seq<State>, steps: seq<Step>, n: nat, r: nat)
    requires IsRun(states, steps) && n < |steps| && InPhase(states[n], r, Holding)
    requires forall i | 0 <= i <= n :: Harmless(states[i], steps[i])
    ensures states[n].key.Some? && states[n].key.value.owner == r
    ensures states[n + 1].key != states[n].key <==> steps[n].Release? && steps[n].run == r && !steps[n].call.Lost?
  {
    assert Enabled(states[n], steps[n]) && states[n + 1] == Next(states[n], steps[n]) && Harmless(states[n], steps[n]);
    HarmlessKeeps(states, steps, n);
    hide IsRun;
  }

  /** A release deletes the key of the run that calls it. */
  lemma ReleaseIsOwn(states: seq<State>, steps: seq<Step>, n: nat, r: nat)
    requires IsRun(states, steps) && n < |steps| && steps[n].Release? && steps[n].run == r
    requires forall i | 0 <= i < n :: Harmless(states[i], steps[i])
    ensures states[n].key.Some? && states[n].key.value.owner == r
  {
    assert Enabled(states[n], steps[n]);
    hide Harmless;
    HarmlessKeeps(states, steps, n);
  }

  /** A key that nobody replaces is the same one or gone. */
  lemma {:induction false} KeyOnlyByAcquire(states: seq<State>, steps: seq<Step>, n: nat, m: nat)
    requires IsRun(states, steps) && n <= m < |states| && forall i | n <= i < m :: !steps[i].Acquire?
    ensures states[m].key.None? || states[m].key == states[n].key
  {
    if n < m {
      KeyOnlyByAcquire(states, steps, n, m - 1);
      assert states[m] == Next(states[m - 1], steps[m - 1]);
    }
  }

  /**
   Whatever happened, a key that is there at one time is not there 2100 s later; without a later acquire there is
   then none at all.
   */
  lemma LockHeals(states: seq<State>, steps: seq<Step>, n: nat, m: nat)
    requires IsRun(states, steps) && n <= m < |states| && states[m].clock >= states[n].clock + 2100
    ensures states[n].key.Some? ==> states[m].key != states[n].key
    ensures (forall i | n <= i < m :: !steps[i].Acquire?) ==> states[m].key.None?
  {
    RunTimed(states, steps, n);
    RunTimed(states, steps, m);
    hide IsRun;
    if forall i | n <= i < m :: !steps[i].Acquire? { KeyOnlyByAcquire(states, steps, n, m); }
  }

  lemma {:induction false} KeyStays(states: seq<State>, steps: seq<Step>, n: nat, m: nat)
    requires IsRun(states, steps) && n <= m < |states| && states[n].key.Some?
    requires forall i | n <= i < m :: !steps[i].Release? && !steps[i].ReleaseAgain?
    requires states[m].clock < states[n].key.value.expiresAt
    ensures states[m].key == states[n].key
  {
    if n < m {
      assert Enabled(states[m - 1], steps[m - 1]) && states[m] == Next(states[m - 1], steps[m - 1]);
      KeyStays(states, steps, n, m - 1);
    }
  }

  /** A key that is not deleted is there for exactly 2100 s. */
  lemma LockLasts(states: seq<State>, steps: seq<Step>, n: nat, m: nat)
    requires IsRun(states, steps) && n < m < |states| && steps[n].Acquire? && !steps[n].call.Lost? && states[n].key.None?
    requires forall i | n < i < m :: !steps[i].Release? && !steps[i].ReleaseAgain?
    ensures states[n + 1].key.Some? && states[n + 1].key.value.owner == steps[n].run
    ensures states[m].key == states[n + 1].key <==> states[m].clock < states[n].clock + 2100
  {
    assert Enabled(states[n], steps[n]) && states[n + 1] == Next(states[n], steps[n]);
    RunTimed(states, steps, m);
    hide IsRun;
    if states[m].clock < states[n].clock + 2100 { KeyStays(states, steps, n + 1, m); }
  }

  // ---- what a harmful step leads to ----

  /** Any run that leaves a holder without a key goes on, in two steps, to two holders. */
  lemma LostKeyBreaksTheLock(states: seq<State>, steps: seq<Step>, b: nat, c: nat)
    requires IsRun(states, steps) && c !in states[|steps|].runs
    requires InPhase(states[|steps|], b, Holding) && states[|steps|].key.None?
    ensures exists more: seq<State> ::
              && IsRun(states + more, steps + [Start(c), Acquire(c, Answered)])
              && InPhase(more[1], b, Holding) && InPhase(more[1], c, Holding) && b != c
  {
    var s := states[|steps|];
    var s1 := Next(s, Start(c));
    var s2 := Next(s1, Acquire(c, Answered));
    assert InPhase(s2, b, Holding) && InPhase(s2, c, Holding);
    assert Enabled(s, Start(c)) && Enabled(s1, Acquire(c, Answered));
    var all, done := states + [s1, s2], steps + [Start(c), Acquire(c, Answered)];
    hide Next, Enabled;
    assert IsRun(all, done) && [s1, s2][1] == s2;
  }

  const HANDOVER :=
    [Start(0), Acquire(0, Answered), Tick(1500), Start(1), Start(2), Release(0, Answered),
     Acquire(1, Answered), ReleaseAgain(0, Answered), Acquire(2, Answered)]

  function Runs(a: Phase, b: Phase, c: Phase): map<nat, Run> {
    map[0 := Run(0, a), 1 := Run(SOFT_TIME_LIMIT, b), 2 := Run(SOFT_TIME_LIMIT, c)]
  }

  function HandoverState(k: nat): State {
    var now := SOFT_TIME_LIMIT;
    var first := Some(Key(TTL, 0));
    if k == 0 then INIT
    else if k == 1 then State(0, None, map[0 := Run(0, Started)])
    else if k == 2 then State(0, first, map[0 := Run(0, Holding)])
    else if k == 3 then State(now, first, map[0 := Run(0, Holding)])
    else if k == 4 then State(now, first, map[0 := Run(0, Holding), 1 := Run(now, Started)])
    else if k == 5 then State(now, first, Runs(Holding, Started, Started))
    else if k == 6 then State(now, None, Runs(Released, Started, Started))
    else if k == 7 then State(now, Some(Key(now + TTL, 1)), Runs(Released, Holding, Started))
    else if k == 8 then State(now, None, Runs(Released, Holding, Started))
    else State(now, Some(Key(now + TTL, 2)), Runs(Released, Holding, Holding))
  }

  lemma HandoverStep(k: nat)
    requires k < 9
    ensures Enabled(HandoverState(k), HANDOVER[k]) && Next(HandoverState(k), HANDOVER[k]) == HandoverState(k + 1)
  {
    assert Next(HandoverState(k), HANDOVER[k]).runs == HandoverState(k + 1).runs;
  }

  /**
   A soft time limit that fires after the release makes the handler release once more. Here a run that took 1500 s
   releases just before its limit fires; the second delete takes the key of the run that came next, and a third run
   then holds the lock together with it.
   */
  lemma LateReleaseBreaksTheLock()
    ensures exists states :: IsRun(states, HANDOVER)
              && InPhase(states[9], 1, Holding) && InPhase(states[9], 2, Holding)
  {
    var states := seq(10, k requires 0 <= k < 10 => HandoverState(k));
    assert InPhase(states[9], 1, Holding) && InPhase(states[9], 2, Holding);
    hide HandoverState, Enabled, Next;
    forall k | 0 <= k < 9 ensures Enabled(states[k], HANDOVER[k]) && states[k + 1] == Next(states[k], HANDOVER[k]) {
      HandoverStep(k);
    }
    assert states[0] == INIT by { StartsInit(); }
    assert IsRun(states, HANDOVER);
  }

  lemma StartsInit()
    ensures HandoverState(0) == INIT
  {
  }

  /** Acquiring fails open: without Redis a second run holds the lock. */
  lemma FailOpenBreaksTheLock()
    ensures exists states: seq<State>, steps: seq<Step> ::
              && IsRun(states, steps) && (forall i | 0 <= i < |steps| :: !steps[i].ReleaseAgain?)
              && InPhase(states[|steps|], 0, Holding) && InPhase(states[|steps|], 1, Holding)
  {
    var s1 := State(0, None, map[0 := Run(0, Started)]);
    var s2 := State(0, None, map[0 := Run(0, Started), 1 := Run(0, Started)]);
    var s3 := State(0, Some(Key(TTL, 0)), map[0 := Run(0, Holding), 1 := Run(0, Started)]);
    var s4 := State(0, Some(Key(TTL, 0)), map[0 := Run(0, Holding), 1 := Run(0, Holding)]);
    var states, steps := [INIT, s1, s2, s3, s4], [Start(0), Start(1), Acquire(0, Answered), Acquire(1, Lost)];
    IsStep(INIT, Start(0), s1);
    IsStep(s1, Start(1), s2);
    IsStep(s2, Acquire(0, Answered), s3);
    IsStep(s3, Acquire(1, Lost), s4);
    hide Enabled, Next;
    assert IsRun(states, steps);
  }

  /** The successor of an enabled step, given as a value. */
  lemma IsStep(s: State, step: Step, t: State)
    requires Enabled(s, step) && Next(s, step).clock == t.clock && Next(s, step).key == t.key
    requires Next(s, step).runs == t.runs
    ensures Enabled(s, step) && Next(s, step) == t
  {
  }
}
