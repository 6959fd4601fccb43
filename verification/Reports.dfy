/**
 What one delivery of a conversion task tells the outside: its progress and verdict events, its webhooks and its
 outcome, each told by the first step that raises.
 */
module Reports {
  import opened Wrappers
  import opened Converter

  /** The events of a run that completes, in order. */
  function Script(job: Job): seq<Event>
    requires job.Valid()
  {
    if job.output.Gltf? then
      [Progress(10, "download"), Progress(25, "validate"), Progress(50, "optimize"), ModelReady(Keys(job))]
    else
      [Progress(10, "download"), Progress(25, "parse"), Progress(50, "extract"), Progress(75, "convert"),
       Progress(90, "upload"), ModelReady(Keys(job)), Progress(100, "ready")]
  }

  /** How many of them the first k steps have published. */
  function Told(job: Job, k: nat): (n: nat)
    requires job.Valid()
    ensures n <= |Script(job)|
  {
    var m := MetadataAt(job);
    if job.output.Gltf? then
      if k == 0 then 0 else if k <= 2 then 1 else if k == 3 then 2 else if k <= m + 1 then 3 else 4
    else
      var up := 6 + |Keys(job)|;
      if k == 0 then 0 else if k <= 3 then 1 else if k == 4 then 2 else if k == 5 then 3
      else if k <= up then 4 else if k <= m + 1 then 5 else 7
  }

  /** The name of the stage that each step belongs to. */
  function StageNames(job: Job): seq<string>
    requires job.Valid()
  {
    var uploads := seq(|Keys(job)|, _ => "upload");
    if job.output.Gltf? then
      ["download", "size_check", "validate", "compress", "split"] + uploads + ["metadata", "finalize", "finalize"]
    else
      ["download", "size_check", "parse", "validate", "extract", "convert"] + uploads
      + ["upload", "metadata", "metadata", "finalize", "finalize"]
  }

  lemma StageNameGltf(job: Job, k: nat)
    requires job.Valid() && job.output.Gltf? && k < |Steps(job)|
    ensures |StageNames(job)| == |Steps(job)| && StageNames(job)[k] == StageOf(Steps(job)[k])
  {
    StepAt(job, k);
    hide Keys;
  }

  lemma StageNameIfc(job: Job, k: nat)
    requires job.Valid() && job.output.Ifc? && k < |Steps(job)|
    ensures |StageNames(job)| == |Steps(job)| && StageNames(job)[k] == StageOf(Steps(job)[k])
  {
    StepAt(job, k);
    hide Keys;
  }

  lemma StageName(job: Job, k: nat)
    requires job.Valid() && k < |Steps(job)|
    ensures |StageNames(job)| == |Steps(job)| && StageNames(job)[k] == StageOf(Steps(job)[k])
  {
    if job.output.Gltf? { StageNameGltf(job, k); } else { StageNameIfc(job, k); }
  }

  lemma GltfScript(job: Job)
    requires job.Valid() && job.output.Gltf?
    ensures |Script(job)| == 4
    ensures forall n | 1 <= n <= 4 :: Script(job)[n..n] == []
    ensures Script(job)[0..1] == [Progress(10, "download")] && Script(job)[1..2] == [Progress(25, "validate")]
    ensures Script(job)[2..3] == [Progress(50, "optimize")] && Script(job)[3..4] == [ModelReady(Keys(job))]
  {
    hide Keys;
    var script := Script(job);
    assert script[0..1] == [script[0]] && script[1..2] == [script[1]] && script[2..3] == [script[2]];
    assert script[3..4] == [script[3]];
  }

  lemma StepTellsGltf(w: World, job: Job, k: nat)
    requires job.Valid() && job.output.Gltf? && k < |Steps(job)|
    requires Steps(job)[k].UploadChunk? ==> Steps(job)[k].part < |Keys(job)|
    ensures Told(job, k) <= Told(job, k + 1)
    ensures Done(w, job, Steps(job)[k]).events == w.events + Script(job)[Told(job, k)..Told(job, k + 1)]
  {
    StepAt(job, k);
    hide Keys, Steps, Chunked, Properties, WithStatus;
    GltfScript(job);
    assert w.events + [] == w.events;
    hide Script;
    if k == 0 {
      assert Told(job, k) == 0 && Told(job, k + 1) == 1;
    } else if k == 1 {
      assert Told(job, k) == Told(job, k + 1) == 1;
    } else if k == 2 {
      assert Told(job, k) == 1 && Told(job, k + 1) == 2;
    } else if k == 3 {
      assert Told(job, k) == 2 && Told(job, k + 1) == 3;
    } else if k == MetadataAt(job) + 1 {
      assert Told(job, k) == 3 && Told(job, k + 1) == 4;
    } else {
      assert Told(job, k) == Told(job, k + 1);
    }
  }

  lemma IfcScript(job: Job)
    requires job.Valid() && job.output.Ifc?
    ensures |Script(job)| == 7
    ensures Script(job)[4..4] == [] && Script(job)[5..5] == [] && Script(job)[7..7] == []
    ensures Script(job)[1..1] == [] && Script(job)[0..1] == [Progress(10, "download")]
    ensures Script(job)[1..2] == [Progress(25, "parse")] && Script(job)[2..3] == [Progress(50, "extract")]
    ensures Script(job)[3..4] == [Progress(75, "convert")]
    ensures Script(job)[4..5] == [Progress(90, "upload")]
    ensures Script(job)[5..7] == [ModelReady(Keys(job)), Progress(100, "ready")]
  {
    hide Keys;
    var script := Script(job);
    assert script[0..1] == [script[0]] && script[1..2] == [script[1]] && script[2..3] == [script[2]];
    assert script[3..4] == [script[3]] && script[4..5] == [script[4]] && script[5..7] == [script[5], script[6]];
  }

  lemma StepTellsIfcEarly(w: World, job: Job, k: nat)
    requires job.Valid() && job.output.Ifc? && k < 6 && k < |Steps(job)|
    requires Steps(job)[k].UploadChunk? ==> Steps(job)[k].part < |Keys(job)|
    ensures Told(job, k) <= Told(job, k + 1)
    ensures Done(w, job, Steps(job)[k]).events == w.events + Script(job)[Told(job, k)..Told(job, k + 1)]
  {
    StepAt(job, k);
    hide Keys, Steps, Chunked, Properties, WithStatus;
    IfcScript(job);
    assert w.events + [] == w.events;
    hide Script;
    if k == 0 {
      assert Told(job, k) == 0 && Told(job, k + 1) == 1;
    } else if k < 3 {
      assert Told(job, k) == Told(job, k + 1) == 1;
    } else if k == 3 {
      assert Told(job, k) == 1 && Told(job, k + 1) == 2;
    } else if k == 4 {
      assert Told(job, k) == 2 && Told(job, k + 1) == 3;
    } else {
      assert Told(job, k) == 3 && Told(job, k + 1) == 4;
    }
  }

  lemma StepTellsIfcLate(w: World, job: Job, k: nat)
    requires job.Valid() && job.output.Ifc? && 6 <= k < |Steps(job)|
    requires Steps(job)[k].UploadChunk? ==> Steps(job)[k].part < |Keys(job)|
    ensures Told(job, k) <= Told(job, k + 1)
    ensures Done(w, job, Steps(job)[k]).events == w.events + Script(job)[Told(job, k)..Told(job, k + 1)]
  {
    StepAt(job, k);
    hide Keys, Steps, Chunked, Properties, WithStatus;
    IfcScript(job);
    var ready := ModelReady(Keys(job));
    assert w.events + [] == w.events;
    assert w.events + [ready] + [Progress(100, "ready")] == w.events + [ready, Progress(100, "ready")];
    hide Script;
    if k < 6 + |Keys(job)| {
      assert Told(job, k) == Told(job, k + 1) == 4;
    } else if k == 6 + |Keys(job)| {
      assert Told(job, k) == 4 && Told(job, k + 1) == 5;
    } else if k <= 8 + |Keys(job)| {
      assert Told(job, k) == Told(job, k + 1) == 5;
    } else if k == 9 + |Keys(job)| {
      assert Told(job, k) == 5 && Told(job, k + 1) == 7;
    } else {
      assert Told(job, k) == Told(job, k + 1) == 7;
    }
  }

  lemma StepTells(w: World, job: Job, k: nat)
    requires job.Valid() && k < |Steps(job)|
    requires Steps(job)[k].UploadChunk? ==> Steps(job)[k].part < |Keys(job)|
    ensures Told(job, k) <= Told(job, k + 1)
    ensures Done(w, job, Steps(job)[k]).events == w.events + Script(job)[Told(job, k)..Told(job, k + 1)]
  {
    if job.output.Gltf? {
      StepTellsGltf(w, job, k);
    } else if k < 6 {
      StepTellsIfcEarly(w, job, k);
    } else {
      StepTellsIfcLate(w, job, k);
    }
  }

  lemma {:induction false} StagesTell(w0: World, w: World, job: Job, max: nat, k: nat, j: nat)
    requires job.Valid() && k <= j <= |Steps(job)| && w.events == w0.events + Script(job)[..Told(job, k)]
    requires forall i | 0 <= i < |Steps(job)| :: Steps(job)[i].UploadChunk? ==> Steps(job)[i].part < |Keys(job)|
    requires forall i | k <= i < j :: Raised(job, max, Steps(job)[i]).None?
    requires j < |Steps(job)| ==> Raised(job, max, Steps(job)[j]).Some?
    ensures Stages(w, job, max, Steps(job)[k..]).0.events == w0.events + Script(job)[..Told(job, j)]
    decreases j - k
  {
    hide Steps, Script, Told, Done, Raised, StageOf;
    var steps := Steps(job);
    if k < |steps| {
      assert steps[k..][0] == steps[k] && steps[k..][1..] == steps[k + 1..];
      if k < j {
        StepTells(w, job, k);
        var told, next := Told(job, k), Told(job, k + 1);
        assert Script(job)[..told] + Script(job)[told..next] == Script(job)[..next];
        StagesTell(w0, Done(w, job, steps[k]), job, max, k + 1, j);
      }
    }
  }

  // ---- whole runs ----

  /** The upload limit of a plan, in bytes: 500 MB for pro, 5 GB for enterprise, 50 MB for any other. */
  lemma PlanLimits(plan: Option<string>)
    ensures PlanMax(plan) == if plan == Some("pro") then 524_288_000
                             else if plan == Some("enterprise") then 5_368_709_120
                             else 52_428_800
  {
  }

  /** The run gets as far as the stage block. */
  predicate Begun(w: World, job: Job) {
    && Admitted(w, job) && job.readRow.None? && job.setup.None?
    && w.row.Some? && w.row.value.rawKey != "" && w.row.value.size <= PlanMax(w.row.value.plan)
  }

  /** Step j is the first of the stage block that raises, or j is behind the last step. */
  ghost predicate FirstFault(w: World, job: Job, j: nat)
    requires job.Valid() && w.row.Some?
  {
    var max := PlanMax(w.row.value.plan);
    && j <= |Steps(job)|
    && (forall i | 0 <= i < j :: Raised(job, max, Steps(job)[i]).None?)
    && (j < |Steps(job)| ==> Raised(job, max, Steps(job)[j]).Some?)
  }

  /** A failure that may be tried again: transient, and not of a kind that will fail the same way. */
  predicate MayRetry(job: Job, e: Exception) {
    && e.transient && e.kind != SoftLimit && !(e.kind == Validation && job.output.Gltf?)
    && e.name != "GltfValidationError" && e.name != "ValidationError" && e.name != "FileTooLargeError"
    && e.name != "SoftTimeLimitExceeded" && e.name != "ImportError" && e.name != "ModuleNotFoundError"
    && e.name != "RuntimeError" && e.name != "ValueError" && e.name != "TypeError" && e.name != "AttributeError"
  }

  /** The stage and the exception name that a failure is reported under. */
  function Reported(job: Job, stage: string, e: Exception): (string, string) {
    if job.output.Gltf? && e.kind == Validation then ("validate", e.name)
    else if e.kind == SoftLimit then (stage, "SoftTimeLimitExceeded")
    else (stage, e.name)
  }

  /**
   A run of the stage block, told by its first fault: without one it publishes the whole script and "model.ready";
   with one, the script so far and then one MODEL_FAILED with the stage and the name of the exception, and
   "model.failed" unless that could not be sent; the outcome names the same stage and exception, or is the retry.
   */
  lemma BlockReports(w: World, job: Job) returns (j: nat)
    requires job.Valid() && Begun(w, job)
    ensures FirstFault(w, job, j)
    ensures j == |Steps(job)| ==>
              && Run(w, job).1 == Completed(|Keys(job)|)
              && Run(w, job).0.events == w.events + Script(job) && Run(w, job).0.hooks == w.hooks + ["model.ready"]
    ensures j < |Steps(job)| ==>
              && j < |StageNames(job)|
              && var e := Raised(job, PlanMax(w.row.value.plan), Steps(job)[j]).value;
                 var (stage, name) := Reported(job, StageNames(job)[j], e);
                 && Run(w, job).0.events == w.events + Script(job)[..Told(job, j)] + [ModelFailed(stage, name)]
                 && Run(w, job).0.hooks == w.hooks + (if job.failedHook then [] else ["model.failed"])
                 && Run(w, job).1 == if MayRetry(job, e) then Retry(e) else FailedAt(stage, name)
  {
    var held, max := Lock(w, job), PlanMax(w.row.value.plan);
    j := StagesReport(held, job, max);
    RunOfBlock(w, job);
    AllTold(job);
    hide Run, Stages, Steps, Keys, Script, Told, StageNames, Raised, Caught, MayRetry, Reported;
    if j < |Steps(job)| {
      var (end, raised) := Stages(held, job, max, Steps(job));
      CaughtReports(end, job, raised.value.0, raised.value.1);
    }
  }

  lemma StagesReport(w: World, job: Job, max: nat) returns (j: nat)
    requires job.Valid()
    ensures j <= |Steps(job)| == |StageNames(job)| == MetadataAt(job) + 3
    ensures forall i | 0 <= i < j :: Raised(job, max, Steps(job)[i]).None?
    ensures j < |Steps(job)| ==> Raised(job, max, Steps(job)[j]).Some?
    ensures var (end, raised) := Stages(w, job, max, Steps(job));
            && end.events == w.events + Script(job)[..Told(job, j)]
            && end.hooks == w.hooks + (if j < |Steps(job)| then [] else ["model.ready"])
            && raised == (if j < |Steps(job)| then Some((StageNames(job)[j], Raised(job, max, Steps(job)[j]).value)) else None)
  {
    UploadsInRange(job);
    StageName(job, 0);
    j := StageBlock(w, job, max);
    var (end, raised) := Stages(w, job, max, Steps(job));
    assert raised.None? <==> j == |Steps(job)|;
    if j < |Steps(job)| { StageName(job, j); }
    hide Steps, Stages, Keys, Script, Told, StageNames, Stored, Faulty, Raised, StageOf, Verdict, Properties;
    EventsAt(w, job, max, j);
  }

  lemma RunOfBlock(w: World, job: Job)
    requires job.Valid() && Begun(w, job)
    ensures var held := Lock(w, job);
            var (end, raised) := Stages(held, job, PlanMax(w.row.value.plan), Steps(job));
            Run(w, job) == match raised
                           case Some(fault) => Caught(end, job, fault.0, fault.1)
                           case None => (Unlock(end, job), Completed(|Keys(job)|))
  {
    hide Stages, Steps, Keys, Caught;
  }

  lemma EventsAt(w: World, job: Job, max: nat, j: nat)
    requires job.Valid() && j <= |Steps(job)|
    requires forall i | 0 <= i < j :: Raised(job, max, Steps(job)[i]).None?
    requires j < |Steps(job)| ==> Raised(job, max, Steps(job)[j]).Some?
    ensures Stages(w, job, max, Steps(job)).0.events == w.events + Script(job)[..Told(job, j)]
  {
    UploadsInRange(job);
    assert Told(job, 0) == 0;
    hide Steps, Script, Told, Raised;
    assert Steps(job)[0..] == Steps(job) && w.events + Script(job)[..0] == w.events;
    StagesTell(w, w, job, max, 0, j);
  }

  lemma AllTold(job: Job)
    requires job.Valid()
    ensures Script(job)[..Told(job, MetadataAt(job) + 3)] == Script(job)
  {
    hide Keys;
  }

  lemma CaughtReports(w: World, job: Job, stage: string, e: Exception)
    ensures var (after, outcome) := Caught(w, job, stage, e);
            var (where, name) := Reported(job, stage, e);
            && after.events == w.events + [ModelFailed(where, name)]
            && after.hooks == w.hooks + (if job.failedHook then [] else ["model.failed"])
            && outcome == if MayRetry(job, e) then Retry(e) else FailedAt(where, name)
  {
    assert IsRetryable(SOFT_LIMIT) == false;
  }

  /** Over every run, a webhook says what the outcome says: "model.ready", "model.failed" unless it was lost, or nothing. */
  lemma RunReports(w: World, job: Job)
    requires job.Valid()
    ensures var (after, outcome) := Run(w, job);
            && (outcome.Completed? <==> Begun(w, job) && !Faulty(job, PlanMax(w.row.value.plan)))
            && after.hooks == w.hooks +
                 (if outcome.Completed? then ["model.ready"]
                  else if (outcome.FailedAt? || outcome.Retry?) && !job.failedHook then ["model.failed"] else [])
            && w.events <= after.events
            && (outcome.FailedAt? ==> after.events[|after.events| - 1..] == [ModelFailed(outcome.stage, outcome.errorType)])
            && (!Begun(w, job) && !outcome.FailedAt? ==> after.events == w.events)
  {
    if Begun(w, job) {
      var j := BlockReports(w, job);
      BlockCompletes(w, job, j);
      hide Run, Steps, Script, Told, Keys, Raised, StageNames, Reported, MayRetry, Faulty, FirstFault, Begun;
    } else {
      hide Stages, Steps, Keys, Caught, Faulty;
    }
  }

  lemma BlockCompletes(w: World, job: Job, j: nat)
    requires job.Valid() && Begun(w, job) && FirstFault(w, job, j)
    ensures j == |Steps(job)| <==> !Faulty(job, PlanMax(w.row.value.plan))
  {
    hide Steps, Raised;
  }

  /** What can go wrong in a step: its own fault, or the size of the download; after the uploads comes a step that cannot. */
  lemma RaisedIs(job: Job, max: nat, step: Step)
    ensures Raised(job, max, step) ==
              if step.Uploaded? then None
              else if step.SizeCheck? && job.diskSize > max then Some(Exception("FileTooLargeError", Plain, false))
              else job.faults(step)
  {
  }

  /** A file over the limit of its plan, by the row or as downloaded, never gets ready, and is reported as too large. */
  lemma TooLargeIsRefused(w: World, job: Job)
    requires job.Valid() && Admitted(w, job) && job.readRow.None? && w.row.Some? && w.row.value.rawKey != ""
    ensures var limit := if w.row.value.plan == Some("pro") then 524_288_000
                         else if w.row.value.plan == Some("enterprise") then 5_368_709_120 else 52_428_800;
            var (after, outcome) := Run(w, job);
            && (w.row.value.size > limit ==> outcome == FailedAt("size_check", "FileTooLargeError"))
            && (w.row.value.size > limit || job.diskSize > limit ==> !outcome.Completed?)
            && (w.row.value.size <= limit < job.diskSize && job.setup.None? && job.faults(Download).None? ==>
                  outcome == FailedAt("size_check", "FileTooLargeError"))
  {
    PlanLimits(w.row.value.plan);
    if Begun(w, job) {
      var j := BlockReports(w, job);
      DownloadThenSize(job);
      hide Run, Script, Told, Keys, StageNames, Steps;
    } else {
      hide Stages, Steps, Keys, Caught, Faulty;
    }
  }

  lemma DownloadThenSize(job: Job)
    requires job.Valid()
    ensures |Steps(job)| >= 2 && Steps(job)[0] == Download && Steps(job)[1] == SizeCheck
    ensures |StageNames(job)| >= 2 && StageNames(job)[1] == "size_check"
  {
    hide Keys;
  }
}
