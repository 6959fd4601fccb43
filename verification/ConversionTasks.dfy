/** `process_gltf` and `process_model` step by step, on the state that they change. */
module ConversionTasks {
  import opened Wrappers
  import opened Converter
  import C = Chunks
  import U = ChunkUrls

  class Worker {
    var row: Option<Row>
    var locked: bool
    var events: seq<Event>
    var store: U.Store
    var metadata: Option<U.Properties>
    var prefix: Option<string>
    var hooks: seq<string>
    ghost var releases: nat

    ghost function View(): World
      reads this
    {
      World(row, locked, events, store, metadata, prefix, hooks, releases)
    }

    constructor (w: World)
      ensures View() == w
    {
      row, locked, events, store := w.row, w.locked, w.events, w.store;
      metadata, prefix, hooks, releases := w.metadata, w.prefix, w.hooks, w.releases;
    }

    method UpdateModelStatus(status: Status)
      modifies this`row
      ensures View() == WithStatus(old(View()), status)
    {
      if row.Some? { row := Some(row.value.(status := status)); }
    }

    method PublishEvent(e: Event)
      modifies this`events
      ensures View() == Publish(old(View()), e)
    {
      events := events + [e];
    }

    /** SET NX; without Redis the run goes on as if it held the lock. */
    method AcquireTaskLock(job: Job) returns (acquired: bool)
      modifies this`locked
      ensures acquired <==> !old(locked) || !job.acquire.Answered?
      ensures View() == if acquired then Lock(old(View()), job) else old(View())
    {
      if job.acquire.Lost? {
        return true;
      }
      acquired := !locked || job.acquire.Unheard?;
      locked := true;
    }

    method ReleaseTaskLock(job: Job)
      modifies this`locked, this`releases
      ensures View() == Unlock(old(View()), job)
    {
      if !job.release.Lost? { locked := false; }
      releases := releases + 1;
    }

    method HandleTaskFailure(job: Job, stage: string, e: Exception)
      modifies this
      ensures View() == Fail(old(View()), job, stage, e)
      ensures events == old(events) + [ModelFailed(stage, e.name)]
      ensures hooks == old(hooks) + if job.failedHook then [] else ["model.failed"]
      ensures row == if old(row).None? || job.failedWrite.Some? then old(row)
                     else Some(old(row).value.(status := Failed))
    {
      if job.failedWrite.None? { UpdateModelStatus(Failed); }
      PublishEvent(ModelFailed(stage, e.name));
      if !job.failedHook { hooks := hooks + ["model.failed"]; }
    }

    // ---- the stage blocks; `raised` is what leaves them, with `stage` as it stood then ----

    /** glTF, from the download to the split. */
    method MakeGltf(job: Job, max: nat) returns (stage: string, raised: Option<Exception>)
      requires job.Valid() && job.output.Gltf?
      modifies this`events
      ensures StagesAt(old(View()), job, max, 0)
           == if raised.Some? then (View(), Some((stage, raised.value)))
              else StagesAt(View(), job, max, FirstUpload(job))
    {
      hide StagesAt, Stages, Steps, Keys, Chunked, Raised, MetadataAt;
      UploadsInRange(job);

      stage := "download";
      StagesUnroll(View(), job, max, 0);
      StepAt(job, 0);
      raised := Raised(job, max, Download);
      if raised.Some? { return; }
      PublishEvent(Progress(10, "download"));

      stage := "size_check";
      StagesUnroll(View(), job, max, 1);
      StepAt(job, 1);
      raised := Raised(job, max, SizeCheck);
      if raised.Some? { return; }

      stage := "validate";
      StagesUnroll(View(), job, max, 2);
      StepAt(job, 2);
      raised := Raised(job, max, Validate);
      if raised.Some? { return; }
      PublishEvent(Progress(25, "validate"));

      stage := "compress";
      StagesUnroll(View(), job, max, 3);
      StepAt(job, 3);
      raised := Raised(job, max, Compress);
      if raised.Some? { return; }
      PublishEvent(Progress(50, "optimize"));

      stage := "split";
      StagesUnroll(View(), job, max, 4);
      StepAt(job, 4);
      raised := Raised(job, max, Split);
    }

    /** IFC, from the download to the conversion. */
    method MakeXkt(job: Job, max: nat) returns (stage: string, raised: Option<Exception>)
      requires job.Valid() && job.output.Ifc?
      modifies this`events
      ensures StagesAt(old(View()), job, max, 0)
           == if raised.Some? then (View(), Some((stage, raised.value)))
              else StagesAt(View(), job, max, FirstUpload(job))
    {
      hide StagesAt, Stages, Steps, Keys, Chunked, Raised, MetadataAt;
      UploadsInRange(job);

      stage := "download";
      StagesUnroll(View(), job, max, 0);
      StepAt(job, 0);
      raised := Raised(job, max, Download);
      if raised.Some? { return; }
      PublishEvent(Progress(10, "download"));

      stage := "size_check";
      StagesUnroll(View(), job, max, 1);
      StepAt(job, 1);
      raised := Raised(job, max, SizeCheck);
      if raised.Some? { return; }

      stage := "parse";
      StagesUnroll(View(), job, max, 2);
      StepAt(job, 2);
      raised := Raised(job, max, Parse);
      if raised.Some? { return; }

      stage := "validate";
      StagesUnroll(View(), job, max, 3);
      StepAt(job, 3);
      raised := Raised(job, max, Validate);
      if raised.Some? { return; }
      PublishEvent(Progress(25, "parse"));

      stage := "extract";
      StagesUnroll(View(), job, max, 4);
      StepAt(job, 4);
      raised := Raised(job, max, Extract);
      if raised.Some? { return; }
      PublishEvent(Progress(50, "extract"));

      stage := "convert";
      StagesUnroll(View(), job, max, 5);
      StepAt(job, 5);
      raised := Raised(job, max, Convert);
      if raised.None? { PublishEvent(Progress(75, "convert")); }
    }

    /** One file after the other, the keys collected in `uploaded`; stops at the first upload that raises. */
    method UploadChunks(job: Job, max: nat) returns (uploaded: seq<string>, raised: Option<Exception>)
      requires job.Valid()
      modifies this`store
      ensures raised.None? ==>
                uploaded == Keys(job)
                && UploadingAt(old(View()), job, max, 0) == UploadingAt(View(), job, max, |Keys(job)|)
      ensures raised.Some? ==> UploadingAt(old(View()), job, max, 0) == (View(), Some(("upload", raised.value)))
    {
      hide UploadingAt, Keys, Chunked, Raised, Job.Valid, Job.Prefix, U.KeyFor;
      ChunksListed(job);
      var files, chunks := Chunked(job).0, Chunked(job).1;
      uploaded := [];
      ghost var keys := Keys(job);
      assert forall k | 0 <= k < |chunks| :: keys[k] == U.KeyFor(job.Prefix(), chunks[k]);
      var i := 0;
      while i < |chunks|
        invariant i <= |chunks| && uploaded == keys[..i]
        invariant UploadingAt(old(View()), job, max, 0) == UploadingAt(View(), job, max, i)
      {
        UploadUnroll(View(), job, max, i);
        raised := Raised(job, max, UploadChunk(i));
        if raised.Some? {
          return;
        }
        var key := U.KeyFor(job.Prefix(), chunks[i]);
        store := store[key := files[chunks[i]]];
        uploaded := uploaded + [key];
        i := i + 1;
      }
      raised := None;
    }

    /** IFC, between the uploads and the metadata. */
    method RecordElements(job: Job, max: nat) returns (stage: string, raised: Option<Exception>)
      requires job.Valid() && job.output.Ifc?
      modifies this`events
      ensures StagesAt(old(View()), job, max, FirstUpload(job) + |Keys(job)|)
           == if raised.Some? then (View(), Some((stage, raised.value)))
              else StagesAt(View(), job, max, MetadataAt(job))
    {
      hide StagesAt, Stages, Steps, Keys, Chunked;
      UploadsInRange(job);
      ghost var k := FirstUpload(job) + |Keys(job)|;
      assert MetadataAt(job) == k + 2;
      StepAt(job, k);
      StagesUnroll(View(), job, max, k);
      PublishEvent(Progress(90, "upload"));

      stage := "metadata";
      StepAt(job, k + 1);
      StagesUnroll(View(), job, max, k + 1);
      raised := Raised(job, max, Elements);
    }

    /** From the metadata to the webhooks. */
    method RecordOutput(job: Job, max: nat, uploaded: seq<string>) returns (stage: string, raised: Option<Exception>)
      requires job.Valid() && uploaded == Keys(job)
      modifies this
      ensures StagesAt(old(View()), job, max, MetadataAt(job))
           == (View(), if raised.Some? then Some((stage, raised.value)) else None)
    {
      hide StagesAt, Steps, Keys, Raised, MetadataAt, Job.Valid, Job.Prefix, Properties, U.Written, WithStatus;

      stage := "metadata";
      MetadataUnroll(View(), job, max);
      raised := Raised(job, max, Metadata);
      if raised.Some? { return; }
      assert Properties(job) == U.Written(job.output.Ifc?, uploaded) by { PropertiesAre(job); }
      metadata := Some(U.Written(job.output.Ifc?, uploaded));

      stage := "finalize";
      FinalizeUnroll(View(), job, max);
      raised := Raised(job, max, Finalize);
      if raised.Some? { return; }
      UpdateModelStatus(Ready);
      prefix := Some(job.Prefix());
      PublishEvent(ModelReady(uploaded));
      if job.output.Ifc? { PublishEvent(Progress(100, "ready")); }

      WebhookUnroll(View(), job, max);
      raised := Raised(job, max, Webhook);
      if raised.Some? { return; }
      hooks := hooks + ["model.ready"];
    }

    method GltfStages(job: Job, max: nat) returns (stage: string, raised: Option<Exception>)
      requires job.Valid() && job.output.Gltf?
      modifies this
      ensures StagesAt(old(View()), job, max, 0)
           == (View(), if raised.Some? then Some((stage, raised.value)) else None)
    {
      hide StagesAt, Steps, Keys;
      UploadsInRange(job);
      stage, raised := MakeGltf(job, max);
      if raised.Some? { return; }
      stage := "upload";
      var uploaded;
      uploaded, raised := UploadChunks(job, max);
      if raised.Some? { return; }
      stage, raised := RecordOutput(job, max, uploaded);
    }

    method IfcStages(job: Job, max: nat) returns (stage: string, raised: Option<Exception>)
      requires job.Valid() && job.output.Ifc?
      modifies this
      ensures StagesAt(old(View()), job, max, 0)
           == (View(), if raised.Some? then Some((stage, raised.value)) else None)
    {
      hide StagesAt, Steps, Keys;
      UploadsInRange(job);
      stage, raised := MakeXkt(job, max);
      if raised.Some? { return; }
      stage := "upload";
      var uploaded;
      uploaded, raised := UploadChunks(job, max);
      if raised.Some? { return; }
      stage, raised := RecordElements(job, max);
      if raised.Some? { return; }
      stage, raised := RecordOutput(job, max, uploaded);
    }

    // ---- the tasks ----

    /** What both tasks do before the stage block, up to the temporary directories: an outcome ends the run here. */
    method Admit(job: Job) returns (early: Option<Outcome>)
      requires job.Valid()
      modifies this
      ensures early.Some? ==> (View(), early.value) == Run(old(View()), job)
      ensures early.None? ==>
                && Admitted(old(View()), job) && View() == Lock(old(View()), job)
                && job.readRow.None? && job.setup.None?
                && row.Some? && row.value.rawKey != "" && row.value.size <= PlanMax(row.value.plan)
    {
      hide Stages, Steps, Keys, Chunked, Raised;
      if row.Some? && (row.value.status == Ready || row.value.status == Failed) {
        return Some(AlreadyProcessed);
      }
      var acquired := AcquireTaskLock(job);
      if !acquired {
        return Some(Duplicate);
      }
      if job.readRow.Some? {
        return Some(Crashed(job.readRow.value));
      }
      if row.None? {
        ReleaseTaskLock(job);
        return Some(NotFound);
      }
      if row.value.rawKey == "" {
        if job.failedWrite.Some? {
          return Some(Crashed(job.failedWrite.value));
        }
        UpdateModelStatus(Failed);
        return Some(NoRawKey);
      }
      if row.value.size > PlanMax(row.value.plan) {
        HandleTaskFailure(job, "size_check", FILE_TOO_LARGE);
        ReleaseTaskLock(job);
        return Some(FailedAt("size_check", FILE_TOO_LARGE.name));
      }
      if job.setup.Some? {
        return Some(Crashed(job.setup.value));
      }
      early := None;
    }

    method ProcessGltf(job: Job) returns (outcome: Outcome)
      requires job.Valid() && job.output.Gltf?
      modifies this
      ensures (View(), outcome) == Run(old(View()), job)
    {
      hide StagesAt, Stages, Steps, Keys, Chunked, Raised, IsRetryable, PlanMax;
      var early := Admit(job);
      if early.Some? {
        return early.value;
      }
      AllStages(View(), job, PlanMax(row.value.plan));
      var stage, raised := GltfStages(job, PlanMax(row.value.plan));
      if raised.None? {
        ReleaseTaskLock(job);
        return Completed(|Keys(job)|);
      }
      var e := raised.value;
      match e.kind
      case Validation =>
        ReleaseTaskLock(job);
        HandleTaskFailure(job, "validate", e);
        outcome := FailedAt("validate", e.name);
      case SoftLimit =>
        ReleaseTaskLock(job);
        HandleTaskFailure(job, stage, SOFT_LIMIT);
        outcome := FailedAt(stage, SOFT_LIMIT.name);
      case Plain =>
        HandleTaskFailure(job, stage, e);
        ReleaseTaskLock(job);
        outcome := if IsRetryable(e) then Retry(e) else FailedAt(stage, e.name);
    }

    method ProcessModel(job: Job) returns (outcome: Outcome)
      requires job.Valid() && job.output.Ifc?
      modifies this
      ensures (View(), outcome) == Run(old(View()), job)
    {
      hide StagesAt, Stages, Steps, Keys, Chunked, Raised, IsRetryable, PlanMax;
      var early := Admit(job);
      if early.Some? {
        return early.value;
      }
      AllStages(View(), job, PlanMax(row.value.plan));
      var stage, raised := IfcStages(job, PlanMax(row.value.plan));
      if raised.None? {
        ReleaseTaskLock(job);
        return Completed(|Keys(job)|);
      }
      var e := raised.value;
      if e.kind == SoftLimit {
        ReleaseTaskLock(job);
        HandleTaskFailure(job, stage, SOFT_LIMIT);
        outcome := FailedAt(stage, SOFT_LIMIT.name);
      } else {
        HandleTaskFailure(job, stage, e);
        ReleaseTaskLock(job);
        outcome := if IsRetryable(e) then Retry(e) else FailedAt(stage, e.name);
      }
    }
  }

  /** The stage block from step k on. */
  ghost function StagesAt(w: World, job: Job, max: nat, k: nat): (World, Option<(string, Exception)>)
    requires job.Valid() && k <= |Steps(job)|
  {
    Stages(w, job, max, Steps(job)[k..])
  }

  lemma AllStages(w: World, job: Job, max: nat)
    requires job.Valid()
    ensures StagesAt(w, job, max, 0) == Stages(w, job, max, Steps(job))
  {
    assert Steps(job)[0..] == Steps(job);
  }

  lemma StagesUnroll(w: World, job: Job, max: nat, k: nat)
    requires job.Valid() && k < |Steps(job)|
    ensures var step := Steps(job)[k];
            StagesAt(w, job, max, k) ==
            (match Raised(job, max, step)
             case Some(e) => (w, Some((StageOf(step), e)))
             case None => StagesAt(Done(w, job, step), job, max, k + 1))
  {
    hide Steps, Done, Raised, StageOf;
    assert Steps(job)[k..][0] == Steps(job)[k] && Steps(job)[k..][1..] == Steps(job)[k + 1..];
  }

  /** The stage block from the upload of chunk i on. */
  ghost function UploadingAt(w: World, job: Job, max: nat, i: nat): (World, Option<(string, Exception)>)
    requires job.Valid() && i <= |Keys(job)|
  {
    UploadsInRange(job);
    StagesAt(w, job, max, FirstUpload(job) + i)
  }

  lemma UploadUnroll(w: World, job: Job, max: nat, i: nat)
    requires job.Valid() && i < |Keys(job)|
    ensures Chunked(job).1[i] in Chunked(job).0
    ensures UploadingAt(w, job, max, i) ==
            (match Raised(job, max, UploadChunk(i))
             case Some(e) => (w, Some(("upload", e)))
             case None =>
               UploadingAt(w.(store := w.store[Keys(job)[i] := Chunked(job).0[Chunked(job).1[i]]]), job, max, i + 1))
  {
    UploadsInRange(job);
    ChunksListed(job);
    StepAt(job, FirstUpload(job) + i);
    UploadIs(w, job, i);
    hide StagesAt, Steps, Keys, Chunked, Raised, Done, StageOf;
    StagesUnroll(w, job, max, FirstUpload(job) + i);
  }

  lemma UploadIs(w: World, job: Job, i: nat)
    requires job.Valid() && i < |Keys(job)|
    ensures i < |Chunked(job).1| && Chunked(job).1[i] in Chunked(job).0 && StageOf(UploadChunk(i)) == "upload"
    ensures Done(w, job, UploadChunk(i))
            == w.(store := w.store[Keys(job)[i] := Chunked(job).0[Chunked(job).1[i]]])
  {
    ChunksListed(job);
    hide Keys, Chunked;
  }

  lemma PropertiesAre(job: Job)
    requires job.Valid()
    ensures Properties(job) == U.Written(job.output.Ifc?, Keys(job))
  {
  }

  lemma MetadataUnroll(w: World, job: Job, max: nat)
    requires job.Valid()
    ensures |Steps(job)| == MetadataAt(job) + 3
    ensures StagesAt(w, job, max, MetadataAt(job)) ==
            (match Raised(job, max, Metadata)
             case Some(e) => (w, Some(("metadata", e)))
             case None => StagesAt(w.(metadata := Some(Properties(job))), job, max, MetadataAt(job) + 1))
  {
    UploadsInRange(job);
    StepAt(job, MetadataAt(job));
    hide StagesAt, Steps, Keys, Chunked, Raised, MetadataAt, Properties;
    StagesUnroll(w, job, max, MetadataAt(job));
  }

  lemma FinalizeUnroll(w: World, job: Job, max: nat)
    requires job.Valid()
    ensures |Steps(job)| == MetadataAt(job) + 3
    ensures StagesAt(w, job, max, MetadataAt(job) + 1) ==
            (match Raised(job, max, Finalize)
             case Some(e) => (w, Some(("finalize", e)))
             case None =>
               var ready := Publish(WithStatus(w, Ready).(prefix := Some(job.Prefix())), ModelReady(Keys(job)));
               StagesAt(if job.output.Ifc? then Publish(ready, Progress(100, "ready")) else ready, job, max,
                        MetadataAt(job) + 2))
  {
    UploadsInRange(job);
    StepAt(job, MetadataAt(job) + 1);
    hide StagesAt, Steps, Keys, Chunked, Raised, MetadataAt, Properties;
    StagesUnroll(w, job, max, MetadataAt(job) + 1);
  }

  lemma WebhookUnroll(w: World, job: Job, max: nat)
    requires job.Valid()
    ensures |Steps(job)| == MetadataAt(job) + 3
    ensures StagesAt(w, job, max, MetadataAt(job) + 2) ==
            (match Raised(job, max, Webhook)
             case Some(e) => (w, Some(("finalize", e)))
             case None => (w.(hooks := w.hooks + ["model.ready"]), None))
  {
    UploadsInRange(job);
    StepAt(job, MetadataAt(job) + 2);
    StagesEnd(w.(hooks := w.hooks + ["model.ready"]), job, max);
    hide StagesAt, Steps, Keys, Chunked, Raised, MetadataAt, Properties;
    StagesUnroll(w, job, max, MetadataAt(job) + 2);
  }

  lemma StagesEnd(w: World, job: Job, max: nat)
    requires job.Valid()
    ensures |Steps(job)| == MetadataAt(job) + 3
    ensures StagesAt(w, job, max, MetadataAt(job) + 3) == (w, None)
  {
    UploadsInRange(job);
  }
}
