/**
 The conversion tasks of glTF and IFC models, as a run over the model's row, its lock, its events and the object
 store. What the tools, the database and S3 do in one run comes in as a `Job`; every stage may raise.
 */
module Converter {
  import opened Wrappers
  import opened Bytes
  import C = Chunks
  import L = TaskLock
  import U = ChunkUrls

  /** InProgress stands for every status other than "ready" and "failed". */
  datatype Status = InProgress | Ready | Failed

  datatype Row = Row(status: Status, rawKey: string, plan: Option<string>, size: nat)

  datatype Event =
    | Progress(percent: nat, stage: string)
    | ModelReady(keys: seq<string>)
    | ModelFailed(stage: string, error: string)

  /**
   `metadata` is model_metadata.properties; `hooks` are the webhook fan-outs that went through; `releases`, which
   counts the deletes of the lock, is history.
   */
  datatype World = World(row: Option<Row>, locked: bool, events: seq<Event>, store: U.Store,
                         metadata: Option<U.Properties>, prefix: Option<string>, hooks: seq<string>,
                         releases: nat)

  // ---- exceptions ----

  /** Which except clause an exception meets; `transient` says it is an instance of a retryable base class. */
  datatype Kind = Validation | SoftLimit | Plain

  datatype Exception = Exception(name: string, kind: Kind, transient: bool)

  const PERMANENT_NAMES := {
    "GltfValidationError", "ValidationError", "FileTooLargeError", "SoftTimeLimitExceeded", "ImportError",
    "ModuleNotFoundError", "RuntimeError", "ValueError", "TypeError", "AttributeError" }

  predicate IsRetryable(e: Exception) {
    e.name !in PERMANENT_NAMES && e.transient
  }

  const FILE_TOO_LARGE := Exception("FileTooLargeError", Plain, false)

  const SOFT_LIMIT := Exception("SoftTimeLimitExceeded", SoftLimit, false)

  // ---- one run ----

  datatype Step =
    | Download | SizeCheck | Validate | Compress | Split
    | Parse | Extract | Convert
    | UploadChunk(part: nat) | Uploaded | Elements | Metadata | Finalize | Webhook

  /** The tools' output: one file to split, or the sorted .xkt files. */
  datatype Output = Gltf(stem: string, ext: string) | Ifc(stems: seq<string>, max: nat)

  /**
   What happens to one run: the output directory as the tools leave it, the size of the download, the stages that
   raise, whether reading the row or making the temporary directories raises, how the calls that take and delete the
   lock end (an acquire that is not answered counts as taken), and whether the writes of the failure path go through.
   */
  datatype Job = Job(modelId: string, files: C.Files, output: Output, diskSize: nat,
                     faults: Step -> Option<Exception>, readRow: Option<Exception>, setup: Option<Exception>,
                     failedWrite: Option<Exception>, failedHook: bool, acquire: L.RedisCall, release: L.RedisCall)
  {
    /** The output exists, and chunks may hold at least a byte. */
    ghost predicate Valid() {
      match output
      case Gltf(stem, ext) => stem + ext in files
      case Ifc(stems, max) => (forall i | 0 <= i < |stems| :: stems[i] + C.XKT in files) && max >= 1
    }

    function Prefix(): string {
      "processed/" + modelId
    }
  }

  const CHUNK_MAX := 32 * 1024 * 1024

  const MB := 1024 * 1024

  function PlanMax(plan: Option<string>): nat {
    if plan == Some("pro") then 500 * MB
    else if plan == Some("enterprise") then 5 * 1024 * MB
    else 50 * MB
  }

  function Raised(job: Job, max: nat, step: Step): Option<Exception> {
    if step == SizeCheck && job.diskSize > max then Some(FILE_TOO_LARGE)
    else if step == Uploaded then None
    else job.faults(step)
  }

  function StageOf(step: Step): string {
    match step
    case Download => "download"
    case SizeCheck => "size_check"
    case Validate => "validate"
    case Compress => "compress"
    case Split => "split"
    case Parse => "parse"
    case Extract => "extract"
    case Convert => "convert"
    case UploadChunk(_) => "upload"
    case Uploaded => "upload"
    case Elements => "metadata"
    case Metadata => "metadata"
    case Finalize => "finalize"
    case Webhook => "finalize"
  }

  /** The directory after splitting, and the chunks. */
  function Chunked(job: Job): (C.Files, seq<string>)
    requires job.Valid()
  {
    match job.output
    case Gltf(stem, ext) => C.SplitOne(job.files, stem, ext, CHUNK_MAX)
    case Ifc(stems, max) => C.SplitAll(job.files, stems, max)
  }

  lemma ChunksListed(job: Job)
    requires job.Valid()
    ensures forall i | 0 <= i < |Chunked(job).1| :: Chunked(job).1[i] in Chunked(job).0
    ensures Chunked(job).1 == [] <==> job.output.Ifc? && job.output.stems == []
  {
    match job.output
    case Gltf(stem, ext) =>
      C.SplitReadsBack(job.files, stem, ext, CHUNK_MAX);
      if |job.files[stem + ext]| > CHUNK_MAX { C.PartsForm(job.files[stem + ext], CHUNK_MAX); }
    case Ifc(stems, max) => C.AllListed(job.files, stems, max);
  }

  function Keys(job: Job): (keys: seq<string>)
    requires job.Valid()
    ensures |keys| == |Chunked(job).1|
    ensures forall i | 0 <= i < |keys| :: keys[i] == U.KeyFor(job.Prefix(), Chunked(job).1[i])
  {
    var names := Chunked(job).1;
    seq(|names|, i requires 0 <= i < |names| => U.KeyFor(job.Prefix(), names[i]))
  }

  function Properties(job: Job): U.Properties
    requires job.Valid()
  {
    U.Written(job.output.Ifc?, Keys(job))
  }

  /** The steps before the uploads. */
  function Making(job: Job): seq<Step> {
    if job.output.Gltf? then [Download, SizeCheck, Validate, Compress, Split]
    else [Download, SizeCheck, Parse, Validate, Extract, Convert]
  }

  /** The steps between the uploads and the metadata. */
  function Between(job: Job): seq<Step> {
    if job.output.Gltf? then [] else [Uploaded, Elements]
  }

  function Steps(job: Job): (steps: seq<Step>)
    requires job.Valid()
    ensures forall i | 0 <= i < |steps| :: steps[i].UploadChunk? ==> steps[i].part < |Keys(job)|
  {
    Making(job) + Uploads(|Keys(job)|) + Between(job) + [Metadata, Finalize, Webhook]
  }

  function Uploads(n: nat): (steps: seq<Step>)
    ensures |steps| == n && forall i | 0 <= i < n :: steps[i] == UploadChunk(i)
  {
    seq(n, i requires 0 <= i < n => UploadChunk(i))
  }

  function Publish(w: World, e: Event): World {
    w.(events := w.events + [e])
  }

  function WithStatus(w: World, status: Status): World {
    if w.row.None? then w else w.(row := Some(w.row.value.(status := status)))
  }

  /** What a step that does not raise leaves behind, with the publication that follows it. */
  function Done(w: World, job: Job, step: Step): World
    requires job.Valid() && (step.UploadChunk? ==> step.part < |Keys(job)|)
  {
    ChunksListed(job);
    match step
    case Download => Publish(w, Progress(10, "download"))
    case Validate => Publish(w, Progress(25, if job.output.Gltf? then "validate" else "parse"))
    case Compress => Publish(w, Progress(50, "optimize"))
    case Extract => Publish(w, Progress(50, "extract"))
    case Convert => Publish(w, Progress(75, "convert"))
    case UploadChunk(i) => w.(store := w.store[Keys(job)[i] := Chunked(job).0[Chunked(job).1[i]]])
    case Uploaded => Publish(w, Progress(90, "upload"))
    case Metadata => w.(metadata := Some(Properties(job)))
    case Finalize =>
      var ready := Publish(WithStatus(w, Ready).(prefix := Some(job.Prefix())), ModelReady(Keys(job)));
      if job.output.Gltf? then ready else Publish(ready, Progress(100, "ready"))
    case Webhook => w.(hooks := w.hooks + ["model.ready"])
    case SizeCheck => w
    case Split => w
    case Parse => w
    case Elements => w
  }

  /** The stage block: the steps in order up to the first that raises. */
  function Stages(w: World, job: Job, max: nat, steps: seq<Step>): (World, Option<(string, Exception)>)
    requires job.Valid() && forall i | 0 <= i < |steps| :: steps[i].UploadChunk? ==> steps[i].part < |Keys(job)|
    decreases |steps|
  {
    if steps == [] then (w, None)
    else match Raised(job, max, steps[0])
      case Some(e) => (w, Some((StageOf(steps[0]), e)))
      case None => Stages(Done(w, job, steps[0]), job, max, steps[1..])
  }

  datatype Outcome =
    | AlreadyProcessed
    | Duplicate
    | NotFound
    | NoRawKey
    | Completed(chunks: nat)
    | FailedAt(stage: string, errorType: string)
    | Retry(cause: Exception)
    | Crashed(cause: Exception)

  /** `handle_task_failure`: each of its three effects is tried on its own. */
  function Fail(w: World, job: Job, stage: string, e: Exception): World {
    var w1 := if job.failedWrite.None? then WithStatus(w, Failed) else w;
    var w2 := Publish(w1, ModelFailed(stage, e.name));
    if job.failedHook then w2 else w2.(hooks := w2.hooks + ["model.failed"])
  }

  /** `acquire_task_lock` when it answers true, and `release_task_lock`: a Redis error changes neither the answer nor the key. */
  function Lock(w: World, job: Job): World {
    if job.acquire.Lost? then w else w.(locked := true)
  }

  function Unlock(w: World, job: Job): World {
    w.(locked := w.locked && job.release.Lost?, releases := w.releases + 1)
  }

  /** The except clauses. The two for permanent failures release the lock before they write the status. */
  function Caught(w: World, job: Job, stage: string, e: Exception): (World, Outcome) {
    if e.kind == Validation && job.output.Gltf? then
      (Fail(Unlock(w, job), job, "validate", e), FailedAt("validate", e.name))
    else if e.kind == SoftLimit then
      (Fail(Unlock(w, job), job, stage, SOFT_LIMIT), FailedAt(stage, SOFT_LIMIT.name))
    else
      (Unlock(Fail(w, job, stage, e), job), if IsRetryable(e) then Retry(e) else FailedAt(stage, e.name))
  }

  predicate Terminal(w: World) {
    w.row.Some? && (w.row.value.status == Ready || w.row.value.status == Failed)
  }

  /** One delivery of the task, from start to end. */
  function Run(w: World, job: Job): (World, Outcome)
    requires job.Valid()
  {
    if Terminal(w) then (w, AlreadyProcessed)
    else if w.locked && job.acquire.Answered? then (w, Duplicate)
    else
      var held := Lock(w, job);
      if job.readRow.Some? then (held, Crashed(job.readRow.value))
      else if w.row.None? then (Unlock(held, job), NotFound)
      else if w.row.value.rawKey == "" then
        if job.failedWrite.Some? then (held, Crashed(job.failedWrite.value)) else (WithStatus(held, Failed), NoRawKey)
      else
        var max := PlanMax(w.row.value.plan);
        if w.row.value.size > max then
          (Unlock(Fail(held, job, "size_check", FILE_TOO_LARGE), job), FailedAt("size_check", FILE_TOO_LARGE.name))
        else if job.setup.Some? then (held, Crashed(job.setup.value))
        else
          var (end, raised) := Stages(held, job, max, Steps(job));
          match raised
          case Some(fault) => Caught(end, job, fault.0, fault.1)
          case None => (Unlock(end, job), Completed(|Keys(job)|))
  }

  /** A glTF output is uploaded in pieces of at most 32 MB, named after it and numbered from 0. */
  lemma GltfChunks(job: Job)
    requires job.Valid() && job.output.Gltf?
    ensures var (files, names) := Chunked(job);
            var stem, ext := job.output.stem, job.output.ext;
            && (forall i | 0 <= i < |names| :: names[i] in files && |files[names[i]]| <= 33_554_432)
            && (if |job.files[stem + ext]| <= 33_554_432 then names == [stem + ext]
                else forall i | 0 <= i < |names| :: names[i] == stem + "_part" + Decimal(i) + ext)
  {
    C.SplitReadsBack(job.files, job.output.stem, job.output.ext, CHUNK_MAX);
  }

  // ---- the run ends settled ----

  /** The last MODEL_READY or MODEL_FAILED event, if there is one. */
  function Verdict(events: seq<Event>): Option<Status> {
    if events == [] then None
    else match events[|events| - 1]
      case ModelReady(_) => Some(Ready)
      case ModelFailed(_, _) => Some(Failed)
      case Progress(_, _) => Verdict(events[..|events| - 1])
  }

  /** Status terminal, lock free, and the last verdict event says the same as the status. */
  predicate Settled(w: World) {
    Terminal(w) && !w.locked && Verdict(w.events) == Some(w.row.value.status)
  }

  /** Some step of the stage block raises. */
  ghost predicate Faulty(job: Job, max: nat)
    requires job.Valid()
  {
    exists i | 0 <= i < |Steps(job)| :: Raised(job, max, Steps(job)[i]).Some?
  }

  lemma VerdictLast(events: seq<Event>, e: Event)
    ensures Verdict(events + [e]) == if e.Progress? then Verdict(events) else Some(if e.ModelReady? then Ready else Failed)
  {
    assert (events + [e])[..|events|] == events;
  }

  /** Where the uploads and the last three steps stand. */
  function FirstUpload(job: Job): nat {
    |Making(job)|
  }

  function MetadataAt(job: Job): nat
    requires job.Valid()
  {
    |Making(job)| + |Keys(job)| + |Between(job)|
  }

  lemma StepAt(job: Job, k: nat)
    requires job.Valid() && k < |Steps(job)|
    ensures |Steps(job)| == MetadataAt(job) + 3
    ensures var step, p, n, m := Steps(job)[k], FirstUpload(job), |Keys(job)|, MetadataAt(job);
            && (k < p ==> step == Making(job)[k])
            && (p <= k < p + n ==> step == UploadChunk(k - p))
            && (p + n <= k < m ==> step == Between(job)[k - p - n])
            && (k == m ==> step == Metadata) && (k == m + 1 ==> step == Finalize) && (k == m + 2 ==> step == Webhook)
            && (step.UploadChunk? ==> p <= k < p + n && step.part == k - p)
  {
  }

  /** The first m chunks are in the store under their keys. */
  ghost predicate Stored(store: U.Store, job: Job, m: nat)
    requires job.Valid() && m <= |Keys(job)|
  {
    ChunksListed(job);
    forall i | 0 <= i < m :: Keys(job)[i] in store && store[Keys(job)[i]] == Chunked(job).0[Chunked(job).1[i]]
  }

  function Clamp(x: int, n: nat): nat {
    if x < 0 then 0 else if x > n then n else x
  }

  /** What k steps of the stage block have changed. */
  ghost predicate After(w0: World, w: World, job: Job, k: nat)
    requires job.Valid()
  {
    var m := MetadataAt(job);
    && w.locked == w0.locked && w.releases == w0.releases
    && w.row == (if k > m + 1 then WithStatus(w0, Ready).row else w0.row)
    && Verdict(w.events) == (if k > m + 1 then Some(Ready) else Verdict(w0.events))
    && w.metadata == (if k > m then Some(Properties(job)) else w0.metadata)
    && w.prefix == (if k > m + 1 then Some(job.Prefix()) else w0.prefix)
    && w.hooks == (if k > m + 2 then w0.hooks + ["model.ready"] else w0.hooks)
    && Stored(w.store, job, Clamp(k - FirstUpload(job), |Keys(job)|))
    && (forall key | key in w0.store && key !in Keys(job) :: key in w.store && w.store[key] == w0.store[key])
  }

  lemma ChunkStored(w: World, job: Job, i: nat)
    requires job.Valid() && i < |Keys(job)| && Stored(w.store, job, i)
    ensures Stored(Done(w, job, UploadChunk(i)).store, job, i + 1)
  {
    ChunksListed(job);
    var names := Chunked(job).1;
    forall j | 0 <= j < i && Keys(job)[j] == Keys(job)[i] ensures names[j] == names[i] {
      U.SameNameForKey(job.Prefix(), names[j], names[i]);
    }
    hide Chunked;
  }

  lemma UploadDone(w0: World, w: World, job: Job, i: nat)
    requires job.Valid() && i < |Keys(job)| && After(w0, w, job, FirstUpload(job) + i)
    ensures After(w0, Done(w, job, UploadChunk(i)), job, FirstUpload(job) + i + 1)
  {
    ChunkStored(w, job, i);
    hide Chunked, Verdict, Stored, Steps, Making, Between;
    assert Keys(job)[i] in Keys(job);
  }

  lemma OtherDone(w0: World, w: World, job: Job, k: nat, step: Step)
    requires job.Valid() && After(w0, w, job, k) && !step.UploadChunk?
    requires k < FirstUpload(job) || k >= FirstUpload(job) + |Keys(job)|
    requires step == Metadata <==> k == MetadataAt(job)
    requires step == Finalize <==> k == MetadataAt(job) + 1
    requires step == Webhook <==> k == MetadataAt(job) + 2
    ensures After(w0, Done(w, job, step), job, k + 1)
  {
    hide Keys, Verdict, Stored, Done, Making, Between, Properties;
    OtherStepDone(w, job, step);
    assert Clamp(k - FirstUpload(job), |Keys(job)|) == Clamp(k + 1 - FirstUpload(job), |Keys(job)|);
  }

  lemma StepDone(w0: World, w: World, job: Job, k: nat)
    requires job.Valid() && k < |Steps(job)| && After(w0, w, job, k)
    requires Steps(job)[k].UploadChunk? ==> Steps(job)[k].part < |Keys(job)|
    ensures After(w0, Done(w, job, Steps(job)[k]), job, k + 1)
  {
    var step, p := Steps(job)[k], FirstUpload(job);
    StepKind(job, k);
    hide After, Steps, Keys, Done, Making, Between;
    if step.UploadChunk? {
      UploadDone(w0, w, job, k - p);
    } else {
      OtherDone(w0, w, job, k, step);
    }
  }

  /** Which steps are uploads, and which are the last three. */
  lemma StepKind(job: Job, k: nat)
    requires job.Valid() && k < |Steps(job)|
    ensures var step, p, n, m := Steps(job)[k], FirstUpload(job), |Keys(job)|, MetadataAt(job);
            && (step.UploadChunk? <==> p <= k < p + n) && (step.UploadChunk? ==> step.part == k - p)
            && (step == Metadata <==> k == m) && (step == Finalize <==> k == m + 1) && (step == Webhook <==> k == m + 2)
  {
    StepAt(job, k);
    hide Keys, Steps;
  }

  /** What steps other than uploads leave alone. */
  lemma OtherStepDone(w: World, job: Job, step: Step)
    requires job.Valid() && !step.UploadChunk?
    ensures var d := Done(w, job, step);
            && d.locked == w.locked && d.releases == w.releases && d.store == w.store
            && d.row == (if step == Finalize then WithStatus(w, Ready).row else w.row)
            && Verdict(d.events) == (if step == Finalize then Some(Ready) else Verdict(w.events))
            && d.metadata == (if step == Metadata then Some(Properties(job)) else w.metadata)
            && d.prefix == (if step == Finalize then Some(job.Prefix()) else w.prefix)
            && d.hooks == (if step == Webhook then w.hooks + ["model.ready"] else w.hooks)
  {
    hide Verdict, Keys, Properties;
    var d := Done(w, job, step);
    if step == Finalize {
      VerdictLast(w.events, ModelReady(Keys(job)));
      VerdictLast(w.events + [ModelReady(Keys(job))], Progress(100, "ready"));
    } else if d.events != w.events {
      assert d.events == w.events + [d.events[|w.events|]];
      VerdictLast(w.events, d.events[|w.events|]);
    }
  }

  lemma UploadsInRange(job: Job)
    requires job.Valid()
    ensures forall i | 0 <= i < |Steps(job)| :: Steps(job)[i].UploadChunk? ==> Steps(job)[i].part < |Keys(job)|
    ensures |Steps(job)| == MetadataAt(job) + 3
  {
  }

  /** The stage block stops at step j, the first to raise, or runs to the end; the first j steps are done. */
  lemma {:induction false} StagesFrom(w0: World, w: World, job: Job, max: nat, k: nat) returns (j: nat)
    requires job.Valid() && k <= |Steps(job)| && After(w0, w, job, k)
    requires forall i | 0 <= i < |Steps(job)| :: Steps(job)[i].UploadChunk? ==> Steps(job)[i].part < |Keys(job)|
    ensures var (end, raised) := Stages(w, job, max, Steps(job)[k..]);
            && k <= j <= |Steps(job)| && After(w0, end, job, j)
            && (forall i | k <= i < j :: Raised(job, max, Steps(job)[i]).None?)
            && (raised.None? <==> j == |Steps(job)|)
            && (j < |Steps(job)| ==>
                  Raised(job, max, Steps(job)[j]).Some?
                  && raised == Some((StageOf(Steps(job)[j]), Raised(job, max, Steps(job)[j]).value)))
    decreases |Steps(job)| - k
  {
    hide After, Steps, Done, Raised, StageOf;
    var steps := Steps(job);
    j := k;
    if k < |steps| {
      assert steps[k..][0] == steps[k] && steps[k..][1..] == steps[k + 1..];
      if Raised(job, max, steps[k]).None? {
        StepDone(w0, w, job, k);
        j := StagesFrom(w0, Done(w, job, steps[k]), job, max, k + 1);
      }
    }
  }

  /** The stage block as a whole. */
  lemma StageBlock(w: World, job: Job, max: nat) returns (j: nat)
    requires job.Valid()
    ensures var (end, raised) := Stages(w, job, max, Steps(job));
            && j <= MetadataAt(job) + 3 == |Steps(job)| && After(w, end, job, j)
            && (forall i | 0 <= i < j :: Raised(job, max, Steps(job)[i]).None?)
            && (raised.None? <==> !Faulty(job, max)) && (raised.None? <==> j == MetadataAt(job) + 3)
            && (raised.Some? ==>
                  j < |Steps(job)| && Raised(job, max, Steps(job)[j]).Some?
                  && raised.value == (StageOf(Steps(job)[j]), Raised(job, max, Steps(job)[j]).value))
  {
    UploadsInRange(job);
    assert Stored(w.store, job, 0);
    assert Clamp(0 - FirstUpload(job), |Keys(job)|) == 0;
    assert After(w, w, job, 0);
    hide After, Steps, Raised, StageOf, Keys;
    assert Steps(job)[0..] == Steps(job);
    j := StagesFrom(w, w, job, max, 0);
  }

  lemma FailFacts(w: World, job: Job, stage: string, e: Exception)
    requires w.row.Some?
    ensures var after := Fail(w, job, stage, e);
            && after.locked == w.locked && after.releases == w.releases && after.row.Some?
            && Verdict(after.events) == Some(Failed)
            && (job.failedWrite.None? ==> after.row.value.status == Failed)
            && (job.failedWrite.Some? ==> after.row == w.row)
            && after.prefix == w.prefix && after.metadata == w.metadata && after.store == w.store
  {
    hide Verdict;
    VerdictLast(w.events, ModelFailed(stage, e.name));
  }

  lemma CaughtSettles(w: World, job: Job, stage: string, e: Exception)
    requires w.row.Some?
    ensures var (after, outcome) := Caught(w, job, stage, e);
            && after.locked == (w.locked && job.release.Lost?) && after.releases == w.releases + 1 && after.row.Some?
            && Verdict(after.events) == Some(Failed)
            && (job.failedWrite.None? ==> after.row.value.status == Failed)
            && (job.failedWrite.Some? ==> after.row == w.row)
            && (outcome.Retry? <==> e.kind != SoftLimit && !(e.kind == Validation && job.output.Gltf?) && IsRetryable(e))
            && after.prefix == w.prefix && after.metadata == w.metadata && after.store == w.store
  {
    hide Verdict, IsRetryable, Fail;
    FailFacts(w, job, stage, e);
    FailFacts(Unlock(w, job), job, "validate", e);
    FailFacts(Unlock(w, job), job, stage, SOFT_LIMIT);
  }

  /** Past the status check and the lock. */
  predicate Admitted(w: World, job: Job) {
    !Terminal(w) && (!w.locked || !job.acquire.Answered?)
  }

  /** The paths that end before the stage block without a release. */
  predicate Unreleased(w: World, job: Job) {
    || job.readRow.Some?
    || (w.row.Some? && (w.row.value.rawKey == "" || (w.row.value.size <= PlanMax(w.row.value.plan) && job.setup.Some?)))
  }

  /**
   An admitted run calls release exactly once, except on the paths where reading the row or making the temporary
   directories raised, or there is no raw key; there, and when the delete does not reach Redis, the key stays as it was taken.
   */
  lemma LockLeft(w: World, job: Job)
    requires job.Valid() && Admitted(w, job)
    ensures Run(w, job).0.releases == w.releases + (if Unreleased(w, job) then 0 else 1)
    ensures Run(w, job).0.locked <==> Lock(w, job).locked && (Unreleased(w, job) || job.release.Lost?)
  {
    if !Unreleased(w, job) && w.row.Some? && w.row.value.size <= PlanMax(w.row.value.plan) {
      var held, max := Lock(w, job), PlanMax(w.row.value.plan);
      var j := StageBlock(held, job, max);
      var (end, raised) := Stages(held, job, max, Steps(job));
      hide Stages, Caught, Steps, Keys, Verdict, Stored, Faulty, Raised, StageOf;
      if raised.Some? { CaughtSettles(end, job, raised.value.0, raised.value.1); }
    }
  }

  /**
   What went wrong in the run, if anything, has been recorded and announced: without a raw key there is no
   announcement, unless an earlier run has already made it.
   */
  ghost predicate Recorded(w: World, job: Job)
    requires job.Valid() && w.row.Some?
  {
    var row := w.row.value;
    var max := PlanMax(row.plan);
    if row.rawKey == "" then job.failedWrite.None? && Verdict(w.events) == Some(Failed)
    else if row.size > max then job.failedWrite.None?
    else job.setup.None? && (job.failedWrite.None? || !Faulty(job, max))
  }

  /**
   An admitted run leaves status, lock and events settled if and only if it could read the row, what went wrong was
   recorded and announced, and the key it took was deleted.
   */
  lemma RunSettles(w: World, job: Job)
    requires job.Valid() && Admitted(w, job)
    ensures Settled(Run(w, job).0) <==>
              && job.readRow.None? && w.row.Some? && Recorded(w, job)
              && !(Lock(w, job).locked && (Unreleased(w, job) || job.release.Lost?))
  {
    hide Faulty, Caught, Stages, Steps, Keys;
    if job.readRow.None? && w.row.Some? && w.row.value.rawKey != "" {
      if w.row.value.size > PlanMax(w.row.value.plan) {
        hide Verdict;
        FailFacts(Lock(w, job), job, "size_check", FILE_TOO_LARGE);
      } else if job.setup.None? {
        BlockSettles(w, job);
      }
    }
  }

  /** The runs that reach the stage block. */
  lemma BlockSettles(w: World, job: Job)
    requires job.Valid() && Admitted(w, job) && job.readRow.None? && job.setup.None?
    requires w.row.Some? && w.row.value.rawKey != "" && w.row.value.size <= PlanMax(w.row.value.plan)
    ensures Settled(Run(w, job).0) <==>
              && (job.failedWrite.None? || !Faulty(job, PlanMax(w.row.value.plan)))
              && !(Lock(w, job).locked && job.release.Lost?)
  {
    var held, max := Lock(w, job), PlanMax(w.row.value.plan);
    var j := StageBlock(held, job, max);
    var (end, raised) := Stages(held, job, max, Steps(job));
    hide Stages, Caught, Steps, Keys, Verdict, Stored, Faulty, Raised, StageOf;
    if raised.Some? { CaughtSettles(end, job, raised.value.0, raised.value.1); }
  }

  // ---- redelivery and retry ----

  function Deliver(w: World, jobs: seq<Job>): World
    requires forall i | 0 <= i < |jobs| :: jobs[i].Valid()
    decreases |jobs|
  {
    if jobs == [] then w else Deliver(Run(w, jobs[0]).0, jobs[1..])
  }

  /** Once the status is terminal, no redelivery or retry changes anything. */
  lemma {:induction false} TerminalIsFinal(w: World, jobs: seq<Job>)
    requires Terminal(w) && forall i | 0 <= i < |jobs| :: jobs[i].Valid()
    ensures Deliver(w, jobs) == w
    decreases |jobs|
  {
    if jobs != [] { TerminalIsFinal(w, jobs[1..]); }
  }

  /**
   A Celery retry does the work again only when the run could not write "failed" and had not reached "ready":
   otherwise it finds a terminal status. So for every failure that was recorded, the retry policy has no effect.
   */
  lemma RetryFindsTerminalStatus(w: World, job: Job, retry: Job)
    requires job.Valid() && retry.Valid() && Run(w, job).1.Retry?
    ensures job.failedWrite.None? ==> Run(Run(w, job).0, retry) == (Run(w, job).0, AlreadyProcessed)
    ensures Run(Run(w, job).0, retry).1 == AlreadyProcessed <==> Terminal(Run(w, job).0)
    ensures IsRetryable(Run(w, job).1.cause)
  {
    hide Run, Caught, Verdict, IsRetryable;
    var end, stage, e := RetryIsCaught(w, job);
    CaughtSettles(end, job, stage, e);
    StatusDecides(Run(w, job).0, retry);
  }

  /** Only the except clauses retry. */
  lemma RetryIsCaught(w: World, job: Job) returns (end: World, stage: string, e: Exception)
    requires job.Valid() && Run(w, job).1.Retry?
    ensures Run(w, job) == Caught(end, job, stage, e) && end.row.Some?
    ensures IsRetryable(e) && Run(w, job).1.cause == e
  {
    hide Stages, Steps, Keys, Stored, Faulty, Raised, StageOf, IsRetryable, Fail;
    var held, max := Lock(w, job), PlanMax(w.row.value.plan);
    var j := StageBlock(held, job, max);
    var (last, raised) := Stages(held, job, max, Steps(job));
    end, stage, e := last, raised.value.0, raised.value.1;
  }

  lemma StatusDecides(w: World, job: Job)
    requires job.Valid()
    ensures Terminal(w) ==> Run(w, job) == (w, AlreadyProcessed)
    ensures Run(w, job).1 == AlreadyProcessed <==> Terminal(w)
  {
    hide Stages, Steps;
  }

  // ---- a model that is ready can be downloaded ----

  /** What a client that follows the listed URLs should get: the tools' output. */
  ghost predicate IsOutput(job: Job, bytes: Option<File>)
    requires job.Valid()
  {
    match job.output
    case Gltf(stem, ext) => bytes == Some(job.files[stem + ext])
    case Ifc(stems, max) =>
      C.Listing(job.files, stems) && !C.Clash(job.files, stems, max) ==> bytes == Some(C.Originals(job.files, stems))
  }

  lemma ChunksAreOutput(job: Job)
    requires job.Valid()
    ensures forall i | 0 <= i < |Chunked(job).1| :: Chunked(job).1[i] in Chunked(job).0
    ensures IsOutput(job, Some(C.ReadBack(Chunked(job).0, Chunked(job).1)))
  {
    ChunksListed(job);
    match job.output
    case Gltf(stem, ext) => C.SplitReadsBack(job.files, stem, ext, CHUNK_MAX);
    case Ifc(stems, max) => if C.Listing(job.files, stems) { C.ListIsRight(job.files, stems, max); }
  }

  /**
   Whenever a run sets the status to "ready", even if it then fails, its whole output can be downloaded from the
   listed URLs; the share link gives that list, and the chunks endpoint does exactly when it is not empty.
   */
  lemma ReadyIsDownloadable(w: World, job: Job, settings: U.Settings)
    requires job.Valid() && !Terminal(w) && Run(w, job).0.row.Some? && Run(w, job).0.row.value.status == Ready
    ensures var after, urls := Run(w, job).0, U.CdnUrls(settings, Keys(job));
            && IsOutput(job, U.Download(settings, after.store, urls))
            && U.ShareUrls(settings, after.metadata) == urls
            && (U.ApiUrls(settings, after.metadata, after.prefix) == urls <==> Keys(job) != [])
    ensures var after := Run(w, job).0;
            && after.prefix == Some("processed/" + job.modelId)
            && after.metadata == Some(if job.output.Ifc? then U.Properties(None, Some(Keys(job)))
                                      else U.Properties(Some(Keys(job)), None))
    ensures |Keys(job)| == |Chunked(job).1|
    ensures forall i | 0 <= i < |Keys(job)| :: Keys(job)[i] == "processed/" + job.modelId + "/" + Chunked(job).1[i]
  {
    var after := Run(w, job).0;
    ReadyLeaves(w, job);
    ChunksAreOutput(job);
    hide Run, IsOutput;
    var (files, names) := Chunked(job);
    forall i | 0 <= i < |names|
      ensures Keys(job)[i] in after.store && after.store[Keys(job)[i]] == files[names[i]]
    {
    }
    U.DownloadReads(settings, after.store, files, Keys(job), names);
    hide Keys, Chunked;
    U.UrlListsAgree(settings, job.output.Ifc?, Keys(job), job.Prefix());
  }

  lemma ReadyLeaves(w: World, job: Job)
    requires job.Valid() && !Terminal(w) && Run(w, job).0.row.Some? && Run(w, job).0.row.value.status == Ready
    ensures var after := Run(w, job).0;
            && after.prefix == Some(job.Prefix()) && after.metadata == Some(Properties(job))
            && Stored(after.store, job, |Keys(job)|)
  {
    var held := Lock(w, job);
    if Admitted(w, job) && job.readRow.None? && w.row.Some? && w.row.value.rawKey != "" {
      var max := PlanMax(w.row.value.plan);
      if w.row.value.size <= max && job.setup.None? {
        var j := StageBlock(held, job, max);
        var (end, raised) := Stages(held, job, max, Steps(job));
        hide Stages, Steps, Keys, Verdict, Stored, Faulty, Raised, StageOf, IsRetryable, Caught;
        if raised.Some? { CaughtSettles(end, job, raised.value.0, raised.value.1); }
      }
    }
  }

  /** A MODEL_READY event is never published before its chunks, its metadata and its status are in place. */
  lemma ReadyEventIsTrue(w: World, job: Job, max: nat, k: nat)
    requires job.Valid() && k <= |Steps(job)| && !w.row.None?
    requires Verdict(w.events) != Some(Ready)
    requires forall i | 0 <= i < k :: Raised(job, max, Steps(job)[i]).None?
    ensures var now := Stages(w, job, max, Steps(job)[..k]).0;
            Verdict(now.events) == Some(Ready) ==>
              now.row == WithStatus(w, Ready).row && now.metadata == Some(Properties(job)) && Stored(now.store, job, |Keys(job)|)
  {
    UploadsInRange(job);
    assert Stored(w.store, job, 0);
    assert Clamp(0 - FirstUpload(job), |Keys(job)|) == 0;
    assert After(w, w, job, 0);
    PrefixOfStages(w, w, job, max, 0, k);
    hide Steps, Stages, Keys, Stored, Verdict;
    assert Steps(job)[0..k] == Steps(job)[..k];
  }

  lemma {:induction false} PrefixOfStages(w0: World, w: World, job: Job, max: nat, i: nat, k: nat)
    requires job.Valid() && i <= k <= |Steps(job)| && After(w0, w, job, i)
    requires forall n | i <= n < k :: Raised(job, max, Steps(job)[n]).None?
    ensures After(w0, Stages(w, job, max, Steps(job)[i..k]).0, job, k)
    decreases k - i
  {
    hide After, Steps, Done, Raised, StageOf;
    if i < k {
      var steps := Steps(job);
      assert steps[i..k][0] == steps[i] && steps[i..k][1..] == steps[i + 1..k];
      StepDone(w0, w, job, i);
      PrefixOfStages(w0, Done(w, job, steps[i]), job, max, i + 1, k);
    }
  }
}
