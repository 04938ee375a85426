/**
 * The post generator's tools (agents/insta_post_generator/tools.py): the
 * background generation jobs, kept in a module-level table and mirrored in
 * the content record's `generation_*` fields, and the caption and hashtag
 * briefs handed to the agent's model.
 *
 * A job is submitted (a pending record plus a "submitted" table entry) and
 * then run: the record and the entry go to "running", the provider is
 * called, and both end "completed" with the asset or "failed" with the
 * error. The provider call, the download and the blob upload are one
 * oracle `Fal`: it returns the asset or the text of the exception.
 */
module InstaPostGeneratorTools {
  import opened Wrappers
  import opened Text
  import opened Docs
  import opened Store
  import CosmosDbService
  import MediaMetadataService
  import FalAiService
  import MGW = MediaGenerationWorker

  /** The settings the tools read: the fal.ai model ids and `INSTAGRAM_BUSINESS_ACCOUNT_ID`. */
  datatype Settings = Settings(models: MGW.Settings, businessAccount: string)

  /** What the provider call, the download and the upload hand back for one asset. */
  datatype Asset = Asset(
    falUrl: string,        // `images[0].url` / `video.url`
    width: Value,          // `images[0].get("width")`
    height: Value,         // `images[0].get("height")`
    description: Value,    // `result.get("description", "")`
    blobUrl: string,
    blobName: string,
    fileSize: int)

  /** The provider, the download and the upload: the asset, or the text of the exception raised. */
  type Fal = (string, FalAiService.FalArgs) -> Result<Asset>

  /** One entry of `_generation_jobs` (the asyncio task handle is left out). */
  datatype Job = Job(
    jobId: string,
    contentId: string,
    jobType: string,
    prompt: string,
    topic: string,
    aspectRatio: string,
    resolution: string,
    outputFormat: string,
    duration: int,
    videoModel: string,
    status: string,
    submittedAt: string,
    result: Option<Doc>,
    error: string,
    completedAt: Option<string>)

  // ---------------------------------------------------------------------
  // Provider arguments
  // ---------------------------------------------------------------------

  /**
   * The model and arguments of `_execute_video_job` / `_execute_image_job`:
   * a video job resolves its model hint and shapes the arguments for Sora,
   * Kling or any other model; an image job uses `FAL_IMAGE_MODEL`.
   */
  function JobCall(s: Settings, job: Job): (r: (string, FalAiService.FalArgs))
    ensures r.1.prompt == Str(job.prompt)
    ensures r.1.ImageArgs? <==> job.jobType != "video"
    ensures r.1.ImageArgs? ==>
      r.0 == s.models.falImageModel && r.1.aspectRatio == Str(job.aspectRatio)
      && r.1.outputFormat == Str(job.outputFormat) && r.1.resolution == Str(job.resolution)
    ensures !r.1.ImageArgs? ==>
      && (job.videoModel == [] || Lower(Strip(job.videoModel)) == "kling" ==> r.0 == s.models.video.default)
      && (job.videoModel != [] && Lower(Strip(job.videoModel)) == "sora" ==> r.0 == s.models.video.alt)
      && (job.videoModel != [] && StartsWith(Lower(Strip(job.videoModel)), "fal-ai/") ==> r.0 == Lower(Strip(job.videoModel)))
    ensures r.1.SoraArgs? <==> job.jobType == "video" && Contains(r.0, "sora")
    ensures r.1.KlingArgs? <==> job.jobType == "video" && !Contains(r.0, "sora") && Contains(r.0, "kling")
    ensures r.1.SoraArgs? ==>
      (r.1.duration == 4 || r.1.duration == 8 || r.1.duration == 12) && (job.duration <= 12 ==> job.duration <= r.1.duration)
    ensures r.1.KlingArgs? ==> 3 <= r.1.duration <= 15 && (3 <= job.duration <= 15 ==> r.1.duration == job.duration)
    ensures r.1.PlainVideoArgs? ==> r.1.duration == job.duration && r.1.aspectRatio == Str(job.aspectRatio)
  {
    if job.jobType == "video" then
      var model := MGW.ResolveVideoModel(s.models.video, job.videoModel);
      (model, FalAiService.ShapeVideo(model, Str(job.prompt), job.duration, Str(job.aspectRatio)))
    else
      (s.models.falImageModel,
       FalAiService.ImageArgs(Str(job.prompt), Str(job.aspectRatio), Str(job.outputFormat), Str(job.resolution)))
  }

  /**
   * A video job gets exactly the call the media generation worker builds
   * for a video record with the same prompt, duration, aspect ratio and
   * model hint: the two shape their arguments the same way.
   */
  lemma VideoCallAsWorker(s: Settings, job: Job, record: Doc)
    requires job.jobType == "video"
    requires "prompt" in record && record["prompt"] == Str(job.prompt)
    requires Lookup(record, "media_type") == Str("video")
    requires Lookup(record, "video_model") == Str(job.videoModel)
    requires Lookup(record, "duration_seconds") == Int(job.duration) && job.duration != 0
    requires Lookup(record, "aspect_ratio") == Str(job.aspectRatio)
    ensures MGW.BuildFalArguments(s.models, record) == Some(JobCall(s, job))
  {
  }

  // ---------------------------------------------------------------------
  // `_mark_job_status`
  // ---------------------------------------------------------------------

  /** The updates `_mark_job_status` writes: the status fields, then `extra_updates` over them. */
  function StatusUpdates(status: string, error: string, now: string, extra: Doc): Doc
  {
    var base := map["generation_status" := Str(status), "generation_error" := Str(error),
                    "generation_updated_at" := Str(now)];
    var completed := if status == "completed" then base["generation_completed_at" := Str(now)] else base;
    var failed := if status == "failed" then completed["generation_failed_at" := Str(now)] else completed;
    Merge(failed, extra)
  }

  /**
   * `generation_completed_at` appears only for "completed" and
   * `generation_failed_at` only for "failed" (unless `extra_updates` brings
   * them), and every key of `extra_updates` wins.
   */
  lemma StatusUpdatesSpec(status: string, error: string, now: string, extra: Doc)
    ensures var u := StatusUpdates(status, error, now, extra);
      && u.Keys == {"generation_status", "generation_error", "generation_updated_at"}
                   + (if status == "completed" then {"generation_completed_at"} else {})
                   + (if status == "failed" then {"generation_failed_at"} else {})
                   + extra.Keys
      && (forall k :: k in extra ==> u[k] == extra[k])
      && ("generation_status" !in extra ==> u["generation_status"] == Str(status))
      && ("generation_error" !in extra ==> u["generation_error"] == Str(error))
      && (status == "completed" && "generation_completed_at" !in extra ==> u["generation_completed_at"] == Str(now))
      && (status == "failed" && "generation_failed_at" !in extra ==> u["generation_failed_at"] == Str(now))
  {
  }

  /** `_mark_job_status`: merge the status updates into the record; an unknown id writes nothing. */
  method MarkJobStatus(c: Container, id: string, status: string, error: string, now: string, extra: Doc)
    requires c.Valid() && "id" !in extra
    modifies c`items
    ensures c.Valid()
    ensures c.items == Updated(old(c.items), id, StatusUpdates(status, error, now, extra))
  {
    StatusUpdatesSpec(status, error, now, extra);
    var _ := CosmosDbService.UpdateContent(c, id, StatusUpdates(status, error, now, extra));
  }

  // ---------------------------------------------------------------------
  // `_run_generation_job`
  // ---------------------------------------------------------------------

  /**
   * The `extra_updates` the execute step writes with "completed": the
   * asset's fields, which leave the status fields and the id alone.
   */
  function CompletedExtra(job: Job, model: string, a: Asset): (u: Doc)
    ensures LeavesStatus(u) && "id" !in u
    ensures "media_type" in u && u["media_type"] == Str(if job.jobType == "video" then "video" else "image")
  {
    if job.jobType == "video" then VideoExtra(job, model, a) else ImageExtra(job, model, a)
  }

  /** `_execute_video_job`'s fields: a reel, with the duration asked for and the topic as description. */
  function VideoExtra(job: Job, model: string, a: Asset): (u: Doc)
    ensures LeavesStatus(u) && "id" !in u
    ensures "media_type" in u && u["media_type"] == Str("video")
  {
    map["media_type" := Str("video"), "post_type" := Str("reel"), "blob_url" := Str(a.blobUrl),
        "blob_name" := Str(a.blobName), "model" := Str(model), "aspect_ratio" := Str(job.aspectRatio),
        "duration_seconds" := Int(job.duration), "file_size_bytes" := Int(a.fileSize),
        "fal_url" := Str(a.falUrl), "description" := Str(job.topic), "queue_status" := Str("not_queued")]
  }

  /** `_execute_image_job`'s fields: a post, with the provider's description or else the topic. */
  function ImageExtra(job: Job, model: string, a: Asset): (u: Doc)
    ensures LeavesStatus(u) && "id" !in u
    ensures "media_type" in u && u["media_type"] == Str("image")
  {
    map["media_type" := Str("image"), "post_type" := Str("post"), "blob_url" := Str(a.blobUrl),
        "blob_name" := Str(a.blobName), "model" := Str(model), "aspect_ratio" := Str(job.aspectRatio),
        "resolution" := Str(job.resolution), "width" := a.width, "height" := a.height,
        "file_size_bytes" := Int(a.fileSize), "fal_url" := Str(a.falUrl),
        "description" := Or(a.description, Str(job.topic)), "queue_status" := Str("not_queued")]
  }

  /** The dict the execute step returns, kept as the job's `result`. */
  function ResultDoc(job: Job, model: string, a: Asset): (d: Doc)
    ensures d.Keys == {"content_id", "media_type", "blob_url", "prompt_used", "model"}
    ensures d["content_id"] == Str(job.contentId) && d["blob_url"] == Str(a.blobUrl) && d["model"] == Str(model)
  {
    map["content_id" := Str(job.contentId),
        "media_type" := Str(if job.jobType == "video" then "video" else "image"),
        "blob_url" := Str(a.blobUrl), "prompt_used" := Str(job.prompt), "model" := Str(model)]
  }

  /**
   * `_run_generation_job` on the record store and the job's entry: mark
   * running, call the provider, then either complete both (the record with
   * the asset's fields, the entry with the result) or fail both with the
   * exception's text.
   */
  function RunJob(items: map<string, Doc>, job: Job, s: Settings, fal: Fal, now: string): (map<string, Doc>, Job)
  {
    var running := Updated(items, job.contentId, StatusUpdates("running", "", now, map[]));
    var call := JobCall(s, job);
    var out := fal(call.0, call.1);
    (Updated(running, job.contentId, FinalUpdates(job, call.0, out, now)), FinalJob(job, call.0, out, now))
  }

  /** The record's last `_mark_job_status`: "completed" with the asset's fields, or "failed" with the error. */
  function FinalUpdates(job: Job, model: string, out: Result<Asset>, now: string): Doc
  {
    match out
    case Ok(a) => StatusUpdates("completed", "", now, CompletedExtra(job, model, a))
    case Err(e) => StatusUpdates("failed", e, now, map[])
  }

  /** The entry after the run: completed with the result, or failed with the error. */
  function FinalJob(job: Job, model: string, out: Result<Asset>, now: string): Job
  {
    match out
    case Ok(a) => job.(status := "completed", result := Some(ResultDoc(job, model, a)), completedAt := Some(now))
    case Err(e) => job.(status := "failed", error := e, completedAt := Some(now))
  }

  /**
   * A run ends "completed" with a result, exactly when the provider hands
   * back an asset, or "failed" with the provider's error; either way it
   * records when it ended and keeps the entry's identity and request.
   */
  lemma RunEntry(items: map<string, Doc>, job: Job, s: Settings, fal: Fal, now: string)
    ensures var j := RunJob(items, job, s, fal, now).1;
      var out := fal(JobCall(s, job).0, JobCall(s, job).1);
      && j == job.(status := j.status, result := j.result, error := j.error, completedAt := j.completedAt)
      && (j.status == "completed" <==> out.Ok?)
      && (j.status == "failed" <==> out.Err?)
      && j.completedAt == Some(now)
      && (out.Ok? ==> j.result.Some? && j.result.value["content_id"] == Str(job.contentId) && j.error == job.error)
      && (out.Err? ==> j.result == job.result && j.error == out.error)
  {
  }

  /**
   * The record mirrors the entry's final status: the status itself, the
   * error and failure time of a failed job, the completion time and media
   * type of a completed one.
   */
  predicate Mirrors(rec: Doc, j: Job, now: string)
  {
    && "generation_status" in rec && rec["generation_status"] == Str(j.status)
    && (j.status == "failed" ==>
          && "generation_error" in rec && rec["generation_error"] == Str(j.error)
          && "generation_failed_at" in rec && rec["generation_failed_at"] == Str(now))
    && (j.status == "completed" ==>
          && "generation_completed_at" in rec && rec["generation_completed_at"] == Str(now)
          && "media_type" in rec && rec["media_type"] == Str(if j.jobType == "video" then "video" else "image"))
  }

  /** A run writes only the job's own record. */
  lemma RunTouchesOwnRecord(items: map<string, Doc>, job: Job, s: Settings, fal: Fal, now: string)
    ensures RunJob(items, job, s, fal, now).0.Keys == items.Keys
    ensures forall k :: k in items && k != job.contentId ==> RunJob(items, job, s, fal, now).0[k] == items[k]
  {
    var call := JobCall(s, job);
    var running := Updated(items, job.contentId, StatusUpdates("running", "", now, map[]));
    UpdatedFrame(items, job.contentId, StatusUpdates("running", "", now, map[]));
    UpdatedFrame(running, job.contentId, FinalUpdates(job, call.0, fal(call.0, call.1), now));
  }

  /** Updating one record keeps the ids and every other record. */
  lemma UpdatedFrame(items: map<string, Doc>, id: string, u: Doc)
    ensures Updated(items, id, u).Keys == items.Keys
    ensures forall k :: k in items && k != id ==> Updated(items, id, u)[k] == items[k]
  {
  }

  /** A run leaves the job's record mirroring the entry. */
  lemma RunRecord(items: map<string, Doc>, job: Job, s: Settings, fal: Fal, now: string)
    ensures job.contentId in items ==>
      Mirrors(RunJob(items, job, s, fal, now).0[job.contentId], RunJob(items, job, s, fal, now).1, now)
  {
    var id := job.contentId;
    var call := JobCall(s, job);
    var out := fal(call.0, call.1);
    var running := Updated(items, id, StatusUpdates("running", "", now, map[]));
    if id in items {
      assert RunJob(items, job, s, fal, now).0[id] == Merge(running[id], FinalUpdates(job, call.0, out, now));
      FinalMirrors(running[id], job, call.0, out, now);
    }
  }

  /** Whatever the record held, the last status write makes it mirror the final entry. */
  lemma FinalMirrors(rec: Doc, job: Job, model: string, out: Result<Asset>, now: string)
    ensures Mirrors(Merge(rec, FinalUpdates(job, model, out, now)), FinalJob(job, model, out, now), now)
  {
    match out
    case Ok(a) =>
      var extra := CompletedExtra(job, model, a);
      Marked(rec, "completed", "", now, extra);
      assert "media_type" in extra;
    case Err(e) =>
      Marked(rec, "failed", e, now, map[]);
  }

  /** `extra_updates` that leave the status fields to `_mark_job_status`. */
  predicate LeavesStatus(extra: Doc)
  {
    && "generation_status" !in extra && "generation_error" !in extra
    && "generation_completed_at" !in extra && "generation_failed_at" !in extra
  }

  /** A record after `_mark_job_status`, when `extra_updates` leaves the status fields alone. */
  lemma Marked(rec: Doc, status: string, error: string, now: string, extra: Doc)
    requires LeavesStatus(extra)
    ensures var m := Merge(rec, StatusUpdates(status, error, now, extra));
      && m["generation_status"] == Str(status) && m["generation_error"] == Str(error)
      && (status == "completed" ==> m["generation_completed_at"] == Str(now))
      && (status == "failed" ==> m["generation_failed_at"] == Str(now))
      && (forall k :: k in extra ==> m[k] == extra[k])
  {
    StatusUpdatesSpec(status, error, now, extra);
  }

  /** The answer of `check_generation_status`. */
  datatype StatusReport =
    | UnknownJob(message: string)
    | Report(
        jobId: string,
        contentId: string,
        jobType: string,
        status: string,
        submittedAt: string,
        result: Option<Option<Doc>>,   // present only for a completed job
        content: Option<Option<Doc>>,  // the record, present only for a completed job
        error: Option<string>)         // present only for a failed job

  /** `submit_generation_job`'s answer; a failing record write raises out of the tool. */
  datatype Submission =
    | BadJobType(error: string)
    | SaveRaised
    | Submitted(jobId: string, contentId: string, jobType: string)

  /** `(job_type or "image").strip().lower()`, kept only when it is "image" or "video". */
  function NormalizeJobType(jobType: string): (r: Option<string>)
    ensures r.Some? ==> r.value == "image" || r.value == "video"
    ensures jobType == [] ==> r == Some("image")
    ensures jobType != [] ==> (r.Some? <==> Lower(Strip(jobType)) == "image" || Lower(Strip(jobType)) == "video")
    ensures r.Some? && jobType != [] ==> r.value == Lower(Strip(jobType))
  {
    if jobType == [] then Some("image")
    else
      var t := Lower(Strip(jobType));
      if t == "image" || t == "video" then Some(t) else None
  }

  /** Case and surrounding blanks do not matter, and a normalised type normalises to itself. */
  lemma NormalizeJobTypeStable(a: string, b: string)
    ensures Lower(a) == Lower(b) && a != [] && b != [] ==> NormalizeJobType(a) == NormalizeJobType(b)
    ensures NormalizeJobType(a).Some? ==> NormalizeJobType(NormalizeJobType(a).value) == NormalizeJobType(a)
  {
    if Lower(a) == Lower(b) && a != [] && b != [] {
      LowerStripAgree(a, b);
    }
    if NormalizeJobType(a).Some? {
      KnownTypeNormal(NormalizeJobType(a).value);
    }
  }

  lemma KnownTypeNormal(t: string)
    requires t == "image" || t == "video"
    ensures NormalizeJobType(t) == Some(t)
  {
    assert NoSpace(t);
    NoSpaceStripped(t);
    assert forall i :: 0 <= i < |t| ==> Lower(t)[i] == t[i];
  }

  /** The `save_media_metadata` arguments of a submission of normalised type `t`. */
  function SubmitArgs(s: Settings, t: string, prompt: string, topic: string, postType: string,
                      target: string, aspect: string, resolution: string, duration: int,
                      jobId: string, now: string): MediaMetadataService.SaveArgs
  {
    var video := t == "video";
    MediaMetadataService.SaveArgs(
      mediaType := if video then "video" else "image",
      blobUrl := "", blobName := "", prompt := prompt,
      model := if video then s.models.video.default else s.models.falImageModel,
      aspectRatio := aspect,
      resolution := if video then "" else resolution,
      width := None, height := None,
      durationSeconds := if video then Some(duration) else None,
      fileSizeBytes := None, falUrl := "",
      postType := if postType != [] then postType else if video then "reel" else "post",
      targetAccountId := if target != [] then target else s.businessAccount,
      targetAccountName := "", description := topic, caption := "", hashtags := None,
      approvalStatus := "pending", publishStatus := "pending",
      extra := map["generation_job_id" := Str(jobId), "generation_status" := Str("submitted"),
                   "generation_requested_at" := Str(now), "queue_status" := Str("not_queued"),
                   "source" := Str("insta_post_generator")])
  }

  /**
   * The record a submission creates waits for its job: it is keyed by its
   * own id and stores the job id with status "submitted", not yet queued.
   */
  lemma SubmittedRecordJob(s: Settings, t: string, prompt: string, topic: string, postType: string,
                           target: string, aspect: string, resolution: string, duration: int,
                           jobId: string, recordId: string, now: string)
    ensures var doc := MediaMetadataService.NewRecord(
        SubmitArgs(s, t, prompt, topic, postType, target, aspect, resolution, duration, jobId, now), recordId, now);
      && IdOf(doc) == Some(recordId)
      && doc["generation_status"] == Str("submitted") && doc["generation_job_id"] == Str(jobId)
      && doc["queue_status"] == Str("not_queued")
  {
    var a := SubmitArgs(s, t, prompt, topic, postType, target, aspect, resolution, duration, jobId, now);
    var base := MediaMetadataService.BaseRecord(a, recordId, now);
    assert "id" !in a.extra && base["id"] == Str(recordId);
  }

  /**
   * The record a submission creates is pending approval and publishing,
   * has no media yet, and its media type, model and account follow the
   * request.
   */
  lemma SubmittedRecordPending(s: Settings, t: string, prompt: string, topic: string, postType: string,
                               target: string, aspect: string, resolution: string, duration: int,
                               jobId: string, recordId: string, now: string)
    ensures var doc := MediaMetadataService.NewRecord(
        SubmitArgs(s, t, prompt, topic, postType, target, aspect, resolution, duration, jobId, now), recordId, now);
      && doc["approval_status"] == Str("pending") && doc["publish_status"] == Str("pending")
      && doc["media_type"] == Str(if t == "video" then "video" else "image")
      && doc["model"] == Str(if t == "video" then s.models.video.default else s.models.falImageModel)
      && doc["blob_url"] == Str("")
      && doc["target_account_id"] == Str(if target != [] then target else s.businessAccount)
  {
    var a := SubmitArgs(s, t, prompt, topic, postType, target, aspect, resolution, duration, jobId, now);
    assert a.extra.Keys == {"generation_job_id", "generation_status", "generation_requested_at", "queue_status", "source"};
    assert "approval_status" !in a.extra && "publish_status" !in a.extra;
    assert "media_type" !in a.extra && "model" !in a.extra;
    assert "blob_url" !in a.extra && "target_account_id" !in a.extra;
    MediaMetadataService.NewRecordDefaults(a, recordId, now);
    MediaMetadataService.NewRecordMedia(a, recordId, now);
  }

  /** The table entry a submission creates. */
  function NewJob(t: string, jobId: string, recordId: string, prompt: string, topic: string, aspect: string,
                  resolution: string, outputFormat: string, duration: int, videoModel: string, now: string): Job
  {
    Job(jobId, recordId, t, prompt, topic, aspect, resolution, outputFormat, duration, videoModel,
        "submitted", now, None, "", None)
  }

  /** The statuses an entry can hold. */
  predicate KnownStatus(status: string)
  {
    status == "submitted" || status == "running" || status == "completed" || status == "failed"
  }

  /** What every entry of the table satisfies. */
  predicate JobValid(id: string, job: Job)
  {
    && job.jobId == id
    && (job.jobType == "image" || job.jobType == "video")
    && KnownStatus(job.status)
    && (job.status == "completed" ==> job.result.Some?)
    && (job.status == "completed" || job.status == "failed" <==> job.completedAt.Some?)
  }

  /** Every entry of the job table is well formed under its own id. */
  ghost predicate AllJobsValid(jobs: map<string, Job>)
  {
    forall id :: id in jobs ==> JobValid(id, jobs[id])
  }

  /** Putting a well-formed entry keeps the job table well formed. */
  lemma PutKeepsJobsValid(jobs: map<string, Job>, id: string, job: Job)
    requires AllJobsValid(jobs) && JobValid(id, job)
    ensures AllJobsValid(jobs[id := job])
  {
    var after := jobs[id := job];
    forall k | k in after
      ensures JobValid(k, after[k])
    {
      if k != id {
        assert after[k] == jobs[k];
      }
    }
  }

  lemma RunKeepsJobValid(items: map<string, Doc>, id: string, job: Job, s: Settings, fal: Fal, now: string)
    requires JobValid(id, job)
    ensures JobValid(id, RunJob(items, job, s, fal, now).1)
    ensures RunJob(items, job, s, fal, now).1.status in {"completed", "failed"}
  {
    RunEntry(items, job, s, fal, now);
  }

  /**
   * The store side of `_run_generation_job`: mark the record running, call
   * the provider, mark it completed or failed; the entry the run ends with
   * is returned.
   */
  method ExecuteJob(c: Container, job: Job, s: Settings, fal: Fal, now: string) returns (final: Job)
    requires c.Valid()
    modifies c`items
    ensures c.Valid()
    ensures c.items == RunJob(old(c.items), job, s, fal, now).0
    ensures final == RunJob(old(c.items), job, s, fal, now).1
  {
    MarkJobStatus(c, job.contentId, "running", "", now, map[]);
    ghost var running := c.items;
    var call := JobCall(s, job);
    var out := fal(call.0, call.1);
    match out {
      case Ok(a) =>
        var extra := CompletedExtra(job, call.0, a);
        MarkJobStatus(c, job.contentId, "completed", "", now, extra);
      case Err(e) =>
        MarkJobStatus(c, job.contentId, "failed", e, now, map[]);
    }
    assert c.items == Updated(running, job.contentId, FinalUpdates(job, call.0, out, now));
    final := FinalJob(job, call.0, out, now);
  }

  /** The `save_media_metadata` call of a submission: the record is created unless its id is taken. */
  method SavePending(c: Container, a: MediaMetadataService.SaveArgs, id: string, now: string) returns (saved: bool)
    requires c.Valid() && IdOf(MediaMetadataService.NewRecord(a, id, now)) == Some(id)
    modifies c
    ensures c.Valid()
    ensures saved <==> id !in old(c.items)
    ensures c.items == if saved then old(c.items)[id := MediaMetadataService.NewRecord(a, id, now)] else old(c.items)
  {
    var content := MediaMetadataService.SaveMediaMetadata(c, a, id, now);
    saved := content.Ok?;
  }

  /** `_generation_jobs`: the jobs submitted in this process, by job id. */
  class GenerationJobs {
    var jobs: map<string, Job>

    ghost predicate Valid()
      reads this
    {
      AllJobsValid(jobs)
    }

    constructor()
      ensures Valid() && jobs == map[]
    {
      jobs := map[];
    }

    /**
     * `submit_generation_job`: an unknown job type is refused before
     * anything is written; otherwise the pending record is created under
     * `recordId` and the entry is added as "submitted". The uuid, the clock
     * and starting the background task are parameters or left out: the
     * run is `Run` below.
     */
    method Submit(c: Container, s: Settings, prompt: string, jobType: string, topic: string,
                  postType: string, target: string, aspect: string, resolution: string,
                  outputFormat: string, duration: int, videoModel: string,
                  jobId: string, recordId: string, now: string) returns (r: Submission)
      requires Valid() && c.Valid()
      modifies this, c
      ensures Valid() && c.Valid()
      ensures NormalizeJobType(jobType).None? ==>
        r == BadJobType("job_type must be 'image' or 'video'")
        && jobs == old(jobs) && c.items == old(c.items)
      ensures NormalizeJobType(jobType).Some? && recordId in old(c.items) ==>
        r == SaveRaised && jobs == old(jobs) && c.items == old(c.items)
      ensures NormalizeJobType(jobType).Some? && recordId !in old(c.items) ==>
        var t := NormalizeJobType(jobType).value;
        && r == Submitted(jobId, recordId, t)
        && c.items == old(c.items)[recordId := MediaMetadataService.NewRecord(
             SubmitArgs(s, t, prompt, topic, postType, target, aspect, resolution, duration, jobId, now), recordId, now)]
        && jobs == old(jobs)[jobId := NewJob(t, jobId, recordId, prompt, topic, aspect, resolution,
                                            outputFormat, duration, videoModel, now)]
    {
      var normalized := NormalizeJobType(jobType);
      if normalized.None? {
        return BadJobType("job_type must be 'image' or 'video'");
      }
      var t := normalized.value;
      var args := SubmitArgs(s, t, prompt, topic, postType, target, aspect, resolution, duration, jobId, now);
      SubmittedRecordJob(s, t, prompt, topic, postType, target, aspect, resolution, duration, jobId, recordId, now);
      var saved := SavePending(c, args, recordId, now);
      if !saved {
        return SaveRaised;
      }
      var job := NewJob(t, jobId, recordId, prompt, topic, aspect, resolution, outputFormat, duration, videoModel, now);
      assert JobValid(jobId, job);
      PutKeepsJobsValid(jobs, jobId, job);
      jobs := jobs[jobId := job];
      r := Submitted(jobId, recordId, t);
    }

    /**
     * `_run_generation_job` for `jobId`, as the background task runs it:
     * the store and the entry end as `RunJob` says, other entries stay.
     */
    method Run(c: Container, jobId: string, s: Settings, fal: Fal, now: string)
      requires Valid() && c.Valid() && jobId in jobs
      modifies this, c`items
      ensures Valid() && c.Valid()
      ensures c.items == RunJob(old(c.items), old(jobs[jobId]), s, fal, now).0
      ensures jobs == old(jobs)[jobId := RunJob(old(c.items), old(jobs[jobId]), s, fal, now).1]
    {
      var job := jobs[jobId];
      var before := jobs;
      RunKeepsJobValid(c.items, jobId, job, s, fal, now);
      jobs := jobs[jobId := job.(status := "running")];
      var final := ExecuteJob(c, job, s, fal, now);
      PutKeepsJobsValid(before, jobId, final);
      jobs := before[jobId := final];
    }

    /**
     * `check_generation_status`: an unknown job is an error; a known one
     * reports its entry, with the result and the record only when
     * completed and the error only when failed.
     */
    function Check(c: Container, jobId: string): (r: StatusReport)
      reads this, c
      ensures r.UnknownJob? <==> jobId !in jobs
      ensures r.UnknownJob? ==> r.message == "Job " + jobId + " not found"
      ensures r.Report? ==> r.jobId == jobId && r.status == jobs[jobId].status && r.contentId == jobs[jobId].contentId
      ensures r.Report? ==> (r.result.Some? <==> jobs[jobId].status == "completed")
      ensures r.Report? ==> (r.content.Some? <==> jobs[jobId].status == "completed")
      ensures r.Report? ==> (r.error.Some? <==> jobs[jobId].status == "failed")
      ensures r.Report? && r.result.Some? ==> r.result.value == jobs[jobId].result
      ensures r.Report? && r.content.Some? ==>
        (r.content.value.Some? <==> jobs[jobId].contentId in c.items)
        && (r.content.value.Some? ==> r.content.value.value == c.items[jobs[jobId].contentId])
      ensures r.Report? && r.error.Some? ==> r.error.value == jobs[jobId].error
    {
      if jobId !in jobs then UnknownJob("Job " + jobId + " not found")
      else
        var job := jobs[jobId];
        var completed := job.status == "completed";
        Report(jobId, job.contentId, job.jobType, job.status, job.submittedAt,
               if completed then Some(job.result) else None,
               if completed then Some(c.Find(job.contentId)) else None,
               if job.status == "failed" then Some(job.error) else None)
    }
  }

  /**
   * Submitting and then running a job leaves a completed job with its
   * result, or a failed job whose error the status check reports.
   */
  lemma SubmitThenRun(items: map<string, Doc>, s: Settings, t: string, jobId: string, recordId: string,
                      prompt: string, topic: string, aspect: string, resolution: string, outputFormat: string,
                      duration: int, videoModel: string, fal: Fal, now: string)
    requires t == "image" || t == "video"
    ensures var job := NewJob(t, jobId, recordId, prompt, topic, aspect, resolution, outputFormat, duration, videoModel, now);
      JobValid(jobId, job) && job.status == "submitted" && job.result == None
      && JobValid(jobId, RunJob(items, job, s, fal, now).1)
      && RunJob(items, job, s, fal, now).1.status in {"completed", "failed"}
  {
    var job := NewJob(t, jobId, recordId, prompt, topic, aspect, resolution, outputFormat, duration, videoModel, now);
    RunKeepsJobValid(items, jobId, job, s, fal, now);
  }

  // ---------------------------------------------------------------------
  // Briefs
  // ---------------------------------------------------------------------

  /** `length_guide.get(content_format, "medium")`. */
  function RecommendedLength(format: string): string
  {
    match format
    case "image" => "medium (100-200 words)"
    case "carousel" => "long (150-300 words, educational)"
    case "reel" => "short (30-80 words)"
    case "story" => "very short (10-30 words)"
    case _ => "medium"
  }

  /** The four known formats get distinct guides; any other format gets plain "medium". */
  lemma RecommendedLengthSpec(format: string, other: string)
    ensures format !in {"image", "carousel", "reel", "story"} <==> RecommendedLength(format) == "medium"
    ensures format in {"image", "carousel", "reel", "story"} && RecommendedLength(format) == RecommendedLength(other)
      ==> format == other
  {
  }

  const CaptionInstructions := "Write the caption now. Start with a strong hook in the first line. "
    + "Use line breaks for readability. End with a clear CTA. "
    + "Do NOT include hashtags in the caption \U{2014} they go separately."

  /** The `brief` of `write_caption`. */
  function CaptionBrief(topic: string, tone: string, format: string, visual: string,
                        audience: string, hook: string): (b: Doc)
    ensures b.Keys == {"topic", "tone", "format", "visual_description", "target_audience", "hook_type",
                       "recommended_length", "instructions"}
    ensures b["recommended_length"] == Str(RecommendedLength(format))
    ensures b["hook_type"] == Str(if hook == [] then "auto-select best fit" else hook)
    ensures b["topic"] == Str(topic) && b["format"] == Str(format) && b["tone"] == Str(tone)
  {
    map["topic" := Str(topic), "tone" := Str(tone), "format" := Str(format),
        "visual_description" := Str(visual), "target_audience" := Str(audience),
        "hook_type" := Or(Str(hook), Str("auto-select best fit")),
        "recommended_length" := Str(RecommendedLength(format)),
        "instructions" := Str(CaptionInstructions)]
  }

  /** The broad, medium and niche bucket sizes of `suggest_hashtags`, with floor division. */
  function Buckets(count: int): (int, int, int)
  {
    (count / 4, count / 2, count - count / 4 - count / 2)
  }

  /**
   * The three buckets add up to the requested count; for a non-negative
   * count none is negative and the niche bucket is at least the broad one.
   */
  lemma BucketsSum(count: int)
    ensures var (broad, medium, niche) := Buckets(count);
      && broad + medium + niche == count
      && (count >= 0 ==> 0 <= broad <= medium && 0 <= niche && broad <= niche)
      && (count >= 0 ==> 4 * broad <= count < 4 * broad + 4 && 2 * medium <= count < 2 * medium + 2)
  {
  }

  /** `caption[:200] if caption else "N/A"`. */
  function CaptionContext(caption: string): (r: string)
    ensures caption == [] ==> r == "N/A"
    ensures caption != [] ==> |r| == if |caption| < 200 then |caption| else 200
    ensures caption != [] ==> r == caption[..|r|]
  {
    if caption == [] then "N/A" else Head(caption, 200)
  }
}
