/**
 * The legacy media generator's tools
 * (python/insta_agent/agents/media_generator/tools.py): generate an image or
 * a video through fal.ai, keep the asset in blob storage, and record it in
 * the legacy media store; and re-upload a local file.
 *
 * The provider call, the download and the blob upload are one oracle
 * (InstaPostGeneratorTools.Fal): it hands back the asset or the text of the
 * exception raised. Every exception ends in a "error" report, never in a
 * raise.
 */
module LegacyMediaGeneratorTools {
  import opened Wrappers
  import opened Text
  import opened Docs
  import opened Store
  import FalAiService
  import MGW = MediaGenerationWorker
  import LegacyMediaMetadataService
  import IPG = InstaPostGeneratorTools

  // ---------------------------------------------------------------------
  // `_resolve_video_model` and the video arguments
  // ---------------------------------------------------------------------

  /**
   * The model and the arguments `generate_video` sends: the hint resolved
   * as the worker does, Sora durations snapped to 4/8/12, Kling durations
   * clamped to 3..15, and any other model given duration and aspect as asked.
   */
  function VideoCall(m: MGW.VideoModels, prompt: string, duration: int, aspect: string, hint: string)
    : (r: (string, FalAiService.FalArgs))
    ensures hint == [] || Lower(Strip(hint)) == "kling" ==> r.0 == m.default
    ensures hint != [] && Lower(Strip(hint)) == "sora" ==> r.0 == m.alt
    ensures hint != [] && StartsWith(Lower(Strip(hint)), "fal-ai/") ==> r.0 == Lower(Strip(hint))
    ensures r.0 == m.default || r.0 == m.alt || (hint != [] && r.0 == Lower(Strip(hint)) && StartsWith(r.0, "fal-ai/"))
    ensures r.1.prompt == Str(prompt) && !r.1.ImageArgs?
    ensures r.1.SoraArgs? <==> Contains(r.0, "sora")
    ensures r.1.KlingArgs? <==> !Contains(r.0, "sora") && Contains(r.0, "kling")
    ensures r.1.SoraArgs? ==>
      && r.1.duration == FalAiService.SoraDuration(duration)
      && r.1.aspectRatio == FalAiService.SoraAspect(Str(aspect))
    ensures r.1.KlingArgs? ==>
      && r.1.duration == FalAiService.KlingDuration(duration)
      && r.1.aspectRatio == FalAiService.KlingAspect(Str(aspect))
    ensures r.1.PlainVideoArgs? ==> r.1.duration == duration && r.1.aspectRatio == Str(aspect)
  {
    var model := MGW.ResolveVideoModel(m, hint);
    (model, FalAiService.ShapeVideo(model, Str(prompt), duration, Str(aspect)))
  }

  /** The legacy tool shapes a video exactly as a background video job of the post generator does. */
  lemma VideoCallAsJob(s: IPG.Settings, job: IPG.Job)
    requires job.jobType == "video"
    ensures VideoCall(s.models.video, job.prompt, job.duration, job.aspectRatio, job.videoModel) == IPG.JobCall(s, job)
  {
  }

  // ---------------------------------------------------------------------
  // `generate_image` and `generate_video`
  // ---------------------------------------------------------------------

  /** What a generate tool reports (the local file path and the echoed inputs are left out). */
  datatype Outcome =
    | Generated(model: string, cosmosId: string, blobUrl: string, falUrl: string)
    | Failed(error: string, promptUsed: string, modelUsed: Option<string>)

  /** `image_data.get("width")` as the store's optional integer. */
  function IntOf(v: Value): (r: Option<int>)
    ensures r.Some? <==> v.Int?
  {
    if v.Int? then Some(v.i) else None
  }

  /** The image arguments: `FAL_IMAGE_MODEL` with the prompt, aspect, format and resolution as given. */
  function ImageCall(s: MGW.Settings, prompt: string, aspect: string, resolution: string, outputFormat: string)
    : (string, FalAiService.FalArgs)
  {
    (s.falImageModel, FalAiService.ImageArgs(Str(prompt), Str(aspect), Str(outputFormat), Str(resolution)))
  }

  /** The `save_media_metadata` call of `generate_image`: the description travels in `extra`. */
  function ImageSave(s: MGW.Settings, prompt: string, aspect: string, resolution: string, a: IPG.Asset)
    : LegacyMediaMetadataService.SaveArgs
  {
    LegacyMediaMetadataService.SaveArgs(
      "image", a.blobUrl, a.blobName, prompt, s.falImageModel, aspect, resolution,
      IntOf(a.width), IntOf(a.height), None, Some(a.fileSize), a.falUrl,
      map["description" := a.description])
  }

  /** The `save_media_metadata` call of `generate_video`: no resolution, size or `extra`. */
  function VideoSave(model: string, prompt: string, duration: int, aspect: string, a: IPG.Asset)
    : LegacyMediaMetadataService.SaveArgs
  {
    LegacyMediaMetadataService.SaveArgs(
      "video", a.blobUrl, a.blobName, prompt, model, aspect, "",
      None, None, Some(duration), Some(a.fileSize), a.falUrl, map[])
  }

  /**
   * A generated image's record is an image record keyed by the new id, with
   * the model, blob and provider URLs and the provider's description, and
   * none of the lifecycle status fields: nothing marks it for review.
   */
  lemma ImageRecord(s: MGW.Settings, prompt: string, aspect: string, resolution: string, a: IPG.Asset,
                    id: string, now: string)
    ensures var doc := LegacyMediaMetadataService.NewRecord(ImageSave(s, prompt, aspect, resolution, a), id, now);
      && IdOf(doc) == Some(id)
      && doc["media_type"] == Str("image") && doc["model"] == Str(s.falImageModel)
      && doc["blob_url"] == Str(a.blobUrl) && doc["fal_url"] == Str(a.falUrl)
      && doc["description"] == a.description
      && "approval_status" !in doc && "publish_status" !in doc && "generation_status" !in doc
  {
    var args := ImageSave(s, prompt, aspect, resolution, a);
    var base := LegacyMediaMetadataService.BaseRecord(args, id, now);
    assert base["media_type"] == Str("image") && base["model"] == Str(s.falImageModel);
    assert base["blob_url"] == Str(a.blobUrl) && base["fal_url"] == Str(a.falUrl);
    LegacyMediaMetadataService.NoLifecycleFields(args, id, now);
  }

  /** A generated video's record: a video record with its model, URLs and duration, and no lifecycle fields. */
  lemma VideoRecord(model: string, prompt: string, duration: int, aspect: string, a: IPG.Asset, id: string, now: string)
    ensures var doc := LegacyMediaMetadataService.NewRecord(VideoSave(model, prompt, duration, aspect, a), id, now);
      && IdOf(doc) == Some(id)
      && doc["media_type"] == Str("video") && doc["model"] == Str(model)
      && doc["blob_url"] == Str(a.blobUrl) && doc["fal_url"] == Str(a.falUrl)
      && doc["duration_seconds"] == Int(duration)
      && "approval_status" !in doc && "publish_status" !in doc && "generation_status" !in doc
  {
    var args := VideoSave(model, prompt, duration, aspect, a);
    var base := LegacyMediaMetadataService.BaseRecord(args, id, now);
    assert base["media_type"] == Str("video") && base["model"] == Str(model);
    assert base["blob_url"] == Str(a.blobUrl) && base["fal_url"] == Str(a.falUrl);
    assert base["duration_seconds"] == Int(duration);
    LegacyMediaMetadataService.NoLifecycleFields(args, id, now);
  }

  /**
   * `generate_image`: on a provider, download or upload failure the error
   * is reported and nothing is written; otherwise the record is created
   * under the new id (a clash with an existing id is reported as an error).
   */
  method GenerateImage(c: Container, s: MGW.Settings, prompt: string, aspect: string, resolution: string,
                       outputFormat: string, fal: IPG.Fal, id: string, now: string)
    returns (r: Outcome)
    requires c.Valid()
    modifies c
    ensures c.Valid()
    ensures var call := ImageCall(s, prompt, aspect, resolution, outputFormat);
      match fal(call.0, call.1)
      case Err(e) => r == Failed(e, prompt, None) && c.items == old(c.items)
      case Ok(a) =>
        if id in old(c.items) then r.Failed? && r.promptUsed == prompt && r.modelUsed.None? && c.items == old(c.items)
        else (r == Generated(s.falImageModel, id, a.blobUrl, a.falUrl)
          && c.items == old(c.items)[id := LegacyMediaMetadataService.NewRecord(ImageSave(s, prompt, aspect, resolution, a), id, now)])
  {
    var call := ImageCall(s, prompt, aspect, resolution, outputFormat);
    var out := fal(call.0, call.1);
    if out.Err? {
      return Failed(out.error, prompt, None);
    }
    var a := out.value;
    ImageRecord(s, prompt, aspect, resolution, a, id, now);
    var saved := LegacyMediaMetadataService.SaveMediaMetadata(c, ImageSave(s, prompt, aspect, resolution, a), id, now);
    if saved.Err? {
      return Failed(saved.error, prompt, None);
    }
    r := Generated(s.falImageModel, id, a.blobUrl, a.falUrl);
  }

  /**
   * `generate_video`: the same, with the resolved model reported on failure
   * as well as on success.
   */
  method GenerateVideo(c: Container, m: MGW.VideoModels, prompt: string, duration: int, aspect: string,
                       hint: string, fal: IPG.Fal, id: string, now: string)
    returns (r: Outcome)
    requires c.Valid()
    modifies c
    ensures c.Valid()
    ensures var call := VideoCall(m, prompt, duration, aspect, hint);
      match fal(call.0, call.1)
      case Err(e) => r == Failed(e, prompt, Some(call.0)) && c.items == old(c.items)
      case Ok(a) =>
        if id in old(c.items) then r.Failed? && r.promptUsed == prompt && r.modelUsed == Some(call.0) && c.items == old(c.items)
        else (r == Generated(call.0, id, a.blobUrl, a.falUrl)
          && c.items == old(c.items)[id := LegacyMediaMetadataService.NewRecord(VideoSave(call.0, prompt, duration, aspect, a), id, now)])
  {
    var call := VideoCall(m, prompt, duration, aspect, hint);
    var out := fal(call.0, call.1);
    if out.Err? {
      return Failed(out.error, prompt, Some(call.0));
    }
    var a := out.value;
    VideoRecord(call.0, prompt, duration, aspect, a, id, now);
    var saved := LegacyMediaMetadataService.SaveMediaMetadata(c, VideoSave(call.0, prompt, duration, aspect, a), id, now);
    if saved.Err? {
      return Failed(saved.error, prompt, Some(call.0));
    }
    r := Generated(call.0, id, a.blobUrl, a.falUrl);
  }

  // ---------------------------------------------------------------------
  // `upload_media`
  // ---------------------------------------------------------------------

  /** What `upload_blob` returns. */
  datatype BlobInfo = BlobInfo(blobUrl: string, blobName: string, container: string, fileSize: int)

  /** The report of `upload_media`. */
  datatype UploadReport =
    | Uploaded(localPath: string, fileSize: int, publicUrl: string, blobName: string, container: string)
    | UploadError(error: string, reportedPath: Option<string>)

  /**
   * `upload_media`: a missing file is reported before any upload; an upload
   * exception is reported with the path; otherwise the blob's URL is the
   * public URL. `upload` is what `upload_blob` would do with the file.
   */
  function UploadMedia(path: string, found: bool, upload: Result<BlobInfo>): (r: UploadReport)
    ensures !found ==> r == UploadError("File not found: " + path, None)
    ensures r.Uploaded? <==> found && upload.Ok?
    ensures r.Uploaded? ==>
      && r.localPath == path && r.publicUrl == upload.value.blobUrl
      && r.blobName == upload.value.blobName && r.fileSize == upload.value.fileSize
    ensures found && upload.Err? ==> r == UploadError(upload.error, Some(path))
  {
    if !found then UploadError("File not found: " + path, None)
    else match upload
      case Err(e) => UploadError(e, Some(path))
      case Ok(b) => Uploaded(path, b.fileSize, b.blobUrl, b.blobName, b.container)
  }

  /** A missing file gets the same report whatever the upload would have done: nothing is uploaded. */
  lemma MissingFileNeverUploads(path: string, u1: Result<BlobInfo>, u2: Result<BlobInfo>)
    ensures UploadMedia(path, false, u1) == UploadMedia(path, false, u2)
    ensures UploadMedia(path, false, u1).UploadError?
  {
  }
}
