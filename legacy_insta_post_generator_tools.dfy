/**
 * The legacy post generator's tools
 * (python/insta_agent/agents/insta_post_generator/tools.py): generate an
 * image or a video, keep it in blob storage, record it with its post type,
 * target account and pending approval, and queue it for human review.
 *
 * As written, both generate tools pass keyword arguments that the legacy
 * store's `save_media_metadata` and the legacy review queue's
 * `queue_for_review` do not declare. Python rejects such a call with a
 * TypeError before the callee runs, so each tool ends in its "error" report
 * after the asset has been generated and uploaded: nothing is recorded and
 * nothing is queued. The `...AsWritten` members model that code; the
 * `GenerateImage`/`GenerateVideo` members model the evidently intended
 * calls, which are the ones the content-record store
 * (services/media_metadata_service.py) and the current review queue
 * (shared/services/review_queue_service.py) accept.
 *
 * `write_caption` and `suggest_hashtags` are the same code as the current
 * post generator's (InstaPostGeneratorTools.CaptionBrief, Buckets).
 */
module LegacyInstaPostGeneratorTools {
  import opened Wrappers
  import opened Docs
  import opened Store
  import opened AzureBusService
  import FalAiService
  import MGW = MediaGenerationWorker
  import MediaMetadataService
  import RQ = ReviewQueueService
  import LegacyMediaMetadataService
  import LegacyRQ = LegacyReviewQueueService
  import IPG = InstaPostGeneratorTools
  import LegacyMediaGeneratorTools

  // ---------------------------------------------------------------------
  // Binding keyword arguments
  // ---------------------------------------------------------------------

  /** The keyword arguments the generate tools pass or the callees declare. */
  datatype Keyword =
    | MediaType | BlobUrl | BlobName | Prompt | Model | AspectRatio | Resolution | Width | Height
    | DurationSeconds | FileSizeBytes | FalUrl | Extra | PostType | TargetAccountId | TargetAccountName
    | Description | Caption | Hashtags | ApprovalStatus | PublishStatus
    | ContentId | MediaUrl | ContentType | Topic | TrendSource

  /** The keyword as spelled in the call. */
  function Name(k: Keyword): string
  {
    match k
    case MediaType => "media_type"
    case BlobUrl => "blob_url"
    case BlobName => "blob_name"
    case Prompt => "prompt"
    case Model => "model"
    case AspectRatio => "aspect_ratio"
    case Resolution => "resolution"
    case Width => "width"
    case Height => "height"
    case DurationSeconds => "duration_seconds"
    case FileSizeBytes => "file_size_bytes"
    case FalUrl => "fal_url"
    case Extra => "extra"
    case PostType => "post_type"
    case TargetAccountId => "target_account_id"
    case TargetAccountName => "target_account_name"
    case Description => "description"
    case Caption => "caption"
    case Hashtags => "hashtags"
    case ApprovalStatus => "approval_status"
    case PublishStatus => "publish_status"
    case ContentId => "content_id"
    case MediaUrl => "media_url"
    case ContentType => "content_type"
    case Topic => "topic"
    case TrendSource => "trend_source"
  }

  /** The position of the first passed keyword the callee does not declare, if any. */
  function FirstUnexpected(declared: set<Keyword>, passed: seq<Keyword>): (r: Option<nat>)
    ensures r.None? <==> forall i :: 0 <= i < |passed| ==> passed[i] in declared
    ensures r.Some? ==>
      && r.value < |passed| && passed[r.value] !in declared
      && forall j :: 0 <= j < r.value ==> passed[j] in declared
  {
    if passed == [] then None
    else if passed[0] !in declared then Some(0)
    else match FirstUnexpected(declared, passed[1..])
      case None => None
      case Some(k) => Some(k + 1)
  }

  /** The text of the TypeError Python raises for an undeclared keyword. */
  function Unexpected(callee: string, k: Keyword): string
  {
    callee + "() got an unexpected keyword argument '" + Name(k) + "'"
  }

  /**
   * Calling a keyword-only Python function: the TypeError raised for the
   * first keyword, in call order, that the function does not declare, or
   * nothing when every keyword binds.
   */
  function BindError(callee: string, declared: set<Keyword>, passed: seq<Keyword>): (r: Option<string>)
    ensures r.None? <==> forall i :: 0 <= i < |passed| ==> passed[i] in declared
  {
    match FirstUnexpected(declared, passed)
    case None => None
    case Some(k) => Some(Unexpected(callee, passed[k]))
  }

  /** The keywords the legacy `save_media_metadata` declares. */
  const LegacySaveKeywords: set<Keyword> := {
    MediaType, BlobUrl, BlobName, Prompt, Model, AspectRatio, Resolution,
    Width, Height, DurationSeconds, FileSizeBytes, FalUrl, Extra}

  /** The keywords the content-record store's `save_media_metadata` declares. */
  const SaveKeywords: set<Keyword> := LegacySaveKeywords + {
    PostType, TargetAccountId, TargetAccountName, Description, Caption, Hashtags, ApprovalStatus, PublishStatus}

  /** The keywords the legacy `queue_for_review` declares. */
  const LegacyQueueKeywords: set<Keyword> := {MediaUrl, Caption, Hashtags, ContentType, Topic, TrendSource}

  /** The keywords the current `queue_for_review` declares. */
  const QueueKeywords: set<Keyword> := LegacyQueueKeywords + {ContentId, PostType, TargetAccountId}

  /** The keywords `generate_image` passes to `save_media_metadata`, in call order. */
  const ImageSavePassed: seq<Keyword> := [
    MediaType, BlobUrl, BlobName, Prompt, Model, AspectRatio, Resolution, Width, Height,
    FileSizeBytes, FalUrl, PostType, TargetAccountId, Description, ApprovalStatus, PublishStatus, Extra]

  /** The keywords `generate_video` passes to `save_media_metadata`, in call order. */
  const VideoSavePassed: seq<Keyword> := [
    MediaType, BlobUrl, BlobName, Prompt, Model, AspectRatio, DurationSeconds, FileSizeBytes, FalUrl,
    PostType, TargetAccountId, ApprovalStatus, PublishStatus, Extra]

  /** The keywords both tools pass to `queue_for_review`, in call order. */
  const QueuePassed: seq<Keyword> := [
    ContentId, MediaUrl, Caption, Hashtags, ContentType, PostType, TargetAccountId, Topic, TrendSource]

  /** A keyword that does not bind, after keywords that all do, is the first one reported. */
  lemma FirstUnexpectedAt(declared: set<Keyword>, passed: seq<Keyword>, i: nat)
    requires i < |passed| && passed[i] !in declared
    requires forall j :: 0 <= j < i ==> passed[j] in declared
    ensures FirstUnexpected(declared, passed) == Some(i)
  {
  }

  /** The legacy store rejects the image tool's save at `post_type`. */
  lemma ImageSaveRaises()
    ensures BindError("save_media_metadata", LegacySaveKeywords, ImageSavePassed)
      == Some(Unexpected("save_media_metadata", PostType))
  {
    var p := ImageSavePassed;
    forall j | 0 <= j < 11 ensures p[j] in LegacySaveKeywords {
    }
    FirstUnexpectedAt(LegacySaveKeywords, p, 11);
  }

  /** The legacy store rejects the video tool's save at `post_type`. */
  lemma VideoSaveRaises()
    ensures BindError("save_media_metadata", LegacySaveKeywords, VideoSavePassed)
      == Some(Unexpected("save_media_metadata", PostType))
  {
    var p := VideoSavePassed;
    forall j | 0 <= j < 9 ensures p[j] in LegacySaveKeywords {
    }
    FirstUnexpectedAt(LegacySaveKeywords, p, 9);
  }

  /** Even past the save, the legacy queue would reject the call at its first keyword, `content_id`. */
  lemma QueueRaises()
    ensures BindError("queue_for_review", LegacyQueueKeywords, QueuePassed)
      == Some(Unexpected("queue_for_review", ContentId))
  {
    FirstUnexpectedAt(LegacyQueueKeywords, QueuePassed, 0);
  }

  /** Every keyword both tools pass binds in the content-record store and the current queue. */
  lemma IntendedCallsBind()
    ensures BindError("save_media_metadata", SaveKeywords, ImageSavePassed).None?
    ensures BindError("save_media_metadata", SaveKeywords, VideoSavePassed).None?
    ensures BindError("queue_for_review", QueueKeywords, QueuePassed).None?
  {
    forall i | 0 <= i < |ImageSavePassed| ensures ImageSavePassed[i] in SaveKeywords {
    }
    forall i | 0 <= i < |VideoSavePassed| ensures VideoSavePassed[i] in SaveKeywords {
    }
    forall i | 0 <= i < |QueuePassed| ensures QueuePassed[i] in QueueKeywords {
    }
  }

  // ---------------------------------------------------------------------
  // Reports
  // ---------------------------------------------------------------------

  /** What a generate tool reports (the local file path and the echoed inputs are left out). */
  datatype Outcome =
    | Generated(model: string, contentId: string, blobUrl: string, falUrl: string,
                approvalStatus: string, queueStatus: string)
    | Failed(error: string, promptUsed: string, modelUsed: Option<string>)

  /** The image arguments: `FAL_IMAGE_MODEL` with the prompt, aspect, format and resolution as given. */
  function ImageCall(s: IPG.Settings, prompt: string, aspect: string, resolution: string, outputFormat: string)
    : (string, FalAiService.FalArgs)
  {
    LegacyMediaGeneratorTools.ImageCall(s.models, prompt, aspect, resolution, outputFormat)
  }

  /** The video model and arguments: resolved and shaped as the media generator does. */
  function VideoCall(s: IPG.Settings, prompt: string, duration: int, aspect: string, hint: string)
    : (string, FalAiService.FalArgs)
  {
    LegacyMediaGeneratorTools.VideoCall(s.models.video, prompt, duration, aspect, hint)
  }

  // ---------------------------------------------------------------------
  // As written
  // ---------------------------------------------------------------------

  /**
   * The save and the queueing as written: each call first binds its
   * keywords, and a keyword the callee does not declare raises before the
   * callee runs. The save goes to the legacy store, the item to the legacy
   * queue.
   */
  method SaveAndQueueAsWritten(c: Container, pending: Queue, account: string, args: LegacyMediaMetadataService.SaveArgs,
                               q: LegacyRQ.ReviewArgs, savePassed: seq<Keyword>, id: string, uuid: string,
                               now: string, delivered: bool)
    returns (r: Result<Doc>)
    requires c.Valid() && pending.Valid()
    modifies c, pending
    ensures c.Valid() && pending.Valid()
    ensures var saveError := BindError("save_media_metadata", LegacySaveKeywords, savePassed);
      saveError.Some? ==> r == Err(saveError.value) && c.items == old(c.items) && pending.entries == old(pending.entries)
    ensures r.Ok? ==>
      && BindError("save_media_metadata", LegacySaveKeywords, savePassed).None?
      && BindError("queue_for_review", LegacyQueueKeywords, QueuePassed).None?
  {
    var saveError := BindError("save_media_metadata", LegacySaveKeywords, savePassed);
    if saveError.Some? {
      return Err(saveError.value);
    }
    var saved := LegacyMediaMetadataService.SaveMediaMetadata(c, args, id, now);
    if saved.Err? {
      return saved;
    }
    var queueError := BindError("queue_for_review", LegacyQueueKeywords, QueuePassed);
    if queueError.Some? {
      return Err(queueError.value);
    }
    r := LegacyRQ.QueueForReview(pending, account, q, uuid, now, delivered);
  }

  /**
   * `generate_image` as written: the save binds its keywords first, and
   * when that raises, the error is reported and neither the store nor the
   * queue is touched. It reports success only when both calls bind, which
   * ImageSaveRaises rules out.
   */
  method GenerateImageAsWritten(c: Container, pending: Queue, account: string, s: IPG.Settings,
                                prompt: string, aspect: string, resolution: string, outputFormat: string,
                                fal: IPG.Fal, id: string, uuid: string, now: string, delivered: bool)
    returns (r: Outcome)
    requires c.Valid() && pending.Valid()
    modifies c, pending
    ensures c.Valid() && pending.Valid()
    ensures r.Failed? || r.Generated?
    ensures var call := ImageCall(s, prompt, aspect, resolution, outputFormat);
      var saveError := BindError("save_media_metadata", LegacySaveKeywords, ImageSavePassed);
      match fal(call.0, call.1)
      case Err(e) => r == Failed(e, prompt, None) && c.items == old(c.items) && pending.entries == old(pending.entries)
      case Ok(_) =>
        && (saveError.Some? ==>
              r == Failed(saveError.value, prompt, None)
              && c.items == old(c.items) && pending.entries == old(pending.entries))
        && (r.Generated? ==>
              saveError.None? && BindError("queue_for_review", LegacyQueueKeywords, QueuePassed).None?)
  {
    var call := ImageCall(s, prompt, aspect, resolution, outputFormat);
    var out := fal(call.0, call.1);
    if out.Err? {
      return Failed(out.error, prompt, None);
    }
    var a := out.value;
    var topic := AsText(Or(a.description, Str("Generated image")));
    var queued := SaveAndQueueAsWritten(
      c, pending, account, LegacyMediaGeneratorTools.ImageSave(s.models, prompt, aspect, resolution, a),
      LegacyRQ.ReviewArgs(a.blobUrl, "", "", "image", topic, "insta_post_generator"), ImageSavePassed,
      id, uuid, now, delivered);
    if queued.Err? {
      return Failed(queued.error, prompt, None);
    }
    r := Generated(s.models.falImageModel, id, a.blobUrl, a.falUrl, "pending", "queued");
  }

  /** `generate_video` as written: the same, with the resolved model in the error report. */
  method GenerateVideoAsWritten(c: Container, pending: Queue, account: string, s: IPG.Settings,
                                prompt: string, duration: int, aspect: string, hint: string,
                                fal: IPG.Fal, id: string, uuid: string, now: string, delivered: bool)
    returns (r: Outcome)
    requires c.Valid() && pending.Valid()
    modifies c, pending
    ensures c.Valid() && pending.Valid()
    ensures var call := VideoCall(s, prompt, duration, aspect, hint);
      var saveError := BindError("save_media_metadata", LegacySaveKeywords, VideoSavePassed);
      match fal(call.0, call.1)
      case Err(e) =>
        r == Failed(e, prompt, Some(call.0)) && c.items == old(c.items) && pending.entries == old(pending.entries)
      case Ok(_) =>
        && (saveError.Some? ==>
              r == Failed(saveError.value, prompt, Some(call.0))
              && c.items == old(c.items) && pending.entries == old(pending.entries))
        && (r.Generated? ==>
              saveError.None? && BindError("queue_for_review", LegacyQueueKeywords, QueuePassed).None?)
  {
    var call := VideoCall(s, prompt, duration, aspect, hint);
    var out := fal(call.0, call.1);
    if out.Err? {
      return Failed(out.error, prompt, Some(call.0));
    }
    var a := out.value;
    var queued := SaveAndQueueAsWritten(
      c, pending, account, LegacyMediaGeneratorTools.VideoSave(call.0, prompt, duration, aspect, a),
      LegacyRQ.ReviewArgs(a.blobUrl, "", "", "video", "Generated reel", "insta_post_generator"), VideoSavePassed,
      id, uuid, now, delivered);
    if queued.Err? {
      return Failed(queued.error, prompt, Some(call.0));
    }
    r := Generated(call.0, id, a.blobUrl, a.falUrl, "pending", "queued");
  }

  // ---------------------------------------------------------------------
  // As intended
  // ---------------------------------------------------------------------

  /** The intended save of `generate_image`: a pending post for the business account. */
  function ImageSaveArgs(s: IPG.Settings, prompt: string, aspect: string, resolution: string, a: IPG.Asset)
    : MediaMetadataService.SaveArgs
  {
    MediaMetadataService.SaveArgs(
      mediaType := "image", blobUrl := a.blobUrl, blobName := a.blobName, prompt := prompt,
      model := s.models.falImageModel, aspectRatio := aspect, resolution := resolution,
      width := LegacyMediaGeneratorTools.IntOf(a.width), height := LegacyMediaGeneratorTools.IntOf(a.height),
      durationSeconds := None, fileSizeBytes := Some(a.fileSize), falUrl := a.falUrl,
      postType := "post", targetAccountId := s.businessAccount, targetAccountName := "",
      description := AsText(a.description), caption := "", hashtags := None,
      approvalStatus := "pending", publishStatus := "pending",
      extra := map["source" := Str("insta_post_generator")])
  }

  /** The intended save of `generate_video`: a pending reel for the business account. */
  function VideoSaveArgs(s: IPG.Settings, model: string, prompt: string, duration: int, aspect: string, a: IPG.Asset)
    : MediaMetadataService.SaveArgs
  {
    MediaMetadataService.SaveArgs(
      mediaType := "video", blobUrl := a.blobUrl, blobName := a.blobName, prompt := prompt,
      model := model, aspectRatio := aspect, resolution := "",
      width := None, height := None,
      durationSeconds := Some(duration), fileSizeBytes := Some(a.fileSize), falUrl := a.falUrl,
      postType := "reel", targetAccountId := s.businessAccount, targetAccountName := "",
      description := "", caption := "", hashtags := None,
      approvalStatus := "pending", publishStatus := "pending",
      extra := map["source" := Str("insta_post_generator")])
  }

  /** The intended review request: the new record, its blob, and the description (or a stock topic). */
  function ReviewArgs(s: IPG.Settings, contentType: string, postType: string, topic: string, a: IPG.Asset, id: string)
    : RQ.ReviewArgs
  {
    RQ.ReviewArgs(
      contentId := id, mediaUrl := a.blobUrl, caption := "", hashtags := "", contentType := contentType,
      postType := postType, targetAccountId := s.businessAccount, topic := topic,
      trendSource := "insta_post_generator")
  }

  function ImageTopic(a: IPG.Asset): string
  {
    AsText(Or(a.description, Str("Generated image")))
  }

  /** The store after a save of `doc` under `id` and the review reset of the queued item that follows it. */
  function SavedAndQueued(items: map<string, Doc>, doc: Doc, id: string, q: RQ.ReviewArgs, tags: seq<string>,
                          uuid: string, now: string)
    : map<string, Doc>
  {
    RQ.ResetStore(items[id := doc], RQ.ItemId(q, uuid), q, tags, now)
  }

  /**
   * After the intended save and queueing, the new record is present under
   * its id and awaits approval, every other record is unchanged, and the
   * queued item carries the record's id (ReviewQueueService.ReviewItemShape
   * gives the rest of the item).
   */
  lemma QueuedRecordPending(items: map<string, Doc>, doc: Doc, id: string, q: RQ.ReviewArgs, tags: seq<string>,
                            uuid: string, now: string)
    requires q.contentId == id && id != []
    ensures RQ.ItemId(q, uuid) == id
    ensures var after := SavedAndQueued(items, doc, id, q, tags, uuid, now);
      && after.Keys == items.Keys + {id}
      && after[id]["approval_status"] == Str("pending")
      && (forall k :: k in items && k != id ==> after[k] == items[k])
  {
    var saved := items[id := doc];
    RQ.ResetTouchesOnlyItem(saved, id, q, tags, now);
  }

  /**
   * The two intended calls in order: save the record under `id` (a clash
   * raises), then reset it for review and send the review item.
   */
  method SaveAndQueue(c: Container, pending: Queue, account: string, args: MediaMetadataService.SaveArgs,
                      q: RQ.ReviewArgs, id: string, uuid: string, now: string, delivered: bool)
    returns (r: Result<Doc>)
    requires c.Valid() && pending.Valid() && "id" !in args.extra
    modifies c, pending
    ensures c.Valid() && pending.Valid()
    ensures id in old(c.items) ==> r.Err? && c.items == old(c.items) && pending.entries == old(pending.entries)
    ensures id !in old(c.items) ==>
      && c.items == SavedAndQueued(old(c.items), MediaMetadataService.NewRecord(args, id, now), id, q, RQ.Tags(q), uuid, now)
      && (delivered ==>
            r.Ok? && pending.entries == old(pending.entries) + [Queued(old(pending.nextSeq), RQ.ReviewItemMessage(account, q, RQ.ItemId(q, uuid), now))])
      && (!delivered ==> r.Err? && pending.entries == old(pending.entries))
  {
    MediaMetadataService.NewRecordId(args, id, now);
    var saved := MediaMetadataService.SaveMediaMetadata(c, args, id, now);
    if saved.Err? {
      return saved;
    }
    r := RQ.QueueForReview(c, pending, account, q, uuid, now, delivered);
  }

  /**
   * `generate_image` as intended: a provider, download or upload failure
   * is reported and nothing changes; a clash with an existing id is
   * reported; otherwise the record is created, reset for review and sent to
   * the review-pending queue, and the report says "pending" and "queued".
   * A failed send is reported as an error after the record was written.
   */
  method GenerateImage(c: Container, pending: Queue, account: string, s: IPG.Settings,
                       prompt: string, aspect: string, resolution: string, outputFormat: string,
                       fal: IPG.Fal, id: string, uuid: string, now: string, delivered: bool)
    returns (r: Outcome)
    requires c.Valid() && pending.Valid()
    modifies c, pending
    ensures c.Valid() && pending.Valid()
    ensures var call := ImageCall(s, prompt, aspect, resolution, outputFormat);
      match fal(call.0, call.1)
      case Err(e) => r == Failed(e, prompt, None) && c.items == old(c.items) && pending.entries == old(pending.entries)
      case Ok(a) =>
        var doc := MediaMetadataService.NewRecord(ImageSaveArgs(s, prompt, aspect, resolution, a), id, now);
        var q := ReviewArgs(s, "image", "post", ImageTopic(a), a, id);
        if id in old(c.items) then
          r.Failed? && r.modelUsed.None? && c.items == old(c.items) && pending.entries == old(pending.entries)
        else
          && c.items == SavedAndQueued(old(c.items), doc, id, q, RQ.Tags(q), uuid, now)
          && (delivered ==>
                r == Generated(s.models.falImageModel, id, a.blobUrl, a.falUrl, "pending", "queued")
                && pending.entries == old(pending.entries) + [Queued(old(pending.nextSeq), RQ.ReviewItemMessage(account, q, RQ.ItemId(q, uuid), now))])
          && (!delivered ==> r.Failed? && pending.entries == old(pending.entries))
  {
    var call := ImageCall(s, prompt, aspect, resolution, outputFormat);
    var out := fal(call.0, call.1);
    if out.Err? {
      return Failed(out.error, prompt, None);
    }
    var a := out.value;
    var args := ImageSaveArgs(s, prompt, aspect, resolution, a);
    var q := ReviewArgs(s, "image", "post", ImageTopic(a), a, id);
    var queued := SaveAndQueue(c, pending, account, args, q, id, uuid, now, delivered);
    if queued.Err? {
      return Failed(queued.error, prompt, None);
    }
    r := Generated(s.models.falImageModel, id, a.blobUrl, a.falUrl, "pending", "queued");
  }

  /** `generate_video` as intended: the same for a reel, with the resolved model in every report. */
  method GenerateVideo(c: Container, pending: Queue, account: string, s: IPG.Settings,
                       prompt: string, duration: int, aspect: string, hint: string,
                       fal: IPG.Fal, id: string, uuid: string, now: string, delivered: bool)
    returns (r: Outcome)
    requires c.Valid() && pending.Valid()
    modifies c, pending
    ensures c.Valid() && pending.Valid()
    ensures var call := VideoCall(s, prompt, duration, aspect, hint);
      match fal(call.0, call.1)
      case Err(e) =>
        r == Failed(e, prompt, Some(call.0)) && c.items == old(c.items) && pending.entries == old(pending.entries)
      case Ok(a) =>
        var doc := MediaMetadataService.NewRecord(VideoSaveArgs(s, call.0, prompt, duration, aspect, a), id, now);
        var q := ReviewArgs(s, "video", "reel", "Generated reel", a, id);
        if id in old(c.items) then
          r.Failed? && r.modelUsed == Some(call.0) && c.items == old(c.items) && pending.entries == old(pending.entries)
        else
          && c.items == SavedAndQueued(old(c.items), doc, id, q, RQ.Tags(q), uuid, now)
          && (delivered ==>
                r == Generated(call.0, id, a.blobUrl, a.falUrl, "pending", "queued")
                && pending.entries == old(pending.entries) + [Queued(old(pending.nextSeq), RQ.ReviewItemMessage(account, q, RQ.ItemId(q, uuid), now))])
          && (!delivered ==> r.Failed? && pending.entries == old(pending.entries))
  {
    var call := VideoCall(s, prompt, duration, aspect, hint);
    var out := fal(call.0, call.1);
    if out.Err? {
      return Failed(out.error, prompt, Some(call.0));
    }
    var a := out.value;
    var args := VideoSaveArgs(s, call.0, prompt, duration, aspect, a);
    var q := ReviewArgs(s, "video", "reel", "Generated reel", a, id);
    var queued := SaveAndQueue(c, pending, account, args, q, id, uuid, now, delivered);
    if queued.Err? {
      return Failed(queued.error, prompt, Some(call.0));
    }
    r := Generated(call.0, id, a.blobUrl, a.falUrl, "pending", "queued");
  }
}
