/**
 * Generation requests (services/generation_queue_service.py): a content
 * record is written to the store and its id is put on the media-generation
 * queue. A plan can also be saved for review first and queued later. When
 * the send fails the store is put back: a freshly created record is
 * deleted, a queued plan gets its `generation_status` reverted.
 */
module GenerationQueueService {
  import opened Wrappers
  import opened Docs
  import opened Store
  import CosmosDbService
  import MediaMetadataService
  import AzureBusService

  /** The keyword arguments shared by `create_content_record` and `submit_generation`. */
  datatype Request = Request(
    mediaType: string,
    prompt: string,
    aspectRatio: string,
    resolution: string,
    outputFormat: string,
    duration: int,
    videoModel: string,
    postType: string,
    targetAccountId: string,
    targetAccountName: string,
    topic: string,
    caption: string,
    hashtags: Option<seq<string>>)

  /** A request with the source's keyword defaults. */
  function DefaultRequest(mediaType: string, prompt: string): (r: Request)
    ensures r.mediaType == mediaType && r.prompt == prompt
    ensures r.aspectRatio == "1:1" && r.resolution == "1K" && r.outputFormat == "png" && r.duration == 5
    ensures r.postType == "post" && r.hashtags == None
  {
    Request(mediaType, prompt, "1:1", "1K", "png", 5, "", "post", "", "", "", "", None)
  }

  /** The configured fal.ai model ids (`FAL_IMAGE_MODEL`, `FAL_VIDEO_MODEL`). */
  datatype Models = Models(image: string, video: string)

  /** The store arguments both entry points build; only the status fields and `extra` differ. */
  function SaveArgsFor(req: Request, models: Models, approvalStatus: string, extra: Doc): MediaMetadataService.SaveArgs
  {
    var video := req.mediaType == "video";
    MediaMetadataService.SaveArgs(
      req.mediaType, "", "", req.prompt,
      if video then models.video else models.image,
      req.aspectRatio,
      if video then "" else req.resolution,
      None, None,
      if video then Some(req.duration) else None,
      None, "", req.postType, req.targetAccountId, req.targetAccountName,
      req.topic, req.caption, req.hashtags, approvalStatus, "pending", extra)
  }

  /** `create_content_record`: a plan awaiting review, generation not yet requested. */
  function PlanArgs(req: Request, models: Models, account: string): MediaMetadataService.SaveArgs
  {
    SaveArgsFor(req, models, "pending_review",
      map["generation_status" := Str("pending_review"), "output_format" := Str(req.outputFormat),
          "video_model" := Str(req.videoModel), "account" := Str(account), "source" := Str("account_agent")])
  }

  /** `submit_generation`: a record whose generation is requested at `now`. */
  function QueuedArgs(req: Request, models: Models, account: string, now: string): MediaMetadataService.SaveArgs
  {
    SaveArgsFor(req, models, "pending",
      map["generation_status" := Str("queued"), "generation_requested_at" := Str(now),
          "output_format" := Str(req.outputFormat), "video_model" := Str(req.videoModel),
          "account" := Str(account), "source" := Str("account_agent")])
  }

  /** A plan record has both `generation_status` and `approval_status` "pending_review". */
  lemma PlanStatuses(req: Request, models: Models, account: string, id: string, now: string)
    ensures var plan := MediaMetadataService.NewRecord(PlanArgs(req, models, account), id, now);
      && plan["generation_status"] == Str("pending_review")
      && plan["approval_status"] == Str("pending_review")
      && plan["publish_status"] == Str("pending")
  {
    var pb := MediaMetadataService.BaseRecord(PlanArgs(req, models, account), id, now);
    assert pb["approval_status"] == Str("pending_review");
    assert pb["publish_status"] == Str("pending");
  }

  /** A submitted record has `generation_status` "queued" and approval and publish "pending". */
  lemma QueuedStatuses(req: Request, models: Models, account: string, id: string, now: string)
    ensures var doc := MediaMetadataService.NewRecord(QueuedArgs(req, models, account, now), id, now);
      && doc["generation_status"] == Str("queued")
      && doc["approval_status"] == Str("pending")
      && doc["publish_status"] == Str("pending")
  {
    var qb := MediaMetadataService.BaseRecord(QueuedArgs(req, models, account, now), id, now);
    assert qb["approval_status"] == Str("pending");
    assert qb["publish_status"] == Str("pending");
  }

  /** A submitted record is stored under `id` in the partition of its media type. */
  lemma QueuedKey(req: Request, models: Models, account: string, id: string, now: string)
    ensures var doc := MediaMetadataService.NewRecord(QueuedArgs(req, models, account, now), id, now);
      && IdOf(doc) == Some(id)
      && Lookup(doc, "media_type") == Str(req.mediaType)
  {
    var qb := MediaMetadataService.BaseRecord(QueuedArgs(req, models, account, now), id, now);
    assert qb["id"] == Str(id);
    assert qb["media_type"] == Str(req.mediaType);
  }

  /** A video gets an empty resolution and its duration, an image its resolution and no duration. */
  lemma QueuedShape(req: Request, models: Models, account: string, id: string, now: string)
    ensures var doc := MediaMetadataService.NewRecord(QueuedArgs(req, models, account, now), id, now);
      && (req.mediaType == "video" ==> doc["resolution"] == Str("") && doc["duration_seconds"] == Int(req.duration))
      && (req.mediaType != "video" ==> doc["resolution"] == Str(req.resolution) && doc["duration_seconds"] == Null)
  {
    var qa := QueuedArgs(req, models, account, now);
    var qb := MediaMetadataService.BaseRecord(qa, id, now);
    assert qb["resolution"] == Str(qa.resolution);
    assert qb["duration_seconds"] == CosmosDbService.IntOrNull(qa.durationSeconds);
  }

  /** A submitted record carries the request's prompt, post type and target account. */
  lemma QueuedRequestFields(req: Request, models: Models, account: string, id: string, now: string)
    ensures var doc := MediaMetadataService.NewRecord(QueuedArgs(req, models, account, now), id, now);
      && doc["prompt"] == Str(req.prompt)
      && doc["post_type"] == Str(req.postType)
      && doc["target_account_id"] == Str(req.targetAccountId)
  {
    var qb := MediaMetadataService.BaseRecord(QueuedArgs(req, models, account, now), id, now);
    assert qb["prompt"] == Str(req.prompt);
    assert qb["post_type"] == Str(req.postType);
    assert qb["target_account_id"] == Str(req.targetAccountId);
  }

  /** `create_content_record`: saves the plan and sends nothing. */
  method CreateContentRecord(c: Container, req: Request, models: Models, account: string, id: string, now: string)
    returns (r: Result<Doc>)
    requires c.Valid()
    modifies c
    ensures c.Valid()
    ensures var doc := MediaMetadataService.NewRecord(PlanArgs(req, models, account), id, now);
      if id in old(c.items) then r.Err? && c.items == old(c.items)
      else r == Ok(doc) && c.items == old(c.items)[id := doc]
  {
    var a := PlanArgs(req, models, account);
    assert MediaMetadataService.BaseRecord(a, id, now)["id"] == Str(id);
    r := MediaMetadataService.SaveMediaMetadata(c, a, id, now);
  }

  /** What `submit_to_queue` writes before sending. */
  function QueuedUpdates(now: string): (u: Doc)
    ensures u.Keys == {"generation_status", "approval_status", "generation_requested_at"}
  {
    map["generation_status" := Str("queued"), "approval_status" := Str("approved_by_reviewer"),
        "generation_requested_at" := Str(now)]
  }

  /** What `submit_to_queue` writes back when the send fails. */
  function RevertUpdates(): (u: Doc)
    ensures u.Keys == {"generation_status"}
  {
    map["generation_status" := Str("pending_review")]
  }

  /** The message both entry points send: subject as given, message id the content id. */
  function GenerationMessage(contentId: string, mediaType: string, account: string, subject: string): (m: AzureBusService.Message)
    ensures m.body == AzureBusService.ContentIdBody(contentId) && m.messageId == contentId && m.subject == subject
  {
    AzureBusService.MediaGenerationMessage(contentId, mediaType, account, subject, contentId)
  }

  /**
   * `submit_to_queue`. The record (when it exists) is marked queued and
   * approved by the reviewer, then the message is sent; `delivered` is the
   * broker's answer. On a failed send only `generation_status` is written
   * back and the error is raised. An unknown id writes nothing, yet the
   * message is still sent.
   */
  method SubmitToQueue(c: Container, q: AzureBusService.Queue, contentId: string, mediaType: string, account: string,
                       now: string, delivered: bool)
    returns (r: Result<()>)
    requires c.Valid() && q.Valid()
    modifies c`items, q
    ensures c.Valid() && q.Valid()
    ensures contentId !in old(c.items) ==> c.items == old(c.items)
    ensures contentId in old(c.items) && delivered ==>
      c.items == old(c.items)[contentId := Merge(old(c.items)[contentId], QueuedUpdates(now))]
    ensures contentId in old(c.items) && !delivered ==>
      c.items == old(c.items)[contentId := Merge(Merge(old(c.items)[contentId], QueuedUpdates(now)), RevertUpdates())]
    ensures delivered ==> r.Ok? && q.entries == old(q.entries) + [AzureBusService.Queued(old(q.nextSeq), GenerationMessage(contentId, mediaType, account, "Media Generation"))]
    ensures !delivered ==> r.Err? && q.entries == old(q.entries)
  {
    var _ := CosmosDbService.UpdateContent(c, contentId, QueuedUpdates(now));
    ghost var queued := c.items;
    q.Send(GenerationMessage(contentId, mediaType, account, "Media Generation"), delivered);
    if delivered {
      r := Ok(());
    } else {
      var _ := CosmosDbService.UpdateContent(c, contentId, RevertUpdates());
      if contentId in old(c.items) {
        ghost var m1 := Merge(old(c.items)[contentId], QueuedUpdates(now));
        OverwriteTwice(old(c.items), contentId, m1, Merge(m1, RevertUpdates()));
      }
      r := Err("Service Bus send failed");
    }
  }

  /** Writing a key twice keeps only the second write. */
  lemma OverwriteTwice<K, V>(m: map<K, V>, k: K, a: V, b: V)
    ensures m[k := a][k := b] == m[k := b]
  {
  }

  /**
   * A failed `submit_to_queue` leaves the plan retryable: `generation_status`
   * is back to "pending_review", while `approval_status` stays
   * "approved_by_reviewer" and the request time stays recorded; no other
   * field differs from before the call.
   */
  lemma RevertKeepsApproval(before: Doc, now: string)
    ensures var after := Merge(Merge(before, QueuedUpdates(now)), RevertUpdates());
      && after["generation_status"] == Str("pending_review")
      && after["approval_status"] == Str("approved_by_reviewer")
      && after["generation_requested_at"] == Str(now)
      && CosmosDbService.SameOutside(before, after, QueuedUpdates(now).Keys)
  {
  }

  /**
   * The send that follows a freshly saved record, as in `submit_generation`
   * and the account tools: when the broker refuses the message, the record
   * is deleted from its own partition, so the store is as before the save.
   */
  method SendOrRollback(c: Container, q: AzureBusService.Queue, id: string, mediaType: string,
                        m: AzureBusService.Message, delivered: bool)
    requires c.Valid() && q.Valid()
    requires c.ReadItem(id, mediaType).Some?
    modifies c, q
    ensures c.Valid() && q.Valid()
    ensures delivered ==> c.items == old(c.items) && q.entries == old(q.entries) + [AzureBusService.Queued(old(q.nextSeq), m)]
    ensures !delivered ==> c.items == old(c.items) - {id} && q.entries == old(q.entries)
  {
    q.Send(m, delivered);
    if !delivered {
      // The outcome of the delete is logged only; the send error is raised either way.
      var _ := c.DeleteItem(id, mediaType);
    }
  }

  /**
   * `submit_generation`: create the record, then send its id. When the send
   * fails the record is deleted from its own partition and the error is
   * raised, so the store is exactly as before the call.
   */
  method SubmitGeneration(c: Container, q: AzureBusService.Queue, req: Request, models: Models, account: string,
                          id: string, now: string, delivered: bool)
    returns (r: Result<Doc>)
    requires c.Valid() && q.Valid()
    modifies c, q
    ensures c.Valid() && q.Valid()
    ensures r.Err? ==> c.items == old(c.items) && q.entries == old(q.entries)
    ensures !delivered || id in old(c.items) ==> r.Err?
    ensures delivered && id !in old(c.items) ==>
      var doc := MediaMetadataService.NewRecord(QueuedArgs(req, models, account, now), id, now);
      && r == Ok(doc)
      && c.items == old(c.items)[id := doc]
      && q.entries == old(q.entries) + [AzureBusService.Queued(old(q.nextSeq), GenerationMessage(id, req.mediaType, account, OrText(req.topic, "Media Generation")))]
  {
    var a := QueuedArgs(req, models, account, now);
    var doc := MediaMetadataService.NewRecord(a, id, now);
    QueuedKey(req, models, account, id, now);
    var saved := MediaMetadataService.SaveMediaMetadata(c, a, id, now);
    if saved.Err? {
      return Err(saved.error);
    }
    SendOrRollback(c, q, id, req.mediaType, GenerationMessage(id, req.mediaType, account, OrText(req.topic, "Media Generation")), delivered);
    if delivered {
      r := Ok(doc);
    } else {
      AddThenDelete(old(c.items), id, doc);
      r := Err("Service Bus send failed");
    }
  }
}
