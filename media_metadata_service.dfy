/**
 * The second content store (services/media_metadata_service.py). Its record
 * carries `approval_status` as passed, `approved_by` and
 * `queued_for_review_at`, but no media-review fields and no `fal_url`
 * backfill; its approval setter writes `reviewed_at`/`reviewer_notes`
 * instead of the `human_*` fields of the canonical store. Reading, merging
 * updates, publishing and deleting are the canonical store's
 * (CosmosDbService.UpdateContent, CosmosDbService.MarkContentPublished,
 * Store.Container.DeleteItem): the code is the same.
 */
module MediaMetadataService {
  import opened Wrappers
  import opened Docs
  import opened Ordering
  import opened Store
  import CosmosDbService

  /** The keyword arguments of this store's `save_media_metadata`. */
  datatype SaveArgs = SaveArgs(
    mediaType: string,
    blobUrl: string,
    blobName: string,
    prompt: string,
    model: string,
    aspectRatio: string,
    resolution: string,
    width: Option<int>,
    height: Option<int>,
    durationSeconds: Option<int>,
    fileSizeBytes: Option<int>,
    falUrl: string,
    postType: string,
    targetAccountId: string,
    targetAccountName: string,
    description: string,
    caption: string,
    hashtags: Option<seq<string>>,
    approvalStatus: string,
    publishStatus: string,
    extra: Doc)

  function BaseRecord(a: SaveArgs, id: string, now: string): Doc
  {
    map[
      "post_type" := Str(a.postType),
      "blob_url" := Str(a.blobUrl),
      "blob_name" := Str(a.blobName),
      "prompt" := Str(a.prompt),
      "model" := Str(a.model),
      "aspect_ratio" := Str(a.aspectRatio),
      "resolution" := Str(a.resolution),
      "width" := CosmosDbService.IntOrNull(a.width),
      "height" := CosmosDbService.IntOrNull(a.height),
      "duration_seconds" := CosmosDbService.IntOrNull(a.durationSeconds),
      "file_size_bytes" := CosmosDbService.IntOrNull(a.fileSizeBytes),
      "fal_url" := Str(a.falUrl),
      "target_account_id" := Str(a.targetAccountId),
      "target_account_name" := Str(a.targetAccountName),
      "description" := Str(a.description),
      "caption" := Str(a.caption),
      "approved_by" := Str(""),
      "queued_for_review_at" := Null,
      "published_at" := Null,
      "instagram_media_id" := Str(""),
      "instagram_container_id" := Str(""),
      "hashtags" := CosmosDbService.HashtagsValue(a.hashtags),
      "publish_status" := Str(a.publishStatus),
      "approval_status" := Str(a.approvalStatus),
      "created_at" := Str(now),
      "media_type" := Str(a.mediaType),
      "id" := Str(id)
    ]
  }

  /** The document this store creates: the literal record with `extra` spread last. */
  function NewRecord(a: SaveArgs, id: string, now: string): Doc
  {
    Merge(BaseRecord(a, id, now), a.extra)
  }

  /** Every key of `extra` wins, every other default is kept, and nothing else is added. */
  lemma NewRecordSpread(a: SaveArgs, id: string, now: string)
    ensures var doc := NewRecord(a, id, now);
      && (forall k :: k in a.extra ==> k in doc && doc[k] == a.extra[k])
      && (forall k :: k in BaseRecord(a, id, now) && k !in a.extra ==> k in doc && doc[k] == BaseRecord(a, id, now)[k])
      && (forall k :: k in doc ==> k in BaseRecord(a, id, now) || k in a.extra)
  {
  }

  /**
   * Unless `extra` overrides them: `approval_status` as passed, `approved_by`
   * "", `queued_for_review_at` None, no `published_at`; and no
   * `media_review_status` at all, since this store never writes one.
   */
  lemma NewRecordDefaults(a: SaveArgs, id: string, now: string)
    ensures var doc := NewRecord(a, id, now);
      && ("approval_status" !in a.extra ==> doc["approval_status"] == Str(a.approvalStatus))
      && ("approved_by" !in a.extra ==> doc["approved_by"] == Str(""))
      && ("queued_for_review_at" !in a.extra ==> doc["queued_for_review_at"] == Null)
      && ("published_at" !in a.extra ==> doc["published_at"] == Null)
      && ("publish_status" !in a.extra ==> doc["publish_status"] == Str(a.publishStatus))
      && ("media_review_status" in doc <==> "media_review_status" in a.extra)
  {
    var base := BaseRecord(a, id, now);
    assert base["approval_status"] == Str(a.approvalStatus);
    assert base["approved_by"] == Str("");
    assert base["queued_for_review_at"] == Null;
    assert base["published_at"] == Null;
    assert base["publish_status"] == Str(a.publishStatus);
    assert "media_review_status" !in base;
  }

  /** Unless `extra` overrides them, the media fields and the account are the ones passed. */
  lemma NewRecordMedia(a: SaveArgs, id: string, now: string)
    ensures var doc := NewRecord(a, id, now);
      && ("media_type" !in a.extra ==> doc["media_type"] == Str(a.mediaType))
      && ("model" !in a.extra ==> doc["model"] == Str(a.model))
      && ("blob_url" !in a.extra ==> doc["blob_url"] == Str(a.blobUrl))
      && ("target_account_id" !in a.extra ==> doc["target_account_id"] == Str(a.targetAccountId))
  {
    var base := BaseRecord(a, id, now);
    assert base["media_type"] == Str(a.mediaType) && base["model"] == Str(a.model);
    assert base["blob_url"] == Str(a.blobUrl) && base["target_account_id"] == Str(a.targetAccountId);
  }

  /** Unless `extra` overrides it, the record is keyed by the id it was given. */
  lemma NewRecordId(a: SaveArgs, id: string, now: string)
    requires "id" !in a.extra
    ensures IdOf(NewRecord(a, id, now)) == Some(id)
  {
    assert BaseRecord(a, id, now)["id"] == Str(id);
  }

  method SaveMediaMetadata(c: Container, a: SaveArgs, id: string, now: string) returns (r: Result<Doc>)
    requires c.Valid()
    modifies c
    ensures c.Valid()
    ensures var doc := NewRecord(a, id, now);
      match IdOf(doc)
      case Some(key) =>
        if key in old(c.items) then r.Err? && c.items == old(c.items)
        else r == Ok(doc) && c.items == old(c.items)[key := doc]
      case None => r.Err? && c.items == old(c.items)
  {
    var doc := NewRecord(a, id, now);
    r := c.CreateItem(doc);
  }

  /** The four fields this store's `set_approval_status` writes. */
  function ApprovalUpdates(status: string, notes: string, now: string): (u: Doc)
    ensures u.Keys == {"approval_status", "approved_by", "reviewed_at", "reviewer_notes"}
    ensures u["approval_status"] == Str(status) && u["reviewer_notes"] == Str(notes) && u["approved_by"] == Str("")
  {
    map["approval_status" := Str(status), "approved_by" := Str(""), "reviewed_at" := Str(now), "reviewer_notes" := Str(notes)]
  }

  /** The two stores record the human decision under different timestamp and notes fields. */
  lemma ApprovalFieldsDiffer(status: string, notes: string, now: string)
    ensures "reviewed_at" in ApprovalUpdates(status, notes, now)
    ensures "reviewed_at" !in CosmosDbService.ApprovalUpdates(status, notes, now)
    ensures "human_reviewed_at" in CosmosDbService.ApprovalUpdates(status, notes, now)
    ensures "human_reviewed_at" !in ApprovalUpdates(status, notes, now)
  {
  }

  method SetApprovalStatus(c: Container, id: string, status: string, notes: string, now: string)
    returns (r: Option<Doc>)
    requires c.Valid()
    modifies c`items
    ensures c.Valid()
    ensures id !in old(c.items) ==> r == None && c.items == old(c.items)
    ensures id in old(c.items) ==> (r.Some? && c.items == old(c.items)[id := r.value]
      && r.value == Merge(old(c.items)[id], ApprovalUpdates(status, notes, now))
      && CosmosDbService.SameOutside(old(c.items)[id], r.value, ApprovalUpdates(status, notes, now).Keys))
  {
    r := CosmosDbService.UpdateContent(c, id, ApprovalUpdates(status, notes, now));
  }

  /** This store's `query_content` has no `media_review_status` filter. */
  function Filter(approvalStatus: string, publishStatus: string, targetAccountId: string): CosmosDbService.ContentFilter
  {
    CosmosDbService.ContentFilter("", approvalStatus, publishStatus, targetAccountId)
  }

  method QueryContent(c: Container, approvalStatus: string, publishStatus: string, targetAccountId: string, limit: int)
    returns (rows: seq<Doc>)
    requires c.Valid()
    ensures rows == CosmosDbService.QueryRows(c, Filter(approvalStatus, publishStatus, targetAccountId), limit)
  {
    rows := CosmosDbService.QueryContent(c, Filter(approvalStatus, publishStatus, targetAccountId), limit);
  }

  /**
   * Rows satisfy exactly the three filters that were given, never anything
   * about `media_review_status`: a record with any media review status passes.
   */
  lemma QueryIgnoresMediaReview(approvalStatus: string, publishStatus: string, targetAccountId: string, d: Doc, v: Value)
    ensures CosmosDbService.Matches(Filter(approvalStatus, publishStatus, targetAccountId), d)
       <==> CosmosDbService.Matches(Filter(approvalStatus, publishStatus, targetAccountId), d["media_review_status" := v])
  {
  }
}
