/**
 * The legacy media store (python/insta_agent/shared/services/media_metadata_service.py):
 * a plain media document without lifecycle status fields, read by id and
 * partition, and listed newest first with an optional media-type filter.
 */
module LegacyMediaMetadataService {
  import opened Wrappers
  import opened Docs
  import opened Ordering
  import opened Store
  import CosmosDbService

  /** The names the module defines or imports at top level, which is what `from ... import` can bind. */
  const TopLevelNames: set<string> := {
    "logging", "uuid", "datetime", "timezone", "Any", "PartitionKey", "CosmosClient", "DefaultAzureCredential",
    "settings", "logger", "_client", "_credential", "_get_container", "ensure_cosmos_resources",
    "save_media_metadata", "get_media_by_id", "query_media"}

  datatype SaveArgs = SaveArgs(
    mediaType: string,
    blobUrl: string,
    blobName: string,
    prompt: string,
    model: string,
    aspectRatio: string,
    resolution: string,
    width: Option<int>,
    height: Option<int>,
    durationSeconds: Option<int>,
    fileSizeBytes: Option<int>,
    falUrl: string,
    extra: Doc)

  function BaseRecord(a: SaveArgs, id: string, now: string): Doc
  {
    map[
      "blob_url" := Str(a.blobUrl),
      "blob_name" := Str(a.blobName),
      "prompt" := Str(a.prompt),
      "model" := Str(a.model),
      "aspect_ratio" := Str(a.aspectRatio),
      "resolution" := Str(a.resolution),
      "width" := CosmosDbService.IntOrNull(a.width),
      "height" := CosmosDbService.IntOrNull(a.height),
      "duration_seconds" := CosmosDbService.IntOrNull(a.durationSeconds),
      "file_size_bytes" := CosmosDbService.IntOrNull(a.fileSizeBytes),
      "fal_url" := Str(a.falUrl),
      "created_at" := Str(now),
      "media_type" := Str(a.mediaType),
      "id" := Str(id)
    ]
  }

  /** The legacy document: the literal media record with `extra` spread last. */
  function NewRecord(a: SaveArgs, id: string, now: string): (doc: Doc)
    ensures forall k :: k in a.extra ==> k in doc && doc[k] == a.extra[k]
    ensures forall k :: k in doc ==> k in a.extra || k in BaseRecord(a, id, now)
    ensures "id" !in a.extra ==> "id" in doc && doc["id"] == Str(id)
    ensures "created_at" !in a.extra ==> "created_at" in doc && doc["created_at"] == Str(now)
  {
    var base := BaseRecord(a, id, now);
    assert base["id"] == Str(id) && base["created_at"] == Str(now);
    Merge(base, a.extra)
  }

  /** A legacy document carries none of the four lifecycle status fields unless `extra` supplies it. */
  lemma NoLifecycleFields(a: SaveArgs, id: string, now: string)
    ensures var doc := NewRecord(a, id, now);
      && ("generation_status" in doc <==> "generation_status" in a.extra)
      && ("media_review_status" in doc <==> "media_review_status" in a.extra)
      && ("approval_status" in doc <==> "approval_status" in a.extra)
      && ("publish_status" in doc <==> "publish_status" in a.extra)
  {
    var base := BaseRecord(a, id, now);
    assert "generation_status" !in base && "media_review_status" !in base;
    assert "approval_status" !in base && "publish_status" !in base;
  }

  method SaveMediaMetadata(c: Container, a: SaveArgs, id: string, now: string) returns (r: Result<Doc>)
    requires c.Valid()
    modifies c
    ensures c.Valid()
    ensures var doc := NewRecord(a, id, now);
      match IdOf(doc)
      case Some(key) =>
        if key in old(c.items) then r.Err? && c.items == old(c.items)
        else r == Ok(doc) && c.items == old(c.items)[key := doc]
      case None => r.Err? && c.items == old(c.items)
  {
    var doc := NewRecord(a, id, now);
    r := c.CreateItem(doc);
  }

  /** The `WHERE c.media_type = @type` condition, present only for a non-empty type. */
  predicate OfType(mediaType: string, d: Doc)
  {
    mediaType == [] || Lookup(d, "media_type") == Str(mediaType)
  }

  method QueryMedia(c: Container, mediaType: string, limit: int) returns (rows: seq<Doc>)
    requires c.Valid()
    ensures rows == Take(SortBy(c.Where(d => OfType(mediaType, d)), CreatedAt, true), limit)
  {
    rows := c.QueryBy(d => OfType(mediaType, d), CreatedAt, true, limit);
  }

  /**
   * `query_media` returns records of the requested type only (all records
   * when no type is given), newest first, at most `limit`.
   */
  lemma QueryMediaSpec(c: Container, mediaType: string, limit: int, rows: seq<Doc>)
    requires c.Valid()
    requires rows == Take(SortBy(c.Where(d => OfType(mediaType, d)), CreatedAt, true), limit)
    ensures mediaType != [] ==> forall d :: d in rows ==> Lookup(d, "media_type") == Str(mediaType)
    ensures forall d :: d in rows ==> d in c.items.Values
    ensures SortedBy(rows, CreatedAt, true)
    ensures limit >= 0 ==> |rows| <= limit
    ensures mediaType == [] && |c.order| <= limit ==> forall k :: k in c.items ==> c.items[k] in rows
  {
    QueryBySpec(c, d => OfType(mediaType, d), CreatedAt, true, limit, rows);
    if mediaType == [] && |c.order| <= limit {
      assert |c.Where(d => OfType(mediaType, d))| <= limit;
    }
  }
}
