/**
 * The canonical content store (services/cosmos_db_service.py): building a new
 * content record with defaulted lifecycle fields, read-modify-replace
 * updates, the three narrow status setters and the conjunctive status query.
 */
module CosmosDbService {
  import opened Wrappers
  import opened Docs
  import opened Ordering
  import opened Store

  /** The names the module defines or imports at top level, which is what `from ... import` can bind. */
  const TopLevelNames: set<string> := {
    "logging", "threading", "uuid", "datetime", "timezone", "Any", "CosmosClient", "DefaultAzureCredential",
    "settings", "logger", "_local", "_get_container", "save_media_metadata", "get_media_by_id",
    "get_content_by_id", "update_content", "delete_media_metadata", "set_media_review_status",
    "set_approval_status", "mark_content_published", "query_media", "query_content"}

  /** The keyword arguments of `save_media_metadata`. */
  datatype SaveArgs = SaveArgs(
    mediaType: string,
    blobUrl: string,
    blobName: string,
    prompt: string,
    model: string,
    aspectRatio: string,
    resolution: string,
    width: Option<int>,
    height: Option<int>,
    durationSeconds: Option<int>,
    fileSizeBytes: Option<int>,
    sourceMediaUrl: string,
    postType: string,
    targetAccountId: string,
    targetAccountName: string,
    description: string,
    caption: string,
    hashtags: Option<seq<string>>,
    publishStatus: string,
    extra: Doc)

  /** A call that passes only the five required arguments. */
  function Defaults(mediaType: string, blobUrl: string, blobName: string, prompt: string, model: string): (a: SaveArgs)
    ensures a.postType == "post" && a.publishStatus == "pending" && a.hashtags == None && a.extra == map[]
  {
    SaveArgs(mediaType, blobUrl, blobName, prompt, model, "", "", None, None, None, None, "",
             "post", "", "", "", "", None, "pending", map[])
  }

  function IntOrNull(o: Option<int>): Value
  {
    match o
    case Some(i) => Int(i)
    case None => Null
  }

  /** `hashtags or []`. */
  function HashtagsValue(h: Option<seq<string>>): (v: Value)
    ensures v.List? && (h.Some? ==> |v.items| == |h.value|) && (h.None? ==> v.items == [])
  {
    match h
    case Some(tags) => List(Strs(tags))
    case None => List([])
  }

  /** The literal record before `extra` is spread over it. */
  function BaseRecord(a: SaveArgs, id: string, now: string): Doc
  {
    map[
      "post_type" := Str(a.postType),
      "blob_url" := Str(a.blobUrl),
      "blob_name" := Str(a.blobName),
      "prompt" := Str(a.prompt),
      "model" := Str(a.model),
      "aspect_ratio" := Str(a.aspectRatio),
      "resolution" := Str(a.resolution),
      "width" := IntOrNull(a.width),
      "height" := IntOrNull(a.height),
      "duration_seconds" := IntOrNull(a.durationSeconds),
      "file_size_bytes" := IntOrNull(a.fileSizeBytes),
      "source_media_url" := Str(a.sourceMediaUrl),
      "target_account_id" := Str(a.targetAccountId),
      "target_account_name" := Str(a.targetAccountName),
      "description" := Str(a.description),
      "caption" := Str(a.caption),
      "media_reviewed_at" := Null,
      "media_review_score" := Null,
      "media_reviewer_notes" := Str(""),
      "human_reviewed_at" := Null,
      "human_reviewer_notes" := Str(""),
      "published_at" := Null,
      "instagram_media_id" := Str(""),
      "instagram_container_id" := Str(""),
      "hashtags" := HashtagsValue(a.hashtags),
      "publish_status" := Str(a.publishStatus),
      "approval_status" := Str("pending"),
      "media_review_status" := Str("pending"),
      "created_at" := Str(now),
      "media_type" := Str(a.mediaType),
      "id" := Str(id)
    ]
  }

  /**
   * The document `save_media_metadata` creates: the defaulted record, then
   * every key of `extra` over it, then `fal_url` from `source_media_url`
   * unless a key already supplied it.
   */
  function NewRecord(a: SaveArgs, id: string, now: string): Doc
  {
    var spread := Merge(BaseRecord(a, id, now), a.extra);
    if "fal_url" in spread then spread else spread["fal_url" := Str(a.sourceMediaUrl)]
  }

  /**
   * Every key of `extra` is in the new record with its value, every other
   * default keeps its value, and `fal_url` is present: from `extra` when
   * given there, otherwise `source_media_url`.
   */
  lemma NewRecordSpread(a: SaveArgs, id: string, now: string)
    ensures var doc := NewRecord(a, id, now);
      && (forall k :: k in a.extra ==> k in doc && doc[k] == a.extra[k])
      && (forall k :: k in BaseRecord(a, id, now) && k !in a.extra ==> k in doc && doc[k] == BaseRecord(a, id, now)[k])
      && "fal_url" in doc
      && doc["fal_url"] == (if "fal_url" in a.extra then a.extra["fal_url"] else Str(a.sourceMediaUrl))
  {
    assert "fal_url" !in BaseRecord(a, id, now);
  }

  /**
   * A new record has the given id, `media_review_status` and
   * `approval_status` "pending", `publish_status` as passed, empty Instagram
   * ids, no `published_at`, `hashtags` as given or [], and `created_at` now,
   * for every field `extra` does not override.
   */
  lemma NewRecordDefaults(a: SaveArgs, id: string, now: string)
    ensures var doc := NewRecord(a, id, now);
      && ("id" !in a.extra ==> doc["id"] == Str(id))
      && ("media_review_status" !in a.extra ==> doc["media_review_status"] == Str("pending"))
      && ("approval_status" !in a.extra ==> doc["approval_status"] == Str("pending"))
      && ("publish_status" !in a.extra ==> doc["publish_status"] == Str(a.publishStatus))
      && ("instagram_media_id" !in a.extra ==> doc["instagram_media_id"] == Str(""))
      && ("instagram_container_id" !in a.extra ==> doc["instagram_container_id"] == Str(""))
      && ("published_at" !in a.extra ==> doc["published_at"] == Null)
      && ("hashtags" !in a.extra ==> doc["hashtags"] == HashtagsValue(a.hashtags))
      && ("created_at" !in a.extra ==> doc["created_at"] == Str(now))
  {
    var base := BaseRecord(a, id, now);
    assert base["id"] == Str(id);
    assert base["media_review_status"] == Str("pending");
    assert base["approval_status"] == Str("pending");
    assert base["publish_status"] == Str(a.publishStatus);
    assert base["instagram_media_id"] == Str("");
    assert base["instagram_container_id"] == Str("");
    assert base["published_at"] == Null;
    assert base["hashtags"] == HashtagsValue(a.hashtags);
    assert base["created_at"] == Str(now);
  }

  /** Unless `extra` overrides them, a new record is stored under `id` in the partition of its media type. */
  lemma NewRecordKey(a: SaveArgs, id: string, now: string)
    requires "id" !in a.extra && "media_type" !in a.extra
    ensures var doc := NewRecord(a, id, now);
      IdOf(doc) == Some(id) && Lookup(doc, "media_type") == Str(a.mediaType)
  {
    var base := BaseRecord(a, id, now);
    assert base["id"] == Str(id);
    assert base["media_type"] == Str(a.mediaType);
  }

  /** `save_media_metadata`: build the record and `create_item` it. */
  method SaveMediaMetadata(c: Container, a: SaveArgs, id: string, now: string) returns (r: Result<Doc>)
    requires c.Valid()
    modifies c
    ensures c.Valid()
    ensures var doc := NewRecord(a, id, now);
      match IdOf(doc)
      case Some(key) =>
        if key in old(c.items) then r.Err? && c.items == old(c.items)
        else r == Ok(doc) && c.items == old(c.items)[key := doc]
      case None => r.Err? && c.items == old(c.items)
  {
    var doc := NewRecord(a, id, now);
    r := c.CreateItem(doc);
  }

  /**
   * `update_content`: read the record, merge `updates` over it and replace
   * it. An unknown id yields None and writes nothing. Every caller passes
   * updates without an "id", so the replaced record keeps its key.
   */
  method UpdateContent(c: Container, id: string, updates: Doc) returns (r: Option<Doc>)
    requires c.Valid()
    requires "id" !in updates
    modifies c`items
    ensures c.Valid()
    ensures id !in old(c.items) ==> r == None && c.items == old(c.items)
    ensures id in old(c.items) ==>
      r == Some(Merge(old(c.items)[id], updates)) && c.items == old(c.items)[id := r.value]
  {
    var item := c.Find(id);
    if item.None? {
      return None;
    }
    var merged := Merge(item.value, updates);
    assert IdOf(merged) == Some(id);
    var replaced := c.ReplaceItem(id, merged);
    r := Some(replaced.value);
  }

  /**
   * `get_content_by_id`: the cross-partition query `WHERE c.id = @id`,
   * returning the first row. Ids are unique, so the row is the record stored
   * under `id`, and an unknown id yields None.
   */
  method GetContentById(c: Container, id: string) returns (r: Option<Doc>)
    requires c.Valid()
    ensures r.Some? <==> id in c.items
    ensures r.Some? ==> r.value == c.items[id]
  {
    var rows := c.QueryBy(HasId(id), CreatedAt, true, 1);
    RowsById(c, id, rows);
    r := if rows == [] then None else Some(rows[0]);
  }

  /** The condition `c.id = @id`. */
  function HasId(id: string): Doc -> bool
  {
    d => IdOf(d) == Some(id)
  }

  /** The rows of the id query are exactly the record stored under that id. */
  lemma RowsById(c: Container, id: string, rows: seq<Doc>)
    requires c.Valid()
    requires rows == Take(SortBy(c.Where(HasId(id)), CreatedAt, true), 1)
    ensures rows == [] <==> id !in c.items
    ensures rows != [] ==> rows[0] == c.items[id]
  {
    var all := c.Where(HasId(id));
    var sorted := SortBy(all, CreatedAt, true);
    SortByPermutes(all, CreatedAt, true);
    if id in c.items {
      StoredIsRow(c, id);
      assert c.items[id] in multiset(sorted);
    }
    if rows != [] {
      assert rows[0] == sorted[0];
      assert rows[0] in multiset(all);
      RowIsStored(c, id, rows[0]);
    }
  }

  lemma StoredIsRow(c: Container, id: string)
    requires c.Valid() && id in c.items
    ensures c.items[id] in c.Where(HasId(id))
  {
    var i :| 0 <= i < |c.order| && c.order[i] == id;
    SelectComplete(c.order, c.items, HasId(id), i);
  }

  lemma RowIsStored(c: Container, id: string, d: Doc)
    requires c.Valid() && d in c.Where(HasId(id))
    ensures id in c.items && c.items[id] == d
  {
    var i :| 0 <= i < |c.order| && c.items[c.order[i]] == d;
    assert IdOf(d) == Some(c.order[i]);
  }

  /**
   * `delete_media_metadata`: delete the record from the partition of
   * `media_type`. True when it was there and is gone; False, with nothing
   * changed, when the delete raised (unknown id or another partition).
   */
  method DeleteMediaMetadata(c: Container, id: string, mediaType: string) returns (ok: bool)
    requires c.Valid()
    modifies c
    ensures c.Valid()
    ensures ok <==> (id in old(c.items) && Lookup(old(c.items)[id], "media_type") == Str(mediaType))
    ensures ok ==> c.items == old(c.items) - {id}
    ensures !ok ==> c.items == old(c.items)
  {
    ok := c.DeleteItem(id, mediaType);
  }

  /** The four fields `set_media_review_status` writes. */
  function MediaReviewUpdates(status: string, notes: string, score: Option<int>, now: string): (u: Doc)
    ensures u.Keys == {"media_review_status", "media_reviewed_at", "media_review_score", "media_reviewer_notes"}
    ensures u["media_review_status"] == Str(status) && u["media_reviewer_notes"] == Str(notes)
  {
    map["media_review_status" := Str(status), "media_reviewed_at" := Str(now),
        "media_review_score" := IntOrNull(score), "media_reviewer_notes" := Str(notes)]
  }

  /** The three fields `set_approval_status` writes (the human review). */
  function ApprovalUpdates(status: string, notes: string, now: string): (u: Doc)
    ensures u.Keys == {"approval_status", "human_reviewed_at", "human_reviewer_notes"}
    ensures u["approval_status"] == Str(status) && u["human_reviewer_notes"] == Str(notes)
  {
    map["approval_status" := Str(status), "human_reviewed_at" := Str(now), "human_reviewer_notes" := Str(notes)]
  }

  /** The four fields `mark_content_published` writes. */
  function PublishedUpdates(mediaId: string, containerId: string, now: string): (u: Doc)
    ensures u.Keys == {"publish_status", "instagram_media_id", "instagram_container_id", "published_at"}
    ensures u["publish_status"] == Str("published") && u["instagram_media_id"] == Str(mediaId)
    ensures u["instagram_container_id"] == Str(containerId) && u["published_at"] == Str(now)
  {
    map["publish_status" := Str("published"), "instagram_media_id" := Str(mediaId),
        "instagram_container_id" := Str(containerId), "published_at" := Str(now)]
  }

  /** Two records agree on every field outside `touched`. */
  predicate SameOutside(before: Doc, after: Doc, touched: set<string>)
  {
    forall k :: k in before && k !in touched ==> k in after && after[k] == before[k]
  }

  method SetMediaReviewStatus(c: Container, id: string, status: string, notes: string, score: Option<int>, now: string)
    returns (r: Option<Doc>)
    requires c.Valid()
    modifies c`items
    ensures c.Valid()
    ensures id !in old(c.items) ==> r == None && c.items == old(c.items)
    ensures id in old(c.items) ==> (r.Some? && c.items == old(c.items)[id := r.value]
      && r.value == Merge(old(c.items)[id], MediaReviewUpdates(status, notes, score, now))
      && SameOutside(old(c.items)[id], r.value, MediaReviewUpdates(status, notes, score, now).Keys))
  {
    r := UpdateContent(c, id, MediaReviewUpdates(status, notes, score, now));
  }

  method SetApprovalStatus(c: Container, id: string, status: string, notes: string, now: string)
    returns (r: Option<Doc>)
    requires c.Valid()
    modifies c`items
    ensures c.Valid()
    ensures id !in old(c.items) ==> r == None && c.items == old(c.items)
    ensures id in old(c.items) ==> (r.Some? && c.items == old(c.items)[id := r.value]
      && r.value == Merge(old(c.items)[id], ApprovalUpdates(status, notes, now))
      && SameOutside(old(c.items)[id], r.value, ApprovalUpdates(status, notes, now).Keys))
  {
    r := UpdateContent(c, id, ApprovalUpdates(status, notes, now));
  }

  method MarkContentPublished(c: Container, id: string, mediaId: string, containerId: string, now: string)
    returns (r: Option<Doc>)
    requires c.Valid()
    modifies c`items
    ensures c.Valid()
    ensures id !in old(c.items) ==> r == None && c.items == old(c.items)
    ensures id in old(c.items) ==> (r.Some? && c.items == old(c.items)[id := r.value]
      && r.value == Merge(old(c.items)[id], PublishedUpdates(mediaId, containerId, now))
      && SameOutside(old(c.items)[id], r.value, PublishedUpdates(mediaId, containerId, now).Keys))
  {
    r := UpdateContent(c, id, PublishedUpdates(mediaId, containerId, now));
  }

  /** The optional filters of `query_content`; "" means "not filtered". */
  datatype ContentFilter = ContentFilter(
    mediaReviewStatus: string,
    approvalStatus: string,
    publishStatus: string,
    targetAccountId: string)

  /** One `c.<field> = @value` condition, present only for a non-empty value. */
  predicate FieldIs(d: Doc, field: string, value: string)
  {
    value == [] || Lookup(d, field) == Str(value)
  }

  /** The `WHERE` clause: the conjunction of the conditions that are present. */
  predicate Matches(f: ContentFilter, d: Doc)
  {
    FieldIs(d, "media_review_status", f.mediaReviewStatus)
    && FieldIs(d, "approval_status", f.approvalStatus)
    && FieldIs(d, "publish_status", f.publishStatus)
    && FieldIs(d, "target_account_id", f.targetAccountId)
  }

  /** The query's WHERE clause as a condition on one record. */
  function Matching(f: ContentFilter): Doc -> bool
  {
    d => Matches(f, d)
  }

  /** The rows a query with filter `f` and `limit` yields. */
  function QueryRows(c: Container, f: ContentFilter, limit: int): seq<Doc>
    reads c
    requires c.Valid()
  {
    Take(SortBy(c.Where(Matching(f)), CreatedAt, true), limit)
  }

  method QueryContent(c: Container, f: ContentFilter, limit: int) returns (rows: seq<Doc>)
    requires c.Valid()
    ensures rows == QueryRows(c, f, limit)
  {
    rows := c.QueryBy(Matching(f), CreatedAt, true, limit);
  }

  /**
   * `query_content` returns only records matching every non-empty filter,
   * newest `created_at` first, at most `limit`, and every match when they
   * all fit under the limit.
   */
  lemma QueryContentSpec(c: Container, f: ContentFilter, limit: int, rows: seq<Doc>)
    requires c.Valid()
    requires rows == QueryRows(c, f, limit)
    ensures forall d :: d in rows ==> (d in c.items.Values
      && FieldIs(d, "approval_status", f.approvalStatus)
      && FieldIs(d, "publish_status", f.publishStatus)
      && FieldIs(d, "media_review_status", f.mediaReviewStatus)
      && FieldIs(d, "target_account_id", f.targetAccountId))
    ensures SortedBy(rows, CreatedAt, true)
    ensures limit >= 0 ==> |rows| <= limit
    ensures |c.Where(Matching(f))| <= limit ==>
      forall k :: k in c.items && Matches(f, c.items[k]) ==> c.items[k] in rows
  {
    QueryBySpec(c, Matching(f), CreatedAt, true, limit, rows);
  }
}
