/**
 * The tools of one Instagram account agent (agents/insta_account/tools.py):
 * prompt truncation, timestamp parsing, posting history, content-type
 * frequency, queueing a generation with rollback, and the review-status
 * lookup guarded by account ownership. The tools are closures over the
 * account; `Account` holds what they capture.
 */
module InstaAccountTools {
  import opened Wrappers
  import opened Text
  import opened Docs
  import opened Ordering
  import opened Store
  import CosmosDbService
  import AzureBusService
  import GenerationQueueService

  const MaxImagePromptChars: nat := 2000
  const MaxVideoPromptChars: nat := 2500

  /** What the tool builder captures: names, the Instagram account id and the configured models. */
  datatype Account = Account(name: string, displayName: string, targetAccountId: string,
                             imageModel: string, videoModel: string)

  /**
   * `_truncate_prompt`: text within the limit is returned as is; longer text
   * is cut to `limit` characters, and further back to just after the last
   * ". " when that boundary lies beyond half the limit.
   */
  function TruncatePrompt(text: string, limit: nat): (r: string)
    ensures |text| <= limit ==> r == text
    ensures |r| <= |text| && r == text[..|r|]
    ensures |text| > limit ==> |r| <= limit
    ensures |text| > limit && |r| < limit ==>
      && |r| - 1 > limit / 2
      && OccursAt(text[..limit], ". ", |r| - 1)
      && forall j :: |r| - 1 < j ==> !OccursAt(text[..limit], ". ", j)
    ensures |text| > limit && |r| == limit ==>
      forall j :: limit / 2 < j ==> !OccursAt(text[..limit], ". ", j)
  {
    if |text| <= limit then text
    else
      var truncated := text[..limit];
      var lastPeriod := RFind(truncated, ". ");
      if lastPeriod > limit / 2 then truncated[..lastPeriod + 1] else truncated
  }

  /**
   * `_parse_iso`: an empty or non-string value is no timestamp; otherwise
   * every "Z" becomes "+00:00" and the ISO parser (an input here, answering
   * None where `fromisoformat` raises) decides.
   */
  function ParseIso(v: Value, parse: string -> Option<int>): (r: Option<int>)
    ensures !v.Str? || v.s == [] ==> r == None
    ensures v.Str? && v.s != [] && 'Z' !in v.s ==> r == parse(v.s)
  {
    if v.Str? && v.s != [] then parse(ReplaceChar(v.s, 'Z', "+00:00")) else None
  }

  /** A trailing "Z" is read as the UTC offset "+00:00". */
  lemma ParseIsoZulu(s: string, parse: string -> Option<int>)
    requires 'Z' !in s
    ensures ParseIso(Str(s + "Z"), parse) == parse(s + "+00:00")
  {
    ReplaceCharAppend(s, "Z", 'Z', "+00:00");
    assert ReplaceChar("Z", 'Z', "+00:00") == "+00:00";
  }

  /** `_parse_iso(published_at) or _parse_iso(created_at)`. */
  function Timestamp(d: Doc, parse: string -> Option<int>): Option<int>
  {
    var published := ParseIso(Lookup(d, "published_at"), parse);
    if published.Some? then published else ParseIso(Lookup(d, "created_at"), parse)
  }

  /** The item has a timestamp and it is not before the window start. */
  predicate InWindowItem(d: Doc, parse: string -> Option<int>, windowStart: int)
  {
    var t := Timestamp(d, parse);
    t.Some? && t.value >= windowStart
  }

  /** The in-window items, in query order. */
  function InWindow(items: seq<Doc>, parse: string -> Option<int>, windowStart: int): (r: seq<Doc>)
    ensures |r| <= |items|
  {
    if items == [] then []
    else
      var rest := InWindow(items[..|items| - 1], parse, windowStart);
      var d := items[|items| - 1];
      if InWindowItem(d, parse, windowStart) then rest + [d] else rest
  }

  /** An item is counted exactly when it has a timestamp inside the window. */
  lemma {:induction false} InWindowMembers(items: seq<Doc>, parse: string -> Option<int>, windowStart: int, d: Doc)
    ensures d in InWindow(items, parse, windowStart) <==> d in items && InWindowItem(d, parse, windowStart)
  {
    if items != [] {
      var init := items[..|items| - 1];
      assert items == init + [items[|items| - 1]];
      InWindowMembers(init, parse, windowStart, d);
    }
  }

  /** `(value or "").lower()` of a string field. */
  function LowerField(d: Doc, key: string): string
  {
    Lower(AsText(Lookup(d, key)))
  }

  /** The lower-cased post type of each item, in order. */
  function PostTypes(items: seq<Doc>): (r: seq<string>)
    ensures |r| == |items|
  {
    if items == [] then []
    else PostTypes(items[..|items| - 1]) + [LowerField(items[|items| - 1], "post_type")]
  }

  /** The counts every frequency report starts from. */
  function InitialCounts(): map<string, int>
  {
    map["post" := 0, "reel" := 0, "carousel" := 0, "other" := 0]
  }

  /** `counts[t] = counts.get(t, 0) + 1`. */
  function Bump(m: map<string, int>, t: string): map<string, int>
  {
    m[t := (if t in m then m[t] else 0) + 1]
  }

  /** `Bump` for each type in turn. */
  function Tally(types: seq<string>): map<string, int>
  {
    if types == [] then InitialCounts()
    else Bump(Tally(types[..|types| - 1]), types[|types| - 1])
  }

  /**
   * Every type seen gets a key of its own, next to the four initial keys, and
   * each key holds exactly the number of items of that type: an unknown type
   * is not counted under "other".
   */
  lemma {:induction false} TallyCounts(types: seq<string>, k: string)
    ensures k in Tally(types) <==> k in InitialCounts() || k in types
    ensures k in Tally(types) ==> Tally(types)[k] == multiset(types)[k]
  {
    if types != [] {
      var init := types[..|types| - 1];
      var t := types[|types| - 1];
      assert types == init + [t];
      TallyCounts(init, k);
      TallyCounts(init, t);
    }
  }

  lemma InWindowSnoc(items: seq<Doc>, d: Doc, parse: string -> Option<int>, windowStart: int)
    ensures InWindow(items + [d], parse, windowStart)
         == if InWindowItem(d, parse, windowStart) then InWindow(items, parse, windowStart) + [d]
            else InWindow(items, parse, windowStart)
  {
    assert (items + [d])[..|items|] == items;
  }

  lemma PostTypesSnoc(items: seq<Doc>, d: Doc)
    ensures PostTypes(items + [d]) == PostTypes(items) + [LowerField(d, "post_type")]
  {
    assert (items + [d])[..|items|] == items;
  }

  lemma TallySnoc(types: seq<string>, t: string)
    ensures Tally(types + [t]) == Bump(Tally(types), t)
  {
    assert (types + [t])[..|types|] == types;
  }

  /** The counts after the counting loop has seen `items`: in-window items add one to their type. */
  function CountsAfter(items: seq<Doc>, parse: string -> Option<int>, windowStart: int): map<string, int>
  {
    if items == [] then InitialCounts()
    else
      var m := CountsAfter(items[..|items| - 1], parse, windowStart);
      var d := items[|items| - 1];
      if InWindowItem(d, parse, windowStart) then Bump(m, LowerField(d, "post_type")) else m
  }

  /** The loop's counts are the tally of the post types of the in-window items. */
  lemma {:induction false} CountsAfterTally(items: seq<Doc>, parse: string -> Option<int>, windowStart: int)
    ensures CountsAfter(items, parse, windowStart) == Tally(PostTypes(InWindow(items, parse, windowStart)))
  {
    if items != [] {
      var init := items[..|items| - 1];
      var d := items[|items| - 1];
      CountsAfterTally(init, parse, windowStart);
      var before := InWindow(init, parse, windowStart);
      if InWindowItem(d, parse, windowStart) {
        assert InWindow(items, parse, windowStart) == before + [d];
        PostTypesSnoc(before, d);
        TallySnoc(PostTypes(before), LowerField(d, "post_type"));
      } else {
        assert InWindow(items, parse, windowStart) == before;
      }
    }
  }

  /**
   * The counting loop of `get_content_type_frequency`: `analyzed` is the
   * number of in-window items and `counts` their tally by lower-cased post type.
   */
  method CountByType(items: seq<Doc>, parse: string -> Option<int>, windowStart: int)
    returns (analyzed: nat, counts: map<string, int>)
    ensures analyzed == |InWindow(items, parse, windowStart)|
    ensures counts == Tally(PostTypes(InWindow(items, parse, windowStart)))
  {
    counts := InitialCounts();
    var inWindow: seq<Doc> := [];
    var i := 0;
    while i < |items|
      invariant 0 <= i <= |items|
      invariant inWindow == InWindow(items[..i], parse, windowStart)
      invariant counts == CountsAfter(items[..i], parse, windowStart)
    {
      var item := items[i];
      assert items[..i + 1][..i] == items[..i];
      if InWindowItem(item, parse, windowStart) {
        var postType := LowerField(item, "post_type");
        inWindow := inWindow + [item];
        counts := Bump(counts, postType);
      }
      i := i + 1;
    }
    assert items[..|items|] == items;
    CountsAfterTally(items, parse, windowStart);
    analyzed := |inWindow|;
  }

  /** The start of a window of `days` days ending at `now`, in seconds. */
  function WindowStart(now: int, days: int): int
  {
    now - days * 86400
  }

  /** The published records of the account (all accounts when it has no id). */
  function PublishedFilter(targetAccountId: string): CosmosDbService.ContentFilter
  {
    CosmosDbService.ContentFilter("", "", "published", targetAccountId)
  }

  /** The rows `query_content(publish_status="published", target_account_id=..., limit=limit)` returns. */
  function PublishedRows(c: Container, targetAccountId: string, limit: int): seq<Doc>
    reads c
    requires c.Valid()
  {
    CosmosDbService.QueryRows(c, PublishedFilter(targetAccountId), limit)
  }

  /**
   * `get_content_type_frequency`: over the account's latest `limit`
   * published records, those whose timestamp lies within `days` of `now`
   * (times in seconds) are counted by post type.
   */
  method GetContentTypeFrequency(c: Container, acct: Account, days: int, limit: int, now: int,
                                 parse: string -> Option<int>)
    returns (analyzed: nat, counts: map<string, int>)
    requires c.Valid()
    ensures var inWindow := InWindow(PublishedRows(c, acct.targetAccountId, limit), parse, WindowStart(now, days));
      && analyzed == |inWindow|
      && counts == Tally(PostTypes(inWindow))
  {
    var items := CosmosDbService.QueryContent(c, PublishedFilter(acct.targetAccountId), limit);
    assert items == PublishedRows(c, acct.targetAccountId, limit);
    var windowStart := WindowStart(now, days);
    analyzed, counts := CountByType(items, parse, windowStart);
  }

  /** The comprehension that keeps items whose post type or media type is `t`. */
  function OfType(items: seq<Doc>, t: string): (r: seq<Doc>)
    ensures |r| <= |items|
    ensures forall d :: d in r <==> d in items && HasType(d, t)
  {
    if items == [] then []
    else
      var rest := OfType(items[1..], t);
      assert items == [items[0]] + items[1..];
      if HasType(items[0], t) then [items[0]] + rest else rest
  }

  /** The item's post type or media type, lower-cased, is `t`. */
  predicate HasType(d: Doc, t: string)
  {
    t == LowerField(d, "post_type") || t == LowerField(d, "media_type")
  }

  /** The type filter and `[:limit]` applied to the queried rows. */
  function TypeFiltered(rows: seq<Doc>, contentType: string, limit: int): (r: seq<Doc>)
    ensures limit >= 0 ==> |r| <= limit
    ensures forall d :: d in r ==> d in rows
    ensures Lower(Strip(contentType)) != [] ==> forall d :: d in r ==> HasType(d, Lower(Strip(contentType)))
  {
    var t := Lower(Strip(contentType));
    var kept := if t != [] then OfType(rows, t) else rows;
    var r := Take(kept, limit);
    assert forall d :: d in r ==> d in kept;
    r
  }

  /** Where the history came from. */
  datatype History = FromInstagram(media: seq<Doc>) | FromStore(items: seq<Doc>)

  /**
   * `get_posting_history`. Without a type filter the Instagram API is asked
   * first (`igMedia`: its answer, None when there is no client or the call
   * failed) and a non-empty answer is returned as is. Otherwise the
   * account's published records (three times `limit`, at least 30) are
   * filtered by the stripped, lower-cased type and cut to `limit`.
   */
  function GetPostingHistory(c: Container, acct: Account, limit: int, contentType: string, igMedia: Option<seq<Doc>>): (h: History)
    reads c
    requires c.Valid()
    ensures h.FromInstagram? <==> contentType == [] && igMedia.Some? && igMedia.value != []
    ensures h.FromStore? ==> limit >= 0 ==> |h.items| <= limit
    ensures h.FromStore? ==> forall d :: d in h.items ==>
      d in c.items.Values && CosmosDbService.Matches(PublishedFilter(acct.targetAccountId), d)
    ensures h.FromStore? && Lower(Strip(contentType)) != [] ==>
      forall d :: d in h.items ==> HasType(d, Lower(Strip(contentType)))
  {
    if contentType == [] && igMedia.Some? && igMedia.value != [] then FromInstagram(igMedia.value)
    else
      var fetch := if limit * 3 > 30 then limit * 3 else 30;
      var rows := PublishedRows(c, acct.targetAccountId, fetch);
      CosmosDbService.QueryContentSpec(c, PublishedFilter(acct.targetAccountId), fetch, rows);
      FromStore(TypeFiltered(rows, contentType, limit))
  }

  /** The fields `get_review_status` reports. */
  function StatusFields(): set<string>
  {
    {"id", "media_review_status", "approval_status", "generation_status", "publish_status",
     "blob_url", "created_at", "media_reviewed_at", "media_review_score",
     "media_reviewer_notes", "human_reviewed_at", "human_reviewer_notes"}
  }

  /** What `get_review_status` reports for a field the record lacks. */
  function StatusDefault(field: string): Value
  {
    if field in {"media_review_status", "approval_status", "generation_status"} then Str("unknown")
    else if field == "publish_status" then Str("pending")
    else if field in {"blob_url", "media_reviewer_notes", "human_reviewer_notes"} then Str("")
    else Null
  }

  /**
   * The status view of a record: exactly the status fields, each as stored,
   * or its default when the record lacks it; nothing else of the record shows.
   */
  function StatusView(record: Doc): (v: Doc)
    ensures v.Keys == StatusFields()
    ensures forall k :: k in v && k in record ==> v[k] == record[k]
    ensures "approval_status" !in record ==> v["approval_status"] == Str("unknown")
  {
    map k | k in StatusFields() :: Get(record, k, StatusDefault(k))
  }

  /** The record may be shown to this account: it has no Instagram id, or the record targets it. */
  predicate Owns(acct: Account, record: Doc)
  {
    acct.targetAccountId == [] || Lookup(record, "target_account_id") == Str(acct.targetAccountId)
  }

  /**
   * `get_review_status`: not found for a missing record, access denied for a
   * record of another account, else the status fields of that record.
   */
  function GetReviewStatus(c: Container, acct: Account, itemId: string): (r: Result<Doc>)
    reads c
    ensures r.Ok? <==> itemId in c.items && Owns(acct, c.items[itemId])
    ensures r.Ok? ==> r.value == StatusView(c.items[itemId])
  {
    match c.Find(itemId)
    case None => Err("Item " + itemId + " not found")
    case Some(record) =>
      if !Owns(acct, record) then Err("Access denied for this account")
      else Ok(StatusView(record))
  }

  /** The arguments of `_create_content_record` that vary by tool. */
  datatype Plan = Plan(mediaType: string, prompt: string, aspectRatio: string, resolution: string,
                       outputFormat: string, duration: int, postType: string, topic: string,
                       caption: string, hashtags: Option<seq<string>>)

  /** The store arguments `_create_content_record` builds. */
  function RecordArgs(acct: Account, p: Plan, now: string): CosmosDbService.SaveArgs
  {
    var video := p.mediaType == "video";
    CosmosDbService.SaveArgs(
      p.mediaType, "", "", p.prompt,
      if video then acct.videoModel else acct.imageModel,
      p.aspectRatio,
      if video then "" else p.resolution,
      None, None,
      if video then Some(p.duration) else None,
      None, "", p.postType, acct.targetAccountId, acct.displayName,
      p.topic, p.caption, p.hashtags, "pending", RecordExtra(acct, p, now))
  }

  /** The `extra` of a generation record. */
  function RecordExtra(acct: Account, p: Plan, now: string): (e: Doc)
    ensures "id" !in e && "media_type" !in e
  {
    map["generation_status" := Str("queued"), "generation_requested_at" := Str(now),
        "media_review_status" := Str("pending"), "approval_status" := Str("pending"),
        "output_format" := Str(p.outputFormat), "account" := Str(acct.name),
        "source" := Str("account_agent")]
  }

  /** A new generation record is queued, with media review and approval pending. */
  lemma RecordStatuses(acct: Account, p: Plan, id: string, now: string)
    ensures var doc := CosmosDbService.NewRecord(RecordArgs(acct, p, now), id, now);
      && doc["generation_status"] == Str("queued")
      && doc["media_review_status"] == Str("pending")
      && doc["approval_status"] == Str("pending")
  {
    var e := RecordArgs(acct, p, now).extra;
    assert e == RecordExtra(acct, p, now);
    assert e["generation_status"] == Str("queued");
    assert e["media_review_status"] == Str("pending") && e["approval_status"] == Str("pending");
  }

  /**
   * `_create_content_record`: save the queued record under `id`. The saved
   * record carries `id` and sits in the partition of its media type, which
   * is where a rollback deletes it from.
   */
  method CreateContentRecord(c: Container, acct: Account, p: Plan, id: string, now: string) returns (r: Result<Doc>)
    requires c.Valid()
    modifies c
    ensures c.Valid()
    ensures id in old(c.items) ==> r.Err? && c.items == old(c.items)
    ensures id !in old(c.items) ==>
      r == Ok(CosmosDbService.NewRecord(RecordArgs(acct, p, now), id, now)) && c.items == old(c.items)[id := r.value]
    ensures r.Ok? ==> IdOf(r.value) == Some(id) && Lookup(r.value, "media_type") == Str(p.mediaType)
  {
    var a := RecordArgs(acct, p, now);
    CosmosDbService.NewRecordKey(a, id, now);
    r := CosmosDbService.SaveMediaMetadata(c, a, id, now);
  }

  /** The outcome a generation tool reports. */
  datatype GenOutcome = Queued(contentId: string) | GenError(error: string)

  /**
   * `generate_image` / `generate_video` after the prompt is truncated: save
   * the record, then send its id to the media-generation queue. When the
   * send fails the record is deleted again and an error is reported, so the
   * store and the queue are as before.
   */
  method Generate(c: Container, q: AzureBusService.Queue, acct: Account, p: Plan, id: string, now: string, delivered: bool)
    returns (r: GenOutcome)
    requires c.Valid() && q.Valid()
    modifies c, q
    ensures c.Valid() && q.Valid()
    ensures r.GenError? ==> c.items == old(c.items) && q.entries == old(q.entries)
    ensures !delivered ==> r.GenError?
    ensures delivered && id !in old(c.items) ==>
      && r == Queued(id)
      && c.items == old(c.items)[id := CosmosDbService.NewRecord(RecordArgs(acct, p, now), id, now)]
      && q.entries == old(q.entries)
           + [AzureBusService.Queued(old(q.nextSeq), AzureBusService.MediaGenerationMessage(id, p.mediaType, acct.name, "Media Generation", id))]
  {
    var saved := CreateContentRecord(c, acct, p, id, now);
    if saved.Err? {
      return GenError(saved.error);
    }
    GenerationQueueService.SendOrRollback(c, q, id, p.mediaType,
      AzureBusService.MediaGenerationMessage(id, p.mediaType, acct.name, "Media Generation", id), delivered);
    if !delivered {
      AddThenDelete(old(c.items), id, saved.value);
      return GenError("Service Bus send failed");
    }
    r := Queued(id);
  }

  /** `generate_image`: a "post" image whose prompt is cut to 2000 characters. */
  function ImagePlan(prompt: string, aspectRatio: string, resolution: string, outputFormat: string,
                     caption: string, hashtags: Option<seq<string>>, topic: string): (p: Plan)
    ensures p.mediaType == "image" && p.postType == "post" && |p.prompt| <= MaxImagePromptChars
  {
    Plan("image", TruncatePrompt(prompt, MaxImagePromptChars), aspectRatio, resolution, outputFormat, 5, "post",
         topic, caption, hashtags)
  }

  /** `generate_video`: a "reel" video whose prompt is cut to 2500 characters. */
  function VideoPlan(prompt: string, duration: int, aspectRatio: string,
                     caption: string, hashtags: Option<seq<string>>, topic: string): (p: Plan)
    ensures p.mediaType == "video" && p.postType == "reel" && |p.prompt| <= MaxVideoPromptChars
  {
    Plan("video", TruncatePrompt(prompt, MaxVideoPromptChars), aspectRatio, "1K", "png", duration, "reel",
         topic, caption, hashtags)
  }
}
