/**
 * The tools of the unified account agent (agents/account/tools.py). History
 * and frequency read the store through services/media_metadata_service.py;
 * generation goes through the generation queue, whose errors become an
 * error result; the review status combines the store record with the review
 * queue's answer, checking ownership on both.
 */
module AccountTools {
  import opened Wrappers
  import opened Text
  import opened Docs
  import opened Store
  import CosmosDbService
  import MediaMetadataService
  import AzureBusService
  import GenerationQueueService
  import InstaAccountTools

  /** The published records of the account, as `query_content` of the variant store returns them. */
  function PublishedRows(c: Container, targetAccountId: string, limit: int): seq<Doc>
    reads c
    requires c.Valid()
  {
    CosmosDbService.QueryRows(c, MediaMetadataService.Filter("", "published", targetAccountId), limit)
  }

  /**
   * The variant store's query for published records is the same query the
   * Instagram account tools run on the main store: the history and frequency
   * tools of both agents read the same rows.
   */
  lemma SameRowsAsInstaTools(c: Container, targetAccountId: string, limit: int)
    requires c.Valid()
    ensures PublishedRows(c, targetAccountId, limit) == InstaAccountTools.PublishedRows(c, targetAccountId, limit)
  {
    assert MediaMetadataService.Filter("", "published", targetAccountId) == InstaAccountTools.PublishedFilter(targetAccountId);
  }

  /**
   * `get_posting_history`: the Instagram answer first when there is no type
   * filter and it is non-empty; otherwise the account's published records
   * (three times `limit`, at least 30), type-filtered and cut to `limit`.
   */
  function GetPostingHistory(c: Container, acct: InstaAccountTools.Account, limit: int, contentType: string, igMedia: Option<seq<Doc>>)
    : (h: InstaAccountTools.History)
    reads c
    requires c.Valid()
    ensures h.FromInstagram? <==> contentType == [] && igMedia.Some? && igMedia.value != []
    ensures h.FromStore? ==> limit >= 0 ==> |h.items| <= limit
    ensures h.FromStore? ==> forall d :: d in h.items ==>
      d in c.items.Values && Lookup(d, "publish_status") == Str("published")
    ensures h.FromStore? && acct.targetAccountId != [] ==> forall d :: d in h.items ==>
      Lookup(d, "target_account_id") == Str(acct.targetAccountId)
    ensures h.FromStore? && Lower(Strip(contentType)) != [] ==>
      forall d :: d in h.items ==> InstaAccountTools.HasType(d, Lower(Strip(contentType)))
    ensures h == InstaAccountTools.GetPostingHistory(c, acct, limit, contentType, igMedia)
  {
    if contentType == [] && igMedia.Some? && igMedia.value != [] then InstaAccountTools.FromInstagram(igMedia.value)
    else
      var fetch := if limit * 3 > 30 then limit * 3 else 30;
      var f := MediaMetadataService.Filter("", "published", acct.targetAccountId);
      var rows := PublishedRows(c, acct.targetAccountId, fetch);
      CosmosDbService.QueryContentSpec(c, f, fetch, rows);
      SameRowsAsInstaTools(c, acct.targetAccountId, fetch);
      InstaAccountTools.FromStore(InstaAccountTools.TypeFiltered(rows, contentType, limit))
  }

  /**
   * `get_content_type_frequency`: the in-window records among the latest
   * `limit` published ones are counted by their own post type.
   */
  method GetContentTypeFrequency(c: Container, acct: InstaAccountTools.Account, days: int, limit: int, now: int,
                                 parse: string -> Option<int>)
    returns (analyzed: nat, counts: map<string, int>)
    requires c.Valid()
    ensures var inWindow := InstaAccountTools.InWindow(PublishedRows(c, acct.targetAccountId, limit), parse, InstaAccountTools.WindowStart(now, days));
      && analyzed == |inWindow|
      && counts == InstaAccountTools.Tally(InstaAccountTools.PostTypes(inWindow))
  {
    var items := MediaMetadataService.QueryContent(c, "", "published", acct.targetAccountId, limit);
    assert items == PublishedRows(c, acct.targetAccountId, limit);
    analyzed, counts := InstaAccountTools.CountByType(items, parse, InstaAccountTools.WindowStart(now, days));
  }

  /** The request `generate_image` submits: a "post" whose prompt is cut to 2000 characters. */
  function ImageRequest(acct: InstaAccountTools.Account, prompt: string, aspectRatio: string, resolution: string, outputFormat: string,
                        caption: string, hashtags: Option<seq<string>>, topic: string): (r: GenerationQueueService.Request)
    ensures r.mediaType == "image" && r.postType == "post" && r.duration == 5 && r.videoModel == []
    ensures |r.prompt| <= InstaAccountTools.MaxImagePromptChars
    ensures r.prompt == InstaAccountTools.TruncatePrompt(prompt, InstaAccountTools.MaxImagePromptChars)
    ensures r.targetAccountId == acct.targetAccountId && r.targetAccountName == acct.displayName
  {
    GenerationQueueService.Request("image", InstaAccountTools.TruncatePrompt(prompt, InstaAccountTools.MaxImagePromptChars),
      aspectRatio, resolution, outputFormat, 5, "", "post", acct.targetAccountId, acct.displayName,
      topic, caption, hashtags)
  }

  /** The request `generate_video` submits: a "reel" whose prompt is cut to 2500 characters. */
  function VideoRequest(acct: InstaAccountTools.Account, prompt: string, duration: int, aspectRatio: string, videoModel: string,
                        caption: string, hashtags: Option<seq<string>>, topic: string): (r: GenerationQueueService.Request)
    ensures r.mediaType == "video" && r.postType == "reel" && r.duration == duration && r.videoModel == videoModel
    ensures |r.prompt| <= InstaAccountTools.MaxVideoPromptChars
    ensures r.prompt == InstaAccountTools.TruncatePrompt(prompt, InstaAccountTools.MaxVideoPromptChars)
    ensures r.targetAccountId == acct.targetAccountId && r.targetAccountName == acct.displayName
  {
    GenerationQueueService.Request("video", InstaAccountTools.TruncatePrompt(prompt, InstaAccountTools.MaxVideoPromptChars),
      aspectRatio, "1K", "png", duration, videoModel, "reel", acct.targetAccountId, acct.displayName,
      topic, caption, hashtags)
  }

  /**
   * The common tail of `generate_image` and `generate_video`: the generation
   * queue's error is caught and reported, never raised, and then neither the
   * store nor the queue has changed. The queue is told the agent's name.
   */
  method Generate(c: Container, q: AzureBusService.Queue, acct: InstaAccountTools.Account, req: GenerationQueueService.Request,
                  models: GenerationQueueService.Models, id: string, now: string, delivered: bool)
    returns (r: InstaAccountTools.GenOutcome)
    requires c.Valid() && q.Valid()
    modifies c, q
    ensures c.Valid() && q.Valid()
    ensures r.GenError? ==> c.items == old(c.items) && q.entries == old(q.entries)
    ensures !delivered || id in old(c.items) <==> r.GenError?
    ensures delivered && id !in old(c.items) ==>
      && r == InstaAccountTools.Queued(id)
      && c.items == old(c.items)[id := MediaMetadataService.NewRecord(GenerationQueueService.QueuedArgs(req, models, acct.name, now), id, now)]
      && q.entries == old(q.entries)
           + [AzureBusService.Queued(old(q.nextSeq), GenerationQueueService.GenerationMessage(id, req.mediaType, acct.name,
                                                                                          OrText(req.topic, "Media Generation")))]
  {
    var submitted := GenerationQueueService.SubmitGeneration(c, q, req, models, acct.name, id, now, delivered);
    if submitted.Err? {
      return InstaAccountTools.GenError(submitted.error);
    }
    r := InstaAccountTools.Queued(id);
  }

  /**
   * `generate_image`: a fresh id with a delivered message is reported queued
   * and its record holds the prompt cut to 2000 characters, as a "post" of
   * the agent's Instagram account; anything else is an error that changed
   * nothing.
   */
  method GenerateImage(c: Container, q: AzureBusService.Queue, acct: InstaAccountTools.Account, prompt: string,
                       aspectRatio: string, resolution: string, outputFormat: string, caption: string,
                       hashtags: Option<seq<string>>, topic: string,
                       models: GenerationQueueService.Models, id: string, now: string, delivered: bool)
    returns (r: InstaAccountTools.GenOutcome)
    requires c.Valid() && q.Valid()
    modifies c, q
    ensures c.Valid() && q.Valid()
    ensures r.GenError? ==> c.items == old(c.items) && q.entries == old(q.entries)
    ensures !delivered || id in old(c.items) <==> r.GenError?
    ensures r.Queued? ==>
      && r.contentId == id && id in c.items
      && Lookup(c.items[id], "prompt") == Str(InstaAccountTools.TruncatePrompt(prompt, InstaAccountTools.MaxImagePromptChars))
      && Lookup(c.items[id], "post_type") == Str("post")
      && Lookup(c.items[id], "target_account_id") == Str(acct.targetAccountId)
  {
    var req := ImageRequest(acct, prompt, aspectRatio, resolution, outputFormat, caption, hashtags, topic);
    GenerationQueueService.QueuedRequestFields(req, models, acct.name, id, now);
    r := Generate(c, q, acct, req, models, id, now, delivered);
  }

  /**
   * `generate_video`: as `generate_image`, for a "reel" of the requested
   * duration whose prompt is cut to 2500 characters.
   */
  method GenerateVideo(c: Container, q: AzureBusService.Queue, acct: InstaAccountTools.Account, prompt: string,
                       duration: int, aspectRatio: string, videoModel: string, caption: string,
                       hashtags: Option<seq<string>>, topic: string,
                       models: GenerationQueueService.Models, id: string, now: string, delivered: bool)
    returns (r: InstaAccountTools.GenOutcome)
    requires c.Valid() && q.Valid()
    modifies c, q
    ensures c.Valid() && q.Valid()
    ensures r.GenError? ==> c.items == old(c.items) && q.entries == old(q.entries)
    ensures !delivered || id in old(c.items) <==> r.GenError?
    ensures r.Queued? ==>
      && r.contentId == id && id in c.items
      && Lookup(c.items[id], "prompt") == Str(InstaAccountTools.TruncatePrompt(prompt, InstaAccountTools.MaxVideoPromptChars))
      && Lookup(c.items[id], "post_type") == Str("reel")
      && Lookup(c.items[id], "duration_seconds") == Int(duration)
  {
    var req := VideoRequest(acct, prompt, duration, aspectRatio, videoModel, caption, hashtags, topic);
    GenerationQueueService.QueuedRequestFields(req, models, acct.name, id, now);
    GenerationQueueService.QueuedShape(req, models, acct.name, id, now);
    r := Generate(c, q, acct, req, models, id, now, delivered);
  }

  /** The answer `{"error": message}`. */
  function ErrorDoc(message: string): (d: Doc)
    ensures "error" in d
  {
    map["error" := Str(message)]
  }

  /** The record may be shown: the agent has no Instagram id, or the record targets it. */
  predicate RecordOwned(targetAccountId: string, record: Doc)
  {
    targetAccountId == [] || Lookup(record, "target_account_id") == Str(targetAccountId)
  }

  /** The queue status may be shown: no Instagram id, an empty or absent target, or the same target. */
  predicate StatusOwned(targetAccountId: string, status: Doc)
  {
    targetAccountId == [] || !Truthy(Lookup(status, "target_account_id"))
    || Lookup(status, "target_account_id") == Str(targetAccountId)
  }

  /**
   * `get_review_status`: the store record must exist and belong to the
   * account; then the review queue's answer (`queueStatus`, from a service
   * that is not part of this model) is returned as is when it is an error,
   * and otherwise only when it belongs to the account too.
   */
  function GetReviewStatus(c: Container, targetAccountId: string, itemId: string, queueStatus: Doc): (r: Doc)
    reads c
    ensures itemId !in c.items ==> r == ErrorDoc("Item " + itemId + " not found")
    ensures itemId in c.items && !RecordOwned(targetAccountId, c.items[itemId]) ==>
      r == ErrorDoc("Access denied for this account")
    ensures r == queueStatus || "error" in r
    ensures r == queueStatus && "error" !in queueStatus ==>
      itemId in c.items && RecordOwned(targetAccountId, c.items[itemId]) && StatusOwned(targetAccountId, queueStatus)
    ensures itemId in c.items && RecordOwned(targetAccountId, c.items[itemId]) ==>
      ("error" in queueStatus || StatusOwned(targetAccountId, queueStatus) ==> r == queueStatus)
  {
    match c.Find(itemId)
    case None => ErrorDoc("Item " + itemId + " not found")
    case Some(record) =>
      if !RecordOwned(targetAccountId, record) then ErrorDoc("Access denied for this account")
      else if "error" in queueStatus then queueStatus
      else if !StatusOwned(targetAccountId, queueStatus) then ErrorDoc("Access denied for this account")
      else queueStatus
  }
}
