/**
 * The earlier review queue (python/insta_agent/shared/services/review_queue_service.py).
 * It moves items between the same two queues as the current one but keeps
 * no store: queueing sends a fresh 8-character id with no content id,
 * target account or post type, a decision only moves messages, and
 * publishing only completes the approved message. Peeking is the same code
 * as the current service (ReviewQueueService.PeekQueue).
 */
module LegacyReviewQueueService {
  import opened Wrappers
  import opened Text
  import opened Docs
  import opened Statuses
  import opened AzureBusService
  import RQ = ReviewQueueService

  /** `str(uuid.uuid4())[:8]`. */
  function ShortId(uuid: string): (id: string)
    ensures |id| <= 8 && |id| <= |uuid| && id == uuid[..|id|]
    ensures |uuid| >= 8 ==> |id| == 8
  {
    Head(uuid, 8)
  }

  /** The keyword arguments of this `queue_for_review`. */
  datatype ReviewArgs = ReviewArgs(
    mediaUrl: string,
    caption: string,
    hashtags: string,
    contentType: string,
    topic: string,
    trendSource: string)

  /** The twelve-field review item. */
  function ReviewItem(account: string, a: ReviewArgs, id: string, now: string): Doc
  {
    map[
      "reviewer_notes" := Str(""),
      "reviewed_at" := Null,
      "trend_source" := Str(a.trendSource),
      "topic" := Str(a.topic),
      "content_type" := Str(a.contentType),
      "hashtags" := Str(a.hashtags),
      "caption" := Str(a.caption),
      "media_url" := Str(a.mediaUrl),
      "account" := Str(account),
      "created_at" := Str(now),
      "status" := Str("pending"),
      "id" := Str(id)]
  }

  function ReviewItemMessage(account: string, a: ReviewArgs, id: string, now: string): Message
  {
    Message(ReviewItem(account, a, id, now),
            map["item_id" := id, "account" := account, "content_type" := a.contentType],
            OrText(a.topic, "Instagram Post"), id)
  }

  /** `queue_for_review`: one message to review-pending; a refused send raises. */
  method QueueForReview(pending: Queue, account: string, a: ReviewArgs, uuid: string, now: string, delivered: bool)
    returns (r: Result<Doc>)
    requires pending.Valid()
    modifies pending
    ensures pending.Valid()
    ensures delivered ==> (r == Ok(ReviewItem(account, a, ShortId(uuid), now))
      && pending.entries == old(pending.entries) + [Queued(old(pending.nextSeq), ReviewItemMessage(account, a, ShortId(uuid), now))])
    ensures !delivered ==> r.Err? && pending.entries == old(pending.entries)
  {
    var id := Head(uuid, 8);
    pending.Send(ReviewItemMessage(account, a, id, now), delivered);
    if !delivered {
      return Err("send to " + QueueReviewPending + " failed");
    }
    r := Ok(ReviewItem(account, a, id, now));
  }

  /**
   * The earlier item is the current one without the store-facing fields: on
   * the fields both carry they agree, given the same id and arguments.
   */
  lemma ItemsAgree(account: string, a: ReviewArgs, id: string, now: string)
    ensures var cur := RQ.ReviewItem(account, RQ.ReviewArgs(id, a.mediaUrl, a.caption, a.hashtags, a.contentType, "post", "", a.topic, a.trendSource), id, now);
      var old_ := ReviewItem(account, a, id, now);
      && "content_id" !in old_ && "target_account_id" !in old_ && "post_type" !in old_
      && (forall k :: k in old_ ==> k in cur && cur[k] == old_[k])
  {
  }

  /** Both review queues. */
  datatype QueueWorld = QueueWorld(pending: seq<Queued>, approved: seq<Queued>, approvedNext: nat)

  datatype Step = Step(result: Result<Doc>, abandoned: seq<nat>, world: QueueWorld)

  /** `_transition_item`: as in the current service, with no store write. */
  function Transition(w: QueueWorld, id: string, status: ApprovalStatus, notes: string, now: string, delivered: bool): Step
  {
    var batch := RQ.Batch(w.pending);
    var k := RQ.MatchIndex(batch, id);
    var abandoned := RQ.SeqNos(batch[..k]);
    if k == |batch| then Step(Err("Item " + id + " not found in pending queue"), abandoned, w)
    else
      var body := RQ.ReviewedBody(batch[k].msg.body, status, notes, now);
      var pending := Remove(w.pending, batch[k].seqNo);
      if status != ApprovalApproved then Step(Ok(body), abandoned, QueueWorld(pending, w.approved, w.approvedNext))
      else if delivered then
        Step(Ok(body), abandoned, QueueWorld(pending, w.approved + [Queued(w.approvedNext, RQ.ForwardMessage(id, body))], w.approvedNext + 1))
      else Step(Err("send to " + QueueReviewApproved + " failed"), abandoned, QueueWorld(pending, w.approved, w.approvedNext))
  }

  method TransitionItem(pending: Queue, approved: Queue, id: string, status: ApprovalStatus, notes: string, now: string,
                        delivered: bool)
    returns (r: Result<Doc>, abandoned: seq<nat>)
    requires pending.Valid() && approved.Valid() && pending != approved
    modifies pending, approved
    ensures pending.Valid() && approved.Valid()
    ensures Step(r, abandoned, QueueWorld(pending.entries, approved.entries, approved.nextSeq))
         == Transition(QueueWorld(old(pending.entries), old(approved.entries), old(approved.nextSeq)), id, status, notes, now, delivered)
  {
    var batch := pending.Receive(RQ.BatchSize);
    var k;
    k, abandoned := RQ.ScanBatch(batch, id);
    if k == |batch| {
      return Err("Item " + id + " not found in pending queue"), abandoned;
    }
    var body := RQ.ReviewedBody(batch[k].msg.body, status, notes, now);
    pending.Complete(batch[k].seqNo);
    if status == ApprovalApproved {
      approved.Send(RQ.ForwardMessage(id, body), delivered);
      if !delivered {
        return Err("send to " + QueueReviewApproved + " failed"), abandoned;
      }
    }
    r := Ok(body);
  }

  /**
   * On the queues the two services behave the same: the same answer, the
   * same abandoned messages and the same queues after, whatever the store
   * holds; the current one only adds the store write.
   */
  lemma SameQueueEffects(items: map<string, Doc>, w: QueueWorld, id: string, status: ApprovalStatus, notes: string,
                         now: string, delivered: bool)
    ensures var cur := RQ.Transition(RQ.World(items, w.pending, w.approved, w.approvedNext), id, status, notes, now, delivered);
      var leg := Transition(w, id, status, notes, now, delivered);
      && cur.result == leg.result && cur.abandoned == leg.abandoned
      && cur.world.pending == leg.world.pending && cur.world.approved == leg.world.approved
      && cur.world.approvedNext == leg.world.approvedNext
  {
  }

  /**
   * Only an approval forwards, one message under id+"-approved"; an item
   * not among the received messages is an error that leaves both queues.
   */
  lemma ForwardOnlyApproved(w: QueueWorld, id: string, status: ApprovalStatus, notes: string, now: string, delivered: bool)
    ensures var s := Transition(w, id, status, notes, now, delivered);
      && (s.world.approved != w.approved ==> (status == ApprovalApproved && delivered
            && |s.world.approved| == |w.approved| + 1
            && s.world.approved[|w.approved|].msg.messageId == id + "-approved"))
      && (status != ApprovalApproved ==> s.world.approved == w.approved)
      && (RQ.MatchIndex(RQ.Batch(w.pending), id) == |RQ.Batch(w.pending)| ==> s.result.Err? && s.world == w)
  {
    var items: map<string, Doc> := map[];
    SameQueueEffects(items, w, id, status, notes, now, delivered);
    RQ.ForwardOnlyApproved(RQ.World(items, w.pending, w.approved, w.approvedNext), id, status, notes, now, delivered);
  }

  /** `mark_published`: as in the current service, with no store write. */
  function MarkPublishedStep(approved: seq<Queued>, id: string, mediaId: string, now: string): (Result<Doc>, seq<nat>, seq<Queued>)
  {
    var batch := RQ.Batch(approved);
    var k := RQ.MatchIndex(batch, id);
    var abandoned := RQ.SeqNos(batch[..k]);
    if k == |batch| then (Err("Item " + id + " not found in approved queue"), abandoned, approved)
    else (Ok(RQ.PublishedBody(batch[k].msg.body, mediaId, now)), abandoned, Remove(approved, batch[k].seqNo))
  }

  method MarkPublished(approved: Queue, id: string, mediaId: string, now: string)
    returns (r: Result<Doc>, abandoned: seq<nat>)
    requires approved.Valid()
    modifies approved`entries
    ensures approved.Valid()
    ensures (r, abandoned, approved.entries) == MarkPublishedStep(old(approved.entries), id, mediaId, now)
  {
    var batch := approved.Receive(RQ.BatchSize);
    var k;
    k, abandoned := RQ.ScanBatch(batch, id);
    if k == |batch| {
      return Err("Item " + id + " not found in approved queue"), abandoned;
    }
    approved.Complete(batch[k].seqNo);
    r := Ok(RQ.PublishedBody(batch[k].msg.body, mediaId, now));
  }

  /** Publishing has the same queue effect and answer as the current service's. */
  lemma SamePublishEffects(items: map<string, Doc>, approved: seq<Queued>, id: string, mediaId: string, now: string)
    ensures var cur := RQ.MarkPublishedStep(RQ.PublishWorld(items, approved), id, mediaId, now);
      var leg := MarkPublishedStep(approved, id, mediaId, now);
      && cur.result == leg.0 && cur.abandoned == leg.1 && cur.world.approved == leg.2
  {
  }
}
