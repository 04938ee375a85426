/**
 * The queue-based human review (shared/services/review_queue_service.py).
 * Items wait in the review-pending queue; a reviewer's decision receives a
 * batch of up to 50 messages, completes the item's own message, abandons the
 * ones received before it, records the decision in the store and, for an
 * approval, forwards the item to the review-approved queue. After
 * publishing, the item's approved message is completed the same way.
 *
 * The store module this file imports (shared/services/media_metadata_service.py)
 * is not part of this model; its calls are modelled by the store of
 * services/media_metadata_service.py (MediaMetadataService), whose
 * `set_approval_status` writes `reviewed_at` and `reviewer_notes`.
 * Abandoning a message leaves it in its queue; delivery counts are not
 * modelled.
 */
module ReviewQueueService {
  import opened Wrappers
  import opened Text
  import opened Docs
  import opened Ordering
  import opened Statuses
  import opened Store
  import CosmosDbService
  import MediaMetadataService
  import opened AzureBusService

  /** `max_message_count` of every receive and peek. */
  const BatchSize: nat := 50

  /** The messages a receive or a peek of up to 50 returns: the oldest ones. */
  function Batch(entries: seq<Queued>): (b: seq<Queued>)
    ensures |b| <= BatchSize && |b| <= |entries| && b == entries[..|b|]
  {
    if |entries| <= BatchSize then entries else entries[..BatchSize]
  }

  lemma BatchIsReceive(q: Queue)
    ensures q.Receive(BatchSize) == Batch(q.entries)
  {
  }

  // ---------------------------------------------------------------------
  // Receiving one item out of a batch
  // ---------------------------------------------------------------------

  /** The message body is the item whose `id` is `id`. */
  predicate IsItem(e: Queued, id: string)
  {
    Lookup(e.msg.body, "id") == Str(id)
  }

  /** The position of the item's own message in the batch, or the batch length. */
  function MatchIndex(batch: seq<Queued>, id: string): (k: nat)
    ensures k <= |batch|
    ensures forall j :: 0 <= j < k ==> !IsItem(batch[j], id)
    ensures k < |batch| ==> IsItem(batch[k], id)
  {
    if batch == [] then 0
    else if IsItem(batch[0], id) then 0
    else 1 + MatchIndex(batch[1..], id)
  }

  function SeqNos(es: seq<Queued>): (r: seq<nat>)
    ensures |r| == |es| && forall i :: 0 <= i < |es| ==> r[i] == es[i].seqNo
  {
    seq(|es|, i requires 0 <= i < |es| => es[i].seqNo)
  }

  /**
   * The receive loop of `_transition_item` and `mark_published`: every
   * message before the item's own is abandoned; the loop stops at the item.
   */
  method ScanBatch(batch: seq<Queued>, id: string) returns (k: nat, abandoned: seq<nat>)
    ensures k == MatchIndex(batch, id)
    ensures abandoned == SeqNos(batch[..k])
  {
    k := 0;
    abandoned := [];
    while k < |batch| && !IsItem(batch[k], id)
      invariant k <= |batch|
      invariant forall j :: 0 <= j < k ==> !IsItem(batch[j], id)
      invariant abandoned == SeqNos(batch[..k])
    {
      abandoned := abandoned + [batch[k].seqNo];
      k := k + 1;
    }
  }

  // ---------------------------------------------------------------------
  // queue_for_review
  // ---------------------------------------------------------------------

  /** The keyword arguments of `queue_for_review`. */
  datatype ReviewArgs = ReviewArgs(
    contentId: string,
    mediaUrl: string,
    caption: string,
    hashtags: string,
    contentType: string,
    postType: string,
    targetAccountId: string,
    topic: string,
    trendSource: string)

  function DefaultArgs(contentId: string, mediaUrl: string): ReviewArgs
  {
    ReviewArgs(contentId, mediaUrl, "", "", "image", "post", "", "", "")
  }

  /** `content_id or str(uuid4())`. */
  function ItemId(a: ReviewArgs, uuid: string): string
  {
    OrText(a.contentId, uuid)
  }

  /** The review item sent as the message body. */
  function ReviewItem(account: string, a: ReviewArgs, id: string, now: string): Doc
  {
    map[
      "reviewer_notes" := Str(""),
      "reviewed_at" := Null,
      "trend_source" := Str(a.trendSource),
      "topic" := Str(a.topic),
      "post_type" := Str(a.postType),
      "content_type" := Str(a.contentType),
      "hashtags" := Str(a.hashtags),
      "caption" := Str(a.caption),
      "media_url" := Str(a.mediaUrl),
      "target_account_id" := Str(a.targetAccountId),
      "account" := Str(account),
      "content_id" := Str(id),
      "created_at" := Str(now),
      "status" := Str("pending"),
      "id" := Str(id)]
  }

  function ReviewItemMessage(account: string, a: ReviewArgs, id: string, now: string): Message
  {
    Message(ReviewItem(account, a, id, now),
            map["item_id" := id, "account" := account, "content_type" := a.contentType],
            OrText(a.topic, "Instagram Post"), id)
  }

  /** `[h.strip() for h in parts if h.strip()]`. */
  function CleanTags(parts: seq<string>): seq<string>
  {
    if parts == [] then []
    else (if Strip(parts[0]) != [] then [Strip(parts[0])] else []) + CleanTags(parts[1..])
  }

  /** Cleaning the pieces of `split()` changes nothing: they are non-empty words already. */
  lemma {:induction false} CleanWords(parts: seq<string>)
    requires forall k :: 0 <= k < |parts| ==> parts[k] != [] && NoSpace(parts[k])
    ensures CleanTags(parts) == parts
  {
    if parts != [] {
      NoSpaceStripped(parts[0]);
      CleanWords(parts[1..]);
    }
  }

  /** The hashtag list the reset stores: the whitespace-separated words. */
  lemma CleanSplit(s: string)
    ensures CleanTags(SplitWs(s)) == SplitWs(s)
  {
    SplitWsWords(s);
    CleanWords(SplitWs(s));
  }

  /** The hashtag list `queue_for_review` stores: the cleaned words of the hashtag string. */
  function Tags(a: ReviewArgs): seq<string>
  {
    CleanTags(SplitWs(a.hashtags))
  }

  /**
   * The updates that reset an existing record for a new review round;
   * `tags` is the cleaned hashtag list.
   */
  function ResetUpdates(db: Doc, a: ReviewArgs, tags: seq<string>, now: string): (u: Doc)
    ensures u.Keys == {"approval_status", "publish_status", "queued_for_review_at", "caption", "hashtags", "post_type", "target_account_id"}
  {
    map[
      "approval_status" := Str("pending"),
      "publish_status" := Get(db, "publish_status", Str("pending")),
      "queued_for_review_at" := Str(now),
      "caption" := if a.caption != [] then Str(a.caption) else Get(db, "caption", Str("")),
      "hashtags" := if tags != [] then List(Strs(tags)) else Get(db, "hashtags", List([])),
      "post_type" := if a.postType != [] then Str(a.postType) else Get(db, "post_type", Str("post")),
      "target_account_id" := if a.targetAccountId != [] then Str(a.targetAccountId) else Get(db, "target_account_id", Str(""))]
  }

  /**
   * The reset puts the record back to approval "pending" and keeps its
   * publish status; a given caption, hashtag list, post type or target
   * replaces the stored one and an empty one keeps it.
   */
  lemma ResetFields(db: Doc, a: ReviewArgs, tags: seq<string>, now: string)
    ensures var u := ResetUpdates(db, a, tags, now);
      && u["approval_status"] == Str("pending") && u["queued_for_review_at"] == Str(now)
      && u["publish_status"] == Get(db, "publish_status", Str("pending"))
      && u["caption"] == (if a.caption != [] then Str(a.caption) else Get(db, "caption", Str("")))
      && u["hashtags"] == (if tags != [] then List(Strs(tags)) else Get(db, "hashtags", List([])))
      && u["post_type"] == (if a.postType != [] then Str(a.postType) else Get(db, "post_type", Str("post")))
      && u["target_account_id"] == (if a.targetAccountId != [] then Str(a.targetAccountId) else Get(db, "target_account_id", Str("")))
  {
  }

  /** The hashtag list stored is exactly the whitespace-separated words of the argument. */
  lemma TagsAreWords(a: ReviewArgs)
    ensures Tags(a) == SplitWs(a.hashtags)
  {
    CleanSplit(a.hashtags);
  }

  /** The store after `queue_for_review` reset the record of `id`, when there is one. */
  function ResetStore(items: map<string, Doc>, id: string, a: ReviewArgs, tags: seq<string>, now: string): map<string, Doc>
  {
    if id in items then Updated(items, id, ResetUpdates(items[id], a, tags, now)) else items
  }

  /** The first half of `queue_for_review`: reset an existing record for review. */
  method ResetRecord(c: Container, id: string, a: ReviewArgs, tags: seq<string>, now: string)
    requires c.Valid()
    modifies c`items
    ensures c.Valid()
    ensures c.items == ResetStore(old(c.items), id, a, tags, now)
  {
    var db := CosmosDbService.GetContentById(c, id);
    if db.Some? {
      var u := ResetUpdates(db.value, a, tags, now);
      assert "id" !in u;
      var _ := CosmosDbService.UpdateContent(c, id, u);
    }
  }

  /**
   * `queue_for_review`: reset the record when the store has it, then send
   * the item to review-pending with the item id as message id. A refused
   * send raises after the reset.
   */
  method QueueForReview(c: Container, pending: Queue, account: string, a: ReviewArgs, uuid: string, now: string,
                        delivered: bool)
    returns (r: Result<Doc>)
    requires c.Valid() && pending.Valid()
    modifies c`items, pending
    ensures c.Valid() && pending.Valid()
    ensures c.items == ResetStore(old(c.items), ItemId(a, uuid), a, Tags(a), now)
    ensures delivered ==> (r == Ok(ReviewItem(account, a, ItemId(a, uuid), now))
      && pending.entries == old(pending.entries) + [Queued(old(pending.nextSeq), ReviewItemMessage(account, a, ItemId(a, uuid), now))])
    ensures !delivered ==> r.Err? && pending.entries == old(pending.entries)
  {
    var id := OrText(a.contentId, uuid);
    ResetRecord(c, id, a, Tags(a), now);
    pending.Send(ReviewItemMessage(account, a, id, now), delivered);
    if !delivered {
      return Err("send to " + QueueReviewPending + " failed");
    }
    r := Ok(ReviewItem(account, a, id, now));
  }

  /** Queueing changes no record other than the item's own, and only an existing one. */
  lemma ResetTouchesOnlyItem(items: map<string, Doc>, id: string, a: ReviewArgs, tags: seq<string>, now: string)
    ensures ResetStore(items, id, a, tags, now).Keys == items.Keys
    ensures forall k :: k in items && k != id ==> ResetStore(items, id, a, tags, now)[k] == items[k]
    ensures id in items ==> ResetStore(items, id, a, tags, now)[id]["approval_status"] == Str("pending")
  {
    if id in items {
      ResetFields(items[id], a, tags, now);
    }
  }

  /**
   * A queued item is pending, unreviewed, with empty notes; a given content
   * id is both the item id and the message id.
   */
  lemma ReviewItemShape(account: string, a: ReviewArgs, uuid: string, now: string)
    ensures var id := ItemId(a, uuid);
      var m := ReviewItemMessage(account, a, id, now);
      && m.body["status"] == Str("pending") && m.body["reviewed_at"] == Null && m.body["reviewer_notes"] == Str("")
      && m.messageId == id && m.body["id"] == Str(id) && m.body["content_id"] == Str(id)
      && (a.contentId != [] ==> id == a.contentId)
      && (a.topic == [] ==> m.subject == "Instagram Post")
  {
  }

  // ---------------------------------------------------------------------
  // _peek_queue and get_review_status
  // ---------------------------------------------------------------------

  /** The peek filter: with an account set, only that account's items. */
  predicate Shown(account: string, body: Doc)
  {
    account == [] || Lookup(body, "account") == Str(account)
  }

  /** The bodies of the peeked messages that pass the account filter, in queue order. */
  function Visible(batch: seq<Queued>, account: string): seq<Doc>
  {
    if batch == [] then []
    else
      var rest := Visible(batch[..|batch| - 1], account);
      var body := batch[|batch| - 1].msg.body;
      if Shown(account, body) then rest + [body] else rest
  }

  /** What `_peek_queue` returns for a queue. */
  function Peeked(entries: seq<Queued>, account: string): seq<Doc>
  {
    SortBy(Visible(Batch(entries), account), CreatedAt, false)
  }

  /** `_peek_queue`: peek 50, keep the account's items, sort by creation time. */
  method PeekQueue(q: Queue, account: string) returns (items: seq<Doc>)
    ensures items == Peeked(q.entries, account)
  {
    var peeked := q.Receive(BatchSize);
    items := [];
    for i := 0 to |peeked|
      invariant items == Visible(peeked[..i], account)
    {
      assert peeked[..i + 1][..i] == peeked[..i];
      var body := peeked[i].msg.body;
      if account != [] && Lookup(body, "account") != Str(account) {
        continue;
      }
      items := items + [body];
    }
    assert peeked[..|peeked|] == peeked;
    items := SortBy(items, CreatedAt, false);
  }

  lemma {:induction false} VisibleShown(batch: seq<Queued>, account: string)
    ensures forall d :: d in Visible(batch, account) ==> Shown(account, d) && exists i :: 0 <= i < |batch| && batch[i].msg.body == d
  {
    if batch != [] {
      VisibleShown(batch[..|batch| - 1], account);
    }
  }

  /**
   * A peek shows only the service account's items (all items when no
   * account is set), each the body of one of the first 50 messages, oldest
   * first.
   */
  lemma PeekSpec(entries: seq<Queued>, account: string)
    ensures forall d :: d in Peeked(entries, account) ==>
      Shown(account, d) && exists i :: 0 <= i < |entries| && i < BatchSize && entries[i].msg.body == d
    ensures SortedBy(Peeked(entries, account), CreatedAt, false)
  {
    var v := Visible(Batch(entries), account);
    VisibleShown(Batch(entries), account);
    SortByPermutes(v, CreatedAt, false);
    SortBySorted(v, CreatedAt, false);
    forall d | d in Peeked(entries, account)
      ensures d in v
    {
      assert d in multiset(SortBy(v, CreatedAt, false));
    }
  }

  /** The first item with the given id. */
  function FindItem(items: seq<Doc>, id: string): (r: Option<Doc>)
    ensures r.Some? ==> r.value in items && Lookup(r.value, "id") == Str(id)
    ensures r.None? ==> forall d :: d in items ==> Lookup(d, "id") != Str(id)
  {
    if items == [] then None
    else if Lookup(items[0], "id") == Str(id) then Some(items[0])
    else FindItem(items[1..], id)
  }

  /**
   * The record a peeked item names, as its consumers read it:
   * `item.get("content_id") or item.get("id")`.
   */
  function QueueItemId(item: Doc): (v: Value)
    ensures Truthy(Lookup(item, "content_id")) ==> v == Lookup(item, "content_id")
    ensures !Truthy(Lookup(item, "content_id")) ==> v == Lookup(item, "id")
  {
    Or(Lookup(item, "content_id"), Lookup(item, "id"))
  }

  /** The status `get_review_status` reports from the store. */
  function StoredStatus(db: Doc): Doc
  {
    map[
      "reviewer_notes" := Get(db, "reviewer_notes", Str("")),
      "reviewed_at" := Lookup(db, "reviewed_at"),
      "created_at" := Lookup(db, "created_at"),
      "target_account_id" := Get(db, "target_account_id", Str("")),
      "publish_status" := Get(db, "publish_status", Str("pending")),
      "status" := Get(db, "approval_status", Str("unknown")),
      "id" := Lookup(db, "id")]
  }

  /** `get_review_status`: the pending queue, then the approved queue, then the store. */
  function ReviewStatus(account: string, pending: seq<Queued>, approved: seq<Queued>, items: map<string, Doc>, id: string)
    : Result<Doc>
  {
    match FindItem(Peeked(pending, account), id)
    case Some(d) => Ok(d)
    case None =>
      match FindItem(Peeked(approved, account), id)
      case Some(d) => Ok(d)
      case None =>
        if id in items then Ok(StoredStatus(items[id]))
        else Err("Item " + id + " not found")
  }

  method GetReviewStatus(c: Container, pending: Queue, approved: Queue, account: string, id: string)
    returns (r: Result<Doc>)
    requires c.Valid()
    ensures r == ReviewStatus(account, pending.entries, approved.entries, c.items, id)
  {
    var p := PeekQueue(pending, account);
    var inPending := FindItem(p, id);
    if inPending.Some? {
      return Ok(inPending.value);
    }
    var a := PeekQueue(approved, account);
    var inApproved := FindItem(a, id);
    if inApproved.Some? {
      return Ok(inApproved.value);
    }
    var db := CosmosDbService.GetContentById(c, id);
    if db.Some? {
      return Ok(StoredStatus(db.value));
    }
    r := Err("Item " + id + " not found");
  }

  /**
   * The lookup order: an item visible in the pending queue is reported from
   * there; the store is consulted only when neither queue shows the item;
   * the result is an error only when none of the three has it.
   */
  lemma ReviewStatusOrder(account: string, pending: seq<Queued>, approved: seq<Queued>, items: map<string, Doc>, id: string)
    ensures var r := ReviewStatus(account, pending, approved, items, id);
      && (FindItem(Peeked(pending, account), id).Some? ==> r == Ok(FindItem(Peeked(pending, account), id).value))
      && (FindItem(Peeked(pending, account), id).None? && FindItem(Peeked(approved, account), id).None? ==>
            (id in items ==> r == Ok(StoredStatus(items[id]))) && (id !in items ==> r.Err?))
      && (r.Err? <==> FindItem(Peeked(pending, account), id).None? && FindItem(Peeked(approved, account), id).None? && id !in items)
      && (r.Ok? && id !in items ==> Lookup(r.value, "id") == Str(id))
  {
  }

  // ---------------------------------------------------------------------
  // _transition_item
  // ---------------------------------------------------------------------

  /** The body after the decision: status, review time and notes set. */
  function ReviewedBody(body: Doc, status: ApprovalStatus, notes: string, now: string): Doc
  {
    Merge(body, map["status" := Str(status.Name()), "reviewed_at" := Str(now), "reviewer_notes" := Str(notes)])
  }

  /** The message an approval forwards: the reviewed body, id+"-approved". */
  function ForwardMessage(id: string, body: Doc): Message
  {
    Message(body,
            map["item_id" := id, "account" := Show(Get(body, "account", Str(""))),
                "content_type" := Show(Get(body, "content_type", Str("image")))],
            Show(Get(body, "topic", Str("Instagram Post"))), id + "-approved")
  }

  /** The store and both review queues. */
  datatype World = World(items: map<string, Doc>, pending: seq<Queued>, approved: seq<Queued>, approvedNext: nat)

  /** What a transition returns, the messages it abandoned, and the world after it. */
  datatype Step = Step(result: Result<Doc>, abandoned: seq<nat>, world: World)

  /** The store and queues after the item's own message `e` was received, with the result. */
  datatype Applied = Applied(result: Result<Doc>, world: World)

  /** Completing `e`, recording the decision and, for an approval, forwarding the item. */
  function Apply(w: World, e: Queued, id: string, status: ApprovalStatus, notes: string, now: string, delivered: bool): Applied
  {
    var body := ReviewedBody(e.msg.body, status, notes, now);
    var pending := Remove(w.pending, e.seqNo);
    var items := Updated(w.items, id, MediaMetadataService.ApprovalUpdates(status.Name(), notes, now));
    if status != ApprovalApproved then Applied(Ok(body), World(items, pending, w.approved, w.approvedNext))
    else if delivered then
      Applied(Ok(body), World(items, pending, w.approved + [Queued(w.approvedNext, ForwardMessage(id, body))], w.approvedNext + 1))
    else Applied(Err("send to " + QueueReviewApproved + " failed"), World(items, pending, w.approved, w.approvedNext))
  }

  /** `_transition_item(id, status, notes)`; `delivered` is the broker's answer to the forward. */
  function Transition(w: World, id: string, status: ApprovalStatus, notes: string, now: string, delivered: bool): Step
  {
    var batch := Batch(w.pending);
    var k := MatchIndex(batch, id);
    var abandoned := SeqNos(batch[..k]);
    if k == |batch| then Step(Err("Item " + id + " not found in pending queue"), abandoned, w)
    else
      var a := Apply(w, batch[k], id, status, notes, now, delivered);
      Step(a.result, abandoned, a.world)
  }

  method TransitionItem(c: Container, pending: Queue, approved: Queue, id: string, status: ApprovalStatus,
                        notes: string, now: string, delivered: bool)
    returns (r: Result<Doc>, abandoned: seq<nat>)
    requires c.Valid() && pending.Valid() && approved.Valid() && pending != approved
    modifies c`items, pending, approved
    ensures c.Valid() && pending.Valid() && approved.Valid()
    ensures Step(r, abandoned, World(c.items, pending.entries, approved.entries, approved.nextSeq))
         == Transition(World(old(c.items), old(pending.entries), old(approved.entries), old(approved.nextSeq)),
                       id, status, notes, now, delivered)
  {
    var batch := pending.Receive(BatchSize);
    var k;
    k, abandoned := ScanBatch(batch, id);
    if k == |batch| {
      return Err("Item " + id + " not found in pending queue"), abandoned;
    }
    r := ApplyDecision(c, pending, approved, batch[k], id, status, notes, now, delivered);
  }

  /** The part of `_transition_item` after the item's message was found. */
  method ApplyDecision(c: Container, pending: Queue, approved: Queue, e: Queued, id: string, status: ApprovalStatus,
                       notes: string, now: string, delivered: bool)
    returns (r: Result<Doc>)
    requires c.Valid() && pending.Valid() && approved.Valid() && pending != approved
    modifies c`items, pending, approved
    ensures c.Valid() && pending.Valid() && approved.Valid()
    ensures Applied(r, World(c.items, pending.entries, approved.entries, approved.nextSeq))
         == Apply(World(old(c.items), old(pending.entries), old(approved.entries), old(approved.nextSeq)),
                  e, id, status, notes, now, delivered)
  {
    var body := ReviewedBody(e.msg.body, status, notes, now);
    pending.Complete(e.seqNo);
    var _ := MediaMetadataService.SetApprovalStatus(c, id, status.Name(), notes, now);
    if status == ApprovalApproved {
      approved.Send(ForwardMessage(id, body), delivered);
      if !delivered {
        return Err("send to " + QueueReviewApproved + " failed");
      }
    }
    r := Ok(body);
  }

  /** `approve_item`, `reject_item`, `request_edits`: the three statuses a reviewer can set. */
  datatype Decision = Approve | Reject | RequestEdits

  function StatusOf(d: Decision): (s: ApprovalStatus)
    ensures s.IsDecision()
  {
    match d
    case Approve => ApprovalApproved
    case Reject => ApprovalRejected
    case RequestEdits => ApprovalEditRequested
  }

  /** An item not among the 50 received messages: an error, every message abandoned, nothing written. */
  lemma TransitionNotFound(w: World, id: string, status: ApprovalStatus, notes: string, now: string, delivered: bool)
    requires forall j :: 0 <= j < |Batch(w.pending)| ==> !IsItem(Batch(w.pending)[j], id)
    ensures var s := Transition(w, id, status, notes, now, delivered);
      s.result.Err? && s.world == w && s.abandoned == SeqNos(Batch(w.pending))
  {
    assert Batch(w.pending)[..|Batch(w.pending)|] == Batch(w.pending);
  }

  /**
   * A found item: its message leaves the pending queue, the messages before
   * it are abandoned and stay, the body carries the decision, and the store
   * records it (with no check of the stored approval status).
   */
  lemma TransitionFound(w: World, id: string, status: ApprovalStatus, notes: string, now: string, delivered: bool)
    requires MatchIndex(Batch(w.pending), id) < |Batch(w.pending)|
    ensures var batch := Batch(w.pending);
      var k := MatchIndex(batch, id);
      var s := Transition(w, id, status, notes, now, delivered);
      && batch[k] !in s.world.pending
      && (forall j :: 0 <= j < k ==> !IsItem(batch[j], id) && (batch[j].seqNo != batch[k].seqNo ==> batch[j] in s.world.pending))
      && s.abandoned == SeqNos(batch[..k])
      && s.world.items == Updated(w.items, id, MediaMetadataService.ApprovalUpdates(status.Name(), notes, now))
      && (s.result.Ok? ==> s.result.value["status"] == Str(status.Name()) && s.result.value["reviewer_notes"] == Str(notes))
  {
    var batch := Batch(w.pending);
    var k := MatchIndex(batch, id);
    ApplyFound(w, batch[k], id, status, notes, now, delivered);
    forall j | 0 <= j < k
      ensures batch[j] in w.pending
    {
      assert batch[j] == w.pending[j];
    }
  }

  /** Applying a decision to a found message: it leaves the pending queue, the store records it, the body carries it. */
  lemma ApplyFound(w: World, e: Queued, id: string, status: ApprovalStatus, notes: string, now: string, delivered: bool)
    ensures var a := Apply(w, e, id, status, notes, now, delivered);
      && a.world.pending == Remove(w.pending, e.seqNo)
      && a.world.items == Updated(w.items, id, MediaMetadataService.ApprovalUpdates(status.Name(), notes, now))
      && (a.result.Ok? ==> a.result.value["status"] == Str(status.Name()) && a.result.value["reviewer_notes"] == Str(notes))
  {
    var body := ReviewedBody(e.msg.body, status, notes, now);
    assert body["status"] == Str(status.Name()) && body["reviewer_notes"] == Str(notes);
  }

  /**
   * Only an approval forwards: one message, the reviewed body under
   * id+"-approved". A rejection or edit request leaves review-approved as it was.
   */
  lemma ForwardOnlyApproved(w: World, id: string, status: ApprovalStatus, notes: string, now: string, delivered: bool)
    ensures var s := Transition(w, id, status, notes, now, delivered);
      && (s.world.approved != w.approved ==> (status == ApprovalApproved && delivered
            && s.world.approved == w.approved + [Queued(w.approvedNext, s.world.approved[|w.approved|].msg)]
            && s.world.approved[|w.approved|].msg.messageId == id + "-approved"
            && s.world.approved[|w.approved|].msg.body["status"] == Str("approved")))
      && (status != ApprovalApproved ==> s.world.approved == w.approved && s.world.approvedNext == w.approvedNext)
  {
  }

  /** The outcome does not depend on the stored approval status: this variant has no pending precondition. */
  lemma NoPendingPrecondition(w: World, id: string, v: Value, status: ApprovalStatus, notes: string, now: string, delivered: bool)
    requires id in w.items
    ensures var w2 := w.(items := w.items[id := w.items[id]["approval_status" := v]]);
      Transition(w, id, status, notes, now, delivered).result == Transition(w2, id, status, notes, now, delivered).result
  {
  }

  // ---------------------------------------------------------------------
  // mark_published
  // ---------------------------------------------------------------------

  /** The store and the review-approved queue. */
  datatype PublishWorld = PublishWorld(items: map<string, Doc>, approved: seq<Queued>)

  datatype PublishStep = PublishStep(result: Result<Doc>, abandoned: seq<nat>, world: PublishWorld)

  function PublishedBody(body: Doc, mediaId: string, now: string): Doc
  {
    Merge(body, map["published_at" := Str(now), "instagram_media_id" := Str(mediaId)])
  }

  /** `mark_published(id, media_id)`. */
  function MarkPublishedStep(w: PublishWorld, id: string, mediaId: string, now: string): PublishStep
  {
    var batch := Batch(w.approved);
    var k := MatchIndex(batch, id);
    var abandoned := SeqNos(batch[..k]);
    if k == |batch| then PublishStep(Err("Item " + id + " not found in approved queue"), abandoned, w)
    else
      PublishStep(Ok(PublishedBody(batch[k].msg.body, mediaId, now)), abandoned,
        PublishWorld(Updated(w.items, id, CosmosDbService.PublishedUpdates(mediaId, "", now)), Remove(w.approved, batch[k].seqNo)))
  }

  method MarkPublished(c: Container, approved: Queue, id: string, mediaId: string, now: string)
    returns (r: Result<Doc>, abandoned: seq<nat>)
    requires c.Valid() && approved.Valid()
    modifies c`items, approved
    ensures c.Valid() && approved.Valid()
    ensures PublishStep(r, abandoned, PublishWorld(c.items, approved.entries))
         == MarkPublishedStep(PublishWorld(old(c.items), old(approved.entries)), id, mediaId, now)
  {
    var batch := approved.Receive(BatchSize);
    var k;
    k, abandoned := ScanBatch(batch, id);
    if k == |batch| {
      return Err("Item " + id + " not found in approved queue"), abandoned;
    }
    var body := PublishedBody(batch[k].msg.body, mediaId, now);
    approved.Complete(batch[k].seqNo);
    var _ := CosmosDbService.MarkContentPublished(c, id, mediaId, "", now);
    r := Ok(body);
  }

  /**
   * A found approved item leaves the queue and its record is marked
   * published with the media id; an item not received is an error that
   * changes nothing.
   */
  lemma MarkPublishedSpec(w: PublishWorld, id: string, mediaId: string, now: string)
    ensures var s := MarkPublishedStep(w, id, mediaId, now);
      var batch := Batch(w.approved);
      var k := MatchIndex(batch, id);
      && (k == |batch| ==> s.result.Err? && s.world == w)
      && (k < |batch| ==>
            && batch[k] !in s.world.approved
            && s.result.Ok? && s.result.value["instagram_media_id"] == Str(mediaId)
            && (id in w.items ==> (s.world.items[id]["publish_status"] == Str("published")
                                 && s.world.items[id]["instagram_media_id"] == Str(mediaId))))
  {
  }
}
