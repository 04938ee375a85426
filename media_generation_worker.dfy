/**
 * The media generation worker. Its queue listener takes `media-generation`
 * messages, submits the named record to fal.ai when it is still "queued" and
 * marks it "submitted"; a message is completed only when that processing
 * returned normally, otherwise it stays for redelivery. Its poller walks the
 * "submitted" records (oldest submission first, at most 50), and for each
 * finished request stores the asset, resets the review and approval statuses
 * to "pending", has the media reviewer (ContentReviewerTools) review it and
 * record its media-review status, and only on "APPROVED" sends a
 * review-pending message.
 *
 * The provider, the blob store, the reviewer's services and the clock are
 * inputs: the request id fal.ai assigns, the status and result it reports,
 * the uploaded blob and the answers of the services the reviewer consults
 * are oracle parameters, where None stands for a call that raised.
 *
 * As written the review gate imports the media reviewer from a module whose
 * own import raises (ContentReviewerTools.ImportFails); the step logs that
 * and returns, so no media review is recorded and no review-pending message
 * is sent (PollsAsWritten, TickAsWrittenSendsNothing). `HandleStep` and
 * `PollFold` model the gate as intended, with the reviewer's decision.
 */
module MediaGenerationWorker {
  import opened Wrappers
  import opened Text
  import opened Docs
  import opened Store
  import opened Ordering
  import CosmosDbService
  import AzureBusService
  import FalAiService
  import CRT = ContentReviewerTools
  import Statuses

  /** `FAL_VIDEO_MODEL` (the Kling default) and `FAL_VIDEO_MODEL_ALT` (Sora). */
  datatype VideoModels = VideoModels(default: string, alt: string)

  /** The model settings the worker reads; `falImageModel` is `FAL_IMAGE_MODEL`. */
  datatype Settings = Settings(video: VideoModels, falImageModel: string)

  // ---------------------------------------------------------------------
  // Argument building
  // ---------------------------------------------------------------------

  /**
   * `_resolve_video_model`: an empty hint or "kling" picks the default
   * model, "sora" the alternative, an explicit "fal-ai/..." id is kept
   * (trimmed and lower-cased), and anything else falls back to the default.
   */
  function ResolveVideoModel(m: VideoModels, hint: string): (r: string)
    ensures hint == [] || Lower(Strip(hint)) == "kling" ==> r == m.default
    ensures hint != [] && Lower(Strip(hint)) == "sora" ==> r == m.alt
    ensures hint != [] && StartsWith(Lower(Strip(hint)), "fal-ai/") ==> r == Lower(Strip(hint))
    ensures r == m.default || r == m.alt || (hint != [] && r == Lower(Strip(hint)) && StartsWith(r, "fal-ai/"))
  {
    if hint == [] then m.default
    else
      var h := Lower(Strip(hint));
      if h == "kling" then m.default
      else if h == "sora" then m.alt
      else if StartsWith(h, "fal-ai/") then h
      else m.default
  }

  /** An explicit fal.ai id, once resolved, resolves to itself. */
  lemma ResolveFixedPoint(m: VideoModels, hint: string)
    requires hint != [] && StartsWith(Lower(Strip(hint)), "fal-ai/")
    ensures ResolveVideoModel(m, ResolveVideoModel(m, hint)) == ResolveVideoModel(m, hint)
  {
    var r := ResolveVideoModel(m, hint);
    assert r == Lower(Strip(hint));
    NormalizedStable(hint);
    assert StartsWith(Lower(Strip(r)), "fal-ai/");
    PrefixNonEmpty(r, "fal-ai/");
  }

  lemma PrefixNonEmpty(s: string, prefix: string)
    requires StartsWith(s, prefix) && prefix != []
    ensures s != []
  {
  }

  /** Hints that differ only in case resolve to the same model. */
  lemma ResolveIgnoresCase(m: VideoModels, h1: string, h2: string)
    requires Lower(h1) == Lower(h2)
    ensures ResolveVideoModel(m, h1) == ResolveVideoModel(m, h2)
  {
    if h1 != [] {
      LowerStripAgree(h1, h2);
    }
  }

  /** `record.get("video_model", "")` as a hint; a non-string hint makes `.strip()` raise. */
  function HintOf(v: Value): (r: Option<string>)
    ensures !Truthy(v) ==> r == Some([])
    ensures v.Str? ==> r == Some(v.s)
    ensures r.None? <==> Truthy(v) && !v.Str?
  {
    if !Truthy(v) then Some([]) else if v.Str? then Some(v.s) else None
  }

  /**
   * `record.get("duration_seconds") or 5`: a missing or falsy duration is 5
   * seconds; a value that is not an integer cannot be compared and raises.
   */
  function DurationOf(v: Value): (r: Option<int>)
    ensures !Truthy(v) ==> r == Some(5)
    ensures v.Int? && v.i != 0 ==> r == Some(v.i)
    ensures r.None? <==> Truthy(v) && !v.Int?
  {
    if !Truthy(v) then Some(5) else if v.Int? then Some(v.i) else None
  }

  /** `record.get("media_type", "image") == "video"`. */
  predicate IsVideo(record: Doc)
  {
    Get(record, "media_type", Str("image")) == Str("video")
  }

  /**
   * `_build_fal_arguments`: the model id and the arguments for a record, or
   * None where the source raises (no prompt, or a hint, duration or image
   * model of the wrong type).
   */
  function BuildFalArguments(s: Settings, record: Doc): (r: Option<(string, FalAiService.FalArgs)>)
    ensures "prompt" !in record ==> r.None?
    ensures r.Some? ==> "prompt" in record && r.value.1.prompt == record["prompt"]
    ensures r.Some? ==> (r.value.1.ImageArgs? <==> !IsVideo(record))
  {
    if "prompt" !in record then None
    else
      var prompt := record["prompt"];
      var aspect := Get(record, "aspect_ratio", Str("1:1"));
      if IsVideo(record) then
        match (HintOf(Get(record, "video_model", Str(""))), DurationOf(Lookup(record, "duration_seconds")))
        case (Some(hint), Some(duration)) =>
          var model := ResolveVideoModel(s.video, hint);
          Some((model, FalAiService.ShapeVideo(model, prompt, duration, aspect)))
        case _ => None
      else
        var mv := Lookup(record, "model");
        if Truthy(mv) && !mv.Str? then None
        else
          Some((OrText(AsText(mv), s.falImageModel),
                FalAiService.ImageArgs(prompt, aspect, Get(record, "output_format", Str("png")),
                                       Get(record, "resolution", Str("1K")))))
  }

  /**
   * A video record without a usable duration is shaped as a 5-second
   * request: Kling and other models get 5 seconds, Sora snaps it to 8.
   */
  lemma DefaultDuration(s: Settings, record: Doc)
    requires "prompt" in record && IsVideo(record)
    requires HintOf(Get(record, "video_model", Str(""))).Some?
    requires !Truthy(Lookup(record, "duration_seconds"))
    ensures var r := BuildFalArguments(s, record);
      r.Some? && !r.value.1.ImageArgs?
      && (r.value.1.SoraArgs? ==> r.value.1.duration == 8)
      && (!r.value.1.SoraArgs? ==> r.value.1.duration == 5)
  {
    var hint := HintOf(Get(record, "video_model", Str(""))).value;
    var model := ResolveVideoModel(s.video, hint);
    var aspect := Get(record, "aspect_ratio", Str("1:1"));
    assert BuildFalArguments(s, record) == Some((model, FalAiService.ShapeVideo(model, record["prompt"], 5, aspect)));
  }

  // ---------------------------------------------------------------------
  // Queue listener
  // ---------------------------------------------------------------------

  /** The four fields `_submit_to_fal` writes after a successful submit. */
  function SubmittedUpdates(requestId: string, modelId: string, now: string): (u: Doc)
    ensures u.Keys == {"generation_status", "fal_request_id", "fal_model_id", "generation_submitted_at"}
    ensures u["generation_status"] == Str("submitted")
  {
    map["fal_request_id" := Str(requestId), "fal_model_id" := Str(modelId),
        "generation_submitted_at" := Str(now), "generation_status" := Str("submitted")]
  }

  /** How one message's processing ended; `Raised` leaves the message on the queue. */
  datatype SubmitOutcome = NotFound | Skipped | Submitted(requestId: string, modelId: string) | Raised(error: string)

  /**
   * `_submit_to_fal(content_id)` on the records `items`; `requestId` is the
   * id fal.ai assigns, None when the submit call raises.
   */
  function SubmitStep(items: map<string, Doc>, s: Settings, contentId: string, requestId: Option<string>, now: string)
    : (map<string, Doc>, SubmitOutcome)
  {
    if contentId !in items then (items, NotFound)
    else if Lookup(items[contentId], "generation_status") != Str("queued") then (items, Skipped)
    else
      match BuildFalArguments(s, items[contentId])
      case None => (items, Raised("malformed record"))
      case Some((model, _)) =>
        match requestId
        case None => (items, Raised("submit failed"))
        case Some(rid) => (Updated(items, contentId, SubmittedUpdates(rid, model, now)), Submitted(rid, model))
  }

  /**
   * Only a record that exists with status "queued" is submitted; it then
   * reads "submitted" with the request and model ids stored, and every
   * other record, and every record in the other outcomes, is unchanged.
   */
  lemma SubmitStepSpec(items: map<string, Doc>, s: Settings, contentId: string, requestId: Option<string>, now: string)
    ensures SubmitStep(items, s, contentId, requestId, now).0.Keys == items.Keys
    ensures forall k :: k in items && k != contentId ==> SubmitStep(items, s, contentId, requestId, now).0[k] == items[k]
    ensures SubmitStep(items, s, contentId, requestId, now).1.Submitted? <==>
      (contentId in items && Lookup(items[contentId], "generation_status") == Str("queued")
       && BuildFalArguments(s, items[contentId]).Some? && requestId.Some?)
    ensures !SubmitStep(items, s, contentId, requestId, now).1.Submitted? ==>
      SubmitStep(items, s, contentId, requestId, now).0 == items
    ensures var (after, outcome) := SubmitStep(items, s, contentId, requestId, now);
      outcome.Submitted? ==>
        (Lookup(after[contentId], "generation_status") == Str("submitted")
         && Lookup(after[contentId], "fal_request_id") == Str(outcome.requestId)
         && Lookup(after[contentId], "fal_model_id") == Str(outcome.modelId)
         && outcome.modelId == BuildFalArguments(s, items[contentId]).value.0)
  {
  }

  /** A redelivered message after a successful submission is skipped and changes nothing. */
  lemma {:induction false} RedeliverySkipped(items: map<string, Doc>, s: Settings, contentId: string,
                                             r1: Option<string>, r2: Option<string>, now1: string, now2: string)
    requires SubmitStep(items, s, contentId, r1, now1).1.Submitted?
    ensures var after := SubmitStep(items, s, contentId, r1, now1).0;
      SubmitStep(after, s, contentId, r2, now2) == (after, Skipped)
  {
    SubmitStepSpec(items, s, contentId, r1, now1);
  }

  /** `_submit_to_fal`. */
  method SubmitToFal(c: Container, s: Settings, contentId: string, requestId: Option<string>, now: string)
    returns (outcome: SubmitOutcome)
    requires c.Valid()
    modifies c`items
    ensures c.Valid()
    ensures (c.items, outcome) == SubmitStep(old(c.items), s, contentId, requestId, now)
  {
    var record := c.Find(contentId);
    if record.None? {
      return NotFound;
    }
    if Lookup(record.value, "generation_status") != Str("queued") {
      return Skipped;
    }
    var built := BuildFalArguments(s, record.value);
    if built.None? {
      return Raised("malformed record");
    }
    if requestId.None? {
      return Raised("submit failed");
    }
    var model := built.value.0;
    var _ := CosmosDbService.UpdateContent(c, contentId, SubmittedUpdates(requestId.value, model, now));
    outcome := Submitted(requestId.value, model);
  }

  /**
   * One message of the listener loop: `body["content_id"]` raises when the
   * key is missing; a non-string id matches no record.
   */
  function MessageStep(items: map<string, Doc>, s: Settings, body: Doc, requestIds: string -> Option<string>, now: string)
    : (map<string, Doc>, SubmitOutcome)
  {
    if "content_id" !in body then (items, Raised("message has no content_id"))
    else if !body["content_id"].Str? then (items, NotFound)
    else
      var id := body["content_id"].s;
      SubmitStep(items, s, id, requestIds(id), now)
  }

  /** The records and outcomes after processing `batch` in order. */
  function ListenFold(items: map<string, Doc>, s: Settings, batch: seq<AzureBusService.Queued>,
                      requestIds: string -> Option<string>, now: string): (r: (map<string, Doc>, seq<SubmitOutcome>))
    ensures |r.1| == |batch|
  {
    if batch == [] then (items, [])
    else
      var (mid, outcomes) := ListenFold(items, s, batch[..|batch| - 1], requestIds, now);
      var (after, last) := MessageStep(mid, s, batch[|batch| - 1].msg.body, requestIds, now);
      (after, outcomes + [last])
  }

  /** Which messages of the batch are completed: all whose processing did not raise. */
  function Completes(outcomes: seq<SubmitOutcome>): (done: seq<bool>)
    ensures |done| == |outcomes|
    ensures forall i :: 0 <= i < |outcomes| ==> (done[i] <==> !outcomes[i].Raised?)
  {
    seq(|outcomes|, i requires 0 <= i < |outcomes| => !outcomes[i].Raised?)
  }

  lemma CompletesSnoc(outcomes: seq<SubmitOutcome>, o: SubmitOutcome)
    ensures Completes(outcomes + [o]) == Completes(outcomes) + [!o.Raised?]
  {
  }

  /** One more message of the batch is one more step of the fold. */
  lemma ListenSnoc(items: map<string, Doc>, s: Settings, batch: seq<AzureBusService.Queued>, i: nat,
                   requestIds: string -> Option<string>, now: string)
    requires i < |batch|
    ensures var prev := ListenFold(items, s, batch[..i], requestIds, now);
      var step := MessageStep(prev.0, s, batch[i].msg.body, requestIds, now);
      ListenFold(items, s, batch[..i + 1], requestIds, now) == (step.0, prev.1 + [step.1])
  {
    assert batch[..i + 1][..i] == batch[..i];
  }

  /**
   * One pass of `_listen_queue`: receive up to 10 messages, process each,
   * and complete exactly the ones whose processing returned normally.
   */
  method ListenBatch(c: Container, q: AzureBusService.Queue, s: Settings, requestIds: string -> Option<string>, now: string)
    returns (outcomes: seq<SubmitOutcome>)
    requires c.Valid() && q.Valid()
    modifies c`items, q`entries
    ensures c.Valid() && q.Valid()
    ensures (c.items, outcomes) == ListenFold(old(c.items), s, old(q.Receive(10)), requestIds, now)
    ensures q.entries == AzureBusService.RemoveAll(old(q.entries), AzureBusService.Settled(old(q.Receive(10)), Completes(outcomes)))
  {
    var batch := q.Receive(10);
    ghost var entries0 := q.entries;
    ghost var items0 := c.items;
    outcomes := [];
    for i := 0 to |batch|
      invariant c.Valid() && q.Valid()
      invariant (c.items, outcomes) == ListenFold(items0, s, batch[..i], requestIds, now)
      invariant q.entries == AzureBusService.RemoveAll(entries0, AzureBusService.Settled(batch[..i], Completes(outcomes)))
    {
      ListenSnoc(items0, s, batch, i, requestIds, now);
      var outcome := HandleMessage(c, s, batch[i].msg.body, requestIds, now);
      AzureBusService.SettledStep(batch, i, Completes(outcomes), !outcome.Raised?);
      CompletesSnoc(outcomes, outcome);
      if !outcome.Raised? {
        AzureBusService.RemoveAllSnoc(entries0, AzureBusService.Settled(batch[..i], Completes(outcomes)), batch[i].seqNo);
        q.Complete(batch[i].seqNo);
      }
      outcomes := outcomes + [outcome];
    }
    assert batch[..|batch|] == batch;
  }

  /** One message of the batch: read its content id and submit the record it names. */
  method HandleMessage(c: Container, s: Settings, body: Doc, requestIds: string -> Option<string>, now: string)
    returns (outcome: SubmitOutcome)
    requires c.Valid()
    modifies c`items
    ensures c.Valid()
    ensures (c.items, outcome) == MessageStep(old(c.items), s, body, requestIds, now)
  {
    if "content_id" !in body {
      outcome := Raised("message has no content_id");
    } else if !body["content_id"].Str? {
      outcome := NotFound;
    } else {
      var id := body["content_id"].s;
      outcome := SubmitToFal(c, s, id, requestIds(id), now);
    }
  }

  // ---------------------------------------------------------------------
  // Progress poller
  // ---------------------------------------------------------------------

  /**
   * What fal.ai's result holds for the asset; `assetUrl` is None when the
   * expected key is missing, and `description` is `result.get("description", "")`.
   */
  datatype FalResult = FalResult(assetUrl: Option<string>, width: Value, height: Value, description: Value)

  /** The uploaded blob. */
  datatype Blob = Blob(blobUrl: string, blobName: string, fileSize: int)

  /**
   * The answers for one finished request: the result (None when fetching it
   * raised), the blob (None when the download or upload raised), the
   * answers of the services the media reviewer consults (None when the
   * review raised before it recorded anything), and whether the send of the
   * review-pending message went through.
   */
  datatype Completion = Completion(result: Option<FalResult>, blob: Option<Blob>, review: Option<CRT.Services>, delivered: bool)

  /** fal.ai's status answer: the call raised, the request is still running, or it completed. */
  datatype Poll = StatusFailed | InProgress | Done(completion: Completion)

  /** The world the poller changes: the records and the review-pending queue. */
  datatype World = World(items: map<string, Doc>, entries: seq<AzureBusService.Queued>, nextSeq: nat)

  /** `WHERE c.generation_status = 'submitted'`. */
  predicate IsSubmitted(d: Doc)
  {
    Lookup(d, "generation_status") == Str("submitted")
  }

  /** The sort key of `ORDER BY c.generation_submitted_at`. */
  function SubmittedAt(d: Doc): string
  {
    AsText(Lookup(d, "generation_submitted_at"))
  }

  /** The rows `_check_submitted_items` walks: oldest submission first, at most 50. */
  function SubmittedRows(c: Container): seq<Doc>
    reads c
    requires c.Valid()
  {
    Take(SortBy(c.Where(IsSubmitted), SubmittedAt, false), 50)
  }

  /** Every polled row is a stored "submitted" record, in submission order, and there are at most 50. */
  lemma SubmittedRowsSpec(c: Container)
    requires c.Valid()
    ensures forall d :: d in SubmittedRows(c) ==> IsSubmitted(d) && d in c.items.Values
    ensures SortedBy(SubmittedRows(c), SubmittedAt, false)
    ensures |SubmittedRows(c)| <= 50
  {
    QueryBySpec(c, IsSubmitted, SubmittedAt, false, 50, SubmittedRows(c));
  }

  /** The fields `_handle_completed` writes once the asset is stored. */
  function CompletionUpdates(mediaType: Value, res: FalResult, url: string, blob: Blob, now: string): (u: Doc)
    ensures "id" !in u
    ensures Lookup(u, "generation_status") == Str("completed") && Lookup(u, "blob_url") == Str(blob.blobUrl)
    ensures Lookup(u, "media_review_status") == Str("pending") && Lookup(u, "approval_status") == Str("pending")
    ensures mediaType == Str("image") <==> "description" in u
  {
    var base := map[
      "generation_completed_at" := Str(now), "blob_name" := Str(blob.blobName),
      "file_size_bytes" := Int(blob.fileSize), "fal_url" := Str(url),
      "generation_status" := Str("completed"), "blob_url" := Str(blob.blobUrl),
      "media_review_status" := Str("pending"), "approval_status" := Str("pending")];
    if mediaType == Str("image") then
      base["width" := res.width]["height" := res.height]["description" := res.description]
    else base
  }

  /** The review-pending message for a record: id+"-review", subject its description or "Instagram Post". */
  function ReviewMessage(contentId: string, record: Doc): AzureBusService.Message
  {
    AzureBusService.ReviewPendingMessage(
      contentId,
      AsText(Get(record, "media_type", Str("image"))),
      AsText(Get(record, "account", Str(""))),
      AsText(Or(Lookup(record, "description"), Str("Instagram Post"))),
      contentId + "-review")
  }

  /** `str(verdict).upper() == "APPROVED"`. */
  predicate Approved(verdict: string)
  {
    Upper(verdict) == "APPROVED"
  }

  /** Fetching the result, downloading and uploading all returned normally. */
  predicate Stored(done: Completion)
  {
    done.result.Some? && done.result.value.assetUrl.Some? && done.blob.Some?
  }

  /** The records once `_handle_completed` stored the asset with `update_content`. */
  function CompletedItems(w: World, contentId: string, record: Doc, done: Completion, now: string): map<string, Doc>
    requires Stored(done)
  {
    Updated(w.items, contentId, CompletionUpdates(Get(record, "media_type", Str("image")), done.result.value,
                                                  done.result.value.assetUrl.value, done.blob.value, now))
  }

  /** `get_content_by_id` on the records. */
  function RecordIn(items: map<string, Doc>, id: string): Option<Doc>
  {
    if id in items then Some(items[id]) else None
  }

  /**
   * What `review_generated_media(content_id)` answers for the record as it
   * is stored at the gate; None when the review raised.
   */
  function Review(items: map<string, Doc>, contentId: string, done: Completion): Option<CRT.MediaReview>
  {
    match done.review
    case None => None
    case Some(svc) => Some(CRT.ReviewMedia(RecordIn(items, contentId), svc))
  }

  /** `review_result.get("verdict", "NEEDS_REVISION")`: an error answer carries no verdict. */
  function VerdictText(r: CRT.MediaReview): string
  {
    if r.MediaDecided? then r.decision.verdict else "NEEDS_REVISION"
  }

  /** The records after the reviewer's `set_media_review_status`, which only a decision makes. */
  function ReviewWrite(items: map<string, Doc>, contentId: string, r: CRT.MediaReview, now: string): map<string, Doc>
  {
    if r.MediaDecided? then
      Updated(items, contentId, CosmosDbService.MediaReviewUpdates(r.decision.status.Name(), r.decision.summary, None, now))
    else items
  }

  /** The gate lets the record through: the reviewer answered "APPROVED" and the send went through. */
  predicate Sends(items: map<string, Doc>, contentId: string, done: Completion)
  {
    Review(items, contentId, done).Some? && Approved(VerdictText(Review(items, contentId, done).value)) && done.delivered
  }

  /**
   * `_handle_completed`: the new world and whether it returned normally
   * (False when fetching the result, downloading or uploading raised).
   */
  function HandleStep(w: World, contentId: string, record: Doc, done: Completion, now: string): (World, bool)
  {
    if !Stored(done) then (w, false)
    else (ReviewStep(World(CompletedItems(w, contentId, record, done, now), w.entries, w.nextSeq), contentId, record, done, now), true)
  }

  /**
   * The second half of `_handle_completed`: the media review, which records
   * its decision, then the gate and the review-pending send.
   */
  function ReviewStep(w: World, contentId: string, record: Doc, done: Completion, now: string): World
  {
    match Review(w.items, contentId, done)
    case None => w
    case Some(r) => GateStep(w, contentId, record, r, done.delivered, now)
  }

  /**
   * The gate once the reviewer answered `r`: its decision is recorded, and
   * only an "APPROVED" verdict is sent for review.
   */
  function GateStep(w: World, contentId: string, record: Doc, r: CRT.MediaReview, delivered: bool, now: string): World
  {
    SendStep(World(ReviewWrite(w.items, contentId, r, now), w.entries, w.nextSeq), contentId, record, Approved(VerdictText(r)), delivered)
  }

  /**
   * The review-pending send after an "APPROVED" verdict: a delivered message
   * is queued and followed by the `approval_status` "pending" write; a
   * refused send is logged and changes nothing.
   */
  function SendStep(w: World, contentId: string, record: Doc, approved: bool, delivered: bool): World
  {
    if !approved || !delivered then w
    else
      World(Updated(w.items, contentId, map["approval_status" := Str("pending")]),
            w.entries + [AzureBusService.Queued(w.nextSeq, ReviewMessage(contentId, record))],
            w.nextSeq + 1)
  }

  /**
   * A reviewer's answer as `review_generated_media` gives it: the verdict of
   * a decision is upper-case and the status it records is that verdict
   * mapped.
   */
  predicate Consistent(r: CRT.MediaReview)
  {
    r.MediaDecided? ==> Upper(r.decision.verdict) == r.decision.verdict && r.decision.status == CRT.MapVerdict(r.decision.verdict)
  }

  /** Every answer of the media reviewer is consistent. */
  lemma ReviewConsistent(doc: Option<Doc>, svc: CRT.Services)
    ensures Consistent(CRT.ReviewMedia(doc, svc))
  {
    if CRT.ReviewMedia(doc, svc).MediaDecided? {
      CRT.MediaVerdictRecorded(doc.value, svc);
    }
  }

  /**
   * The gate passes only what the reviewer recorded as approved: an
   * "APPROVED" verdict is a decision whose status is `approved`.
   */
  lemma ApprovedVerdictRecorded(r: CRT.MediaReview)
    requires Consistent(r) && Approved(VerdictText(r))
    ensures r.MediaDecided? && r.decision.status == Statuses.ReviewApproved
  {
  }

  /**
   * On completion the record is marked "completed" with its blob URL and
   * `approval_status` "pending"; its `media_review_status` is the status the
   * reviewer recorded, and stays "pending" when the review raised or
   * answered an error; one review-pending message, id+"-review", is sent
   * exactly when the reviewer answered "APPROVED" and the send went
   * through, and then the record's media review is `approved`. Nothing else
   * in the store changes.
   */
  lemma HandleStepSpec(w: World, contentId: string, record: Doc, done: Completion, now: string)
    requires contentId in w.items
    ensures HandleStep(w, contentId, record, done, now).0.items.Keys == w.items.Keys
    ensures forall k :: k in w.items && k != contentId ==> HandleStep(w, contentId, record, done, now).0.items[k] == w.items[k]
    ensures HandleStep(w, contentId, record, done, now).1 <==> Stored(done)
    ensures !Stored(done) ==> HandleStep(w, contentId, record, done, now).0 == w
    ensures var after := HandleStep(w, contentId, record, done, now).0;
      Stored(done) ==>
        (Lookup(after.items[contentId], "generation_status") == Str("completed")
         && Lookup(after.items[contentId], "blob_url") == Str(done.blob.value.blobUrl)
         && Lookup(after.items[contentId], "approval_status") == Str("pending"))
    ensures var after := HandleStep(w, contentId, record, done, now).0;
      Stored(done) ==>
        var r := Review(CompletedItems(w, contentId, record, done, now), contentId, done);
        Lookup(after.items[contentId], "media_review_status")
          == (if r.Some? && r.value.MediaDecided? then Str(r.value.decision.status.Name()) else Str("pending"))
    ensures var after := HandleStep(w, contentId, record, done, now).0;
      Stored(done) && Sends(CompletedItems(w, contentId, record, done, now), contentId, done) ==>
        (after.entries == w.entries + [AzureBusService.Queued(w.nextSeq, ReviewMessage(contentId, record))]
         && after.nextSeq == w.nextSeq + 1
         && Lookup(after.items[contentId], "media_review_status") == Str("approved"))
    ensures var after := HandleStep(w, contentId, record, done, now).0;
      !(Stored(done) && Sends(CompletedItems(w, contentId, record, done, now), contentId, done)) ==>
        (after.entries == w.entries && after.nextSeq == w.nextSeq)
  {
    if Stored(done) {
      var mid := World(CompletedItems(w, contentId, record, done, now), w.entries, w.nextSeq);
      CompletedFields(w, contentId, record, done, now);
      match Review(mid.items, contentId, done)
      case None =>
      case Some(r) =>
        ReviewConsistent(RecordIn(mid.items, contentId), done.review.value);
        GateOnPending(mid, contentId, record, r, done.delivered, now);
    }
  }

  /**
   * The gate on a record whose review and approval statuses are "pending",
   * for a consistent answer `r` of the reviewer: the approval status stays
   * "pending", the media review status becomes the decided one, and a sent
   * record is recorded `approved`.
   */
  lemma GateOnPending(w: World, contentId: string, record: Doc, r: CRT.MediaReview, delivered: bool, now: string)
    requires contentId in w.items && Consistent(r)
    requires Lookup(w.items[contentId], "media_review_status") == Str("pending")
    requires Lookup(w.items[contentId], "approval_status") == Str("pending")
    ensures var after := GateStep(w, contentId, record, r, delivered, now);
      && after.items.Keys == w.items.Keys
      && (forall k :: k in w.items && k != contentId ==> after.items[k] == w.items[k])
      && Lookup(after.items[contentId], "generation_status") == Lookup(w.items[contentId], "generation_status")
      && Lookup(after.items[contentId], "blob_url") == Lookup(w.items[contentId], "blob_url")
      && Lookup(after.items[contentId], "approval_status") == Str("pending")
      && Lookup(after.items[contentId], "media_review_status")
           == (if r.MediaDecided? then Str(r.decision.status.Name()) else Str("pending"))
      && (Approved(VerdictText(r)) && delivered ==>
            after.entries == w.entries + [AzureBusService.Queued(w.nextSeq, ReviewMessage(contentId, record))]
            && after.nextSeq == w.nextSeq + 1
            && Lookup(after.items[contentId], "media_review_status") == Str("approved"))
      && (!(Approved(VerdictText(r)) && delivered) ==> after.entries == w.entries && after.nextSeq == w.nextSeq)
  {
    GateStepFrame(w, contentId, record, r, delivered, now);
    assert "generation_status" !in GateFields && "blob_url" !in GateFields;
    if Approved(VerdictText(r)) {
      ApprovedVerdictRecorded(r);
    }
  }

  /** The completion write keeps the records and sets the completed fields of its own. */
  lemma CompletedFields(w: World, contentId: string, record: Doc, done: Completion, now: string)
    requires contentId in w.items && Stored(done)
    ensures var items := CompletedItems(w, contentId, record, done, now);
      && items.Keys == w.items.Keys
      && (forall k :: k in w.items && k != contentId ==> items[k] == w.items[k])
      && Lookup(items[contentId], "generation_status") == Str("completed")
      && Lookup(items[contentId], "blob_url") == Str(done.blob.value.blobUrl)
      && Lookup(items[contentId], "media_review_status") == Str("pending")
      && Lookup(items[contentId], "approval_status") == Str("pending")
  {
    UpdatedFrame(w.items, contentId, CompletionUpdates(Get(record, "media_type", Str("image")), done.result.value,
                                                       done.result.value.assetUrl.value, done.blob.value, now));
  }

  /** Updating one stored record keeps the keys, the other records, and sets the updated fields. */
  lemma UpdatedFrame(items: map<string, Doc>, id: string, updates: Doc)
    requires id in items
    ensures var after := Updated(items, id, updates);
      && after.Keys == items.Keys
      && (forall k :: k in items && k != id ==> after[k] == items[k])
      && (forall f :: f in updates ==> Lookup(after[id], f) == updates[f])
      && (forall f :: f !in updates ==> Lookup(after[id], f) == Lookup(items[id], f))
  {
    var after := Updated(items, id, updates);
    forall f | f in updates
      ensures Lookup(after[id], f) == updates[f]
    {
      assert f in after[id];
    }
  }

  /** The fields the gate may write: the four media-review fields and `approval_status`. */
  const GateFields: set<string> := {"media_review_status", "media_reviewed_at", "media_review_score", "media_reviewer_notes", "approval_status"}

  /**
   * The gate writes only the reviewer's four media-review fields, and
   * `approval_status` "pending" when it sends; the media review status is
   * the one the reviewer decided, unchanged after an error answer or a
   * raise; at most one message is sent, exactly when `Sends`.
   */
  lemma ReviewStepFrame(w: World, contentId: string, record: Doc, done: Completion, now: string)
    requires contentId in w.items
    ensures var after := ReviewStep(w, contentId, record, done, now);
      && after.items.Keys == w.items.Keys
      && (forall k :: k in w.items && k != contentId ==> after.items[k] == w.items[k])
      && (forall f :: f !in GateFields ==> Lookup(after.items[contentId], f) == Lookup(w.items[contentId], f))
      && (var r := Review(w.items, contentId, done);
          Lookup(after.items[contentId], "media_review_status")
            == (if r.Some? && r.value.MediaDecided? then Str(r.value.decision.status.Name())
                else Lookup(w.items[contentId], "media_review_status")))
      && (Sends(w.items, contentId, done) ==>
            after.entries == w.entries + [AzureBusService.Queued(w.nextSeq, ReviewMessage(contentId, record))]
            && after.nextSeq == w.nextSeq + 1
            && Lookup(after.items[contentId], "approval_status") == Str("pending"))
      && (!Sends(w.items, contentId, done) ==>
            after.entries == w.entries && after.nextSeq == w.nextSeq
            && Lookup(after.items[contentId], "approval_status") == Lookup(w.items[contentId], "approval_status"))
  {
    var r := Review(w.items, contentId, done);
    if r.Some? {
      GateStepFrame(w, contentId, record, r.value, done.delivered, now);
    }
  }

  /** `GateStep` for any answer of the reviewer. */
  lemma GateStepFrame(w: World, contentId: string, record: Doc, r: CRT.MediaReview, delivered: bool, now: string)
    requires contentId in w.items
    ensures var after := GateStep(w, contentId, record, r, delivered, now);
      && after.items.Keys == w.items.Keys
      && (forall k :: k in w.items && k != contentId ==> after.items[k] == w.items[k])
      && (forall f :: f !in GateFields ==> Lookup(after.items[contentId], f) == Lookup(w.items[contentId], f))
      && Lookup(after.items[contentId], "media_review_status")
           == (if r.MediaDecided? then Str(r.decision.status.Name()) else Lookup(w.items[contentId], "media_review_status"))
      && (Approved(VerdictText(r)) && delivered ==>
            after.entries == w.entries + [AzureBusService.Queued(w.nextSeq, ReviewMessage(contentId, record))]
            && after.nextSeq == w.nextSeq + 1
            && Lookup(after.items[contentId], "approval_status") == Str("pending"))
      && (!(Approved(VerdictText(r)) && delivered) ==>
            after.entries == w.entries && after.nextSeq == w.nextSeq
            && Lookup(after.items[contentId], "approval_status") == Lookup(w.items[contentId], "approval_status"))
  {
    var items := ReviewWrite(w.items, contentId, r, now);
    if r.MediaDecided? {
      UpdatedFrame(w.items, contentId,
        CosmosDbService.MediaReviewUpdates(r.decision.status.Name(), r.decision.summary, None, now));
    }
    if Approved(VerdictText(r)) && delivered {
      UpdatedFrame(items, contentId, map["approval_status" := Str("pending")]);
    }
  }

  /** The review-pending message carries the id+"-review" message id and the content id. */
  lemma ReviewMessageId(contentId: string, record: Doc)
    ensures ReviewMessage(contentId, record).messageId == contentId + "-review"
    ensures ReviewMessage(contentId, record).body["content_id"] == Str(contentId)
  {
    AzureBusService.MessageIds(contentId, AsText(Get(record, "media_type", Str("image"))),
      AsText(Get(record, "account", Str(""))), AsText(Or(Lookup(record, "description"), Str("Instagram Post"))),
      contentId + "-review");
  }

  /**
   * One row of `_check_submitted_items`: rows without a request or model id
   * and rows whose status call raised or is not finished are left alone.
   */
  function PollStep(w: World, record: Doc, polls: string -> Poll, now: string): (World, bool)
  {
    match IdOf(record)
    case None => (w, false)
    case Some(id) =>
      if !Truthy(Get(record, "fal_request_id", Str(""))) || !Truthy(Get(record, "fal_model_id", Str(""))) then (w, true)
      else
        match polls(id)
        case Done(done) => HandleStep(w, id, record, done, now)
        case _ => (w, true)
  }

  /** The world after walking `rows`, and whether the walk was cut short by a raise. */
  function PollFold(w: World, rows: seq<Doc>, polls: string -> Poll, now: string): (World, bool)
  {
    if rows == [] then (w, false)
    else
      var (mid, aborted) := PollFold(w, rows[..|rows| - 1], polls, now);
      if aborted then (mid, true)
      else
        var (after, ok) := PollStep(mid, rows[|rows| - 1], polls, now);
        (after, !ok)
  }

  /** The ids of `rows`. */
  function RowIds(rows: seq<Doc>): set<string>
  {
    set d | d in rows && IdOf(d).Some? :: IdOf(d).value
  }

  /**
   * A poll tick touches only the records it walked: every other record is
   * unchanged, no record appears or disappears, and the queue only grows.
   */
  lemma {:induction false} PollFoldFrame(w: World, rows: seq<Doc>, polls: string -> Poll, now: string)
    ensures var after := PollFold(w, rows, polls, now).0;
      && after.items.Keys == w.items.Keys
      && (forall k :: k in w.items && k !in RowIds(rows) ==> after.items[k] == w.items[k])
      && |w.entries| <= |after.entries| && after.entries[..|w.entries|] == w.entries
  {
    if rows != [] {
      var init := rows[..|rows| - 1];
      PollFoldFrame(w, init, polls, now);
      var (mid, aborted) := PollFold(w, init, polls, now);
      var last := rows[|rows| - 1];
      RowIdsSnoc(init, last);
      assert rows == init + [last];
      if !aborted {
        PollStepFrame(mid, last, polls, now);
      }
    }
  }

  /** The ids of `rows + [d]`: those of `rows`, and the id of `d` when it has one. */
  lemma RowIdsSnoc(rows: seq<Doc>, d: Doc)
    ensures RowIds(rows) <= RowIds(rows + [d])
    ensures IdOf(d).Some? ==> IdOf(d).value in RowIds(rows + [d])
  {
    forall x | x in RowIds(rows) ensures x in RowIds(rows + [d]) {
      var e :| e in rows && IdOf(e).Some? && IdOf(e).value == x;
      assert e in rows + [d];
    }
    assert d in rows + [d];
  }

  /** One row of a poll tick touches at most the record it names, and only appends to the queue. */
  lemma PollStepFrame(w: World, row: Doc, polls: string -> Poll, now: string)
    ensures var after := PollStep(w, row, polls, now).0;
      && after.items.Keys == w.items.Keys
      && (forall k :: k in w.items && IdOf(row) != Some(k) ==> after.items[k] == w.items[k])
      && |w.entries| <= |after.entries| && after.entries[..|w.entries|] == w.entries
  {
    match IdOf(row)
    case None =>
    case Some(id) =>
      if Truthy(Get(row, "fal_request_id", Str(""))) && Truthy(Get(row, "fal_model_id", Str(""))) && polls(id).Done? {
        HandleStepFrame(w, id, row, polls(id).completion, now);
      }
  }

  /** `_handle_completed` touches at most its own record and only appends to the queue. */
  lemma HandleStepFrame(w: World, contentId: string, record: Doc, done: Completion, now: string)
    ensures var after := HandleStep(w, contentId, record, done, now).0;
      && after.items.Keys == w.items.Keys
      && (forall k :: k in w.items && k != contentId ==> after.items[k] == w.items[k])
      && |w.entries| <= |after.entries| && after.entries[..|w.entries|] == w.entries
  {
    if contentId in w.items {
      HandleStepSpec(w, contentId, record, done, now);
    }
  }

  /** `_handle_completed` on the store and the review-pending queue. */
  method HandleCompleted(c: Container, q: AzureBusService.Queue, contentId: string, record: Doc, done: Completion, now: string)
    returns (ok: bool)
    requires c.Valid() && q.Valid()
    modifies c`items, q
    ensures c.Valid() && q.Valid()
    ensures (World(c.items, q.entries, q.nextSeq), ok)
      == HandleStep(old(World(c.items, q.entries, q.nextSeq)), contentId, record, done, now)
  {
    if !Stored(done) {
      return false;
    }
    var updates := CompletionUpdates(Get(record, "media_type", Str("image")), done.result.value,
                                     done.result.value.assetUrl.value, done.blob.value, now);
    var _ := CosmosDbService.UpdateContent(c, contentId, updates);
    ok := true;
    SendForReview(c, q, contentId, record, done, now);
  }

  /**
   * The review gate: `review_generated_media` records its decision, and only
   * an "APPROVED" verdict sends the review-pending message.
   */
  method SendForReview(c: Container, q: AzureBusService.Queue, contentId: string, record: Doc, done: Completion, now: string)
    requires c.Valid() && q.Valid()
    modifies c`items, q
    ensures c.Valid() && q.Valid()
    ensures World(c.items, q.entries, q.nextSeq) == ReviewStep(old(World(c.items, q.entries, q.nextSeq)), contentId, record, done, now)
  {
    if done.review.None? {
      return;
    }
    ghost var w := World(c.items, q.entries, q.nextSeq);
    assert c.Find(contentId) == RecordIn(w.items, contentId);
    var r := CRT.ReviewGeneratedMedia(c, contentId, done.review.value, now);
    assert ReviewStep(w, contentId, record, done, now) == GateStep(w, contentId, record, r, done.delivered, now);
    assert c.items == ReviewWrite(w.items, contentId, r, now);
    Forward(c, q, contentId, record, Approved(VerdictText(r)), done.delivered);
  }

  /** The review-pending send and the write after it, on the store and the queue. */
  method Forward(c: Container, q: AzureBusService.Queue, contentId: string, record: Doc, approved: bool, delivered: bool)
    requires c.Valid() && q.Valid()
    modifies c`items, q
    ensures c.Valid() && q.Valid()
    ensures World(c.items, q.entries, q.nextSeq) == SendStep(old(World(c.items, q.entries, q.nextSeq)), contentId, record, approved, delivered)
  {
    if !approved {
      return;
    }
    q.Send(ReviewMessage(contentId, record), delivered);
    if delivered {
      var _ := CosmosDbService.UpdateContent(c, contentId, map["approval_status" := Str("pending")]);
    }
  }

  /**
   * `_check_submitted_items`: walk the submitted rows; a row whose
   * completion handling raised ends the tick (the poller logs it and waits
   * for the next tick).
   */
  method CheckSubmittedItems(c: Container, q: AzureBusService.Queue, polls: string -> Poll, now: string)
    returns (aborted: bool)
    requires c.Valid() && q.Valid()
    modifies c`items, q
    ensures c.Valid() && q.Valid()
    ensures (World(c.items, q.entries, q.nextSeq), aborted)
      == PollFold(old(World(c.items, q.entries, q.nextSeq)), old(SubmittedRows(c)), polls, now)
  {
    var rows := c.QueryBy(IsSubmitted, SubmittedAt, false, 50);
    ghost var w0 := World(c.items, q.entries, q.nextSeq);
    aborted := false;
    var i := 0;
    while i < |rows|
      invariant 0 <= i <= |rows| && c.Valid() && q.Valid()
      invariant (World(c.items, q.entries, q.nextSeq), false) == PollFold(w0, rows[..i], polls, now)
      decreases |rows| - i
    {
      PollFoldStep(w0, rows, i, polls, now);
      var ok := PollOne(c, q, rows[i], polls, now);
      if !ok {
        aborted := true;
        AbortSticks(w0, rows, i + 1, polls, now);
        return;
      }
      i := i + 1;
    }
    assert rows[..|rows|] == rows;
  }

  /** One row of the walk on the store and the queue. */
  method PollOne(c: Container, q: AzureBusService.Queue, record: Doc, polls: string -> Poll, now: string)
    returns (ok: bool)
    requires c.Valid() && q.Valid()
    modifies c`items, q
    ensures c.Valid() && q.Valid()
    ensures (World(c.items, q.entries, q.nextSeq), ok) == PollStep(old(World(c.items, q.entries, q.nextSeq)), record, polls, now)
  {
    ok := true;
    match IdOf(record)
    case None =>
      ok := false;
    case Some(id) =>
      if Truthy(Get(record, "fal_request_id", Str(""))) && Truthy(Get(record, "fal_model_id", Str(""))) {
        match polls(id)
        case Done(done) =>
          ok := HandleCompleted(c, q, id, record, done, now);
        case _ =>
      }
  }

  /** A walk that has not been cut short takes the next row as one `PollStep`. */
  lemma PollFoldStep(w: World, rows: seq<Doc>, i: nat, polls: string -> Poll, now: string)
    requires i < |rows| && !PollFold(w, rows[..i], polls, now).1
    ensures var step := PollStep(PollFold(w, rows[..i], polls, now).0, rows[i], polls, now);
      PollFold(w, rows[..i + 1], polls, now) == (step.0, !step.1)
  {
    assert rows[..i + 1][..i] == rows[..i];
  }

  /** Once a walk is cut short, the rows after the cut change nothing. */
  lemma {:induction false} AbortSticks(w: World, rows: seq<Doc>, i: nat, polls: string -> Poll, now: string)
    requires i <= |rows| && PollFold(w, rows[..i], polls, now).1
    ensures PollFold(w, rows, polls, now) == PollFold(w, rows[..i], polls, now)
    decreases |rows| - i
  {
    if i < |rows| {
      assert rows[..i + 1][..i] == rows[..i];
      AbortSticks(w, rows, i + 1, polls, now);
    } else {
      assert rows[..i] == rows;
    }
  }

  // ---------------------------------------------------------------------
  // The review gate as written
  // ---------------------------------------------------------------------

  /**
   * The reviewer the gate reaches as written: it first imports
   * `review_generated_media`, and an import that raises is handled like a
   * review that raised.
   */
  function GateReview(done: Completion): Option<CRT.Services>
  {
    if CRT.ImportAsWritten().Some? then None else done.review
  }

  /** The status answers of a poll tick with the gate as written. */
  function PollsAsWritten(polls: string -> Poll): string -> Poll
  {
    id => match polls(id)
      case Done(done) => Done(done.(review := GateReview(done)))
      case other => other
  }

  /**
   * When the review raises, `_handle_completed` stores the asset, records
   * no media review and sends nothing.
   */
  lemma NoVerdictSendsNothing(w: World, contentId: string, record: Doc, done: Completion, now: string)
    requires done.review.None?
    ensures var after := HandleStep(w, contentId, record, done, now).0;
      after.entries == w.entries && after.nextSeq == w.nextSeq
    ensures Stored(done) ==> HandleStep(w, contentId, record, done, now).0.items == CompletedItems(w, contentId, record, done, now)
  {
    if Stored(done) {
      assert Review(CompletedItems(w, contentId, record, done, now), contentId, done).None?;
    }
  }

  /**
   * As written, a poll tick never sends a review-pending message, whatever
   * the provider and the reviewer would answer: the queue is left as it was.
   */
  lemma {:induction false} TickAsWrittenSendsNothing(w: World, rows: seq<Doc>, polls: string -> Poll, now: string)
    ensures var after := PollFold(w, rows, PollsAsWritten(polls), now).0;
      after.entries == w.entries && after.nextSeq == w.nextSeq
  {
    if rows != [] {
      var asWritten := PollsAsWritten(polls);
      TickAsWrittenSendsNothing(w, rows[..|rows| - 1], polls, now);
      var (mid, aborted) := PollFold(w, rows[..|rows| - 1], asWritten, now);
      if !aborted {
        var row := rows[|rows| - 1];
        match IdOf(row)
        case None =>
        case Some(id) =>
          if asWritten(id).Done? {
            CRT.ImportFails();
            NoVerdictSendsNothing(mid, id, row, asWritten(id).completion, now);
          }
      }
    }
  }
}
