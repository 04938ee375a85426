/**
 * The automated review gate (agents/content_reviewer/tools.py). A record's
 * text fields are rendered into one reviewable text; moderation is a hard
 * veto (image first, then text), and only content that passes it reaches
 * the language-model reviewer, whose verdict is mapped onto the media
 * review status. Moderation fails open (ContentSafetyService); the
 * language-model step fails closed: any failure yields NEEDS_REVISION.
 *
 * The moderation and language-model calls are parameters. The plan review
 * records its decision through `set_prompt_review_status`, which
 * services/cosmos_db_service.py does not define. As written the module
 * imports that name at top level, so importing it raises ImportError and
 * none of its tools can run (ImportAsWritten, ImportFails). The other
 * members model the tools with that import dropped: the plan review returns
 * the decision it would record and writes nothing.
 */
module ContentReviewerTools {
  import opened Wrappers
  import opened Text
  import opened Docs
  import opened Statuses
  import opened Store
  import CosmosDbService
  import opened ContentSafetyService
  import PythonImports

  // ---------------------------------------------------------------------
  // The module's store import
  // ---------------------------------------------------------------------

  /** The names the module imports from services/cosmos_db_service.py, in order. */
  const StoreImports: seq<string> := ["get_content_by_id", "set_media_review_status", "set_prompt_review_status"]

  /** Importing the module as written: the ImportError its store import raises, if any. */
  function ImportAsWritten(): Option<string>
  {
    PythonImports.ImportFrom("services.cosmos_db_service", CosmosDbService.TopLevelNames, StoreImports)
  }

  /** The import stops at `set_prompt_review_status`, so the module never loads. */
  lemma ImportFails()
    ensures ImportAsWritten() == Some(PythonImports.CannotImport("set_prompt_review_status", "services.cosmos_db_service"))
  {
    assert StoreImports[0] in CosmosDbService.TopLevelNames;
    assert StoreImports[1] in CosmosDbService.TopLevelNames;
    assert StoreImports[2] !in CosmosDbService.TopLevelNames;
  }

  // ---------------------------------------------------------------------
  // Reviewable text and context
  // ---------------------------------------------------------------------

  /** One labelled line when the field is truthy, none otherwise. */
  function Part(doc: Doc, field: string, heading: string): seq<string>
  {
    if Truthy(Lookup(doc, field)) then [heading + Show(doc[field])] else []
  }

  /** List hashtags become "#tag" joined by spaces; any other value is used as it is. */
  function HashtagsText(v: Value): string
  {
    if v.List? then Join(" ", Tagged(v.items)) else Show(v)
  }

  /** Each entry as "#" and its text. */
  function Tagged(xs: seq<Value>): seq<string>
  {
    seq(|xs|, i requires 0 <= i < |xs| => "#" + Show(xs[i]))
  }

  function HashtagsPart(doc: Doc): seq<string>
  {
    if Truthy(Lookup(doc, "hashtags")) then ["HASHTAGS: " + HashtagsText(doc["hashtags"])] else []
  }

  /** The lines of `_doc_to_reviewable_text`, in their fixed order. */
  function ReviewableParts(doc: Doc): seq<string>
  {
    Part(doc, "prompt", "IMAGE/VIDEO PROMPT: ")
    + Part(doc, "caption", "CAPTION: ")
    + HashtagsPart(doc)
    + Part(doc, "description", "TOPIC: ")
    + Part(doc, "media_type", "MEDIA TYPE: ")
    + Part(doc, "post_type", "POST TYPE: ")
  }

  /** `_doc_to_reviewable_text`: the lines joined by newlines. */
  function ReviewableText(doc: Doc): string
  {
    Join("\n", ReviewableParts(doc))
  }

  /** `_doc_to_context`: account name and account key, joined by "; ". */
  function ContextText(doc: Doc): string
  {
    Join("; ", Part(doc, "target_account_name", "Account: ") + Part(doc, "account", "Account key: "))
  }

  predicate HasReviewableField(doc: Doc)
  {
    Truthy(Lookup(doc, "prompt")) || Truthy(Lookup(doc, "caption")) || Truthy(Lookup(doc, "hashtags"))
    || Truthy(Lookup(doc, "description")) || Truthy(Lookup(doc, "media_type")) || Truthy(Lookup(doc, "post_type"))
  }

  /** Every line starts with its label, so no line is blank. */
  predicate Labelled(parts: seq<string>)
  {
    forall i :: 0 <= i < |parts| ==> parts[i] != [] && !IsSpace(parts[i][0])
  }

  lemma JoinStartsWithFirst(sep: string, parts: seq<string>)
    requires parts != []
    ensures StartsWith(Join(sep, parts), parts[0])
  {
  }

  /** Joined labelled lines are blank exactly when there are none. */
  lemma LabelledJoinBlank(sep: string, parts: seq<string>)
    requires Labelled(parts)
    ensures IsBlank(Join(sep, parts)) <==> parts == []
  {
    if parts != [] {
      JoinStartsWithFirst(sep, parts);
      assert Join(sep, parts)[0] == parts[0][0];
    }
  }

  /**
   * The reviewable text is blank iff the record has none of the six fields:
   * the plan review's "no reviewable text" error fires only then.
   */
  lemma ReviewableBlankIff(doc: Doc)
    ensures IsBlank(ReviewableText(doc)) <==> !HasReviewableField(doc)
  {
    var parts := ReviewableParts(doc);
    ReviewablePartsLabelled(doc);
    LabelledJoinBlank("\n", parts);
  }

  lemma PartLabelled(doc: Doc, field: string, heading: string)
    requires heading != [] && !IsSpace(heading[0])
    ensures Labelled(Part(doc, field, heading))
    ensures Part(doc, field, heading) == [] <==> !Truthy(Lookup(doc, field))
  {
  }

  lemma LabelledConcat(a: seq<string>, b: seq<string>)
    requires Labelled(a) && Labelled(b)
    ensures Labelled(a + b)
  {
    forall i | 0 <= i < |a + b|
      ensures (a + b)[i] != [] && !IsSpace((a + b)[i][0])
    {
      if i >= |a| {
        assert (a + b)[i] == b[i - |a|];
      }
    }
  }

  /** Each of the six lines carries its label, and there are none exactly when no field is set. */
  lemma ReviewablePartsLabelled(doc: Doc)
    ensures Labelled(ReviewableParts(doc))
    ensures ReviewableParts(doc) == [] <==> !HasReviewableField(doc)
  {
    PartLabelled(doc, "prompt", "IMAGE/VIDEO PROMPT: ");
    PartLabelled(doc, "caption", "CAPTION: ");
    PartLabelled(doc, "description", "TOPIC: ");
    PartLabelled(doc, "media_type", "MEDIA TYPE: ");
    PartLabelled(doc, "post_type", "POST TYPE: ");
    var p1 := Part(doc, "prompt", "IMAGE/VIDEO PROMPT: ");
    var p2 := Part(doc, "caption", "CAPTION: ");
    var p3 := HashtagsPart(doc);
    var p4 := Part(doc, "description", "TOPIC: ");
    var p5 := Part(doc, "media_type", "MEDIA TYPE: ");
    var p6 := Part(doc, "post_type", "POST TYPE: ");
    assert Labelled(p3);
    LabelledConcat(p1, p2);
    LabelledConcat(p1 + p2, p3);
    LabelledConcat(p1 + p2 + p3, p4);
    LabelledConcat(p1 + p2 + p3 + p4, p5);
    LabelledConcat(p1 + p2 + p3 + p4 + p5, p6);
  }

  /** The context is empty iff the record names neither an account nor an account key. */
  lemma ContextEmptyIff(doc: Doc)
    ensures ContextText(doc) == [] <==> !Truthy(Lookup(doc, "target_account_name")) && !Truthy(Lookup(doc, "account"))
  {
    var parts := Part(doc, "target_account_name", "Account: ") + Part(doc, "account", "Account key: ");
    assert Labelled(parts);
    LabelledJoinBlank("; ", parts);
  }

  /** A list of string hashtags renders as "#t1 #t2 ...". */
  lemma HashtagsRendered(tags: seq<string>)
    ensures HashtagsText(List(Strs(tags))) == Join(" ", seq(|tags|, i requires 0 <= i < |tags| => "#" + tags[i]))
  {
    TaggedStrs(tags);
  }

  lemma TaggedStrs(tags: seq<string>)
    ensures Tagged(Strs(tags)) == seq(|tags|, i requires 0 <= i < |tags| => "#" + tags[i])
  {
    var xs := Strs(tags);
    var wanted := seq(|tags|, i requires 0 <= i < |tags| => "#" + tags[i]);
    forall i | 0 <= i < |tags|
      ensures Tagged(xs)[i] == wanted[i]
    {
      assert xs[i] == Str(tags[i]);
    }
  }

  // ---------------------------------------------------------------------
  // The language-model reviewer
  // ---------------------------------------------------------------------

  /** What the language-model call produced: a JSON object, text that is not JSON, or an exception. */
  datatype LlmAnswer = Replied(reply: Doc) | NotJson(raw: string) | CallFailed(error: string)

  /** `_llm_review_text` / `_llm_review_image`: the reply, or the NEEDS_REVISION fallback. */
  function LlmReply(answer: LlmAnswer, image: bool): (d: Doc)
    ensures !answer.Replied? ==> "summary" in d && "verdict" in d && d["verdict"] == Str("NEEDS_REVISION")
  {
    var what := if image then "LLM image review" else "LLM review";
    match answer
    case Replied(reply) => reply
    case NotJson(raw) =>
      map["verdict" := Str("NEEDS_REVISION"), "summary" := Str(what + " parse error. Raw: " + Head(raw, 500))]
    case CallFailed(e) =>
      map["verdict" := Str("NEEDS_REVISION"), "summary" := Str(what + " error: " + e)]
  }

  /** `str(llm_result.get("verdict", "NEEDS_REVISION")).strip().upper()`. */
  function VerdictOf(reply: Doc): string
  {
    Upper(Strip(Show(Get(reply, "verdict", Str("NEEDS_REVISION")))))
  }

  /** `llm_result.get("summary", "")` as text. */
  function SummaryOf(reply: Doc): string
  {
    Show(Get(reply, "summary", Str("")))
  }

  /** `status_map.get(verdict, "needs_revision")`. */
  function MapVerdict(verdict: string): (s: MediaReviewStatus)
    ensures s == ReviewApproved <==> verdict == "APPROVED"
    ensures s == ReviewRejected <==> verdict == "REJECTED"
    ensures s != ReviewPending
  {
    if verdict == "APPROVED" then ReviewApproved
    else if verdict == "REJECTED" then ReviewRejected
    else ReviewNeedsRevision
  }

  /** The stripped, upper-cased verdict decides the status: case and surrounding whitespace do not matter. */
  lemma VerdictIgnoresCaseAndSpace(a: string, b: string)
    requires Upper(a) == Upper(b)
    ensures MapVerdict(Upper(Strip(Show(Str(a))))) == MapVerdict(Upper(Strip(Show(Str(b)))))
  {
    UpperStrip(a);
    UpperStrip(b);
  }

  lemma FallbackVerdict()
    ensures Upper(Strip("NEEDS_REVISION")) == "NEEDS_REVISION"
  {
    StripStripped("NEEDS_REVISION");
  }

  /** A failed or unparsable language-model call is never an approval: it maps to needs_revision. */
  lemma LlmFailsClosed(answer: LlmAnswer, image: bool)
    requires !answer.Replied?
    ensures VerdictOf(LlmReply(answer, image)) == "NEEDS_REVISION"
    ensures MapVerdict(VerdictOf(LlmReply(answer, image))) == ReviewNeedsRevision
  {
    var reply := LlmReply(answer, image);
    assert Show(Get(reply, "verdict", Str("NEEDS_REVISION"))) == "NEEDS_REVISION";
    FallbackVerdict();
    assert VerdictOf(reply) == "NEEDS_REVISION";
  }

  // ---------------------------------------------------------------------
  // review_content_plan
  // ---------------------------------------------------------------------

  /** What a review decided: the verdict text, the status recorded, the summary, and whether the language model was consulted. */
  datatype Decision = Decision(verdict: string, status: MediaReviewStatus, summary: string, llmConsulted: bool)

  datatype PlanReview = PlanNotFound | NoReviewableText | PlanDecided(decision: Decision)

  function BlockedSummary(prefix: string, s: SafetyResult): string
  {
    prefix + Join(", ", s.blocked)
  }

  /** The decision a language-model reply leads to. */
  function LlmDecision(answer: LlmAnswer, image: bool): (d: Decision)
    ensures d.llmConsulted && d.status == MapVerdict(d.verdict)
  {
    var reply := LlmReply(answer, image);
    Decision(VerdictOf(reply), MapVerdict(VerdictOf(reply)), SummaryOf(reply), true)
  }

  /**
   * `review_content_plan`: a missing record, then blank text, are errors
   * before any call; a moderation block is recorded "rejected" without the
   * language model; otherwise the mapped model verdict is recorded.
   */
  function ReviewContentPlan(doc: Option<Doc>, analyze: string -> Result<seq<Analysis>>, llm: LlmAnswer): PlanReview
  {
    if doc.None? || doc.value == map[] then PlanNotFound
    else
      var text := ReviewableText(doc.value);
      if IsBlank(text) then NoReviewableText
      else
        var safety := TextResult(text, analyze);
        if !safety.safe then
          PlanDecided(Decision("REJECTED", ReviewRejected,
            BlockedSummary("Content blocked by Azure Content Safety. Categories flagged: ", safety), false))
        else PlanDecided(LlmDecision(llm, false))
  }

  /** A record without reviewable fields is an error, whatever the services would say. */
  lemma PlanNeedsText(doc: Doc, analyze: string -> Result<seq<Analysis>>, llm: LlmAnswer)
    requires doc != map[]
    ensures ReviewContentPlan(Some(doc), analyze, llm) == NoReviewableText <==> !HasReviewableField(doc)
  {
    ReviewableBlankIff(doc);
  }

  /** A moderation block rejects the plan without consulting the model. */
  lemma PlanModerationVeto(doc: Doc, analyze: string -> Result<seq<Analysis>>, llm: LlmAnswer, other: LlmAnswer)
    requires doc != map[] && !IsBlank(ReviewableText(doc))
    requires !TextResult(ReviewableText(doc), analyze).safe
    ensures ReviewContentPlan(Some(doc), analyze, llm) == ReviewContentPlan(Some(doc), analyze, other)
    ensures ReviewContentPlan(Some(doc), analyze, llm).decision.status == ReviewRejected
  {
  }

  /** A plan is approved only when moderation passed and the model actually replied APPROVED. */
  lemma PlanApprovedOnlyIf(doc: Doc, analyze: string -> Result<seq<Analysis>>, llm: LlmAnswer)
    requires ReviewContentPlan(Some(doc), analyze, llm).PlanDecided?
    requires ReviewContentPlan(Some(doc), analyze, llm).decision.status == ReviewApproved
    ensures TextResult(ReviewableText(doc), analyze).safe
    ensures llm.Replied? && VerdictOf(llm.reply) == "APPROVED"
  {
    if !llm.Replied? {
      LlmFailsClosed(llm, false);
    }
  }

  // ---------------------------------------------------------------------
  // review_generated_media
  // ---------------------------------------------------------------------

  datatype MediaReview =
    | MediaNotFound
    | NoBlob(generationStatus: Value)
    | MediaDecided(decision: Decision)

  /** The answers of the four services `review_generated_media` may call. */
  datatype Services = Services(
    imageSafety: Result<seq<Analysis>>,
    analyze: string -> Result<seq<Analysis>>,
    llmImage: LlmAnswer,
    llmText: LlmAnswer)

  predicate IsImage(doc: Doc)
  {
    Get(doc, "media_type", Str("")) == Str("image")
  }

  function BlobUrl(doc: Doc): string
  {
    Show(Get(doc, "blob_url", Str("")))
  }

  /** The decision `review_generated_media` reaches for a record that has a blob URL. */
  function MediaDecision(doc: Doc, svc: Services): Decision
  {
    var url := BlobUrl(doc);
    var imageSafety := ImageResult(url, svc.imageSafety);
    var text := ReviewableText(doc);
    var textSafety := TextResult(text, svc.analyze);
    if IsImage(doc) && !imageSafety.safe then
      Decision("REJECTED", ReviewRejected, BlockedSummary("Image blocked by Azure Content Safety. Categories: ", imageSafety), false)
    else if !IsBlank(text) && !textSafety.safe then
      Decision("REJECTED", ReviewRejected, BlockedSummary("Text metadata blocked by Content Safety. Categories: ", textSafety), false)
    else if IsImage(doc) then LlmDecision(svc.llmImage, true)
    else LlmDecision(svc.llmText, false)
  }

  /** `review_generated_media` without its write. */
  function ReviewMedia(doc: Option<Doc>, svc: Services): MediaReview
  {
    if doc.None? || doc.value == map[] then MediaNotFound
    else if !Truthy(Get(doc.value, "blob_url", Str(""))) then NoBlob(Get(doc.value, "generation_status", Str("unknown")))
    else MediaDecided(MediaDecision(doc.value, svc))
  }

  /**
   * The gate of `review_generated_media` for a record with a blob URL:
   * image moderation runs only for images, text moderation only for
   * non-blank text, and the model only when moderation passed.
   */
  method DecideMedia(record: Doc, svc: Services) returns (decision: Decision)
    ensures decision == MediaDecision(record, svc)
  {
    var url := BlobUrl(record);
    var text := ReviewableText(record);
    var imageSafety := ContentSafetyService.Default();
    if IsImage(record) {
      imageSafety := AnalyzeImage(url, svc.imageSafety);
    }
    if IsImage(record) && !imageSafety.safe {
      decision := Decision("REJECTED", ReviewRejected,
        BlockedSummary("Image blocked by Azure Content Safety. Categories: ", imageSafety), false);
    } else {
      var textSafety := ContentSafetyService.Default();
      if !IsBlank(text) {
        textSafety := AnalyzeText(text, svc.analyze);
      }
      if !IsBlank(text) && !textSafety.safe {
        decision := Decision("REJECTED", ReviewRejected,
          BlockedSummary("Text metadata blocked by Content Safety. Categories: ", textSafety), false);
      } else if IsImage(record) {
        decision := LlmDecision(svc.llmImage, true);
      } else {
        decision := LlmDecision(svc.llmText, false);
      }
    }
  }

  /**
   * `review_generated_media`: look the record up; without it or without a
   * blob URL return an error and write nothing; otherwise record the
   * decision with `set_media_review_status`.
   */
  method ReviewGeneratedMedia(c: Container, contentId: string, svc: Services, now: string) returns (r: MediaReview)
    requires c.Valid()
    modifies c`items
    ensures c.Valid()
    ensures r == ReviewMedia(old(c.Find(contentId)), svc)
    ensures !r.MediaDecided? ==> c.items == old(c.items)
    ensures r.MediaDecided? ==>
      c.items == old(c.items)[contentId := Merge(old(c.items)[contentId],
        CosmosDbService.MediaReviewUpdates(r.decision.status.Name(), r.decision.summary, None, now))]
  {
    var doc := CosmosDbService.GetContentById(c, contentId);
    if doc.None? || doc.value == map[] {
      return MediaNotFound;
    }
    var record := doc.value;
    if !Truthy(Get(record, "blob_url", Str(""))) {
      return NoBlob(Get(record, "generation_status", Str("unknown")));
    }
    var decision := DecideMedia(record, svc);
    var _ := CosmosDbService.SetMediaReviewStatus(c, contentId, decision.status.Name(), decision.summary, None, now);
    r := MediaDecided(decision);
  }

  /**
   * The media gate's layering: an image blocked by moderation is rejected
   * whatever the text and model would say; a video never consults image
   * moderation or the vision model; blocked text metadata is rejected
   * without the model.
   */
  lemma MediaGateOrder(doc: Doc, svc: Services, other: Services)
    ensures (IsImage(doc) && !ImageResult(BlobUrl(doc), svc.imageSafety).safe
      && other.imageSafety == svc.imageSafety) ==>
        MediaDecision(doc, svc) == MediaDecision(doc, other) && MediaDecision(doc, svc).status == ReviewRejected
    ensures !IsImage(doc) && other.analyze == svc.analyze && other.llmText == svc.llmText ==>
        MediaDecision(doc, svc) == MediaDecision(doc, other)
    ensures var text := ReviewableText(doc);
      !(IsImage(doc) && !ImageResult(BlobUrl(doc), svc.imageSafety).safe)
      && !IsBlank(text) && !TextResult(text, svc.analyze).safe ==>
        !MediaDecision(doc, svc).llmConsulted && MediaDecision(doc, svc).status == ReviewRejected
  {
  }

  /**
   * Media is approved only when every moderation check that ran passed and
   * the model that reviewed it actually replied APPROVED.
   */
  lemma MediaApprovedOnlyIf(doc: Doc, svc: Services)
    ensures MediaDecision(doc, svc).status == ReviewApproved ==>
      var llm := if IsImage(doc) then svc.llmImage else svc.llmText;
      (IsImage(doc) ==> ImageResult(BlobUrl(doc), svc.imageSafety).safe)
      && (!IsBlank(ReviewableText(doc)) ==> TextResult(ReviewableText(doc), svc.analyze).safe)
      && llm.Replied? && VerdictOf(llm.reply) == "APPROVED"
  {
    if !svc.llmImage.Replied? {
      LlmFailsClosed(svc.llmImage, true);
    }
    if !svc.llmText.Replied? {
      LlmFailsClosed(svc.llmText, false);
    }
  }

  /**
   * The verdict `review_generated_media` returns is already upper-case, and
   * the status it records is that verdict mapped: "APPROVED" is returned
   * exactly when `approved` is recorded.
   */
  lemma MediaVerdictRecorded(doc: Doc, svc: Services)
    ensures Upper(MediaDecision(doc, svc).verdict) == MediaDecision(doc, svc).verdict
    ensures MediaDecision(doc, svc).status == MapVerdict(MediaDecision(doc, svc).verdict)
  {
    var text := ReviewableText(doc);
    if IsImage(doc) && !ImageResult(BlobUrl(doc), svc.imageSafety).safe {
      RejectedNormal();
    } else if !IsBlank(text) && !TextResult(text, svc.analyze).safe {
      RejectedNormal();
    } else if IsImage(doc) {
      LlmVerdictNormal(svc.llmImage, true);
    } else {
      LlmVerdictNormal(svc.llmText, false);
    }
  }

  /** "REJECTED" is upper-case and maps to `rejected`. */
  lemma RejectedNormal()
    ensures Upper("REJECTED") == "REJECTED" && MapVerdict("REJECTED") == ReviewRejected
  {
  }

  /** A model decision's verdict is upper-case. */
  lemma LlmVerdictNormal(answer: LlmAnswer, image: bool)
    ensures Upper(LlmDecision(answer, image).verdict) == LlmDecision(answer, image).verdict
  {
    UpperIdempotent(Strip(Show(Get(LlmReply(answer, image), "verdict", Str("NEEDS_REVISION")))));
  }

  // ---------------------------------------------------------------------
  // review_text
  // ---------------------------------------------------------------------

  datatype TextReview =
    | NoText
    | TextBlocked(safety: SafetyResult)
    | TextVerdict(verdict: Value, summary: string)

  /**
   * `review_text`: blank text is an error; a moderation block is REJECTED;
   * otherwise the model's verdict is returned as it came, not mapped.
   */
  function ReviewText(text: string, analyze: string -> Result<seq<Analysis>>, llm: LlmAnswer): TextReview
  {
    if IsBlank(text) then NoText
    else
      var safety := TextResult(text, analyze);
      if !safety.safe then TextBlocked(safety)
      else
        var reply := LlmReply(llm, false);
        TextVerdict(Get(reply, "verdict", Str("NEEDS_REVISION")), SummaryOf(reply))
  }

  /** Blank text calls nothing; blocked text never reaches the model; a failed model call reads NEEDS_REVISION. */
  lemma ReviewTextGate(text: string, analyze: string -> Result<seq<Analysis>>, llm: LlmAnswer, other: LlmAnswer)
    ensures IsBlank(text) ==> ReviewText(text, analyze, llm) == NoText
    ensures !IsBlank(text) && !TextResult(text, analyze).safe ==>
      ReviewText(text, analyze, llm) == ReviewText(text, analyze, other) && ReviewText(text, analyze, llm).TextBlocked?
    ensures !IsBlank(text) && TextResult(text, analyze).safe && !llm.Replied? ==>
      ReviewText(text, analyze, llm).verdict == Str("NEEDS_REVISION")
  {
  }
}
