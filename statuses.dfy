/**
 * The four lifecycle status fields of a content record. Each is a closed set
 * of strings in the pipeline; the record stores the string, and `Parse`
 * reads it back.
 */
module Statuses {
  import opened Wrappers
  import opened Docs

  /** `generation_status`: from the request to the provider's finished media. */
  datatype GenerationStatus = GenPendingReview | GenQueued | GenSubmitted | GenRunning | GenCompleted | GenFailed
  {
    function Name(): string
    {
      match this
      case GenPendingReview => "pending_review"
      case GenQueued => "queued"
      case GenSubmitted => "submitted"
      case GenRunning => "running"
      case GenCompleted => "completed"
      case GenFailed => "failed"
    }
  }

  function ParseGeneration(s: string): (r: Option<GenerationStatus>)
    ensures r.Some? ==> r.value.Name() == s
  {
    if s == "pending_review" then Some(GenPendingReview)
    else if s == "queued" then Some(GenQueued)
    else if s == "submitted" then Some(GenSubmitted)
    else if s == "running" then Some(GenRunning)
    else if s == "completed" then Some(GenCompleted)
    else if s == "failed" then Some(GenFailed)
    else None
  }

  /** `media_review_status`: the automated reviewer's gate on generated media. */
  datatype MediaReviewStatus = ReviewPending | ReviewApproved | ReviewRejected | ReviewNeedsRevision
  {
    function Name(): string
    {
      match this
      case ReviewPending => "pending"
      case ReviewApproved => "approved"
      case ReviewRejected => "rejected"
      case ReviewNeedsRevision => "needs_revision"
    }
  }

  function ParseMediaReview(s: string): (r: Option<MediaReviewStatus>)
    ensures r.Some? ==> r.value.Name() == s
  {
    if s == "pending" then Some(ReviewPending)
    else if s == "approved" then Some(ReviewApproved)
    else if s == "rejected" then Some(ReviewRejected)
    else if s == "needs_revision" then Some(ReviewNeedsRevision)
    else None
  }

  /** `approval_status`: the human gate before publishing. */
  datatype ApprovalStatus =
    | ApprovalPending
    | ApprovalPendingReview
    | ApprovalApprovedByReviewer
    | ApprovalApproved
    | ApprovalRejected
    | ApprovalEditRequested
  {
    function Name(): string
    {
      match this
      case ApprovalPending => "pending"
      case ApprovalPendingReview => "pending_review"
      case ApprovalApprovedByReviewer => "approved_by_reviewer"
      case ApprovalApproved => "approved"
      case ApprovalRejected => "rejected"
      case ApprovalEditRequested => "edit_requested"
    }

    /** The decisions a human reviewer records (approve, reject, request edits). */
    predicate IsDecision()
    {
      this == ApprovalApproved || this == ApprovalRejected || this == ApprovalEditRequested
    }
  }

  function ParseApproval(s: string): (r: Option<ApprovalStatus>)
    ensures r.Some? ==> r.value.Name() == s
  {
    if s == "pending" then Some(ApprovalPending)
    else if s == "pending_review" then Some(ApprovalPendingReview)
    else if s == "approved_by_reviewer" then Some(ApprovalApprovedByReviewer)
    else if s == "approved" then Some(ApprovalApproved)
    else if s == "rejected" then Some(ApprovalRejected)
    else if s == "edit_requested" then Some(ApprovalEditRequested)
    else None
  }

  /** `publish_status`: whether the item is live on Instagram. */
  datatype PublishStatus = PublishPending | Published
  {
    function Name(): string
    {
      match this
      case PublishPending => "pending"
      case Published => "published"
    }
  }

  function ParsePublish(s: string): (r: Option<PublishStatus>)
    ensures r.Some? ==> r.value.Name() == s
  {
    if s == "pending" then Some(PublishPending)
    else if s == "published" then Some(Published)
    else None
  }

  /** Writing a status and reading it back gives the same status, for all four fields. */
  lemma NamesRoundTrip(g: GenerationStatus, m: MediaReviewStatus, a: ApprovalStatus, p: PublishStatus)
    ensures ParseGeneration(g.Name()) == Some(g)
    ensures ParseMediaReview(m.Name()) == Some(m)
    ensures ParseApproval(a.Name()) == Some(a)
    ensures ParsePublish(p.Name()) == Some(p)
  {
  }

  /** The status values as they sit in a record. */
  function GenValue(g: GenerationStatus): Value { Str(g.Name()) }
  function ReviewValue(m: MediaReviewStatus): Value { Str(m.Name()) }
  function ApprovalValue(a: ApprovalStatus): Value { Str(a.Name()) }
  function PublishValue(p: PublishStatus): Value { Str(p.Name()) }

  /** The record's status field read back as a status, when it holds one. */
  function ApprovalOf(d: Doc): Option<ApprovalStatus>
  {
    if "approval_status" in d && d["approval_status"].Str? then ParseApproval(d["approval_status"].s) else None
  }

  function GenerationOf(d: Doc): Option<GenerationStatus>
  {
    if "generation_status" in d && d["generation_status"].Str? then ParseGeneration(d["generation_status"].s) else None
  }

  function MediaReviewOf(d: Doc): Option<MediaReviewStatus>
  {
    if "media_review_status" in d && d["media_review_status"].Str? then ParseMediaReview(d["media_review_status"].s) else None
  }

  function PublishOf(d: Doc): Option<PublishStatus>
  {
    if "publish_status" in d && d["publish_status"].Str? then ParsePublish(d["publish_status"].s) else None
  }
}
