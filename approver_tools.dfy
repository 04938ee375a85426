/**
 * The human approval gate (agents/approver/tools.py), over the store of
 * services/media_metadata_service.py. A decision is taken only on a record
 * whose `approval_status` is "pending"; approving also forwards the id to
 * the review-approved queue for the publisher. The forward is best effort:
 * when the broker refuses it the record stays approved.
 */
module ApproverTools {
  import opened Wrappers
  import opened Text
  import opened Docs
  import opened Ordering
  import opened Statuses
  import opened Store
  import CosmosDbService
  import MediaMetadataService
  import opened AzureBusService

  /** The three tools that decide on a pending item. */
  datatype Decision = Approve | Reject | RequestEdits

  /** The approval status each decision records. */
  function StatusOf(d: Decision): (s: ApprovalStatus)
    ensures s.IsDecision()
  {
    match d
    case Approve => ApprovalApproved
    case Reject => ApprovalRejected
    case RequestEdits => ApprovalEditRequested
  }

  /** What a decision tool returns. */
  datatype Outcome =
    | NotFound
    | NotPending(current: Value)
    | Decided(status: ApprovalStatus, notes: string, reviewedAt: Value)

  /** The store's records and the review-approved queue. */
  datatype State = State(items: map<string, Doc>, approved: seq<Queued>, nextSeq: nat)

  /** The message `approve_item` forwards: `{"content_id": id}`, id+"-approved". */
  function ForwardMessage(id: string, item: Doc): Message
  {
    ReviewApprovedMessage(id,
      Show(Or(Lookup(item, "account"), Get(item, "target_account_name", Str("")))),
      Show(Get(item, "media_type", Str("image"))),
      Show(Or(Lookup(item, "description"), Str("Instagram Post"))),
      id + "-approved")
  }

  /** One decision tool, as a step on the store and the queue. */
  function Review(s: State, id: string, d: Decision, notes: string, now: string, delivered: bool): (Outcome, State)
  {
    if id !in s.items then (NotFound, s)
    else
      var item := s.items[id];
      if Lookup(item, "approval_status") != Str("pending") then (NotPending(Lookup(item, "approval_status")), s)
      else
        var updated := Merge(item, MediaMetadataService.ApprovalUpdates(StatusOf(d).Name(), notes, now));
        var out := Decided(StatusOf(d), notes, Lookup(updated, "reviewed_at"));
        if d == Approve && delivered then
          (out, State(s.items[id := updated], s.approved + [Queued(s.nextSeq, ForwardMessage(id, item))], s.nextSeq + 1))
        else (out, State(s.items[id := updated], s.approved, s.nextSeq))
  }

  /**
   * `approve_item`, `reject_item` and `request_edits`: read the record,
   * refuse unless it is pending, record the decision and, for an approval,
   * forward the id.
   */
  method Decide(c: Container, q: Queue, id: string, d: Decision, notes: string, now: string, delivered: bool)
    returns (r: Outcome)
    requires c.Valid() && q.Valid()
    modifies c`items, q
    ensures c.Valid() && q.Valid()
    ensures (r, State(c.items, q.entries, q.nextSeq))
         == Review(State(old(c.items), old(q.entries), old(q.nextSeq)), id, d, notes, now, delivered)
  {
    var item := CosmosDbService.GetContentById(c, id);
    if item.None? {
      return NotFound;
    }
    var doc := item.value;
    if Lookup(doc, "approval_status") != Str("pending") {
      return NotPending(Lookup(doc, "approval_status"));
    }
    r := Record(c, q, id, doc, d, notes, now, delivered);
  }

  /** The write and the forward that follow a successful pending check. */
  method Record(c: Container, q: Queue, id: string, doc: Doc, d: Decision, notes: string, now: string, delivered: bool)
    returns (r: Outcome)
    requires c.Valid() && q.Valid()
    requires id in c.items && c.items[id] == doc && Lookup(doc, "approval_status") == Str("pending")
    modifies c`items, q
    ensures c.Valid() && q.Valid()
    ensures (r, State(c.items, q.entries, q.nextSeq))
         == Review(State(old(c.items), old(q.entries), old(q.nextSeq)), id, d, notes, now, delivered)
  {
    var updated := MediaMetadataService.SetApprovalStatus(c, id, StatusOf(d).Name(), notes, now);
    if d == Approve {
      q.Send(ForwardMessage(id, doc), delivered);
    }
    r := Decided(StatusOf(d), notes, Lookup(updated.value, "reviewed_at"));
  }

  /** A decision on an unknown id, or on a record that is not pending, changes nothing and sends nothing. */
  lemma RefusalsChangeNothing(s: State, id: string, d: Decision, notes: string, now: string, delivered: bool)
    requires id !in s.items || Lookup(s.items[id], "approval_status") != Str("pending")
    ensures Review(s, id, d, notes, now, delivered).1 == s
    ensures id !in s.items ==> Review(s, id, d, notes, now, delivered).0 == NotFound
    ensures id in s.items ==> Review(s, id, d, notes, now, delivered).0 == NotPending(Lookup(s.items[id], "approval_status"))
  {
  }

  /**
   * A decision on a pending record records its status, notes and review
   * time on that record and leaves every other record and field alone.
   */
  lemma DecisionRecorded(s: State, id: string, d: Decision, notes: string, now: string, delivered: bool)
    requires id in s.items && Lookup(s.items[id], "approval_status") == Str("pending")
    ensures var (out, t) := Review(s, id, d, notes, now, delivered);
      && out == Decided(StatusOf(d), notes, Str(now))
      && t.items.Keys == s.items.Keys
      && t.items[id]["approval_status"] == Str(StatusOf(d).Name())
      && t.items[id]["reviewer_notes"] == Str(notes)
      && (forall k :: k in s.items && k != id ==> t.items[k] == s.items[k])
      && CosmosDbService.SameOutside(s.items[id], t.items[id], {"approval_status", "approved_by", "reviewed_at", "reviewer_notes"})
  {
    var u := MediaMetadataService.ApprovalUpdates(StatusOf(d).Name(), notes, now);
    assert u.Keys == {"approval_status", "approved_by", "reviewed_at", "reviewer_notes"};
  }

  /**
   * Only an approval forwards, exactly one message carrying the id with
   * message id id+"-approved"; a refused forward still leaves the record
   * approved and the result "approved".
   */
  lemma ForwardOnlyOnApprove(s: State, id: string, d: Decision, notes: string, now: string, delivered: bool)
    requires id in s.items && Lookup(s.items[id], "approval_status") == Str("pending")
    ensures var (out, t) := Review(s, id, d, notes, now, delivered);
      && (d != Approve || !delivered ==> t.approved == s.approved)
      && (d == Approve && delivered ==>
            |t.approved| == |s.approved| + 1 && t.approved[..|s.approved|] == s.approved
            && t.approved[|s.approved|].msg.body == ContentIdBody(id)
            && t.approved[|s.approved|].msg.messageId == id + "-approved")
      && (d == Approve ==> out.status == ApprovalApproved && t.items[id]["approval_status"] == Str("approved"))
  {
    MessageIds(id, "", "", "", id + "-approved");
    var u := MediaMetadataService.ApprovalUpdates(StatusOf(d).Name(), notes, now);
    assert u["approval_status"] == Str(StatusOf(d).Name());
    var (out, t) := Review(s, id, d, notes, now, delivered);
    if d == Approve && delivered {
      assert t.approved[..|s.approved|] == s.approved;
    }
  }

  /** A record is decided once: any second decision is refused and changes nothing. */
  lemma DecidedOnce(s: State, id: string, d1: Decision, d2: Decision, notes1: string, notes2: string,
                    now1: string, now2: string, del1: bool, del2: bool)
    requires id in s.items && Lookup(s.items[id], "approval_status") == Str("pending")
    ensures var t := Review(s, id, d1, notes1, now1, del1).1;
      Review(t, id, d2, notes2, now2, del2) == (NotPending(Str(StatusOf(d1).Name())), t)
  {
    DecisionRecorded(s, id, d1, notes1, now1, del1);
    var n := StatusOf(d1).Name();
    assert n != "pending";
  }

  // ---------------------------------------------------------------------
  // Listings
  // ---------------------------------------------------------------------

  /** `query_content(approval_status=status, limit=limit)` of the store. */
  function StatusRows(c: Container, status: string, limit: int): seq<Doc>
    reads c
    requires c.Valid()
  {
    CosmosDbService.QueryRows(c, MediaMetadataService.Filter(status, "", ""), limit)
  }

  /** The entry `view_all_pending` shows for one record. */
  function PendingEntry(item: Doc): Doc
  {
    map[
      "id" := Lookup(item, "id"),
      "media_type" := Lookup(item, "media_type"),
      "post_type" := Lookup(item, "post_type"),
      "topic" := Get(item, "description", Str("")),
      "caption" := Str(CaptionPreview(item)),
      "account" := Or(Lookup(item, "account"), Get(item, "target_account_name", Str(""))),
      "target_account_id" := Get(item, "target_account_id", Str("")),
      "generation_status" := Get(item, "generation_status", Str("")),
      "blob_url" := Get(item, "blob_url", Str("")),
      "created_at" := Lookup(item, "created_at")]
  }

  /** `(item.get("caption") or "")[:120]`. */
  function CaptionPreview(item: Doc): (r: string)
    ensures |r| <= 120
    ensures var full := Show(Or(Lookup(item, "caption"), Str("")));
      |r| <= |full| && r == full[..|r|] && (|full| <= 120 ==> r == full)
  {
    Head(Show(Or(Lookup(item, "caption"), Str(""))), 120)
  }

  /** `view_all_pending`: up to 100 pending records, newest first, one summary entry each. */
  method ViewAllPending(c: Container) returns (entries: seq<Doc>)
    requires c.Valid()
    ensures var rows := StatusRows(c, "pending", 100);
      |entries| == |rows| && forall i :: 0 <= i < |rows| ==> entries[i] == PendingEntry(rows[i])
  {
    var rows := MediaMetadataService.QueryContent(c, "pending", "", "", 100);
    entries := [];
    for i := 0 to |rows|
      invariant |entries| == i
      invariant forall j {:trigger entries[j]} :: 0 <= j < i ==> entries[j] == PendingEntry(rows[j])
    {
      entries := entries + [PendingEntry(rows[i])];
    }
  }

  /** Every listed record is pending, and there are at most 100 of them. */
  lemma PendingListSpec(c: Container)
    requires c.Valid()
    ensures var rows := StatusRows(c, "pending", 100);
      |rows| <= 100 && forall d :: d in rows ==> Lookup(d, "approval_status") == Str("pending")
  {
    var f := MediaMetadataService.Filter("pending", "", "");
    CosmosDbService.QueryContentSpec(c, f, 100, CosmosDbService.QueryRows(c, f, 100));
  }

  /** The history sort key: `reviewed_at`, else `created_at`, else "". */
  function ReviewedKey(item: Doc): string
  {
    Show(Or(Or(Lookup(item, "reviewed_at"), Lookup(item, "created_at")), Str("")))
  }

  const HistoryStatuses: seq<string> := ["approved", "rejected", "edit_requested"]

  /** The three queries of `view_approval_history`, one after the other. */
  function Gathered(c: Container, limit: int, n: nat): seq<Doc>
    reads c
    requires c.Valid() && n <= |HistoryStatuses|
  {
    if n == 0 then []
    else Gathered(c, limit, n - 1) + StatusRows(c, HistoryStatuses[n - 1], limit)
  }

  /** Sorted by review time, newest first, and cut to `limit`. */
  function Latest(rows: seq<Doc>, limit: int): seq<Doc>
  {
    Take(SortBy(rows, ReviewedKey, true), limit)
  }

  function HistoryRows(c: Container, limit: int): seq<Doc>
    reads c
    requires c.Valid()
  {
    Latest(Gathered(c, limit, 3), limit)
  }

  /** The entry `view_approval_history` shows for one record. */
  function HistoryEntry(item: Doc): Doc
  {
    map[
      "id" := Lookup(item, "id"),
      "approval_status" := Lookup(item, "approval_status"),
      "reviewed_at" := Lookup(item, "reviewed_at"),
      "reviewer_notes" := Get(item, "reviewer_notes", Str("")),
      "topic" := Get(item, "description", Str("")),
      "account" := Or(Lookup(item, "account"), Get(item, "target_account_name", Str("")))]
  }

  /**
   * `view_approval_history`: extend with each status's query, sort by review
   * time descending, keep `limit`, and show one summary entry per record;
   * the count is the number of entries.
   */
  method ViewApprovalHistory(c: Container, limit: int) returns (entries: seq<Doc>)
    requires c.Valid()
    ensures var rows := HistoryRows(c, limit);
      |entries| == |rows| && forall i :: 0 <= i < |rows| ==> entries[i] == HistoryEntry(rows[i])
  {
    var results: seq<Doc> := [];
    for n := 0 to 3
      invariant results == Gathered(c, limit, n)
    {
      var items := MediaMetadataService.QueryContent(c, HistoryStatuses[n], "", "", limit);
      assert items == StatusRows(c, HistoryStatuses[n], limit);
      results := results + items;
    }
    entries := Summaries(Latest(results, limit));
  }

  /** One summary entry per history record, in order. */
  method Summaries(rows: seq<Doc>) returns (entries: seq<Doc>)
    ensures |entries| == |rows| && forall i :: 0 <= i < |rows| ==> entries[i] == HistoryEntry(rows[i])
  {
    entries := [];
    for i := 0 to |rows|
      invariant |entries| == i
      invariant forall j {:trigger entries[j]} :: 0 <= j < i ==> entries[j] == HistoryEntry(rows[j])
    {
      entries := entries + [HistoryEntry(rows[i])];
    }
  }

  /** Every gathered record carries one of the three decided statuses. */
  lemma {:induction false} GatheredDecided(c: Container, limit: int, n: nat)
    requires c.Valid() && n <= |HistoryStatuses|
    ensures forall d :: d in Gathered(c, limit, n) ==>
      Lookup(d, "approval_status") in {Str("approved"), Str("rejected"), Str("edit_requested")}
  {
    if n > 0 {
      GatheredDecided(c, limit, n - 1);
      var status := HistoryStatuses[n - 1];
      var f := MediaMetadataService.Filter(status, "", "");
      CosmosDbService.QueryContentSpec(c, f, limit, CosmosDbService.QueryRows(c, f, limit));
    }
  }

  /**
   * The history holds only approved, rejected and edit-requested records,
   * newest review (else creation) first, at most `limit` of them.
   */
  lemma HistorySpec(c: Container, limit: int)
    requires c.Valid()
    ensures var rows := HistoryRows(c, limit);
      && (forall d :: d in rows ==> Lookup(d, "approval_status") in {Str("approved"), Str("rejected"), Str("edit_requested")})
      && SortedBy(rows, ReviewedKey, true)
      && (limit >= 0 ==> |rows| <= limit)
  {
    var all := Gathered(c, limit, 3);
    GatheredDecided(c, limit, 3);
    SortByPermutes(all, ReviewedKey, true);
    SortBySorted(all, ReviewedKey, true);
    forall d | d in HistoryRows(c, limit)
      ensures d in all
    {
      assert d in multiset(SortBy(all, ReviewedKey, true));
    }
  }
}
