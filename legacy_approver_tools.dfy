/**
 * The earlier approver tools (python/insta_agent/agents/approver/tools.py).
 * Decisions are handed straight to the earlier review queue, with no check
 * of the stored approval state; the pending list is that queue's peek with
 * no account filter; the history filters and sorts a list of records.
 *
 * The history's records come from `query_content`, which the earlier store
 * does not define. As written the module imports that name at top level, so
 * importing it raises ImportError and none of its tools can run
 * (ImportAsWritten, ImportFails). The other members model the tools with
 * that import dropped: the history's list is the model's input.
 */
module LegacyApproverTools {
  import opened Wrappers
  import opened Docs
  import opened Ordering
  import opened Statuses
  import opened AzureBusService
  import RQ = ReviewQueueService
  import LRQ = LegacyReviewQueueService
  import ApproverTools
  import LegacyMediaMetadataService
  import PythonImports

  /** The names the module imports from the earlier store, in order. */
  const StoreImports: seq<string> := ["query_content"]

  /** Importing the module as written: the ImportError its store import raises, if any. */
  function ImportAsWritten(): Option<string>
  {
    PythonImports.ImportFrom("shared.services.media_metadata_service", LegacyMediaMetadataService.TopLevelNames, StoreImports)
  }

  /** The earlier store defines no `query_content`, so the module never loads. */
  lemma ImportFails()
    ensures ImportAsWritten() == Some(PythonImports.CannotImport("query_content", "shared.services.media_metadata_service"))
  {
    assert StoreImports[0] !in LegacyMediaMetadataService.TopLevelNames;
  }

  /** The module-level service is built with no account name. */
  const ServiceAccount: string := ""

  /** `view_all_pending`: every item the pending peek shows, oldest first. */
  method ViewAllPending(pending: Queue) returns (items: seq<Doc>)
    ensures items == RQ.Peeked(pending.entries, ServiceAccount)
  {
    items := RQ.PeekQueue(pending, ServiceAccount);
  }

  /** With no account name nothing is filtered out: the list is the sorted bodies of the first 50 messages. */
  lemma {:induction false} UnfilteredVisible(batch: seq<Queued>)
    ensures |RQ.Visible(batch, ServiceAccount)| == |batch|
    ensures forall i :: 0 <= i < |batch| ==> RQ.Visible(batch, ServiceAccount)[i] == batch[i].msg.body
  {
    if batch != [] {
      UnfilteredVisible(batch[..|batch| - 1]);
    }
  }

  /** `approve_item`, `reject_item`, `request_edits`: the queue transition with the matching status. */
  method Decide(pending: Queue, approved: Queue, id: string, d: RQ.Decision, notes: string, now: string, delivered: bool)
    returns (r: Result<Doc>, abandoned: seq<nat>)
    requires pending.Valid() && approved.Valid() && pending != approved
    modifies pending, approved
    ensures pending.Valid() && approved.Valid()
    ensures LRQ.Step(r, abandoned, LRQ.QueueWorld(pending.entries, approved.entries, approved.nextSeq))
         == LRQ.Transition(LRQ.QueueWorld(old(pending.entries), old(approved.entries), old(approved.nextSeq)),
                           id, RQ.StatusOf(d), notes, now, delivered)
  {
    r, abandoned := LRQ.TransitionItem(pending, approved, id, RQ.StatusOf(d), notes, now, delivered);
  }

  /**
   * The three tools set APPROVED, REJECTED and EDIT_REQUESTED, and only
   * approving can add to review-approved.
   */
  lemma DecisionStatuses(w: LRQ.QueueWorld, id: string, d: RQ.Decision, notes: string, now: string, delivered: bool)
    ensures RQ.StatusOf(d) == match d
      case Approve => ApprovalApproved
      case Reject => ApprovalRejected
      case RequestEdits => ApprovalEditRequested
    ensures !d.Approve? ==> LRQ.Transition(w, id, RQ.StatusOf(d), notes, now, delivered).world.approved == w.approved
    ensures var s := LRQ.Transition(w, id, RQ.StatusOf(d), notes, now, delivered);
      s.result.Ok? ==> s.result.value["status"] == Str(RQ.StatusOf(d).Name())
  {
    LRQ.ForwardOnlyApproved(w, id, RQ.StatusOf(d), notes, now, delivered);
  }

  /** The three decided statuses the history keeps. */
  predicate Decided(item: Doc)
  {
    Lookup(item, "approval_status") in {Str("approved"), Str("rejected"), Str("edit_requested")}
  }

  /** The filtered list, in the order of `items`. */
  function Reviewed(items: seq<Doc>): seq<Doc>
  {
    if items == [] then []
    else Reviewed(items[..|items| - 1]) + (if Decided(items[|items| - 1]) then [items[|items| - 1]] else [])
  }

  /** `view_approval_history`: filter, sort by review time newest first, count. */
  method ViewApprovalHistory(items: seq<Doc>) returns (count: nat, rows: seq<Doc>)
    ensures rows == SortBy(Reviewed(items), ApproverTools.ReviewedKey, true)
    ensures count == |rows|
  {
    var reviewed: seq<Doc> := [];
    for i := 0 to |items|
      invariant reviewed == Reviewed(items[..i])
    {
      assert items[..i + 1][..i] == items[..i];
      if Decided(items[i]) {
        reviewed := reviewed + [items[i]];
      }
    }
    assert items[..|items|] == items;
    rows := SortBy(reviewed, ApproverTools.ReviewedKey, true);
    count := |rows|;
  }

  /** The filter keeps exactly the decided items, each as often as it occurs. */
  lemma {:induction false} ReviewedExactly(items: seq<Doc>)
    ensures forall d :: multiset(Reviewed(items))[d] == if Decided(d) then multiset(items)[d] else 0
  {
    if items != [] {
      var init := items[..|items| - 1];
      ReviewedExactly(init);
      assert items == init + [items[|items| - 1]];
    }
  }

  /**
   * The history holds exactly the decided records, newest review (else
   * creation) first, and its count is its length.
   */
  lemma HistorySpec(items: seq<Doc>)
    ensures var rows := SortBy(Reviewed(items), ApproverTools.ReviewedKey, true);
      && (forall d :: d in rows <==> d in items && Decided(d))
      && SortedBy(rows, ApproverTools.ReviewedKey, true)
      && multiset(rows) == multiset(Reviewed(items))
  {
    var r := Reviewed(items);
    ReviewedExactly(items);
    SortByPermutes(r, ApproverTools.ReviewedKey, true);
    SortBySorted(r, ApproverTools.ReviewedKey, true);
    forall d
      ensures d in SortBy(r, ApproverTools.ReviewedKey, true) <==> d in items && Decided(d)
    {
      assert d in SortBy(r, ApproverTools.ReviewedKey, true) <==> d in multiset(SortBy(r, ApproverTools.ReviewedKey, true));
      assert d in items <==> d in multiset(items);
    }
  }
}
