/**
 * The communicator agent's tools (agents/communicator/tools.py): a reminder
 * for one review item, and a reminder sweep over the pending items of one
 * target account.
 *
 * The store and notification modules these tools import
 * (shared/services/media_metadata_service.py and
 * shared/services/notification_service.py) are not part of this model: a
 * record read or update is modelled by the store of
 * services/cosmos_db_service.py (CosmosDbService), and the notification
 * service by `notify(payload)`, which says whether it accepts the payload
 * (a refusal raises). The review queue service is constructed with no
 * account, so its peeks show every item.
 */
module CommunicatorTools {
  import opened Wrappers
  import opened Docs
  import opened Store
  import opened AzureBusService
  import CosmosDbService
  import RQ = ReviewQueueService

  // ---------------------------------------------------------------------
  // send_review_reminder
  // ---------------------------------------------------------------------

  /** What `get_review_status` returns, as a dict: a failed lookup is `{"error": ...}`. */
  function StatusDoc(r: Result<Doc>): (d: Doc)
    ensures r.Err? ==> "error" in d
    ensures r.Ok? ==> d == r.value
  {
    match r
    case Ok(d) => d
    case Err(e) => map["error" := Str(e)]
  }

  /** The notification payload built from the item's status and the note. */
  function ReminderPayload(status: Doc, id: string, note: string): Doc
  {
    var topic := Get(status, "topic", Str("Pending review item"));
    map[
      "id" := Get(status, "id", Str(id)),
      "content_type" := Get(status, "content_type", Str("unknown")),
      "topic" := if note != "" then Str(Show(topic) + " \U{2014} Reminder: " + note) else topic,
      "caption" := Get(status, "caption", Str("")),
      "media_url" := Get(status, "media_url", Str(""))]
  }

  /** The fields a reminder writes on the record. */
  function ReminderUpdates(now: string, note: string): (u: Doc)
    ensures "id" !in u
  {
    map["last_reminder_at" := Str(now), "last_reminder_note" := Str(note)]
  }

  /** What `send_review_reminder` returns. */
  datatype Reminder =
    | StatusFailed(status: Doc)
    | Reminded(itemId: string, note: string)
    | ReminderRaised

  /** The answer, the store after, and the payloads handed to the notification service. */
  datatype ReminderRun = ReminderRun(result: Reminder, items: map<string, Doc>, sent: seq<Doc>)

  function SendReminder(pending: seq<Queued>, approved: seq<Queued>, items: map<string, Doc>, id: string, note: string,
                        notify: Doc -> bool, now: string): ReminderRun
  {
    Remind(StatusDoc(RQ.ReviewStatus("", pending, approved, items, id)), items, id, note, notify, now)
  }

  /** The reminder once the status dict is known. */
  function Remind(status: Doc, items: map<string, Doc>, id: string, note: string, notify: Doc -> bool, now: string)
    : ReminderRun
  {
    if "error" in status then ReminderRun(StatusFailed(status), items, [])
    else
      var payload := ReminderPayload(status, id, note);
      if !notify(payload) then ReminderRun(ReminderRaised, items, [])
      else ReminderRun(Reminded(id, note), Updated(items, id, ReminderUpdates(now, note)), [payload])
  }

  /** `send_review_reminder`. */
  method SendReviewReminder(c: Container, pending: Queue, approved: Queue, id: string, note: string, notify: Doc -> bool,
                            now: string)
    returns (r: Reminder, sent: seq<Doc>)
    requires c.Valid()
    modifies c`items
    ensures c.Valid()
    ensures ReminderRun(r, c.items, sent) == SendReminder(pending.entries, approved.entries, old(c.items), id, note, notify, now)
  {
    var found := RQ.GetReviewStatus(c, pending, approved, "", id);
    var status := StatusDoc(found);
    if "error" in status {
      return StatusFailed(status), [];
    }
    var payload := ReminderPayload(status, id, note);
    if !notify(payload) {
      return ReminderRaised, [];
    }
    var _ := CosmosDbService.UpdateContent(c, id, ReminderUpdates(now, note));
    r, sent := Reminded(id, note), [payload];
  }

  /**
   * A failed status lookup is handed back as it is, with nothing sent and
   * nothing written; otherwise the payload carries the item's fields with
   * their defaults, its topic gains the reminder note when there is one,
   * and once the notification went out the record (when stored) gets the
   * reminder time and note and nothing else.
   */
  lemma ReminderRule(pending: seq<Queued>, approved: seq<Queued>, items: map<string, Doc>, id: string, note: string,
                     notify: Doc -> bool, now: string)
    ensures var st := RQ.ReviewStatus("", pending, approved, items, id);
      var r := SendReminder(pending, approved, items, id, note, notify, now);
      && (st.Err? ==> r == ReminderRun(StatusFailed(map["error" := Str(st.error)]), items, []))
      && (r.sent != [] <==> st.Ok? && "error" !in st.value && notify(ReminderPayload(st.value, id, note)))
      && (r.sent == [] ==> r.items == items)
      && (r.sent != [] ==>
            && r.result == Reminded(id, note)
            && r.sent[0].Keys == {"id", "content_type", "topic", "caption", "media_url"}
            && (note == "" ==> r.sent[0]["topic"] == Get(st.value, "topic", Str("Pending review item")))
            && (note != "" ==> exists t :: r.sent[0]["topic"] == Str(t + " \U{2014} Reminder: " + note))
            && (id in items ==> r.items == items[id := Merge(items[id], ReminderUpdates(now, note))])
            && (id !in items ==> r.items == items))
  {
    RemindRule(RQ.ReviewStatus("", pending, approved, items, id), items, id, note, notify, now);
  }

  /** A reminder writes at most the reminded record: every key stays, and every other record is as it was. */
  lemma RemindKeeps(status: Doc, items: map<string, Doc>, id: string, note: string, notify: Doc -> bool, now: string)
    ensures var r := Remind(status, items, id, note, notify, now);
      && r.items.Keys == items.Keys
      && (forall k :: k in items && k != id ==> r.items[k] == items[k])
  {
  }

  /** `ReminderRule` for any outcome of the status lookup. */
  lemma RemindRule(st: Result<Doc>, items: map<string, Doc>, id: string, note: string, notify: Doc -> bool, now: string)
    ensures var r := Remind(StatusDoc(st), items, id, note, notify, now);
      && (st.Err? ==> r == ReminderRun(StatusFailed(map["error" := Str(st.error)]), items, []))
      && (r.sent != [] <==> st.Ok? && "error" !in st.value && notify(ReminderPayload(st.value, id, note)))
      && (r.sent == [] ==> r.items == items)
      && (r.sent != [] ==>
            && r.result == Reminded(id, note)
            && r.sent[0].Keys == {"id", "content_type", "topic", "caption", "media_url"}
            && (note == "" ==> r.sent[0]["topic"] == Get(st.value, "topic", Str("Pending review item")))
            && (note != "" ==> exists t :: r.sent[0]["topic"] == Str(t + " \U{2014} Reminder: " + note))
            && (id in items ==> r.items == items[id := Merge(items[id], ReminderUpdates(now, note))])
            && (id !in items ==> r.items == items))
  {
    var r := Remind(StatusDoc(st), items, id, note, notify, now);
    if r.sent != [] && note != "" {
      var t := Show(Get(st.value, "topic", Str("Pending review item")));
      assert r.sent[0]["topic"] == Str(t + " \U{2014} Reminder: " + note);
    }
  }

  // ---------------------------------------------------------------------
  // notify_pending_for_account
  // ---------------------------------------------------------------------

  /** The fields the sweep writes on each notified record. */
  function SweepUpdates(now: string): (u: Doc)
    ensures "id" !in u
  {
    map["last_reminder_at" := Str(now), "notification_source" := Str("communicator_agent")]
  }

  /** The sweep so far: store, counters, the items notified, and whether it stopped at the limit or raised. */
  datatype Sweep = Sweep(items: map<string, Doc>, sent: nat, skipped: nat, notified: seq<Doc>, stopped: bool, raised: bool)

  /** The item is for the target account, or no target is set. */
  predicate ForTarget(target: string, item: Doc)
  {
    target == "" || Lookup(item, "target_account_id") == Str(target)
  }

  /** One pending item of a sweep that has neither stopped nor raised. */
  function SweepStep(w: Sweep, item: Doc, target: string, limit: int, notify: Doc -> bool, now: string): Sweep
  {
    if !ForTarget(target, item) then w
    else
      var v := RQ.QueueItemId(item);
      if !Truthy(v) || !v.Str? || v.s !in w.items then Sweep(w.items, w.sent, w.skipped + 1, w.notified, false, false)
      else if !notify(item) then Sweep(w.items, w.sent, w.skipped, w.notified, false, true)
      else Sweep(Updated(w.items, v.s, SweepUpdates(now)), w.sent + 1, w.skipped, w.notified + [item], w.sent + 1 >= limit, false)
  }

  /** The pending items taken in order, until the limit is reached or a notification raises. */
  function SweepRun(items: map<string, Doc>, rows: seq<Doc>, target: string, limit: int, notify: Doc -> bool, now: string): Sweep
  {
    if rows == [] then Sweep(items, 0, 0, [], false, false)
    else
      var prev := SweepRun(items, rows[..|rows| - 1], target, limit, notify, now);
      if prev.stopped || prev.raised then prev else SweepStep(prev, rows[|rows| - 1], target, limit, notify, now)
  }

  /** A sweep that stopped or raised keeps what it did before and does nothing more. */
  lemma {:induction false} SweepEnds(items: map<string, Doc>, rows: seq<Doc>, i: nat, target: string, limit: int,
                                     notify: Doc -> bool, now: string)
    requires i <= |rows|
    requires SweepRun(items, rows[..i], target, limit, notify, now).stopped || SweepRun(items, rows[..i], target, limit, notify, now).raised
    ensures SweepRun(items, rows, target, limit, notify, now) == SweepRun(items, rows[..i], target, limit, notify, now)
    decreases |rows| - i
  {
    if i < |rows| {
      assert rows[..i + 1][..i] == rows[..i];
      SweepEnds(items, rows, i + 1, target, limit, notify, now);
    } else {
      assert rows[..i] == rows;
    }
  }

  /** One more item of a sweep that has neither stopped nor raised is one more step. */
  lemma SweepSnoc(items: map<string, Doc>, rows: seq<Doc>, i: nat, target: string, limit: int,
                  notify: Doc -> bool, now: string)
    requires i < |rows|
    requires var prev := SweepRun(items, rows[..i], target, limit, notify, now); !prev.stopped && !prev.raised
    ensures SweepRun(items, rows[..i + 1], target, limit, notify, now)
         == SweepStep(SweepRun(items, rows[..i], target, limit, notify, now), rows[i], target, limit, notify, now)
  {
    assert rows[..i + 1][..i] == rows[..i];
  }

  /** The body of the sweep's loop for one item. */
  method SweepItem(c: Container, w: Sweep, item: Doc, target: string, limit: int, notify: Doc -> bool, now: string)
    returns (w': Sweep)
    requires c.Valid() && w.items == c.items && !w.stopped && !w.raised
    modifies c`items
    ensures c.Valid()
    ensures w' == SweepStep(w, item, target, limit, notify, now) && w'.items == c.items
  {
    w' := w;
    if target != "" && Lookup(item, "target_account_id") != Str(target) {
      return;
    }
    var v := RQ.QueueItemId(item);
    if !Truthy(v) || !v.Str? {
      w' := w.(skipped := w.skipped + 1);
      return;
    }
    var record := CosmosDbService.GetContentById(c, v.s);
    if record.None? {
      w' := w.(skipped := w.skipped + 1);
      return;
    }
    if !notify(item) {
      w' := w.(raised := true);
      return;
    }
    var _ := CosmosDbService.UpdateContent(c, v.s, SweepUpdates(now));
    var sent := w.sent + 1;
    w' := Sweep(c.items, sent, w.skipped, w.notified + [item], sent >= limit, false);
  }

  /** `notify_pending_for_account`; `raised` is set when a notification raised and the sweep ended there. */
  method NotifyPendingForAccount(c: Container, pending: Queue, target: string, limit: int, notify: Doc -> bool, now: string)
    returns (w: Sweep)
    requires c.Valid()
    modifies c`items
    ensures c.Valid()
    ensures w == SweepRun(old(c.items), RQ.Peeked(pending.entries, ""), target, limit, notify, now)
  {
    var rows := RQ.PeekQueue(pending, "");
    ghost var items0 := c.items;
    w := Sweep(c.items, 0, 0, [], false, false);
    var i := 0;
    while i < |rows|
      invariant 0 <= i <= |rows| && c.Valid()
      invariant w == SweepRun(items0, rows[..i], target, limit, notify, now) && w.items == c.items
      invariant !w.stopped && !w.raised
    {
      SweepSnoc(items0, rows, i, target, limit, notify, now);
      w := SweepItem(c, w, rows[i], target, limit, notify, now);
      i := i + 1;
      if w.stopped || w.raised {
        SweepEnds(items0, rows, i, target, limit, notify, now);
        return;
      }
    }
    assert rows[..|rows|] == rows;
  }

  /**
   * The sweep's counts: `sent` is the number of items notified, each one for
   * the target account (any account when no target is set) and naming a
   * stored record; items of other accounts count neither as sent nor as
   * skipped; no more than `limit` are sent (at least one is allowed before
   * the limit is checked), and a sweep that did not stop stayed below the
   * limit.
   */
  lemma {:induction false} SweepSpec(items: map<string, Doc>, rows: seq<Doc>, target: string, limit: int, notify: Doc -> bool,
                                     now: string)
    ensures var w := SweepRun(items, rows, target, limit, notify, now);
      && w.sent == |w.notified| && w.sent + w.skipped <= |rows|
      && w.sent <= (if limit >= 1 then limit else 1)
      && (!w.stopped ==> w.sent == 0 || w.sent < limit)
      && (w.stopped ==> w.sent >= limit && !w.raised)
      && items.Keys == w.items.Keys
      && (forall k :: 0 <= k < |w.notified| ==>
            && w.notified[k] in rows && ForTarget(target, w.notified[k])
            && RQ.QueueItemId(w.notified[k]).Str? && RQ.QueueItemId(w.notified[k]).s in items)
  {
    if rows != [] {
      var init := rows[..|rows| - 1];
      SweepSpec(items, init, target, limit, notify, now);
      var prev := SweepRun(items, init, target, limit, notify, now);
      var w := SweepRun(items, rows, target, limit, notify, now);
      forall k | 0 <= k < |w.notified|
        ensures w.notified[k] in rows && ForTarget(target, w.notified[k])
          && RQ.QueueItemId(w.notified[k]).Str? && RQ.QueueItemId(w.notified[k]).s in items
      {
        if k < |prev.notified| {
          assert w.notified[k] == prev.notified[k];
          assert prev.notified[k] in init;
        } else {
          assert w.notified[k] == rows[|rows| - 1];
        }
      }
    }
  }
}
