/**
 * The polling communicator trigger (services/communicator_trigger_service.py).
 * Every tick peeks the review-pending queue and, for each item whose record
 * exists and has not been notified yet, runs the communicator agent to send
 * a reminder and then flags the record as notified. A tick that raises is
 * logged and the next tick runs all the same.
 *
 * The review queue module this file imports (services/review_queue_service.py)
 * is not part of this model; its `get_pending_reviews` is modelled by the
 * shared queue service's peek of the pending queue with no account filter.
 * The agent is told to call `send_review_reminder` with a fixed note and
 * nothing else; the model runs that tool (CommunicatorTools.SendReviewReminder),
 * and a reminder whose notification raises, or an agent run that raises
 * (`agentFails(id)`), ends the tick. `readFails(id)` says that reading the
 * record raises.
 */
module CommunicatorTriggerService {
  import opened Wrappers
  import opened Docs
  import opened Store
  import opened AzureBusService
  import CosmosDbService
  import RQ = ReviewQueueService
  import CT = CommunicatorTools
  import CQ = CommunicatorQueueWorker

  /** The note the agent is told to pass. */
  const ReminderNote: string := "Automated queue trigger reminder"

  /** The `notification_source` the tick writes. */
  const Source: string := "communicator-agent-trigger"

  /** The store, the ids reminded, the payloads sent, and whether the tick raised. */
  datatype Tick = Tick(items: map<string, Doc>, reminded: seq<string>, sent: seq<Doc>, raised: bool)

  /** One pending item of a tick that has not raised yet. */
  function TickStep(t: Tick, pending: seq<Queued>, approved: seq<Queued>, item: Doc, notify: Doc -> bool,
                    readFails: string -> bool, agentFails: string -> bool, now: string): Tick
  {
    var v := RQ.QueueItemId(item);
    if !Truthy(v) || !v.Str? then t
    else if readFails(v.s) then t.(raised := true)
    else if v.s !in t.items || CQ.Flagged(t.items, v.s) then t
    else if agentFails(v.s) then t.(raised := true)
    else RemindStep(t, CT.StatusDoc(RQ.ReviewStatus("", pending, approved, t.items, v.s)), v.s, notify, now)
  }

  /** The agent's reminder for a stored, unflagged record whose review status reads `status`, then the flag. */
  function RemindStep(t: Tick, status: Doc, id: string, notify: Doc -> bool, now: string): Tick
  {
    var r := CT.Remind(status, t.items, id, ReminderNote, notify, now);
    if r.result.ReminderRaised? then t.(raised := true)
    else Tick(Updated(r.items, id, CQ.NotifiedUpdates(now, Source)), t.reminded + [id], t.sent + r.sent, false)
  }

  /** The items of a tick taken in order; once one raises, the rest are not looked at. */
  function TickRun(items: map<string, Doc>, pending: seq<Queued>, approved: seq<Queued>, rows: seq<Doc>, notify: Doc -> bool,
                   readFails: string -> bool, agentFails: string -> bool, now: string): Tick
  {
    if rows == [] then Tick(items, [], [], false)
    else
      var prev := TickRun(items, pending, approved, rows[..|rows| - 1], notify, readFails, agentFails, now);
      if prev.raised then prev else TickStep(prev, pending, approved, rows[|rows| - 1], notify, readFails, agentFails, now)
  }

  /** A tick that raised keeps what it did before and does nothing more. */
  lemma {:induction false} RaisedSticks(items: map<string, Doc>, pending: seq<Queued>, approved: seq<Queued>, rows: seq<Doc>,
                                         i: nat, notify: Doc -> bool, readFails: string -> bool, agentFails: string -> bool,
                                         now: string)
    requires i <= |rows|
    requires TickRun(items, pending, approved, rows[..i], notify, readFails, agentFails, now).raised
    ensures TickRun(items, pending, approved, rows, notify, readFails, agentFails, now)
         == TickRun(items, pending, approved, rows[..i], notify, readFails, agentFails, now)
    decreases |rows| - i
  {
    if i < |rows| {
      assert rows[..i + 1][..i] == rows[..i];
      RaisedSticks(items, pending, approved, rows, i + 1, notify, readFails, agentFails, now);
    } else {
      assert rows[..i] == rows;
    }
  }

  /** One more item of a tick that has not raised is one more step. */
  lemma TickSnoc(items: map<string, Doc>, pending: seq<Queued>, approved: seq<Queued>, rows: seq<Doc>, i: nat,
                 notify: Doc -> bool, readFails: string -> bool, agentFails: string -> bool, now: string)
    requires i < |rows|
    requires !TickRun(items, pending, approved, rows[..i], notify, readFails, agentFails, now).raised
    ensures TickRun(items, pending, approved, rows[..i + 1], notify, readFails, agentFails, now)
         == TickStep(TickRun(items, pending, approved, rows[..i], notify, readFails, agentFails, now), pending, approved,
                     rows[i], notify, readFails, agentFails, now)
  {
    assert rows[..i + 1][..i] == rows[..i];
  }

  /** The body of `_tick`'s loop for one item. */
  method TickItem(c: Container, pending: Queue, approved: Queue, t: Tick, item: Doc, notify: Doc -> bool,
                  readFails: string -> bool, agentFails: string -> bool, now: string)
    returns (t': Tick)
    requires c.Valid() && t.items == c.items && !t.raised
    modifies c`items
    ensures c.Valid() && t'.items == c.items
    ensures t' == TickStep(t, pending.entries, approved.entries, item, notify, readFails, agentFails, now)
  {
    t' := t;
    var v := RQ.QueueItemId(item);
    if !Truthy(v) || !v.Str? {
      return;
    }
    if readFails(v.s) {
      return t.(raised := true);
    }
    var record := CosmosDbService.GetContentById(c, v.s);
    if record.None? || Truthy(Lookup(record.value, "auto_notified_for_pending")) {
      return;
    }
    if agentFails(v.s) {
      return t.(raised := true);
    }
    t' := RemindItem(c, pending, approved, t, v.s, notify, now);
  }

  /** The agent's `send_review_reminder` call for one record, then the flag. */
  method RemindItem(c: Container, pending: Queue, approved: Queue, t: Tick, id: string, notify: Doc -> bool, now: string)
    returns (t': Tick)
    requires c.Valid() && t.items == c.items
    modifies c`items
    ensures c.Valid() && t'.items == c.items
    ensures t' == RemindStep(t, CT.StatusDoc(RQ.ReviewStatus("", pending.entries, approved.entries, old(c.items), id)), id, notify, now)
  {
    var r, sent := CT.SendReviewReminder(c, pending, approved, id, ReminderNote, notify, now);
    if r.ReminderRaised? {
      return t.(raised := true);
    }
    var _ := CosmosDbService.UpdateContent(c, id, CQ.NotifiedUpdates(now, Source));
    t' := Tick(c.items, t.reminded + [id], t.sent + sent, false);
  }

  /** `_tick`. */
  method RunTick(c: Container, pending: Queue, approved: Queue, notify: Doc -> bool, readFails: string -> bool,
                 agentFails: string -> bool, now: string)
    returns (t: Tick)
    requires c.Valid()
    modifies c`items
    ensures c.Valid() && t.items == c.items
    ensures t == TickRun(old(c.items), pending.entries, approved.entries, RQ.Peeked(pending.entries, ""), notify, readFails,
                         agentFails, now)
  {
    var rows := RQ.PeekQueue(pending, "");
    ghost var items0 := c.items;
    t := Tick(c.items, [], [], false);
    var i := 0;
    while i < |rows|
      invariant 0 <= i <= |rows| && c.Valid()
      invariant t == TickRun(items0, pending.entries, approved.entries, rows[..i], notify, readFails, agentFails, now)
      invariant t.items == c.items && !t.raised
    {
      TickSnoc(items0, pending.entries, approved.entries, rows, i, notify, readFails, agentFails, now);
      t := TickItem(c, pending, approved, t, rows[i], notify, readFails, agentFails, now);
      i := i + 1;
      if t.raised {
        RaisedSticks(items0, pending.entries, approved.entries, rows, i, notify, readFails, agentFails, now);
        return;
      }
    }
    assert rows[..|rows|] == rows;
  }

  /**
   * The agent runs for an item only when its id is set and its record
   * exists without the notified flag; afterwards the record carries the
   * flag, and no flag is ever cleared.
   */
  lemma StepFlags(t: Tick, pending: seq<Queued>, approved: seq<Queued>, item: Doc, notify: Doc -> bool,
                  readFails: string -> bool, agentFails: string -> bool, now: string)
    ensures var s := TickStep(t, pending, approved, item, notify, readFails, agentFails, now);
      var v := RQ.QueueItemId(item);
      && (forall id :: CQ.Flagged(t.items, id) ==> CQ.Flagged(s.items, id))
      && (|s.reminded| > |t.reminded| <==>
            (v.Str? && v.s != [] && !readFails(v.s) && v.s in t.items && !CQ.Flagged(t.items, v.s) && !agentFails(v.s)
             && !CT.SendReminder(pending, approved, t.items, v.s, ReminderNote, notify, now).result.ReminderRaised?))
      && (|s.reminded| > |t.reminded| ==>
            && s.reminded == t.reminded + [v.s] && CQ.Flagged(s.items, v.s)
            && s.items[v.s]["notification_source"] == Str(Source))
      && (|s.reminded| == |t.reminded| ==> s.items == t.items && s.reminded == t.reminded)
  {
    var v := RQ.QueueItemId(item);
    if v.Str? && v.s in t.items {
      RemindFlags(t, CT.StatusDoc(RQ.ReviewStatus("", pending, approved, t.items, v.s)), v.s, notify, now);
    }
  }

  /** The reminder step flags its record, keeps every earlier flag, and adds the id exactly when the notification went out. */
  lemma RemindFlags(t: Tick, status: Doc, id: string, notify: Doc -> bool, now: string)
    requires id in t.items
    ensures var s := RemindStep(t, status, id, notify, now);
      && (forall k :: CQ.Flagged(t.items, k) ==> CQ.Flagged(s.items, k))
      && (|s.reminded| > |t.reminded| <==>
            !CT.Remind(status, t.items, id, ReminderNote, notify, now).result.ReminderRaised?)
      && (|s.reminded| > |t.reminded| ==>
            && s.reminded == t.reminded + [id] && CQ.Flagged(s.items, id)
            && s.items[id]["notification_source"] == Str(Source))
      && (|s.reminded| == |t.reminded| ==> s.items == t.items && s.reminded == t.reminded)
  {
    var s := RemindStep(t, status, id, notify, now);
    var r := CT.Remind(status, t.items, id, ReminderNote, notify, now);
    if !r.result.ReminderRaised? {
      CT.RemindKeeps(status, t.items, id, ReminderNote, notify, now);
      forall k | CQ.Flagged(t.items, k)
        ensures CQ.Flagged(s.items, k)
      {
        if k != id {
          assert s.items[k] == r.items[k] == t.items[k];
        }
      }
    }
  }

  /** Every record whose id was reminded in a tick is flagged afterwards, and ids that were flagged before stay flagged. */
  predicate FlaggedAll(items: map<string, Doc>, ids: seq<string>)
  {
    forall k :: 0 <= k < |ids| ==> CQ.Flagged(items, ids[k])
  }

  /**
   * The agent runs at most once per record in a tick, however many pending
   * items name it: the reminded ids are distinct, none was flagged before
   * the tick, and all are flagged after it.
   */
  lemma {:induction false} TickRemindsOnce(items: map<string, Doc>, pending: seq<Queued>, approved: seq<Queued>, rows: seq<Doc>,
                                           notify: Doc -> bool, readFails: string -> bool, agentFails: string -> bool, now: string)
    ensures var t := TickRun(items, pending, approved, rows, notify, readFails, agentFails, now);
      && FlaggedAll(t.items, t.reminded)
      && (forall k :: 0 <= k < |t.reminded| ==> !CQ.Flagged(items, t.reminded[k]))
      && Distinct(t.reminded)
      && (forall id :: CQ.Flagged(items, id) ==> CQ.Flagged(t.items, id))
  {
    if rows != [] {
      var init := rows[..|rows| - 1];
      TickRemindsOnce(items, pending, approved, init, notify, readFails, agentFails, now);
      var prev := TickRun(items, pending, approved, init, notify, readFails, agentFails, now);
      if !prev.raised {
        var item := rows[|rows| - 1];
        var s := TickStep(prev, pending, approved, item, notify, readFails, agentFails, now);
        StepFlags(prev, pending, approved, item, notify, readFails, agentFails, now);
        if |s.reminded| > |prev.reminded| {
          RemindedOnceStep(items, prev, s, RQ.QueueItemId(item).s);
        }
      }
    }
  }

  /** Adding to a tick the id of a record that was unflagged and is now flagged keeps the ids once-only. */
  lemma RemindedOnceStep(items: map<string, Doc>, prev: Tick, s: Tick, id: string)
    requires FlaggedAll(prev.items, prev.reminded) && Distinct(prev.reminded)
    requires forall k :: 0 <= k < |prev.reminded| ==> !CQ.Flagged(items, prev.reminded[k])
    requires forall x :: CQ.Flagged(items, x) ==> CQ.Flagged(prev.items, x)
    requires forall x :: CQ.Flagged(prev.items, x) ==> CQ.Flagged(s.items, x)
    requires s.reminded == prev.reminded + [id] && CQ.Flagged(s.items, id) && !CQ.Flagged(prev.items, id)
    ensures FlaggedAll(s.items, s.reminded) && Distinct(s.reminded)
    ensures forall k :: 0 <= k < |s.reminded| ==> !CQ.Flagged(items, s.reminded[k])
  {
    forall k | 0 <= k < |s.reminded|
      ensures CQ.Flagged(s.items, s.reminded[k])
    {
      if k < |prev.reminded| {
        assert s.reminded[k] == prev.reminded[k];
        assert CQ.Flagged(prev.items, prev.reminded[k]);
      }
    }
    forall k | 0 <= k < |s.reminded|
      ensures !CQ.Flagged(items, s.reminded[k])
    {
      if k < |prev.reminded| {
        assert s.reminded[k] == prev.reminded[k];
      }
    }
    forall i, j | 0 <= i < j < |s.reminded|
      ensures s.reminded[i] != s.reminded[j]
    {
      if j == |prev.reminded| {
        assert s.reminded[i] == prev.reminded[i];
        assert CQ.Flagged(prev.items, prev.reminded[i]);
      }
    }
  }

  /** Ticks of `run_forever`: the store, the ids reminded in every tick, and which ticks raised. */
  datatype Rounds = Rounds(items: map<string, Doc>, reminded: seq<string>, sent: seq<Doc>, raised: seq<bool>)

  /** `_tick` from a given store, over the queues as they stand. */
  function TickOn(pending: seq<Queued>, approved: seq<Queued>, notify: Doc -> bool, readFails: string -> bool,
                  agentFails: string -> bool, now: string): map<string, Doc> -> Tick
  {
    items => TickRun(items, pending, approved, RQ.Peeked(pending, ""), notify, readFails, agentFails, now)
  }

  /**
   * `rounds` ticks of `run_forever`, each one `tick` from the store the
   * previous left; `peekFails(n)` says that tick `n` raises before looking
   * at any item. A tick that raised is followed by the next.
   */
  function RunRounds(items: map<string, Doc>, rounds: nat, peekFails: nat -> bool, tick: map<string, Doc> -> Tick): (r: Rounds)
    ensures |r.raised| == rounds
  {
    if rounds == 0 then Rounds(items, [], [], [])
    else
      var prev := RunRounds(items, rounds - 1, peekFails, tick);
      if peekFails(rounds - 1) then prev.(raised := prev.raised + [true])
      else
        var t := tick(prev.items);
        Rounds(t.items, prev.reminded + t.reminded, prev.sent + t.sent, prev.raised + [t.raised])
  }

  /** `run_forever`, for a given number of ticks; the sleep between ticks is not modelled. */
  method RunForever(c: Container, pending: Queue, approved: Queue, rounds: nat, peekFails: nat -> bool, notify: Doc -> bool,
                    readFails: string -> bool, agentFails: string -> bool, now: string)
    returns (r: Rounds)
    requires c.Valid()
    modifies c`items
    ensures c.Valid()
    ensures r == RunRounds(old(c.items), rounds, peekFails,
                           TickOn(pending.entries, approved.entries, notify, readFails, agentFails, now))
  {
    r := Rounds(c.items, [], [], []);
    ghost var tick := TickOn(pending.entries, approved.entries, notify, readFails, agentFails, now);
    for n := 0 to rounds
      invariant c.Valid() && r.items == c.items
      invariant r == RunRounds(old(c.items), n, peekFails, tick)
    {
      r := RunRound(c, pending, approved, notify, readFails, agentFails, now, n, peekFails, r, old(c.items));
    }
  }

  /** Tick `n` of `run_forever`, added to the ticks before it. */
  method RunRound(c: Container, pending: Queue, approved: Queue, notify: Doc -> bool, readFails: string -> bool,
                  agentFails: string -> bool, now: string, n: nat, peekFails: nat -> bool, r: Rounds,
                  ghost items0: map<string, Doc>)
    returns (r': Rounds)
    requires c.Valid() && r.items == c.items
    requires r == RunRounds(items0, n, peekFails, TickOn(pending.entries, approved.entries, notify, readFails, agentFails, now))
    modifies c`items
    ensures c.Valid() && r'.items == c.items
    ensures r' == RunRounds(items0, n + 1, peekFails, TickOn(pending.entries, approved.entries, notify, readFails, agentFails, now))
  {
    if peekFails(n) {
      return r.(raised := r.raised + [true]);
    }
    var t := RunTick(c, pending, approved, notify, readFails, agentFails, now);
    r' := Rounds(t.items, r.reminded + t.reminded, r.sent + t.sent, r.raised + [t.raised]);
  }

  /** Joining the ids of earlier ticks with those of a tick that reminded only unflagged records. */
  lemma AppendReminded(before: map<string, Doc>, after: map<string, Doc>, earlier: seq<string>, later: seq<string>)
    requires FlaggedAll(before, earlier) && Distinct(earlier)
    requires FlaggedAll(after, later) && Distinct(later)
    requires forall k :: 0 <= k < |later| ==> !CQ.Flagged(before, later[k])
    requires forall id :: CQ.Flagged(before, id) ==> CQ.Flagged(after, id)
    ensures FlaggedAll(after, earlier + later) && Distinct(earlier + later)
  {
    var all := earlier + later;
    forall k | 0 <= k < |all|
      ensures CQ.Flagged(after, all[k])
    {
      if k < |earlier| {
        assert CQ.Flagged(before, earlier[k]);
      } else {
        assert all[k] == later[k - |earlier|];
      }
    }
    forall i, j | 0 <= i < j < |all|
      ensures all[i] != all[j]
    {
      if i < |earlier| <= j {
        assert CQ.Flagged(before, earlier[i]);
        assert !CQ.Flagged(before, later[j - |earlier|]);
      } else if |earlier| <= i {
        assert all[i] == later[i - |earlier|] && all[j] == later[j - |earlier|];
      }
    }
  }

  /**
   * Over any number of ticks the agent runs at most once per record: the
   * flag a reminder sets is never cleared, so later ticks skip the record.
   */
  lemma {:induction false} RemindsOnceForever(items: map<string, Doc>, pending: seq<Queued>, approved: seq<Queued>, rounds: nat,
                                              peekFails: nat -> bool, notify: Doc -> bool, readFails: string -> bool,
                                              agentFails: string -> bool, now: string)
    ensures var r := RunRounds(items, rounds, peekFails, TickOn(pending, approved, notify, readFails, agentFails, now));
      FlaggedAll(r.items, r.reminded) && Distinct(r.reminded)
  {
    if rounds > 0 {
      RemindsOnceForever(items, pending, approved, rounds - 1, peekFails, notify, readFails, agentFails, now);
      var prev := RunRounds(items, rounds - 1, peekFails, TickOn(pending, approved, notify, readFails, agentFails, now));
      if !peekFails(rounds - 1) {
        var t := TickRun(prev.items, pending, approved, RQ.Peeked(pending, ""), notify, readFails, agentFails, now);
        TickRemindsOnce(prev.items, pending, approved, RQ.Peeked(pending, ""), notify, readFails, agentFails, now);
        AppendReminded(prev.items, t.items, prev.reminded, t.reminded);
      }
    }
  }
}
