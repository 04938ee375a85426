/**
 * The `review-pending` queue consumer
 * (services/queue_triggers/communicator_trigger_service.py). Each received
 * message names a record by `content_id`; the worker sends a new-review
 * notification for it once and flags the record as notified. A message
 * without a content id is completed at once; any other message is completed
 * once its processing returns, and left for redelivery when it raises.
 *
 * A message can be read three ways (its JSON body, its text body parsed as
 * JSON, its string form parsed as JSON); `decode(m)` gives what each of the
 * three readings yields. `readFails(id)` says that reading the record
 * raises, and `notify(payload)` whether `notify_new_review` returns rather
 * than raises. It raises only on a payload it cannot format (a missing key,
 * a null caption); a failed e-mail or Slack delivery is caught inside the
 * notification service, so it returns and counts as accepted.
 */
module CommunicatorQueueWorker {
  import opened Wrappers
  import opened Text
  import opened Docs
  import opened Store
  import opened AzureBusService
  import CosmosDbService

  // ---------------------------------------------------------------------
  // _extract_content_id_from_message
  // ---------------------------------------------------------------------

  /** What one reading of a message yields. */
  datatype Parsed = Unparsable | NotDict | Dict(d: Doc)

  /** `str(content_id).strip() if content_id else ""` for a parsed dict. */
  function DictContentId(d: Doc): (id: string)
    ensures !Truthy(Lookup(d, "content_id")) ==> id == ""
    ensures id == [] || (!IsSpace(id[0]) && !IsSpace(id[|id| - 1]))
  {
    var v := Lookup(d, "content_id");
    if Truthy(v) then Strip(Show(v)) else ""
  }

  /** The readings are tried in order; the first one that yields a dict decides. */
  function ExtractContentId(readings: seq<Parsed>): string
  {
    if readings == [] then ""
    else if readings[0].Dict? then DictContentId(readings[0].d)
    else ExtractContentId(readings[1..])
  }

  /**
   * The content id comes from the first reading that yields a dict, even
   * when that dict has no usable id and a later one has; with no dict among
   * the readings it is empty.
   */
  lemma {:induction false} FirstDictDecides(readings: seq<Parsed>)
    ensures forall k :: 0 <= k < |readings| && readings[k].Dict? && (forall j :: 0 <= j < k ==> !readings[j].Dict?) ==>
      ExtractContentId(readings) == DictContentId(readings[k].d)
    ensures (forall j :: 0 <= j < |readings| ==> !readings[j].Dict?) ==> ExtractContentId(readings) == ""
  {
    forall k | 0 <= k < |readings| && readings[k].Dict? && (forall j :: 0 <= j < k ==> !readings[j].Dict?)
      ensures ExtractContentId(readings) == DictContentId(readings[k].d)
    {
      FirstDictAt(readings, k);
    }
    if forall j :: 0 <= j < |readings| ==> !readings[j].Dict? {
      NoDictEmpty(readings);
    }
  }

  lemma {:induction false} FirstDictAt(readings: seq<Parsed>, k: nat)
    requires k < |readings| && readings[k].Dict?
    requires forall j :: 0 <= j < k ==> !readings[j].Dict?
    ensures ExtractContentId(readings) == DictContentId(readings[k].d)
  {
    if k > 0 {
      assert !readings[0].Dict?;
      var rest := readings[1..];
      assert rest[k - 1] == readings[k];
      forall j | 0 <= j < k - 1
        ensures !rest[j].Dict?
      {
        assert rest[j] == readings[j + 1];
      }
      FirstDictAt(rest, k - 1);
    }
  }

  lemma {:induction false} NoDictEmpty(readings: seq<Parsed>)
    requires forall j :: 0 <= j < |readings| ==> !readings[j].Dict?
    ensures ExtractContentId(readings) == ""
  {
    if readings != [] {
      var rest := readings[1..];
      forall j | 0 <= j < |rest|
        ensures !rest[j].Dict?
      {
        assert rest[j] == readings[j + 1];
      }
      NoDictEmpty(rest);
    }
  }

  // ---------------------------------------------------------------------
  // _process
  // ---------------------------------------------------------------------

  /** The notification payload built from the stored record. */
  function Payload(id: string, record: Doc): Doc
  {
    map[
      "id" := Str(id),
      "content_type" := Get(record, "media_type", Str("unknown")),
      "topic" := Or(Lookup(record, "description"), Get(record, "topic", Str("Pending review item"))),
      "caption" := Get(record, "caption", Str("")),
      "media_url" := Get(record, "blob_url", Str(""))]
  }

  /** The fields written once the notification went out. */
  function NotifiedUpdates(now: string, source: string): (u: Doc)
    ensures "id" !in u
  {
    map["auto_notified_for_pending" := Bool(true), "auto_notified_at" := Str(now), "notification_source" := Str(source)]
  }

  /** What processing one message did. */
  datatype Processed = NoContentId | NotFound | AlreadyNotified | Notified(payload: Doc) | Raised

  /** The store after one message, what was done, and the payloads sent. */
  datatype Step = Step(items: map<string, Doc>, processed: Processed, sent: seq<Doc>)

  /** `_process(content_id)`. */
  function Process(items: map<string, Doc>, id: string, notify: Doc -> bool, readFails: string -> bool, now: string): Step
  {
    if readFails(id) then Step(items, Raised, [])
    else if id !in items then Step(items, NotFound, [])
    else if Truthy(Lookup(items[id], "auto_notified_for_pending")) then Step(items, AlreadyNotified, [])
    else
      var payload := Payload(id, items[id]);
      if !notify(payload) then Step(items, Raised, [])
      else Step(Updated(items, id, NotifiedUpdates(now, "communicator-queue-worker")), Notified(payload), [payload])
  }

  /** One message: one without a content id is not processed. */
  function MessageStep(items: map<string, Doc>, readings: seq<Parsed>, notify: Doc -> bool, readFails: string -> bool,
                       now: string): Step
  {
    var id := ExtractContentId(readings);
    if id == "" then Step(items, NoContentId, []) else Process(items, id, notify, readFails, now)
  }

  /** `_process`. */
  method ProcessContent(c: Container, id: string, notify: Doc -> bool, readFails: string -> bool, now: string)
    returns (p: Processed, sent: seq<Doc>)
    requires c.Valid()
    modifies c`items
    ensures c.Valid()
    ensures Step(c.items, p, sent) == Process(old(c.items), id, notify, readFails, now)
  {
    if readFails(id) {
      return Raised, [];
    }
    var record := CosmosDbService.GetContentById(c, id);
    if record.None? {
      return NotFound, [];
    }
    if Truthy(Lookup(record.value, "auto_notified_for_pending")) {
      return AlreadyNotified, [];
    }
    var payload := Payload(id, record.value);
    if !notify(payload) {
      return Raised, [];
    }
    var _ := CosmosDbService.UpdateContent(c, id, NotifiedUpdates(now, "communicator-queue-worker"));
    p, sent := Notified(payload), [payload];
  }

  /**
   * A record is notified at most once: a missing record or one already
   * flagged sends nothing and writes nothing, and after a notification the
   * record carries the flag, a timestamp and the worker's name, so
   * processing the same id again sends nothing.
   */
  lemma NotifyOnce(items: map<string, Doc>, id: string, notify: Doc -> bool, readFails: string -> bool, now: string,
                   later: string)
    ensures var s := Process(items, id, notify, readFails, now);
      && (s.sent != [] <==>
            !readFails(id) && id in items && !Truthy(Lookup(items[id], "auto_notified_for_pending")) && notify(Payload(id, items[id])))
      && (s.sent == [] ==> s.items == items)
      && (s.sent != [] ==>
            && s.sent == [Payload(id, items[id])]
            && s.items == items[id := Merge(items[id], NotifiedUpdates(now, "communicator-queue-worker"))]
            && Process(s.items, id, notify, readFails, later).sent == [])
  {
  }

  /** The topic is the description when set, else the stored topic, else "Pending review item". */
  lemma PayloadTopic(id: string, record: Doc)
    ensures var t := Payload(id, record)["topic"];
      && (Truthy(Lookup(record, "description")) ==> t == record["description"])
      && (!Truthy(Lookup(record, "description")) && "topic" in record ==> t == record["topic"])
      && (!Truthy(Lookup(record, "description")) && "topic" !in record ==> t == Str("Pending review item"))
  {
  }

  // ---------------------------------------------------------------------
  // run_forever
  // ---------------------------------------------------------------------

  /** Messages taken per receive. */
  const ReceiveCount: nat := 10

  /** The effects of a batch of messages processed in order. */
  datatype Batch = Batch(items: map<string, Doc>, processed: seq<Processed>, sent: seq<Doc>)

  function Listen(items: map<string, Doc>, batch: seq<Queued>, decode: Message -> seq<Parsed>, notify: Doc -> bool,
                  readFails: string -> bool, now: string): (b: Batch)
    ensures |b.processed| == |batch|
  {
    if batch == [] then Batch(items, [], [])
    else
      var prev := Listen(items, batch[..|batch| - 1], decode, notify, readFails, now);
      var s := MessageStep(prev.items, decode(batch[|batch| - 1].msg), notify, readFails, now);
      Batch(s.items, prev.processed + [s.processed], prev.sent + s.sent)
  }

  /** Which messages of the batch are completed: all whose processing did not raise. */
  function Done(processed: seq<Processed>): (done: seq<bool>)
    ensures |done| == |processed|
    ensures forall i :: 0 <= i < |processed| ==> (done[i] <==> !processed[i].Raised?)
  {
    seq(|processed|, i requires 0 <= i < |processed| => !processed[i].Raised?)
  }

  lemma DoneSnoc(processed: seq<Processed>, p: Processed)
    ensures Done(processed + [p]) == Done(processed) + [!p.Raised?]
  {
  }

  /** One pass of `run_forever`: receive up to ten messages, process each, complete those that did not raise. */
  method ListenBatch(c: Container, q: Queue, decode: Message -> seq<Parsed>, notify: Doc -> bool,
                     readFails: string -> bool, now: string)
    returns (processed: seq<Processed>, sent: seq<Doc>)
    requires c.Valid() && q.Valid()
    modifies c`items, q`entries
    ensures c.Valid() && q.Valid()
    ensures Batch(c.items, processed, sent) == Listen(old(c.items), old(q.Receive(ReceiveCount)), decode, notify, readFails, now)
    ensures q.entries == RemoveAll(old(q.entries), Settled(old(q.Receive(ReceiveCount)), Done(processed)))
  {
    var batch := q.Receive(ReceiveCount);
    ghost var entries0 := q.entries;
    ghost var items0 := c.items;
    processed, sent := [], [];
    for i := 0 to |batch|
      invariant c.Valid() && q.Valid()
      invariant Batch(c.items, processed, sent) == Listen(items0, batch[..i], decode, notify, readFails, now)
      invariant q.entries == RemoveAll(entries0, Settled(batch[..i], Done(processed)))
    {
      ListenSnoc(items0, batch, i, decode, notify, readFails, now);
      var p, made := HandleMessage(c, decode(batch[i].msg), notify, readFails, now);
      SettledStep(batch, i, Done(processed), !p.Raised?);
      DoneSnoc(processed, p);
      if !p.Raised? {
        RemoveAllSnoc(entries0, Settled(batch[..i], Done(processed)), batch[i].seqNo);
        q.Complete(batch[i].seqNo);
      }
      processed, sent := processed + [p], sent + made;
    }
    assert batch[..|batch|] == batch;
  }

  /** One message of the batch: extract its content id and process the record it names. */
  method HandleMessage(c: Container, readings: seq<Parsed>, notify: Doc -> bool, readFails: string -> bool, now: string)
    returns (p: Processed, sent: seq<Doc>)
    requires c.Valid()
    modifies c`items
    ensures c.Valid()
    ensures Step(c.items, p, sent) == MessageStep(old(c.items), readings, notify, readFails, now)
  {
    var id := ExtractContentId(readings);
    if id == "" {
      return NoContentId, [];
    }
    p, sent := ProcessContent(c, id, notify, readFails, now);
  }

  lemma ListenSnoc(items: map<string, Doc>, batch: seq<Queued>, i: nat, decode: Message -> seq<Parsed>, notify: Doc -> bool,
                   readFails: string -> bool, now: string)
    requires i < |batch|
    ensures var prev := Listen(items, batch[..i], decode, notify, readFails, now);
      var s := MessageStep(prev.items, decode(batch[i].msg), notify, readFails, now);
      Listen(items, batch[..i + 1], decode, notify, readFails, now) == Batch(s.items, prev.processed + [s.processed], prev.sent + s.sent)
  {
    assert batch[..i + 1][..i] == batch[..i];
  }

  /**
   * A message is left for redelivery exactly when it names a record and
   * reading it raised, or the record was due a notification and the
   * notification service refused it; a message without a content id is
   * completed untouched.
   */
  lemma SettlementRule(items: map<string, Doc>, readings: seq<Parsed>, notify: Doc -> bool, readFails: string -> bool,
                       now: string)
    ensures var id := ExtractContentId(readings); var s := MessageStep(items, readings, notify, readFails, now);
      && (id == "" ==> s == Step(items, NoContentId, []))
      && (s.processed.Raised? <==>
            id != "" && (readFails(id) || (id in items && !Truthy(Lookup(items[id], "auto_notified_for_pending"))
                                           && !notify(Payload(id, items[id])))))
      && (s.processed.Raised? ==> s.items == items && s.sent == [])
  {
  }

  /** The record exists and carries the notification flag. */
  predicate Flagged(items: map<string, Doc>, id: string)
  {
    id in items && Truthy(Lookup(items[id], "auto_notified_for_pending"))
  }

  /** A message never clears a flag, and sends only for a record it then flags. */
  lemma StepFlags(items: map<string, Doc>, readings: seq<Parsed>, notify: Doc -> bool, readFails: string -> bool, now: string)
    ensures var s := MessageStep(items, readings, notify, readFails, now);
      && (forall id :: Flagged(items, id) ==> Flagged(s.items, id))
      && |s.sent| <= 1
      && (s.sent != [] ==> Lookup(s.sent[0], "id").Str? && !Flagged(items, Lookup(s.sent[0], "id").s) && Flagged(s.items, Lookup(s.sent[0], "id").s))
  {
  }

  /** Every payload names a record flagged in `items`. */
  predicate AllFlagged(items: map<string, Doc>, sent: seq<Doc>)
  {
    forall k :: 0 <= k < |sent| ==> Lookup(sent[k], "id").Str? && Flagged(items, Lookup(sent[k], "id").s)
  }

  /**
   * In one batch each record is notified at most once, however many
   * messages name it: every payload sent names a record that is flagged
   * afterwards, and no two payloads name the same record.
   */
  lemma {:induction false} BatchNotifiesOnce(items: map<string, Doc>, batch: seq<Queued>, decode: Message -> seq<Parsed>,
                                             notify: Doc -> bool, readFails: string -> bool, now: string)
    ensures var b := Listen(items, batch, decode, notify, readFails, now);
      && AllFlagged(b.items, b.sent)
      && (forall i, j :: 0 <= i < j < |b.sent| ==> Lookup(b.sent[i], "id") != Lookup(b.sent[j], "id"))
  {
    if batch != [] {
      var n := |batch| - 1;
      BatchNotifiesOnce(items, batch[..n], decode, notify, readFails, now);
      var prev := Listen(items, batch[..n], decode, notify, readFails, now);
      var s := MessageStep(prev.items, decode(batch[n].msg), notify, readFails, now);
      StepFlags(prev.items, decode(batch[n].msg), notify, readFails, now);
      var sent := prev.sent + s.sent;
      assert Listen(items, batch, decode, notify, readFails, now) == Batch(s.items, prev.processed + [s.processed], sent);
      assert AllFlagged(prev.items, prev.sent);
      forall k | 0 <= k < |sent|
        ensures Lookup(sent[k], "id").Str? && Flagged(s.items, Lookup(sent[k], "id").s)
      {
        if k < |prev.sent| {
          assert sent[k] == prev.sent[k];
          assert Flagged(prev.items, Lookup(prev.sent[k], "id").s);
        } else {
          assert sent[k] == s.sent[0];
        }
      }
      assert AllFlagged(s.items, sent);
      forall i, j | 0 <= i < j < |sent|
        ensures Lookup(sent[i], "id") != Lookup(sent[j], "id")
      {
        if j >= |prev.sent| {
          assert sent[j] == s.sent[0] && sent[i] == prev.sent[i];
          assert Flagged(prev.items, Lookup(prev.sent[i], "id").s);
        }
      }
    }
  }
}
