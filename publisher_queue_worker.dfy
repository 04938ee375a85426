/**
 * The `review-approved` queue consumer
 * (services/queue_triggers/publisher_trigger_service.py). Each received
 * message names a record by `content_id`; the worker publishes it with the
 * publisher tools when it exists, is approved by a human, has its media
 * review approved and is not yet published, and sends a confirmation after a
 * publication. A message without a content id is completed at once; any
 * other message is completed once its processing returns, and left for
 * redelivery when it raises.
 *
 * Instagram is the publisher's oracle; `readFails(id)` says that reading the
 * record raises (a store outage), and `mail(record)` whether the
 * confirmation e-mail goes out (a failure there is swallowed). As written
 * the confirmation always raises (PublisherTools.ConfirmationNeverSent), so
 * the worker mails nothing (MailAsWritten, NothingMailedAsWritten).
 */
module PublisherQueueWorker {
  import opened Wrappers
  import opened Docs
  import opened Store
  import opened AzureBusService
  import CosmosDbService
  import PT = PublisherTools

  /** Messages taken per receive. */
  const ReceiveCount: nat := 5

  /** What processing one message did. */
  datatype Processed =
    | NoContentId
    | NotFound
    | NotApproved
    | MediaNotApproved
    | AlreadyPublished
    | PublishFailed(outcome: PT.Outcome)
    | Published(outcome: PT.Outcome, confirmed: bool)
    | Raised

  /** The store after one message, what was done, the Instagram calls, and the records confirmed by mail. */
  datatype Step = Step(items: map<string, Doc>, processed: Processed, calls: seq<PT.IgCall>, mailed: seq<Doc>)

  /** The checks `_process` makes before publishing; None when the record may be published. */
  function Refusal(record: Doc): Option<Processed>
  {
    if Lookup(record, "approval_status") != Str("approved") then Some(NotApproved)
    else if Lookup(record, "media_review_status") != Str("approved") then Some(MediaNotApproved)
    else if Lookup(record, "publish_status") == Str("published") then Some(AlreadyPublished)
    else None
  }

  /** `_process(content_id)`. */
  function Process(items: map<string, Doc>, id: string, igs: PT.Accounts, mail: Doc -> bool, readFails: string -> bool,
                   now: string): Step
  {
    if readFails(id) then Step(items, Raised, [], [])
    else if id !in items then Step(items, NotFound, [], [])
    else if Refusal(items[id]).Some? then Step(items, Refusal(items[id]).value, [], [])
    else
      var r := PT.PublishByIdRun(items, id, igs, now);
      if PT.StatusText(r.outcome) == "published" then
        var notified := PT.Confirm(r.items, id).1;
        var sent := notified.Some? && mail(notified.value);
        Step(r.items, Published(r.outcome, sent), r.calls, if sent then [notified.value] else [])
      else Step(r.items, PublishFailed(r.outcome), r.calls, [])
  }

  /** One message: a falsy `content_id` is not processed; a non-text one names no record. */
  function MessageStep(items: map<string, Doc>, body: Doc, igs: PT.Accounts, mail: Doc -> bool, readFails: string -> bool,
                       now: string): Step
  {
    var v := Lookup(body, "content_id");
    if !Truthy(v) then Step(items, NoContentId, [], [])
    else if !v.Str? then Step(items, NotFound, [], [])
    else Process(items, v.s, igs, mail, readFails, now)
  }

  /** The effects of a batch of messages processed in order. */
  datatype Batch = Batch(items: map<string, Doc>, processed: seq<Processed>, calls: seq<PT.IgCall>, mailed: seq<Doc>)

  function Listen(items: map<string, Doc>, batch: seq<Queued>, igs: PT.Accounts, mail: Doc -> bool,
                  readFails: string -> bool, now: string): (b: Batch)
    ensures |b.processed| == |batch|
  {
    if batch == [] then Batch(items, [], [], [])
    else
      var prev := Listen(items, batch[..|batch| - 1], igs, mail, readFails, now);
      var s := MessageStep(prev.items, batch[|batch| - 1].msg.body, igs, mail, readFails, now);
      Batch(s.items, prev.processed + [s.processed], prev.calls + s.calls, prev.mailed + s.mailed)
  }

  /** Which messages of the batch are completed: all whose processing did not raise. */
  function Done(processed: seq<Processed>): (done: seq<bool>)
    ensures |done| == |processed|
    ensures forall i :: 0 <= i < |processed| ==> (done[i] <==> !processed[i].Raised?)
  {
    seq(|processed|, i requires 0 <= i < |processed| => !processed[i].Raised?)
  }

  /** `_process`. */
  method ProcessContent(c: Container, id: string, igs: PT.Accounts, mail: Doc -> bool, readFails: string -> bool, now: string)
    returns (p: Processed, calls: seq<PT.IgCall>, mailed: seq<Doc>)
    requires c.Valid()
    modifies c`items
    ensures c.Valid()
    ensures Step(c.items, p, calls, mailed) == Process(old(c.items), id, igs, mail, readFails, now)
  {
    if readFails(id) {
      return Raised, [], [];
    }
    var record := CosmosDbService.GetContentById(c, id);
    if record.None? {
      return NotFound, [], [];
    }
    var refusal := Refusal(record.value);
    if refusal.Some? {
      return refusal.value, [], [];
    }
    var outcome;
    outcome, calls := PT.PublishContentById(c, id, igs, now);
    if PT.StatusText(outcome) != "published" {
      return PublishFailed(outcome), calls, [];
    }
    var _, notified := PT.SendPublishConfirmation(c, id);
    var sent := notified.Some? && mail(notified.value);
    p := Published(outcome, sent);
    mailed := if sent then [notified.value] else [];
  }

  /** One pass of `run_forever`: receive up to five messages, process each, complete those that did not raise. */
  method ListenBatch(c: Container, q: Queue, igs: PT.Accounts, mail: Doc -> bool, readFails: string -> bool, now: string)
    returns (processed: seq<Processed>, calls: seq<PT.IgCall>, mailed: seq<Doc>)
    requires c.Valid() && q.Valid()
    modifies c`items, q`entries
    ensures c.Valid() && q.Valid()
    ensures Batch(c.items, processed, calls, mailed) == Listen(old(c.items), old(q.Receive(ReceiveCount)), igs, mail, readFails, now)
    ensures q.entries == RemoveAll(old(q.entries), Settled(old(q.Receive(ReceiveCount)), Done(processed)))
  {
    var batch := q.Receive(ReceiveCount);
    ghost var entries0 := q.entries;
    ghost var items0 := c.items;
    processed, calls, mailed := [], [], [];
    for i := 0 to |batch|
      invariant c.Valid() && q.Valid()
      invariant Batch(c.items, processed, calls, mailed) == Listen(items0, batch[..i], igs, mail, readFails, now)
      invariant q.entries == RemoveAll(entries0, Settled(batch[..i], Done(processed)))
    {
      ListenSnoc(items0, batch, i, igs, mail, readFails, now);
      var p, made, sent := HandleMessage(c, batch[i].msg.body, igs, mail, readFails, now);
      SettledStep(batch, i, Done(processed), !p.Raised?);
      DoneSnoc(processed, p);
      if !p.Raised? {
        RemoveAllSnoc(entries0, Settled(batch[..i], Done(processed)), batch[i].seqNo);
        q.Complete(batch[i].seqNo);
      }
      processed, calls, mailed := processed + [p], calls + made, mailed + sent;
    }
    assert batch[..|batch|] == batch;
  }

  /** One message of the batch: read its content id and process the record it names. */
  method HandleMessage(c: Container, body: Doc, igs: PT.Accounts, mail: Doc -> bool, readFails: string -> bool, now: string)
    returns (p: Processed, calls: seq<PT.IgCall>, mailed: seq<Doc>)
    requires c.Valid()
    modifies c`items
    ensures c.Valid()
    ensures Step(c.items, p, calls, mailed) == MessageStep(old(c.items), body, igs, mail, readFails, now)
  {
    var v := Lookup(body, "content_id");
    if !Truthy(v) {
      return NoContentId, [], [];
    } else if !v.Str? {
      return NotFound, [], [];
    }
    p, calls, mailed := ProcessContent(c, v.s, igs, mail, readFails, now);
  }

  lemma ListenSnoc(items: map<string, Doc>, batch: seq<Queued>, i: nat, igs: PT.Accounts, mail: Doc -> bool,
                   readFails: string -> bool, now: string)
    requires i < |batch|
    ensures var prev := Listen(items, batch[..i], igs, mail, readFails, now);
      var s := MessageStep(prev.items, batch[i].msg.body, igs, mail, readFails, now);
      Listen(items, batch[..i + 1], igs, mail, readFails, now)
        == Batch(s.items, prev.processed + [s.processed], prev.calls + s.calls, prev.mailed + s.mailed)
  {
    assert batch[..i + 1][..i] == batch[..i];
  }

  /**
   * Nothing is published, written or mailed unless the record exists, is
   * approved, has its media review approved and is not yet published.
   */
  lemma GuardsBeforePublish(items: map<string, Doc>, id: string, igs: PT.Accounts, mail: Doc -> bool,
                            readFails: string -> bool, now: string)
    ensures var s := Process(items, id, igs, mail, readFails, now);
      (s.calls != [] || s.items != items || s.mailed != []) ==>
        && !readFails(id) && id in items
        && Lookup(items[id], "approval_status") == Str("approved")
        && Lookup(items[id], "media_review_status") == Str("approved")
        && Lookup(items[id], "publish_status") != Str("published")
    ensures var s := Process(items, id, igs, mail, readFails, now);
      !readFails(id) && id in items && Refusal(items[id]).Some? ==> s == Step(items, Refusal(items[id]).value, [], [])
  {
  }

  /**
   * A confirmation goes out only after a publication, for the stored record
   * now marked published, and only when the mail was accepted; a publish
   * that did not end in "published" mails nothing.
   */
  lemma ConfirmOnlyAfterPublish(items: map<string, Doc>, id: string, igs: PT.Accounts, mail: Doc -> bool,
                                readFails: string -> bool, now: string)
    ensures var s := Process(items, id, igs, mail, readFails, now);
      && |s.mailed| <= 1
      && (s.mailed != [] ==>
            && s.processed.Published? && s.processed.confirmed && PT.StatusText(s.processed.outcome) == "published"
            && id in s.items && s.mailed[0] == s.items[id] && mail(s.mailed[0])
            && Lookup(s.mailed[0], "publish_status") == Str("published"))
      && (s.processed.PublishFailed? ==> s.mailed == [] && PT.StatusText(s.processed.outcome) != "published")
  {
  }

  /**
   * Whether the mail goes out changes neither the store, nor the Instagram
   * calls, nor what each message's processing did apart from the
   * `confirmed` flag, so it never changes which messages are completed.
   */
  lemma {:induction false} MailDoesNotSettle(items: map<string, Doc>, batch: seq<Queued>, igs: PT.Accounts,
                                             mail1: Doc -> bool, mail2: Doc -> bool, readFails: string -> bool, now: string)
    ensures var b1 := Listen(items, batch, igs, mail1, readFails, now);
      var b2 := Listen(items, batch, igs, mail2, readFails, now);
      && b1.items == b2.items && b1.calls == b2.calls
      && Done(b1.processed) == Done(b2.processed)
      && Settled(batch, Done(b1.processed)) == Settled(batch, Done(b2.processed))
  {
    if batch != [] {
      var n := |batch| - 1;
      MailDoesNotSettle(items, batch[..n], igs, mail1, mail2, readFails, now);
      var b1 := Listen(items, batch[..n], igs, mail1, readFails, now);
      var b2 := Listen(items, batch[..n], igs, mail2, readFails, now);
      var s1 := MessageStep(b1.items, batch[n].msg.body, igs, mail1, readFails, now);
      var s2 := MessageStep(b2.items, batch[n].msg.body, igs, mail2, readFails, now);
      MessageMailFree(b1.items, batch[n].msg.body, igs, mail1, mail2, readFails, now);
      DoneSnoc(b1.processed, s1.processed);
      DoneSnoc(b2.processed, s2.processed);
    }
  }

  lemma DoneSnoc(processed: seq<Processed>, p: Processed)
    ensures Done(processed + [p]) == Done(processed) + [!p.Raised?]
  {
  }

  lemma MessageMailFree(items: map<string, Doc>, body: Doc, igs: PT.Accounts, mail1: Doc -> bool, mail2: Doc -> bool,
                        readFails: string -> bool, now: string)
    ensures var s1 := MessageStep(items, body, igs, mail1, readFails, now);
      var s2 := MessageStep(items, body, igs, mail2, readFails, now);
      s1.items == s2.items && s1.calls == s2.calls && (s1.processed.Raised? <==> s2.processed.Raised?)
  {
    var v := Lookup(body, "content_id");
    if Truthy(v) && v.Str? && !readFails(v.s) && v.s in items && Refusal(items[v.s]).None? {
      var r := PT.PublishByIdRun(items, v.s, igs, now);
      assert Process(items, v.s, igs, mail1, readFails, now).items == r.items;
      assert Process(items, v.s, igs, mail2, readFails, now).items == r.items;
    }
  }

  /** A message without a content id is completed untouched, as is every message whose record read did not raise. */
  lemma SettlementRule(items: map<string, Doc>, body: Doc, igs: PT.Accounts, mail: Doc -> bool, readFails: string -> bool,
                       now: string)
    ensures var s := MessageStep(items, body, igs, mail, readFails, now);
      && (!Truthy(Lookup(body, "content_id")) ==> s == Step(items, NoContentId, [], []))
      && (s.processed.Raised? <==> Lookup(body, "content_id").Str? && Lookup(body, "content_id").s != [] && readFails(Lookup(body, "content_id").s))
      && (s.processed.Raised? ==> s.items == items && s.calls == [] && s.mailed == [])
  {
  }

  /** The mail as written: it goes out only when `notify_published` exists, which it does not. */
  function MailAsWritten(): Doc -> bool
  {
    record => PT.NotifyPublishedDefined()
  }

  /**
   * As written a batch mails no confirmation, while the store, the
   * Instagram calls and which messages are completed are as with any mail.
   */
  lemma NothingMailedAsWritten(items: map<string, Doc>, batch: seq<Queued>, igs: PT.Accounts,
                               mail: Doc -> bool, readFails: string -> bool, now: string)
    ensures var b := Listen(items, batch, igs, MailAsWritten(), readFails, now);
      var intended := Listen(items, batch, igs, mail, readFails, now);
      && b.mailed == []
      && b.items == intended.items && b.calls == intended.calls
      && Done(b.processed) == Done(intended.processed)
  {
    MailDoesNotSettle(items, batch, igs, MailAsWritten(), mail, readFails, now);
    NoMailAsWritten(items, batch, igs, readFails, now);
  }

  /** A batch mails nothing when no mail goes out. */
  lemma {:induction false} NoMailAsWritten(items: map<string, Doc>, batch: seq<Queued>, igs: PT.Accounts,
                                           readFails: string -> bool, now: string)
    ensures Listen(items, batch, igs, MailAsWritten(), readFails, now).mailed == []
  {
    if batch != [] {
      var n := |batch| - 1;
      NoMailAsWritten(items, batch[..n], igs, readFails, now);
      var prev := Listen(items, batch[..n], igs, MailAsWritten(), readFails, now);
      StepMailsNothing(prev.items, batch[n].msg.body, igs, readFails, now);
    }
  }

  /** One message mails nothing when no mail goes out. */
  lemma StepMailsNothing(items: map<string, Doc>, body: Doc, igs: PT.Accounts, readFails: string -> bool, now: string)
    ensures MessageStep(items, body, igs, MailAsWritten(), readFails, now).mailed == []
  {
    assert !PT.NotifyPublishedDefined();
  }
}
