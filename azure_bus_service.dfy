/**
 * Service Bus queues and the messages the pipeline puts on them
 * (services/azure_bus_service.py). A queue holds its messages in arrival
 * order, each with a broker-assigned sequence number; a receiver settles a
 * message by completing it (removed) or abandoning it (left in place).
 * Whether a send succeeds is decided by the broker and is an input here.
 */
module AzureBusService {
  import opened Docs
  import opened Text

  const QueueMediaGeneration: string := "media-generation"
  const QueueReviewPending: string := "review-pending"
  const QueueReviewApproved: string := "review-approved"

  /** A `ServiceBusMessage`: JSON body, application properties, subject and message id. */
  datatype Message = Message(body: Doc, props: map<string, string>, subject: string, messageId: string)

  /** A message as it sits in a queue. */
  datatype Queued = Queued(seqNo: nat, msg: Message)

  /** The body every helper of this module sends: `{"content_id": id}` and nothing else. */
  function ContentIdBody(id: string): (b: Doc)
    ensures b.Keys == {"content_id"} && b["content_id"] == Str(id)
  {
    map["content_id" := Str(id)]
  }

  /** Python's `message_id or default`: an absent or empty id falls back to the default. */
  function IdOrDefault(messageId: string, default: string): (r: string)
    ensures messageId != [] ==> r == messageId
    ensures messageId == [] ==> r == default
  {
    if messageId != [] then messageId else default
  }

  /** `send_message_to_media_generation_queue`; `messageId` "" stands for None. */
  function MediaGenerationMessage(contentId: string, mediaType: string, account: string, subject: string, messageId: string): Message
  {
    Message(ContentIdBody(contentId),
            map["content_id" := contentId, "media_type" := mediaType, "account" := account],
            subject, IdOrDefault(messageId, contentId))
  }

  /** `send_message_to_review_pending_queue`. */
  function ReviewPendingMessage(contentId: string, mediaType: string, account: string, subject: string, messageId: string): Message
  {
    Message(ContentIdBody(contentId),
            map["content_id" := contentId, "media_type" := mediaType, "account" := account],
            subject, IdOrDefault(messageId, contentId + "-review"))
  }

  /** `send_message_to_review_approved_queue`. */
  function ReviewApprovedMessage(itemId: string, account: string, contentType: string, subject: string, messageId: string): Message
  {
    Message(ContentIdBody(itemId),
            map["item_id" := itemId, "account" := account, "content_type" := contentType],
            subject, IdOrDefault(messageId, itemId + "-approved"))
  }

  /**
   * Each helper sends `{"content_id": id}`; with no explicit message id the
   * id is the content id, id+"-review" and id+"-approved" respectively, and
   * an explicit non-empty id is used unchanged.
   */
  lemma MessageIds(id: string, mediaType: string, account: string, subject: string, explicit: string)
    ensures MediaGenerationMessage(id, mediaType, account, subject, "").messageId == id
    ensures ReviewPendingMessage(id, mediaType, account, subject, "").messageId == id + "-review"
    ensures ReviewApprovedMessage(id, account, mediaType, subject, "").messageId == id + "-approved"
    ensures explicit != [] ==>
      && MediaGenerationMessage(id, mediaType, account, subject, explicit).messageId == explicit
      && ReviewPendingMessage(id, mediaType, account, subject, explicit).messageId == explicit
      && ReviewApprovedMessage(id, account, mediaType, subject, explicit).messageId == explicit
    ensures MediaGenerationMessage(id, mediaType, account, subject, explicit).body == ContentIdBody(id)
    ensures ReviewPendingMessage(id, mediaType, account, subject, explicit).body == ContentIdBody(id)
    ensures ReviewApprovedMessage(id, account, mediaType, subject, explicit).body == ContentIdBody(id)
  {
  }

  /** The three default message ids of one content id never collide. */
  lemma DefaultIdsDistinct(id: string)
    ensures id != id + "-review" && id != id + "-approved" && id + "-review" != id + "-approved"
  {
    assert |id + "-review"| == |id| + 7;
    assert |id + "-approved"| == |id| + 9;
  }

  /** One Service Bus queue. */
  class Queue {
    const name: string
    var entries: seq<Queued>
    var nextSeq: nat

    ghost predicate Valid()
      reads this
    {
      forall i :: 0 <= i < |entries| ==> entries[i].seqNo < nextSeq
    }

    constructor (name: string)
      ensures this.name == name && entries == [] && Valid()
    {
      this.name := name;
      entries := [];
      nextSeq := 0;
    }

    /** `sender.send_messages(msg)`; `delivered` is the broker's answer. */
    method Send(m: Message, delivered: bool)
      requires Valid()
      modifies this
      ensures Valid()
      ensures delivered ==> entries == old(entries) + [Queued(old(nextSeq), m)] && nextSeq == old(nextSeq) + 1
      ensures !delivered ==> entries == old(entries) && nextSeq == old(nextSeq)
    {
      if delivered {
        entries := entries + [Queued(nextSeq, m)];
        nextSeq := nextSeq + 1;
      }
    }

    /** `receive_messages(max_message_count=n)` / `peek_messages(n)`: the oldest `n` messages. */
    function Receive(n: nat): (batch: seq<Queued>)
      reads this
      ensures |batch| <= n && |batch| <= |entries| && batch == entries[..|batch|]
      ensures |entries| <= n ==> batch == entries
    {
      if |entries| <= n then entries else entries[..n]
    }

    /** `receiver.complete_message(msg)`: the message leaves the queue. */
    method Complete(seqNo: nat)
      requires Valid()
      modifies this`entries
      ensures Valid()
      ensures entries == Remove(old(entries), seqNo)
    {
      entries := Remove(entries, seqNo);
    }
  }

  /** The messages of `entries` other than `seqNo`, in their order, as a filter over positions. */
  function Without(entries: seq<Queued>, seqNo: nat): seq<Queued>
  {
    if entries == [] then []
    else Without(entries[..|entries| - 1], seqNo)
         + (if entries[|entries| - 1].seqNo != seqNo then [entries[|entries| - 1]] else [])
  }

  /** The queue without the message carrying `seqNo`. */
  function Remove(entries: seq<Queued>, seqNo: nat): (r: seq<Queued>)
    ensures |r| <= |entries|
    ensures forall q :: q in r <==> q in entries && q.seqNo != seqNo
    ensures r == Without(entries, seqNo)
  {
    if entries == [] then []
    else
      WithoutConcat([entries[0]], entries[1..], seqNo);
      assert [entries[0]] + entries[1..] == entries;
      if entries[0].seqNo == seqNo then Remove(entries[1..], seqNo)
      else [entries[0]] + Remove(entries[1..], seqNo)
  }

  /** Filtering distributes over concatenation. */
  lemma {:induction false} WithoutConcat(a: seq<Queued>, b: seq<Queued>, seqNo: nat)
    ensures Without(a + b, seqNo) == Without(a, seqNo) + Without(b, seqNo)
  {
    if b == [] {
      assert a + b == a;
    } else {
      var init := b[..|b| - 1];
      WithoutConcat(a, init, seqNo);
      assert (a + b)[..|a + b| - 1] == a + init;
    }
  }

  /** The queue after completing each of `seqNos`. */
  function RemoveAll(entries: seq<Queued>, seqNos: seq<nat>): (r: seq<Queued>)
    ensures forall m :: m in r <==> m in entries && m.seqNo !in seqNos
  {
    if seqNos == [] then entries
    else Remove(RemoveAll(entries, seqNos[..|seqNos| - 1]), seqNos[|seqNos| - 1])
  }

  /** The sequence numbers of the messages of `batch` whose `done` flag is set, in order. */
  function Settled(batch: seq<Queued>, done: seq<bool>): (r: seq<nat>)
    requires |done| == |batch|
    ensures forall n :: n in r <==> exists i :: 0 <= i < |batch| && batch[i].seqNo == n && done[i]
  {
    if batch == [] then []
    else
      var i := |batch| - 1;
      var rest := Settled(batch[..i], done[..i]);
      assert forall j :: 0 <= j < i ==> batch[..i][j] == batch[j] && done[..i][j] == done[j];
      if done[i] then rest + [batch[i].seqNo] else rest
  }

  lemma RemoveAllSnoc(entries: seq<Queued>, seqNos: seq<nat>, n: nat)
    ensures RemoveAll(entries, seqNos + [n]) == Remove(RemoveAll(entries, seqNos), n)
  {
    assert (seqNos + [n])[..|seqNos|] == seqNos;
  }

  /** Settling one more message of the batch: its number is added when it is done. */
  lemma SettledStep(batch: seq<Queued>, i: nat, done: seq<bool>, d: bool)
    requires |done| == i < |batch|
    ensures Settled(batch[..i + 1], done + [d]) == if d then Settled(batch[..i], done) + [batch[i].seqNo] else Settled(batch[..i], done)
  {
    assert batch[..i + 1][..i] == batch[..i];
    assert (done + [d])[..|done|] == done;
  }

}
