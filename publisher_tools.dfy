/**
 * The publisher tools (agents/publisher/tools.py): publish an approved,
 * not yet published record to Instagram and mark it published in the
 * store, one record or all pending ones, and confirm a publication.
 *
 * The Instagram Graph API is an oracle: `ig` gives, for each call, the id
 * or status code it returns or the exception it raises (`Err`), and
 * `igs(account)` is the service of one account, the one a record's
 * `target_account_id` selects. A status
 * check carries its attempt number, so successive checks of one container
 * can answer differently. Every outcome also reports the calls made, in
 * order. The 30-second waits between status checks are left out.
 */
module PublisherTools {
  import opened Wrappers
  import opened Text
  import opened Docs
  import opened Ordering
  import opened Store
  import CosmosDbService

  // ---------------------------------------------------------------------
  // The caption
  // ---------------------------------------------------------------------

  /** `" ".join(h for h in hashtags if h)`, each entry as its text. */
  function TagsText(xs: seq<Value>): string
  {
    Join(" ", NonEmptyTags(xs))
  }

  /** The truthy entries of a hashtag list, as text, in order. */
  function NonEmptyTags(xs: seq<Value>): (r: seq<string>)
    ensures |r| <= |xs|
  {
    if xs == [] then []
    else (if Truthy(xs[0]) then [Show(xs[0])] else []) + NonEmptyTags(xs[1..])
  }

  /** The hashtag text: a string stripped, a list space-joined; anything else (or nothing) adds none. */
  function HashtagsText(record: Doc): string
  {
    match Or(Lookup(record, "hashtags"), List([]))
    case Str(s) => Strip(s)
    case List(xs) => TagsText(xs)
    case _ => ""
  }

  /** `(record.get("caption") or "").strip()`. */
  function CaptionText(record: Doc): string
  {
    Strip(Show(Or(Lookup(record, "caption"), Str(""))))
  }

  /** `_build_caption`. */
  function BuildCaption(record: Doc): string
  {
    var caption := CaptionText(record);
    var tags := HashtagsText(record);
    if tags != [] && caption == [] then tags
    else if tags != [] && caption != [] then caption + "\n\n" + tags
    else caption
  }

  /** A truthy value that is not text: `.strip()` and `" ".join` raise on it. */
  predicate NonText(v: Value)
  {
    Truthy(v) && !v.Str?
  }

  /**
   * Where `_build_caption` raises instead of building: a truthy caption that
   * is not text has no `.strip()`, a truthy hashtags value that is neither
   * text nor a list cannot be iterated, and a truthy list entry that is not
   * text cannot be joined. `BuildCaption` shows such values as text instead.
   */
  predicate CaptionRaises(record: Doc)
  {
    NonText(Or(Lookup(record, "caption"), Str("")))
    || match Or(Lookup(record, "hashtags"), List([]))
       case Str(_) => false
       case List(xs) => exists i :: 0 <= i < |xs| && NonText(xs[i])
       case other => Truthy(other)
  }

  /**
   * The caption is the caption alone, the hashtags alone, or the caption, a
   * blank line and the hashtags.
   */
  lemma CaptionCases(record: Doc)
    ensures HashtagsText(record) == [] ==> BuildCaption(record) == CaptionText(record)
    ensures CaptionText(record) == [] ==> BuildCaption(record) == HashtagsText(record)
    ensures CaptionText(record) != [] && HashtagsText(record) != [] ==>
      BuildCaption(record) == CaptionText(record) + "\n\n" + HashtagsText(record)
  {
  }

  /** Falsy list entries (empty strings, None) are dropped; string entries keep their text and order. */
  lemma {:induction false} TagsDropEmpty(xs: seq<string>)
    ensures NonEmptyTags(Strs(xs)) == Filtered(xs)
  {
    if xs != [] {
      assert Strs(xs)[1..] == Strs(xs[1..]);
      TagsDropEmpty(xs[1..]);
    }
  }

  /** The non-empty strings of `xs`, in order. */
  function Filtered(xs: seq<string>): (r: seq<string>)
    ensures forall i :: 0 <= i < |r| ==> r[i] != []
  {
    if xs == [] then []
    else (if xs[0] != [] then [xs[0]] else []) + Filtered(xs[1..])
  }

  // ---------------------------------------------------------------------
  // The Instagram oracle
  // ---------------------------------------------------------------------

  datatype IgCall =
    | CreateImage(url: string, caption: string)
    | CreateCarousel(children: seq<string>, caption: string)
    | CreateVideo(url: string, caption: string)
    | CheckStatus(container: string, attempt: nat)
    | PublishContainer(container: string)

  /** What each call returns (a container id, a media id or a status code), or the error it raises. */
  type Instagram = IgCall -> Result<string>

  /** The service of each account, by `target_account_id`. */
  type Accounts = Value -> Instagram

  /** The account a record is published to: its `target_account_id`, "" when absent. */
  function AccountOf(record: Doc): Value
  {
    Get(record, "target_account_id", Str(""))
  }

  /** At most this many status checks of a video container. */
  const MaxChecks: nat := 10

  /** The result of `_publish_record` and `publish_content_by_id`. */
  datatype Outcome =
    | NotFound(id: string)
    | NotApproved(contentId: Value, approval: Value)
    | AlreadyPublished(contentId: Value, storedMediaId: Value)
    | NoBlobUrl(contentId: Value)
    | NoCarouselUrls(contentId: Value)
    | VideoFailed(contentId: Value, statusCode: string)
    | VideoTimedOut(contentId: Value)
    | Raised(contentId: Value, error: string)
    | Published(contentId: Value, mediaType: Value, postType: Value, containerId: string, mediaId: string, account: string)

  /** The result's `status` field. */
  function StatusText(o: Outcome): string
  {
    match o
    case Published(_, _, _, _, _, _) => "published"
    case AlreadyPublished(_, _) => "ok"
    case _ => "error"
  }

  /** The outcome, the Instagram calls made in order, and the store after. */
  datatype Run = Run(outcome: Outcome, calls: seq<IgCall>, items: map<string, Doc>)

  // ---------------------------------------------------------------------
  // Child containers and status polling
  // ---------------------------------------------------------------------

  /** The child containers created so far, the calls made, and the error that stopped the loop. */
  datatype Children = Children(ids: seq<string>, calls: seq<IgCall>, error: Option<string>)

  /** The child loop of a carousel over `urls`: one empty-caption image container per URL, in order. */
  function MakeChildren(urls: seq<string>, ig: Instagram): Children
  {
    if urls == [] then Children([], [], None)
    else
      var prev := MakeChildren(urls[..|urls| - 1], ig);
      if prev.error.Some? then prev
      else
        var call := CreateImage(urls[|urls| - 1], "");
        match ig(call)
        case Ok(id) => Children(prev.ids + [id], prev.calls + [call], None)
        case Err(e) => Children(prev.ids, prev.calls + [call], Some(e))
  }

  /** Once a child creation fails, later URLs are never tried. */
  lemma {:induction false} ChildErrorSticks(urls: seq<string>, i: nat, ig: Instagram)
    requires i <= |urls| && MakeChildren(urls[..i], ig).error.Some?
    ensures MakeChildren(urls, ig) == MakeChildren(urls[..i], ig)
    decreases |urls| - i
  {
    if i < |urls| {
      assert urls[..i + 1][..i] == urls[..i];
      ChildErrorSticks(urls, i + 1, ig);
    } else {
      assert urls[..i] == urls;
    }
  }

  /**
   * Without an error the loop made one container per URL, and its calls are
   * exactly one empty-caption image creation per URL, in order.
   */
  lemma {:induction false} ChildrenInOrder(urls: seq<string>, ig: Instagram)
    ensures var ch := MakeChildren(urls, ig);
      ch.error.None? ==> |ch.ids| == |urls| && ch.calls == seq(|urls|, i requires 0 <= i < |urls| => CreateImage(urls[i], ""))
    ensures |MakeChildren(urls, ig).calls| <= |urls|
  {
    if urls != [] {
      ChildrenInOrder(urls[..|urls| - 1], ig);
    }
  }

  /** How the status polling ended. */
  datatype PollEnd = Finished | StatusError(code: string) | TimedOut | PollRaised(error: string)

  /** The polling loop from attempt `attempt` on: how it ends and the checks it makes. */
  function Poll(container: string, ig: Instagram, attempt: nat): (PollEnd, seq<IgCall>)
    decreases MaxChecks - attempt
  {
    if attempt >= MaxChecks then (TimedOut, [])
    else
      var call := CheckStatus(container, attempt);
      match ig(call)
      case Err(e) => (PollRaised(e), [call])
      case Ok(code) =>
        if code == "FINISHED" then (Finished, [call])
        else if code == "ERROR" then (StatusError(code), [call])
        else
          var rest := Poll(container, ig, attempt + 1);
          (rest.0, [call] + rest.1)
  }

  /**
   * The loop checks the container's status at most ten times, attempts
   * `attempt`, `attempt`+1, … in order; it ends in FINISHED only when the
   * last check answered FINISHED.
   */
  lemma {:induction false} PollBounded(container: string, ig: Instagram, attempt: nat)
    ensures var p := Poll(container, ig, attempt);
      && (attempt <= MaxChecks ==> |p.1| <= MaxChecks - attempt)
      && (attempt > MaxChecks ==> p.1 == [])
      && (forall j :: 0 <= j < |p.1| ==> p.1[j] == CheckStatus(container, attempt + j))
      && (p.0 == Finished ==> |p.1| > 0 && ig(p.1[|p.1| - 1]) == Ok("FINISHED"))
    decreases MaxChecks - attempt
  {
    if attempt < MaxChecks {
      var call := CheckStatus(container, attempt);
      if ig(call).Ok? && ig(call).value != "FINISHED" && ig(call).value != "ERROR" {
        PollBounded(container, ig, attempt + 1);
      }
    }
  }

  // ---------------------------------------------------------------------
  // _publish_record
  // ---------------------------------------------------------------------

  function ContentId(record: Doc): Value
  {
    Get(record, "id", Str(""))
  }

  /** `target_account_name or "default"`. */
  function AccountLabel(record: Doc): string
  {
    Show(Or(Get(record, "target_account_name", Str("")), Str("default")))
  }

  /** `record.get("blob_urls") or []`, iterated: list entries, or the characters of a string; None for anything else. */
  function BlobUrls(record: Doc): Option<seq<string>>
  {
    match Or(Lookup(record, "blob_urls"), List([]))
    case List(xs) => Some(seq(|xs|, i requires 0 <= i < |xs| => Show(xs[i])))
    case Str(s) => Some(seq(|s|, i requires 0 <= i < |s| => [s[i]]))
    case _ => None
  }

  /** The store after `mark_content_published(content_id, media_id, container_id)`. */
  function Marked(items: map<string, Doc>, record: Doc, containerId: string, mediaId: string, now: string): map<string, Doc>
  {
    Updated(items, Show(ContentId(record)), CosmosDbService.PublishedUpdates(mediaId, containerId, now))
  }

  /** Publishing the container made so far, and marking the record. */
  function Finish(items: map<string, Doc>, record: Doc, containerId: string, calls: seq<IgCall>, ig: Instagram, now: string): Run
  {
    var call := PublishContainer(containerId);
    match ig(call)
    case Err(e) => Run(Raised(ContentId(record), e), calls + [call], items)
    case Ok(mediaId) =>
      Run(Published(ContentId(record), Get(record, "media_type", Str("image")), Get(record, "post_type", Str("post")),
                    containerId, mediaId, AccountLabel(record)),
          calls + [call], Marked(items, record, containerId, mediaId, now))
  }

  function CarouselRun(items: map<string, Doc>, record: Doc, ig: Instagram, now: string): Run
  {
    match BlobUrls(record)
    case None => Run(Raised(ContentId(record), "blob_urls is not iterable"), [], items)
    case Some(urls) =>
      if urls == [] then Run(NoCarouselUrls(ContentId(record)), [], items)
      else
        var ch := MakeChildren(urls, ig);
        if ch.error.Some? then Run(Raised(ContentId(record), ch.error.value), ch.calls, items)
        else
          var call := CreateCarousel(ch.ids, BuildCaption(record));
          match ig(call)
          case Err(e) => Run(Raised(ContentId(record), e), ch.calls + [call], items)
          case Ok(containerId) => Finish(items, record, containerId, ch.calls + [call], ig, now)
  }

  function VideoRun(items: map<string, Doc>, record: Doc, ig: Instagram, now: string): Run
  {
    var call := CreateVideo(Show(Get(record, "blob_url", Str(""))), BuildCaption(record));
    match ig(call)
    case Err(e) => Run(Raised(ContentId(record), e), [call], items)
    case Ok(containerId) =>
      var p := Poll(containerId, ig, 0);
      match p.0
      case Finished => Finish(items, record, containerId, [call] + p.1, ig, now)
      case StatusError(code) => Run(VideoFailed(ContentId(record), code), [call] + p.1, items)
      case TimedOut => Run(VideoTimedOut(ContentId(record)), [call] + p.1, items)
      case PollRaised(e) => Run(Raised(ContentId(record), e), [call] + p.1, items)
  }

  function ImageRun(items: map<string, Doc>, record: Doc, ig: Instagram, now: string): Run
  {
    var call := CreateImage(Show(Get(record, "blob_url", Str(""))), BuildCaption(record));
    match ig(call)
    case Err(e) => Run(Raised(ContentId(record), e), [call], items)
    case Ok(containerId) => Finish(items, record, containerId, [call], ig, now)
  }

  predicate IsVideo(record: Doc)
  {
    Get(record, "post_type", Str("post")) == Str("reel") || Get(record, "media_type", Str("image")) == Str("video")
  }

  /** Where `_publish_record` goes: a refusal, or the carousel, video or image path. */
  datatype Route = Refused(refusal: Outcome) | CarouselRoute | VideoRoute | ImageRoute

  /** The checks `_publish_record` makes before any Instagram call, in its order. */
  function RouteOf(record: Doc): (r: Route)
    ensures r.Refused? ==> !r.refusal.Published?
  {
    var approval := Get(record, "approval_status", Str("pending"));
    if approval != Str("approved") then Refused(NotApproved(ContentId(record), approval))
    else if Lookup(record, "publish_status") == Str("published") then
      Refused(AlreadyPublished(ContentId(record), Get(record, "instagram_media_id", Str(""))))
    else if !Truthy(Get(record, "blob_url", Str(""))) then Refused(NoBlobUrl(ContentId(record)))
    else if Get(record, "post_type", Str("post")) == Str("carousel") then CarouselRoute
    else if IsVideo(record) then VideoRoute
    else ImageRoute
  }

  /** `_publish_record(record)`. */
  function PublishRun(items: map<string, Doc>, record: Doc, ig: Instagram, now: string): Run
  {
    match RouteOf(record)
    case Refused(o) => Run(o, [], items)
    case CarouselRoute => CarouselRun(items, record, ig, now)
    case VideoRoute => VideoRun(items, record, ig, now)
    case ImageRoute => ImageRun(items, record, ig, now)
  }

  /** Publishing an existing container and marking the record. */
  method PublishAndMark(c: Container, record: Doc, containerId: string, calls: seq<IgCall>, ig: Instagram, now: string)
    returns (o: Outcome, calls': seq<IgCall>)
    requires c.Valid()
    modifies c`items
    ensures c.Valid()
    ensures Run(o, calls', c.items) == Finish(old(c.items), record, containerId, calls, ig, now)
  {
    var call := PublishContainer(containerId);
    calls' := calls + [call];
    var published := ig(call);
    if published.Err? {
      return Raised(ContentId(record), published.error), calls';
    }
    var _ := CosmosDbService.MarkContentPublished(c, Show(ContentId(record)), published.value, containerId, now);
    o := Published(ContentId(record), Get(record, "media_type", Str("image")), Get(record, "post_type", Str("post")),
                   containerId, published.value, AccountLabel(record));
  }

  /** The child loop of a carousel. */
  method CreateChildren(urls: seq<string>, ig: Instagram) returns (ch: Children)
    ensures ch == MakeChildren(urls, ig)
  {
    var ids: seq<string> := [];
    var calls: seq<IgCall> := [];
    var i := 0;
    while i < |urls|
      invariant i <= |urls|
      invariant MakeChildren(urls[..i], ig) == Children(ids, calls, None)
    {
      assert urls[..i + 1][..i] == urls[..i];
      var call := CreateImage(urls[i], "");
      calls := calls + [call];
      var child := ig(call);
      if child.Err? {
        ChildErrorSticks(urls, i + 1, ig);
        return Children(ids, calls, Some(child.error));
      }
      ids := ids + [child.value];
      i := i + 1;
    }
    assert urls[..i] == urls;
    ch := Children(ids, calls, None);
  }

  method PublishCarousel(c: Container, record: Doc, ig: Instagram, now: string) returns (o: Outcome, calls: seq<IgCall>)
    requires c.Valid()
    modifies c`items
    ensures c.Valid()
    ensures Run(o, calls, c.items) == CarouselRun(old(c.items), record, ig, now)
  {
    var urls := BlobUrls(record);
    if urls.None? {
      return Raised(ContentId(record), "blob_urls is not iterable"), [];
    }
    if urls.value == [] {
      return NoCarouselUrls(ContentId(record)), [];
    }
    var ch := CreateChildren(urls.value, ig);
    if ch.error.Some? {
      return Raised(ContentId(record), ch.error.value), ch.calls;
    }
    var call := CreateCarousel(ch.ids, BuildCaption(record));
    calls := ch.calls + [call];
    var container := ig(call);
    if container.Err? {
      return Raised(ContentId(record), container.error), calls;
    }
    o, calls := PublishAndMark(c, record, container.value, calls, ig, now);
  }

  /** The status-polling loop: at most ten checks, stopping at FINISHED, ERROR or an exception. */
  method PollStatus(container: string, ig: Instagram) returns (end: PollEnd, checks: seq<IgCall>)
    ensures (end, checks) == Poll(container, ig, 0)
  {
    checks := [];
    var attempt := 0;
    assert [] + Poll(container, ig, 0).1 == Poll(container, ig, 0).1;
    while attempt < MaxChecks
      invariant attempt <= MaxChecks
      invariant Poll(container, ig, 0).0 == Poll(container, ig, attempt).0
      invariant Poll(container, ig, 0).1 == checks + Poll(container, ig, attempt).1
    {
      var call := CheckStatus(container, attempt);
      var status := ig(call);
      ghost var before := checks;
      checks := checks + [call];
      if status.Err? {
        assert Poll(container, ig, attempt).1 == [call];
        return PollRaised(status.error), checks;
      }
      if status.value == "FINISHED" {
        assert Poll(container, ig, attempt).1 == [call];
        return Finished, checks;
      }
      if status.value == "ERROR" {
        assert Poll(container, ig, attempt).1 == [call];
        return StatusError(status.value), checks;
      }
      ghost var rest := Poll(container, ig, attempt + 1).1;
      assert Poll(container, ig, attempt).1 == [call] + rest;
      assert before + ([call] + rest) == checks + rest;
      attempt := attempt + 1;
    }
    assert checks + Poll(container, ig, attempt).1 == checks;
    end := TimedOut;
  }

  method PublishVideo(c: Container, record: Doc, ig: Instagram, now: string) returns (o: Outcome, calls: seq<IgCall>)
    requires c.Valid()
    modifies c`items
    ensures c.Valid()
    ensures Run(o, calls, c.items) == VideoRun(old(c.items), record, ig, now)
  {
    var call := CreateVideo(Show(Get(record, "blob_url", Str(""))), BuildCaption(record));
    var container := ig(call);
    if container.Err? {
      return Raised(ContentId(record), container.error), [call];
    }
    var end, checks := PollStatus(container.value, ig);
    calls := [call] + checks;
    match end
    case Finished =>
      o, calls := PublishAndMark(c, record, container.value, calls, ig, now);
    case StatusError(code) =>
      o := VideoFailed(ContentId(record), code);
    case TimedOut =>
      o := VideoTimedOut(ContentId(record));
    case PollRaised(e) =>
      o := Raised(ContentId(record), e);
  }

  method PublishImage(c: Container, record: Doc, ig: Instagram, now: string) returns (o: Outcome, calls: seq<IgCall>)
    requires c.Valid()
    modifies c`items
    ensures c.Valid()
    ensures Run(o, calls, c.items) == ImageRun(old(c.items), record, ig, now)
  {
    var call := CreateImage(Show(Get(record, "blob_url", Str(""))), BuildCaption(record));
    var container := ig(call);
    if container.Err? {
      return Raised(ContentId(record), container.error), [call];
    }
    o, calls := PublishAndMark(c, record, container.value, [call], ig, now);
  }

  /** `_publish_record`. */
  method PublishRecord(c: Container, record: Doc, igs: Accounts, now: string) returns (o: Outcome, calls: seq<IgCall>)
    requires c.Valid()
    modifies c`items
    ensures c.Valid()
    ensures Run(o, calls, c.items) == PublishRun(old(c.items), record, igs(AccountOf(record)), now)
  {
    var ig := igs(AccountOf(record));
    match RouteOf(record)
    case Refused(refusal) =>
      o, calls := refusal, [];
    case CarouselRoute =>
      o, calls := PublishCarousel(c, record, ig, now);
    case VideoRoute =>
      o, calls := PublishVideo(c, record, ig, now);
    case ImageRoute =>
      o, calls := PublishImage(c, record, ig, now);
  }

  /**
   * A record that is not approved, already published, without `blob_url`,
   * or a carousel without URLs, gets its refusal with no Instagram call and
   * no store write; an already-published one reports its stored media id.
   */
  lemma GuardsMakeNoCalls(items: map<string, Doc>, record: Doc, ig: Instagram, now: string)
    ensures var r := PublishRun(items, record, ig, now);
      var approved := Get(record, "approval_status", Str("pending")) == Str("approved");
      var published := Lookup(record, "publish_status") == Str("published");
      && (!approved ==> r == Run(NotApproved(ContentId(record), Get(record, "approval_status", Str("pending"))), [], items))
      && (approved && published ==>
            r == Run(AlreadyPublished(ContentId(record), Get(record, "instagram_media_id", Str(""))), [], items)
            && StatusText(r.outcome) == "ok")
      && (approved && !published && !Truthy(Get(record, "blob_url", Str(""))) ==> r == Run(NoBlobUrl(ContentId(record)), [], items))
      && (approved && !published && Truthy(Get(record, "blob_url", Str("")))
          && Get(record, "post_type", Str("post")) == Str("carousel") && BlobUrls(record) == Some([]) ==>
            r == Run(NoCarouselUrls(ContentId(record)), [], items))
  {
  }

  /**
   * The store is written only for a published outcome, which always
   * follows a successful publish call and marks the record with the media
   * and container ids; every other outcome leaves the store as it was.
   */
  predicate MarksOnlyOnPublish(items: map<string, Doc>, record: Doc, ig: Instagram, now: string, r: Run)
  {
    && (!r.outcome.Published? ==> r.items == items)
    && (r.outcome.Published? ==>
          && r.calls != [] && r.calls[|r.calls| - 1] == PublishContainer(r.outcome.containerId)
          && ig(PublishContainer(r.outcome.containerId)) == Ok(r.outcome.mediaId)
          && r.items == Marked(items, record, r.outcome.containerId, r.outcome.mediaId, now)
          && StatusText(r.outcome) == "published")
  }

  lemma FinishMarks(items: map<string, Doc>, record: Doc, containerId: string, calls: seq<IgCall>, ig: Instagram, now: string)
    ensures var r := Finish(items, record, containerId, calls, ig, now);
      && MarksOnlyOnPublish(items, record, ig, now, r)
      && (r.outcome.Published? <==> ig(PublishContainer(containerId)).Ok?)
      && (r.outcome.Published? ==> r.outcome.containerId == containerId)
  {
  }

  lemma CarouselMarks(items: map<string, Doc>, record: Doc, ig: Instagram, now: string)
    ensures MarksOnlyOnPublish(items, record, ig, now, CarouselRun(items, record, ig, now))
  {
    match BlobUrls(record)
    case None =>
    case Some(urls) =>
      if urls != [] {
        var ch := MakeChildren(urls, ig);
        if ch.error.None? {
          var call := CreateCarousel(ch.ids, BuildCaption(record));
          if ig(call).Ok? {
            FinishMarks(items, record, ig(call).value, ch.calls + [call], ig, now);
          }
        }
      }
  }

  /** A video whose creation raised, or whose polling did not end in FINISHED, leaves the store alone. */
  lemma VideoUnfinishedMarks(items: map<string, Doc>, record: Doc, ig: Instagram, now: string)
    requires var call := CreateVideo(Show(Get(record, "blob_url", Str(""))), BuildCaption(record));
      ig(call).Err? || Poll(ig(call).value, ig, 0).0 != Finished
    ensures var r := VideoRun(items, record, ig, now);
      r.items == items && !r.outcome.Published?
  {
  }

  lemma VideoFinishedMarks(items: map<string, Doc>, record: Doc, ig: Instagram, now: string)
    requires var call := CreateVideo(Show(Get(record, "blob_url", Str(""))), BuildCaption(record));
      ig(call).Ok? && Poll(ig(call).value, ig, 0).0 == Finished
    ensures MarksOnlyOnPublish(items, record, ig, now, VideoRun(items, record, ig, now))
  {
    var call := CreateVideo(Show(Get(record, "blob_url", Str(""))), BuildCaption(record));
    var containerId := ig(call).value;
    var p := Poll(containerId, ig, 0);
    assert VideoRun(items, record, ig, now) == Finish(items, record, containerId, [call] + p.1, ig, now);
    FinishMarks(items, record, containerId, [call] + p.1, ig, now);
  }

  lemma VideoMarks(items: map<string, Doc>, record: Doc, ig: Instagram, now: string)
    ensures MarksOnlyOnPublish(items, record, ig, now, VideoRun(items, record, ig, now))
  {
    var call := CreateVideo(Show(Get(record, "blob_url", Str(""))), BuildCaption(record));
    if ig(call).Ok? && Poll(ig(call).value, ig, 0).0 == Finished {
      VideoFinishedMarks(items, record, ig, now);
    } else {
      VideoUnfinishedMarks(items, record, ig, now);
    }
  }

  lemma ImageMarks(items: map<string, Doc>, record: Doc, ig: Instagram, now: string)
    ensures MarksOnlyOnPublish(items, record, ig, now, ImageRun(items, record, ig, now))
  {
    var call := CreateImage(Show(Get(record, "blob_url", Str(""))), BuildCaption(record));
    if ig(call).Ok? {
      FinishMarks(items, record, ig(call).value, [call], ig, now);
    }
  }

  lemma MarkedOnlyWhenPublished(items: map<string, Doc>, record: Doc, ig: Instagram, now: string)
    ensures MarksOnlyOnPublish(items, record, ig, now, PublishRun(items, record, ig, now))
  {
    match RouteOf(record)
    case Refused(_) =>
    case CarouselRoute => CarouselMarks(items, record, ig, now);
    case VideoRoute => VideoMarks(items, record, ig, now);
    case ImageRoute => ImageMarks(items, record, ig, now);
  }

  /**
   * A published carousel made one empty-caption child per URL in order,
   * then one carousel container of those children with the built caption,
   * then the publish call.
   */
  lemma CarouselCalls(items: map<string, Doc>, record: Doc, ig: Instagram, now: string)
    requires Get(record, "post_type", Str("post")) == Str("carousel")
    requires PublishRun(items, record, ig, now).outcome.Published?
    ensures BlobUrls(record).Some?
    ensures var urls := BlobUrls(record).value;
      var r := PublishRun(items, record, ig, now);
      var ch := MakeChildren(urls, ig);
      && urls != [] && |ch.ids| == |urls|
      && r.calls == seq(|urls|, i requires 0 <= i < |urls| => CreateImage(urls[i], ""))
                    + [CreateCarousel(ch.ids, BuildCaption(record)), PublishContainer(r.outcome.containerId)]
  {
    ChildrenInOrder(BlobUrls(record).value, ig);
  }

  /**
   * A video makes at most ten status checks; it is published only after a
   * check answered FINISHED, and an ERROR answer or ten unfinished checks
   * leave the record unpublished.
   */
  lemma VideoChecks(items: map<string, Doc>, record: Doc, ig: Instagram, now: string)
    requires Get(record, "approval_status", Str("pending")) == Str("approved")
    requires Lookup(record, "publish_status") != Str("published")
    requires Truthy(Get(record, "blob_url", Str("")))
    requires Get(record, "post_type", Str("post")) != Str("carousel") && IsVideo(record)
    ensures var r := PublishRun(items, record, ig, now);
      var create := CreateVideo(Show(Get(record, "blob_url", Str(""))), BuildCaption(record));
      && r.calls != [] && r.calls[0] == create
      && (ig(create).Ok? ==>
            var p := Poll(ig(create).value, ig, 0);
            && |p.1| <= MaxChecks
            && (r.outcome.Published? ==> p.0 == Finished && ig(p.1[|p.1| - 1]) == Ok("FINISHED"))
            && (p.0 != Finished ==> r.items == items && !r.outcome.Published?))
  {
    VideoRouted(items, record, ig, now);
    var create := CreateVideo(Show(Get(record, "blob_url", Str(""))), BuildCaption(record));
    if ig(create).Ok? {
      VideoPollChecks(items, record, ig(create).value, ig, now);
    }
  }

  /** The video path once the container exists: the checks it polls and what they decide. */
  lemma VideoPollChecks(items: map<string, Doc>, record: Doc, containerId: string, ig: Instagram, now: string)
    requires ig(CreateVideo(Show(Get(record, "blob_url", Str(""))), BuildCaption(record))) == Ok(containerId)
    ensures var r := VideoRun(items, record, ig, now);
      var p := Poll(containerId, ig, 0);
      && r.calls != [] && r.calls[0] == CreateVideo(Show(Get(record, "blob_url", Str(""))), BuildCaption(record))
      && |p.1| <= MaxChecks
      && (r.outcome.Published? ==> p.0 == Finished && ig(p.1[|p.1| - 1]) == Ok("FINISHED"))
      && (p.0 != Finished ==> r.items == items && !r.outcome.Published?)
  {
    var create := CreateVideo(Show(Get(record, "blob_url", Str(""))), BuildCaption(record));
    var p := Poll(containerId, ig, 0);
    VideoEnds(items, record, containerId, ig, now);
    PollBounded(containerId, ig, 0);
    if p.0 == Finished {
      FinishCalls(items, record, containerId, [create] + p.1, ig, now);
    }
  }

  /** How the video path ends once the container exists: publishing after FINISHED, nothing written otherwise. */
  lemma VideoEnds(items: map<string, Doc>, record: Doc, containerId: string, ig: Instagram, now: string)
    requires ig(CreateVideo(Show(Get(record, "blob_url", Str(""))), BuildCaption(record))) == Ok(containerId)
    ensures var r := VideoRun(items, record, ig, now);
      var create := CreateVideo(Show(Get(record, "blob_url", Str(""))), BuildCaption(record));
      var p := Poll(containerId, ig, 0);
      && (p.0 == Finished ==> r == Finish(items, record, containerId, [create] + p.1, ig, now))
      && (p.0 != Finished ==> r.calls == [create] + p.1 && r.items == items && !r.outcome.Published?)
  {
  }

  /** Finishing appends the publish call to the calls made so far. */
  lemma FinishCalls(items: map<string, Doc>, record: Doc, containerId: string, calls: seq<IgCall>, ig: Instagram, now: string)
    ensures var r := Finish(items, record, containerId, calls, ig, now);
      r.calls == calls + [PublishContainer(containerId)] && (r.outcome.Published? ==> ig(PublishContainer(containerId)).Ok?)
  {
  }

  /** A record that passes the guards and is a reel or a video takes the video path. */
  lemma VideoRouted(items: map<string, Doc>, record: Doc, ig: Instagram, now: string)
    requires Get(record, "approval_status", Str("pending")) == Str("approved")
    requires Lookup(record, "publish_status") != Str("published")
    requires Truthy(Get(record, "blob_url", Str("")))
    requires Get(record, "post_type", Str("post")) != Str("carousel") && IsVideo(record)
    ensures PublishRun(items, record, ig, now) == VideoRun(items, record, ig, now)
  {
    assert RouteOf(record) == VideoRoute;
  }

  // ---------------------------------------------------------------------
  // publish_content_by_id, publish_all_pending, send_publish_confirmation
  // ---------------------------------------------------------------------

  function PublishByIdRun(items: map<string, Doc>, id: string, igs: Accounts, now: string): Run
  {
    if id in items then PublishRun(items, items[id], igs(AccountOf(items[id])), now) else Run(NotFound(id), [], items)
  }

  /** `publish_content_by_id`: an unknown id is an error with no call; otherwise the stored record is published. */
  method PublishContentById(c: Container, id: string, igs: Accounts, now: string) returns (o: Outcome, calls: seq<IgCall>)
    requires c.Valid()
    modifies c`items
    ensures c.Valid()
    ensures Run(o, calls, c.items) == PublishByIdRun(old(c.items), id, igs, now)
  {
    var record := CosmosDbService.GetContentById(c, id);
    if record.None? {
      return NotFound(id), [];
    }
    o, calls := PublishRecord(c, record.value, igs, now);
  }

  /** The filter of `publish_all_pending`: approved and waiting to be published. */
  function PendingFilter(): CosmosDbService.ContentFilter
  {
    CosmosDbService.ContentFilter("", "approved", "pending", "")
  }

  /** Publishing `records` one after the other, the store carried from one to the next. */
  datatype Batch = Batch(outcomes: seq<Outcome>, calls: seq<IgCall>, items: map<string, Doc>)

  function PublishEach(items: map<string, Doc>, records: seq<Doc>, igs: Accounts, now: string): Batch
  {
    if records == [] then Batch([], [], items)
    else PublishNext(PublishEach(items, records[..|records| - 1], igs, now), records[|records| - 1], igs, now)
  }

  /** One more record published after batch `b`. */
  function PublishNext(b: Batch, record: Doc, igs: Accounts, now: string): Batch
  {
    var r := PublishRun(b.items, record, igs(AccountOf(record)), now);
    Batch(b.outcomes + [r.outcome], b.calls + r.calls, r.items)
  }

  lemma EachStep(items: map<string, Doc>, records: seq<Doc>, i: nat, igs: Accounts, now: string)
    requires i < |records|
    ensures PublishEach(items, records[..i + 1], igs, now) == PublishNext(PublishEach(items, records[..i], igs, now), records[i], igs, now)
  {
    assert records[..i + 1][..i] == records[..i];
  }

  /**
   * Each record of a batch is published through its own account's service:
   * services of accounts no record targets never matter.
   */
  lemma {:induction false} EachUsesOwnAccount(items: map<string, Doc>, records: seq<Doc>, igs1: Accounts, igs2: Accounts,
                                              now: string)
    requires forall i :: 0 <= i < |records| ==> igs1(AccountOf(records[i])) == igs2(AccountOf(records[i]))
    ensures PublishEach(items, records, igs1, now) == PublishEach(items, records, igs2, now)
  {
    if records != [] {
      EachUsesOwnAccount(items, records[..|records| - 1], igs1, igs2, now);
    }
  }

  /** The batch counts an outcome as published when its status starts with "published". */
  predicate CountsAsPublished(o: Outcome)
  {
    StartsWith(StatusText(o), "published")
  }

  /** Only a publication's status text starts with "published". */
  lemma CountsAsPublishedIff(o: Outcome)
    ensures CountsAsPublished(o) <==> o.Published?
  {
    if !o.Published? {
      var t := StatusText(o);
      assert t == "ok" || t == "error";
      assert t[0] != 'p';
    }
  }

  /** How many outcomes count as published. */
  function CountPublished(outcomes: seq<Outcome>): (n: nat)
    ensures n <= |outcomes|
  {
    if outcomes == [] then 0
    else CountPublished(outcomes[..|outcomes| - 1]) + (if CountsAsPublished(outcomes[|outcomes| - 1]) then 1 else 0)
  }

  lemma CountStep(outcomes: seq<Outcome>, o: Outcome)
    ensures CountPublished(outcomes + [o]) == CountPublished(outcomes) + (if CountsAsPublished(o) then 1 else 0)
  {
    assert (outcomes + [o])[..|outcomes|] == outcomes;
  }

  /** The summary of `publish_all_pending`. */
  datatype Summary = Empty | Completed(processed: nat, published: nat, failed: nat, results: seq<Outcome>)

  /** The loop of `publish_all_pending`: each record in turn, counting the publications. */
  method PublishBatch(c: Container, records: seq<Doc>, igs: Accounts, now: string)
    returns (results: seq<Outcome>, published: nat, failed: nat, calls: seq<IgCall>)
    requires c.Valid()
    modifies c`items
    ensures c.Valid()
    ensures PublishEach(old(c.items), records, igs, now) == Batch(results, calls, c.items)
    ensures published == CountPublished(results) && failed == |results| - published
  {
    ghost var start := c.items;
    results, published, failed, calls := [], 0, 0, [];
    for i := 0 to |records|
      invariant c.Valid()
      invariant PublishEach(start, records[..i], igs, now) == Batch(results, calls, c.items)
      invariant published == CountPublished(results) && published + failed == |results|
    {
      EachStep(start, records, i, igs, now);
      var o, made := PublishRecord(c, records[i], igs, now);
      CountStep(results, o);
      results := results + [o];
      calls := calls + made;
      if CountsAsPublished(o) {
        published := published + 1;
      } else {
        failed := failed + 1;
      }
    }
    assert records[..|records|] == records;
  }

  /** The summary of a batch: every outcome is processed, and is either published or failed. */
  function Tally(outcomes: seq<Outcome>): Summary
  {
    var n := CountPublished(outcomes);
    Completed(|outcomes|, n, |outcomes| - n, outcomes)
  }

  /** The pending records published oldest first, one after the other. */
  function OldestFirst(items: map<string, Doc>, rows: seq<Doc>, igs: Accounts, now: string): Batch
  {
    PublishEach(items, SortBy(rows, CreatedAt, false), igs, now)
  }

  /** The non-empty branch of `publish_all_pending`: sort oldest first, publish each, count. */
  method PublishOldestFirst(c: Container, pending: seq<Doc>, igs: Accounts, now: string) returns (s: Summary, calls: seq<IgCall>)
    requires c.Valid()
    modifies c`items
    ensures c.Valid()
    ensures var b := OldestFirst(old(c.items), pending, igs, now);
      s == Tally(b.outcomes) && calls == b.calls && c.items == b.items
  {
    var results, published, failed;
    results, published, failed, calls := PublishBatch(c, SortBy(pending, CreatedAt, false), igs, now);
    s := Completed(|results|, published, failed, results);
    assert s == Tally(results);
  }

  /** `publish_all_pending`: query, sort oldest first, publish each, count. */
  method PublishAllPending(c: Container, limit: int, igs: Accounts, now: string) returns (s: Summary, calls: seq<IgCall>)
    requires c.Valid()
    modifies c`items
    ensures c.Valid()
    ensures var rows := old(CosmosDbService.QueryRows(c, PendingFilter(), limit));
      && (rows == [] ==> s == Empty && calls == [] && c.items == old(c.items))
      && (rows != [] ==>
            var b := OldestFirst(old(c.items), rows, igs, now);
            && s == Tally(b.outcomes)
            && calls == b.calls && c.items == b.items)
  {
    var pending := CosmosDbService.QueryContent(c, PendingFilter(), limit);
    if pending == [] {
      return Empty, [];
    }
    s, calls := PublishOldestFirst(c, pending, igs, now);
  }

  /** Only a publication counts as published: "ok" for an already-published record counts as failed. */
  lemma {:induction false} CountsPublications(outcomes: seq<Outcome>)
    ensures CountPublished(outcomes) == |set i | 0 <= i < |outcomes| && outcomes[i].Published?|
  {
    if outcomes != [] {
      var n := |outcomes| - 1;
      var prefix := outcomes[..n];
      CountsPublications(prefix);
      CountsAsPublishedIff(outcomes[n]);
      assert outcomes == prefix + [outcomes[n]];
      CountStep(prefix, outcomes[n]);
      PublishedIndicesSnoc(prefix, outcomes[n]);
    }
  }

  /** The published positions of `outcomes + [o]`: those of `outcomes`, and the last one if `o` is a publication. */
  lemma PublishedIndicesSnoc(outcomes: seq<Outcome>, o: Outcome)
    ensures var all := outcomes + [o];
      |set i | 0 <= i < |all| && all[i].Published?|
        == |set i | 0 <= i < |outcomes| && outcomes[i].Published?| + (if o.Published? then 1 else 0)
  {
    var all := outcomes + [o];
    var n := |outcomes|;
    var before := set i | 0 <= i < n && outcomes[i].Published?;
    var after := set i | 0 <= i < |all| && all[i].Published?;
    assert n !in before;
    if o.Published? {
      assert after == before + {n};
    } else {
      assert after == before;
    }
  }

  /** The batch has one outcome per queried record, so `processed` is the number of records. */
  lemma {:induction false} EachOnce(items: map<string, Doc>, records: seq<Doc>, igs: Accounts, now: string)
    ensures |PublishEach(items, records, igs, now).outcomes| == |records|
  {
    if records != [] {
      EachOnce(items, records[..|records| - 1], igs, now);
    }
  }

  /** The records are taken oldest first, and every one of them is approved and pending publication. */
  lemma PendingOrder(c: Container, limit: int)
    requires c.Valid()
    ensures var records := SortBy(CosmosDbService.QueryRows(c, PendingFilter(), limit), CreatedAt, false);
      && SortedBy(records, CreatedAt, false)
      && (forall d :: d in records ==>
            (d in c.items.Values && Lookup(d, "approval_status") == Str("approved") && Lookup(d, "publish_status") == Str("pending")))
  {
    var rows := CosmosDbService.QueryRows(c, PendingFilter(), limit);
    CosmosDbService.QueryContentSpec(c, PendingFilter(), limit, rows);
    SortBySorted(rows, CreatedAt, false);
    SortByPermutes(rows, CreatedAt, false);
    forall d | d in SortBy(rows, CreatedAt, false)
      ensures d in rows
    {
      assert d in multiset(SortBy(rows, CreatedAt, false));
    }
  }

  // ---------------------------------------------------------------------
  // Listings
  // ---------------------------------------------------------------------

  /** The configured accounts, name and account id, in configuration order. */
  datatype Listing = Listing(accounts: seq<(string, string)>, default: string, count: nat)

  /** `list_instagram_accounts`: every account, the first name as the default ("" with none), and the count. */
  function ListInstagramAccounts(accounts: seq<(string, string)>): (l: Listing)
    ensures l.accounts == accounts && l.count == |accounts|
    ensures accounts == [] ==> l.default == []
    ensures accounts != [] ==> l.default == accounts[0].0
  {
    Listing(accounts, if accounts == [] then "" else accounts[0].0, |accounts|)
  }

  /** `get_publish_history`: records whose publish status is "published", newest first. */
  function HistoryFilter(): CosmosDbService.ContentFilter
  {
    CosmosDbService.ContentFilter("", "", "published", "")
  }

  /** `get_pending_to_be_published` and `get_publish_history`: the matching rows and their number. */
  method ListContent(c: Container, f: CosmosDbService.ContentFilter, limit: int) returns (count: nat, rows: seq<Doc>)
    requires c.Valid()
    ensures rows == CosmosDbService.QueryRows(c, f, limit) && count == |rows|
  {
    rows := CosmosDbService.QueryContent(c, f, limit);
    count := |rows|;
  }

  /** The history lists only published records, newest first, at most `limit` of them. */
  lemma HistoryRows(c: Container, limit: int)
    requires c.Valid()
    ensures var rows := CosmosDbService.QueryRows(c, HistoryFilter(), limit);
      && SortedBy(rows, CreatedAt, true)
      && (limit >= 0 ==> |rows| <= limit)
      && (forall d :: d in rows ==> (d in c.items.Values && Lookup(d, "publish_status") == Str("published")))
  {
    CosmosDbService.QueryContentSpec(c, HistoryFilter(), limit, CosmosDbService.QueryRows(c, HistoryFilter(), limit));
  }

  /** `get_content_details`: the stored record, or an error for an unknown id. */
  method GetContentDetails(c: Container, id: string) returns (r: Result<Doc>)
    requires c.Valid()
    ensures r.Ok? <==> id in c.items
    ensures r.Ok? ==> r.value == c.items[id]
  {
    var record := CosmosDbService.GetContentById(c, id);
    if record.None? {
      return Err("Content " + id + " not found");
    }
    r := Ok(record.value);
  }

  /** The result of `send_publish_confirmation`. */
  datatype Confirmation = ConfirmNotFound(id: string) | NotPublishedYet(id: string) | ConfirmationSent(id: string)

  function Confirm(items: map<string, Doc>, id: string): (Confirmation, Option<Doc>)
  {
    if id !in items then (ConfirmNotFound(id), None)
    else if Lookup(items[id], "publish_status") != Str("published") then (NotPublishedYet(id), None)
    else (ConfirmationSent(id), Some(items[id]))
  }

  /** `send_publish_confirmation`; `notified` is the record handed to the notifier, if any. */
  method SendPublishConfirmation(c: Container, id: string) returns (r: Confirmation, notified: Option<Doc>)
    requires c.Valid()
    ensures (r, notified) == Confirm(c.items, id)
  {
    var record := CosmosDbService.GetContentById(c, id);
    if record.None? {
      return ConfirmNotFound(id), None;
    }
    if Lookup(record.value, "publish_status") != Str("published") {
      return NotPublishedYet(id), None;
    }
    r, notified := ConfirmationSent(id), Some(record.value);
  }

  /** A confirmation goes out exactly for a stored, published record, and it is that record. */
  lemma ConfirmOnlyPublished(items: map<string, Doc>, id: string)
    ensures var (r, n) := Confirm(items, id);
      && (n.Some? <==> id in items && Lookup(items[id], "publish_status") == Str("published"))
      && (n.Some? ==> n.value == items[id] && r == ConfirmationSent(id))
  {
  }

  /** The methods services/notification_service.py gives NotificationService. */
  const NotifierMethods: set<string> := {"notify_new_review", "_send_acs_email", "_send_slack"}

  /** Whether `_notification_service.notify_published` finds a method to call. */
  predicate NotifyPublishedDefined()
  {
    "notify_published" in NotifierMethods
  }

  /**
   * `send_publish_confirmation` as written: a published record is handed to
   * `notify_published`, which NotificationService does not define, so the
   * tool raises AttributeError where it would confirm.
   */
  function ConfirmAsWritten(items: map<string, Doc>, id: string): Result<Confirmation>
  {
    var (r, notified) := Confirm(items, id);
    if notified.Some? && !NotifyPublishedDefined() then
      Err("'NotificationService' object has no attribute 'notify_published'")
    else Ok(r)
  }

  /**
   * As written no confirmation is ever sent: the tool raises exactly for a
   * stored, published record, and answers as intended for the others.
   */
  lemma ConfirmationNeverSent(items: map<string, Doc>, id: string)
    ensures ConfirmAsWritten(items, id) != Ok(ConfirmationSent(id))
    ensures ConfirmAsWritten(items, id).Err? <==> id in items && Lookup(items[id], "publish_status") == Str("published")
    ensures ConfirmAsWritten(items, id).Ok? ==> ConfirmAsWritten(items, id).value == Confirm(items, id).0
  {
    assert !NotifyPublishedDefined();
  }
}
