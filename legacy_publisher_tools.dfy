/**
 * The earlier publisher tools (python/insta_agent/agents/publisher/tools.py).
 * They publish what the caller hands them (an image URL, a video URL or a
 * list of image URLs, and a caption) to a named account, read the approved
 * review queue, and complete the approved message after publishing. With no
 * Instagram token configured every publish is simulated with mock ids.
 *
 * The Instagram services are an oracle per account (`ig(target)`), as in
 * PublisherTools; the dry-run flag and the uuid hex strings of the mock ids
 * are parameters.
 */
module LegacyPublisherTools {
  import opened Wrappers
  import opened Text
  import opened Docs
  import opened AzureBusService
  import PT = PublisherTools
  import RQ = ReviewQueueService
  import LRQ = LegacyReviewQueueService
  import LAT = LegacyApproverTools
  import Ordering
  import Store

  // ---------------------------------------------------------------------
  // Accounts
  // ---------------------------------------------------------------------

  /** The Instagram service a call goes to: the default one or a named account's. */
  datatype IgTarget = DefaultAccount | AccountId(id: string)

  /** Instagram, per service. */
  type Instagrams = IgTarget -> PT.Instagram

  /** `accounts.get(name)`: the id of the first account of that name. */
  function AccountIdOf(accounts: seq<(string, string)>, name: string): (r: Option<string>)
    ensures r.None? <==> forall i :: 0 <= i < |accounts| ==> accounts[i].0 != name
    ensures r.Some? ==> exists i :: 0 <= i < |accounts| && accounts[i] == (name, r.value)
  {
    if accounts == [] then None
    else if accounts[0].0 == name then Some(accounts[0].1)
    else
      var r := AccountIdOf(accounts[1..], name);
      assert r.Some? ==> exists i :: 0 <= i < |accounts[1..]| && accounts[1..][i] == (name, r.value);
      r
  }

  /** `_get_ig_service`: the default service for no name, the named account's, or an error for an unknown one. */
  function ResolveAccount(accounts: seq<(string, string)>, name: string): Result<IgTarget>
  {
    if name == [] then Ok(DefaultAccount)
    else
      match AccountIdOf(accounts, name)
      case Some(id) => if id != [] then Ok(AccountId(id)) else Err("Unknown account '" + name + "'")
      case None => Err("Unknown account '" + name + "'")
  }

  /**
   * No name means the default service; a name is accepted exactly when an
   * account of that name is configured with a non-empty id, and then its id
   * is used.
   */
  lemma ResolveAccountSpec(accounts: seq<(string, string)>, name: string)
    ensures name == [] ==> ResolveAccount(accounts, name) == Ok(DefaultAccount)
    ensures name != [] ==>
      (ResolveAccount(accounts, name).Ok? <==> AccountIdOf(accounts, name).Some? && AccountIdOf(accounts, name).value != [])
    ensures ResolveAccount(accounts, name).Ok? && name != [] ==>
      exists i :: 0 <= i < |accounts| && accounts[i] == (name, ResolveAccount(accounts, name).value.id)
    ensures name != [] && (forall i :: 0 <= i < |accounts| ==> accounts[i].0 != name) ==> ResolveAccount(accounts, name).Err?
  {
  }

  // ---------------------------------------------------------------------
  // Results
  // ---------------------------------------------------------------------

  datatype Kind = Image | Reel | Carousel

  datatype Outcome =
    | Simulated(mediaId: string, containerId: string, kind: Kind, childrenCount: Option<nat>, preview: string)
    | Published(mediaId: string, containerId: string, kind: Kind, childrenCount: Option<nat>, account: string)
    | Failed(kind: Kind, error: string)
    | VideoFailed(statusCode: string)
    | VideoTimedOut(containerId: string)

  /** The result's `status` field. */
  function StatusText(o: Outcome): string
  {
    match o
    case Simulated(_, _, _, _, _) => "published (dry-run)"
    case Published(_, _, _, _, _) => "published"
    case _ => "error"
  }

  /** An outcome and the Instagram calls made, all to the service `target`. */
  datatype Run = Run(outcome: Outcome, target: Option<IgTarget>, calls: seq<PT.IgCall>)

  /** `_mock_id(prefix)`: the prefix, an underscore and twelve hex digits of a fresh uuid. */
  function MockId(prefix: string, hex: string): (id: string)
    ensures StartsWith(id, prefix + "_")
    ensures |hex| >= 12 ==> |id| == |prefix| + 13
  {
    assert (prefix + "_" + Head(hex, 12))[..|prefix + "_"|] == prefix + "_";
    prefix + "_" + Head(hex, 12)
  }

  /** The dry-run answer: mock ids, the first 100 characters of the caption, no call. */
  function Simulate(kind: Kind, childrenCount: Option<nat>, caption: string, containerHex: string, mediaHex: string): Run
  {
    Run(Simulated(MockId("media", mediaHex), MockId("container", containerHex), kind, childrenCount, Head(caption, 100)), None, [])
  }

  /** Publishing container `containerId` of kind `kind` on `target`. */
  function Finish(target: IgTarget, kind: Kind, containerId: string, childrenCount: Option<nat>, calls: seq<PT.IgCall>,
                  name: string, ig: Instagrams): Run
  {
    var call := PT.PublishContainer(containerId);
    match ig(target)(call)
    case Err(e) => Run(Failed(kind, e), Some(target), calls + [call])
    case Ok(mediaId) => Run(Published(mediaId, containerId, kind, childrenCount, OrText(name, "default")), Some(target), calls + [call])
  }

  // ---------------------------------------------------------------------
  // publish_image_post, publish_reel, publish_carousel
  // ---------------------------------------------------------------------

  function ImagePost(dryRun: bool, accounts: seq<(string, string)>, name: string, url: string, caption: string,
                     ig: Instagrams, containerHex: string, mediaHex: string): Run
  {
    if dryRun then Simulate(Image, None, caption, containerHex, mediaHex)
    else
      match ResolveAccount(accounts, name)
      case Err(e) => Run(Failed(Image, e), None, [])
      case Ok(target) =>
        var call := PT.CreateImage(url, caption);
        match ig(target)(call)
        case Err(e) => Run(Failed(Image, e), Some(target), [call])
        case Ok(containerId) => Finish(target, Image, containerId, None, [call], name, ig)
  }

  function ReelPost(dryRun: bool, accounts: seq<(string, string)>, name: string, url: string, caption: string,
                    ig: Instagrams, containerHex: string, mediaHex: string): Run
  {
    if dryRun then Simulate(Reel, None, caption, containerHex, mediaHex)
    else
      match ResolveAccount(accounts, name)
      case Err(e) => Run(Failed(Reel, e), None, [])
      case Ok(target) =>
        var call := PT.CreateVideo(url, caption);
        match ig(target)(call)
        case Err(e) => Run(Failed(Reel, e), Some(target), [call])
        case Ok(containerId) =>
          var p := PT.Poll(containerId, ig(target), 0);
          match p.0
          case Finished => Finish(target, Reel, containerId, None, [call] + p.1, name, ig)
          case StatusError(code) => Run(VideoFailed(code), Some(target), [call] + p.1)
          case TimedOut => Run(VideoTimedOut(containerId), Some(target), [call] + p.1)
          case PollRaised(e) => Run(Failed(Reel, e), Some(target), [call] + p.1)
  }

  function CarouselPost(dryRun: bool, accounts: seq<(string, string)>, name: string, urls: seq<string>, caption: string,
                        ig: Instagrams, containerHex: string, mediaHex: string): Run
  {
    if dryRun then Simulate(Carousel, Some(|urls|), caption, containerHex, mediaHex)
    else
      match ResolveAccount(accounts, name)
      case Err(e) => Run(Failed(Carousel, e), None, [])
      case Ok(target) =>
        var ch := PT.MakeChildren(urls, ig(target));
        if ch.error.Some? then Run(Failed(Carousel, ch.error.value), Some(target), ch.calls)
        else
          var call := PT.CreateCarousel(ch.ids, caption);
          match ig(target)(call)
          case Err(e) => Run(Failed(Carousel, e), Some(target), ch.calls + [call])
          case Ok(containerId) => Finish(target, Carousel, containerId, Some(|ch.ids|), ch.calls + [call], name, ig)
  }

  method PublishContainer(target: IgTarget, kind: Kind, containerId: string, childrenCount: Option<nat>, calls: seq<PT.IgCall>,
                          name: string, ig: Instagrams) returns (r: Run)
    ensures r == Finish(target, kind, containerId, childrenCount, calls, name, ig)
  {
    var call := PT.PublishContainer(containerId);
    var media := ig(target)(call);
    if media.Err? {
      return Run(Failed(kind, media.error), Some(target), calls + [call]);
    }
    r := Run(Published(media.value, containerId, kind, childrenCount, OrText(name, "default")), Some(target), calls + [call]);
  }

  /** `publish_image_post`. */
  method PublishImagePost(dryRun: bool, accounts: seq<(string, string)>, name: string, url: string, caption: string,
                          ig: Instagrams, containerHex: string, mediaHex: string) returns (r: Run)
    ensures r == ImagePost(dryRun, accounts, name, url, caption, ig, containerHex, mediaHex)
  {
    if dryRun {
      return Simulate(Image, None, caption, containerHex, mediaHex);
    }
    var target := ResolveAccount(accounts, name);
    if target.Err? {
      return Run(Failed(Image, target.error), None, []);
    }
    var call := PT.CreateImage(url, caption);
    var container := ig(target.value)(call);
    if container.Err? {
      return Run(Failed(Image, container.error), Some(target.value), [call]);
    }
    r := PublishContainer(target.value, Image, container.value, None, [call], name, ig);
  }

  /** `publish_reel`: create, check the status up to ten times, publish once FINISHED. */
  method PublishReel(dryRun: bool, accounts: seq<(string, string)>, name: string, url: string, caption: string,
                     ig: Instagrams, containerHex: string, mediaHex: string) returns (r: Run)
    ensures r == ReelPost(dryRun, accounts, name, url, caption, ig, containerHex, mediaHex)
  {
    if dryRun {
      return Simulate(Reel, None, caption, containerHex, mediaHex);
    }
    var target := ResolveAccount(accounts, name);
    if target.Err? {
      return Run(Failed(Reel, target.error), None, []);
    }
    var call := PT.CreateVideo(url, caption);
    var container := ig(target.value)(call);
    if container.Err? {
      return Run(Failed(Reel, container.error), Some(target.value), [call]);
    }
    var end, checks := PT.PollStatus(container.value, ig(target.value));
    match end
    case Finished =>
      r := PublishContainer(target.value, Reel, container.value, None, [call] + checks, name, ig);
    case StatusError(code) =>
      r := Run(VideoFailed(code), Some(target.value), [call] + checks);
    case TimedOut =>
      r := Run(VideoTimedOut(container.value), Some(target.value), [call] + checks);
    case PollRaised(e) =>
      r := Run(Failed(Reel, e), Some(target.value), [call] + checks);
  }

  /** `publish_carousel`: one child container per URL, the carousel, then publish. */
  method PublishCarousel(dryRun: bool, accounts: seq<(string, string)>, name: string, urls: seq<string>, caption: string,
                         ig: Instagrams, containerHex: string, mediaHex: string) returns (r: Run)
    ensures r == CarouselPost(dryRun, accounts, name, urls, caption, ig, containerHex, mediaHex)
  {
    if dryRun {
      return Simulate(Carousel, Some(|urls|), caption, containerHex, mediaHex);
    }
    var target := ResolveAccount(accounts, name);
    if target.Err? {
      return Run(Failed(Carousel, target.error), None, []);
    }
    var ch := PT.CreateChildren(urls, ig(target.value));
    if ch.error.Some? {
      return Run(Failed(Carousel, ch.error.value), Some(target.value), ch.calls);
    }
    var call := PT.CreateCarousel(ch.ids, caption);
    var container := ig(target.value)(call);
    if container.Err? {
      return Run(Failed(Carousel, container.error), Some(target.value), ch.calls + [call]);
    }
    r := PublishContainer(target.value, Carousel, container.value, Some(|ch.ids|), ch.calls + [call], name, ig);
  }

  /**
   * In dry-run mode nothing is sent to Instagram: the answer is the
   * simulated status with mock media and container ids and a caption
   * preview of at most 100 characters taken from its start.
   */
  lemma DryRunMakesNoCalls(accounts: seq<(string, string)>, name: string, url: string, urls: seq<string>, caption: string,
                           ig: Instagrams, containerHex: string, mediaHex: string)
    ensures var runs := [ImagePost(true, accounts, name, url, caption, ig, containerHex, mediaHex),
                         ReelPost(true, accounts, name, url, caption, ig, containerHex, mediaHex),
                         CarouselPost(true, accounts, name, urls, caption, ig, containerHex, mediaHex)];
      forall k :: 0 <= k < |runs| ==>
        && runs[k].calls == [] && runs[k].target == None && StatusText(runs[k].outcome) == "published (dry-run)"
        && StartsWith(runs[k].outcome.mediaId, "media_") && StartsWith(runs[k].outcome.containerId, "container_")
        && |runs[k].outcome.preview| <= 100 && caption[..|runs[k].outcome.preview|] == runs[k].outcome.preview
        && (|caption| >= 100 ==> |runs[k].outcome.preview| == 100)
    ensures CarouselPost(true, accounts, name, urls, caption, ig, containerHex, mediaHex).outcome.childrenCount == Some(|urls|)
  {
  }

  /** The outcome is published exactly when the last call published its container and Instagram gave the media id. */
  predicate PublishedAfterPublishCall(r: Run, ig: Instagrams, name: string)
  {
    r.outcome.Published? ==>
      && r.target.Some? && r.calls != []
      && r.calls[|r.calls| - 1] == PT.PublishContainer(r.outcome.containerId)
      && ig(r.target.value)(PT.PublishContainer(r.outcome.containerId)) == Ok(r.outcome.mediaId)
      && r.outcome.account == OrText(name, "default")
  }

  lemma FinishPublishes(target: IgTarget, kind: Kind, containerId: string, childrenCount: Option<nat>, calls: seq<PT.IgCall>,
                        name: string, ig: Instagrams)
    ensures PublishedAfterPublishCall(Finish(target, kind, containerId, childrenCount, calls, name, ig), ig, name)
    ensures Finish(target, kind, containerId, childrenCount, calls, name, ig).calls == calls + [PT.PublishContainer(containerId)]
  {
  }

  /**
   * A live post on an unknown account fails before any call; a published
   * one was published by its last call, on the resolved account's service.
   */
  lemma LivePostsSpec(accounts: seq<(string, string)>, name: string, url: string, urls: seq<string>, caption: string,
                      ig: Instagrams, containerHex: string, mediaHex: string)
    ensures ResolveAccount(accounts, name).Err? ==>
      var e := ResolveAccount(accounts, name).error;
      && ImagePost(false, accounts, name, url, caption, ig, containerHex, mediaHex) == Run(Failed(Image, e), None, [])
      && ReelPost(false, accounts, name, url, caption, ig, containerHex, mediaHex) == Run(Failed(Reel, e), None, [])
      && CarouselPost(false, accounts, name, urls, caption, ig, containerHex, mediaHex) == Run(Failed(Carousel, e), None, [])
    ensures PublishedAfterPublishCall(ImagePost(false, accounts, name, url, caption, ig, containerHex, mediaHex), ig, name)
    ensures PublishedAfterPublishCall(ReelPost(false, accounts, name, url, caption, ig, containerHex, mediaHex), ig, name)
    ensures PublishedAfterPublishCall(CarouselPost(false, accounts, name, urls, caption, ig, containerHex, mediaHex), ig, name)
  {
    match ResolveAccount(accounts, name)
    case Err(_) =>
    case Ok(target) =>
      var image := PT.CreateImage(url, caption);
      if ig(target)(image).Ok? {
        FinishPublishes(target, Image, ig(target)(image).value, None, [image], name, ig);
      }
      var video := PT.CreateVideo(url, caption);
      if ig(target)(video).Ok? {
        var p := PT.Poll(ig(target)(video).value, ig(target), 0);
        FinishPublishes(target, Reel, ig(target)(video).value, None, [video] + p.1, name, ig);
      }
      var ch := PT.MakeChildren(urls, ig(target));
      var carousel := PT.CreateCarousel(ch.ids, caption);
      if ch.error.None? && ig(target)(carousel).Ok? {
        FinishPublishes(target, Carousel, ig(target)(carousel).value, Some(|ch.ids|), ch.calls + [carousel], name, ig);
      }
  }

  /**
   * A reel checks its container at most ten times; it is published only
   * after a check answered FINISHED, right after that check.
   */
  lemma ReelChecks(accounts: seq<(string, string)>, name: string, url: string, caption: string, ig: Instagrams,
                   containerHex: string, mediaHex: string)
    requires ResolveAccount(accounts, name).Ok?
    ensures var target := ResolveAccount(accounts, name).value;
      var create := PT.CreateVideo(url, caption);
      var r := ReelPost(false, accounts, name, url, caption, ig, containerHex, mediaHex);
      && r.calls != [] && r.calls[0] == create
      && (ig(target)(create).Ok? ==>
            var p := PT.Poll(ig(target)(create).value, ig(target), 0);
            && |p.1| <= PT.MaxChecks
            && (r.outcome.Published? ==> p.0 == PT.Finished && ig(target)(p.1[|p.1| - 1]) == Ok("FINISHED"))
            && (r.outcome.VideoTimedOut? ==> r.outcome.containerId == ig(target)(create).value))
  {
    var target := ResolveAccount(accounts, name).value;
    var create := PT.CreateVideo(url, caption);
    if ig(target)(create).Ok? {
      PT.PollBounded(ig(target)(create).value, ig(target), 0);
    }
  }

  /**
   * A published carousel counts one child per URL, and its calls are one
   * empty-caption image container per URL in order, the carousel of those
   * children with the caption, and the publish call.
   */
  lemma CarouselCalls(accounts: seq<(string, string)>, name: string, urls: seq<string>, caption: string, ig: Instagrams,
                      containerHex: string, mediaHex: string)
    requires ResolveAccount(accounts, name).Ok?
    requires CarouselPost(false, accounts, name, urls, caption, ig, containerHex, mediaHex).outcome.Published?
    ensures var target := ResolveAccount(accounts, name).value;
      var r := CarouselPost(false, accounts, name, urls, caption, ig, containerHex, mediaHex);
      var ch := PT.MakeChildren(urls, ig(target));
      && r.outcome.childrenCount == Some(|urls|)
      && r.calls == seq(|urls|, i requires 0 <= i < |urls| => PT.CreateImage(urls[i], ""))
                    + [PT.CreateCarousel(ch.ids, caption), PT.PublishContainer(r.outcome.containerId)]
  {
    var target := ResolveAccount(accounts, name).value;
    var r := CarouselPost(false, accounts, name, urls, caption, ig, containerHex, mediaHex);
    var ch := PT.MakeChildren(urls, ig(target));
    CarouselRouted(accounts, name, urls, caption, ig, containerHex, mediaHex);
    PT.ChildrenInOrder(urls, ig(target));
    var children := seq(|urls|, i requires 0 <= i < |urls| => PT.CreateImage(urls[i], ""));
    assert r.calls == children + [PT.CreateCarousel(ch.ids, caption), PT.PublishContainer(r.outcome.containerId)];
  }

  /** A published live carousel went through every child, the carousel creation and the publish call. */
  lemma CarouselRouted(accounts: seq<(string, string)>, name: string, urls: seq<string>, caption: string, ig: Instagrams,
                       containerHex: string, mediaHex: string)
    requires ResolveAccount(accounts, name).Ok?
    requires CarouselPost(false, accounts, name, urls, caption, ig, containerHex, mediaHex).outcome.Published?
    ensures var target := ResolveAccount(accounts, name).value;
      var r := CarouselPost(false, accounts, name, urls, caption, ig, containerHex, mediaHex);
      var ch := PT.MakeChildren(urls, ig(target));
      var call := PT.CreateCarousel(ch.ids, caption);
      && ch.error.None?
      && r.outcome.childrenCount == Some(|ch.ids|)
      && r.calls == ch.calls + [call, PT.PublishContainer(r.outcome.containerId)]
  {
    var target := ResolveAccount(accounts, name).value;
    var ch := PT.MakeChildren(urls, ig(target));
    var call := PT.CreateCarousel(ch.ids, caption);
    FinishPublishes(target, Carousel, ig(target)(call).value, Some(|ch.ids|), ch.calls + [call], name, ig);
  }

  // ---------------------------------------------------------------------
  // check_publish_status, get_approved_items, mark_as_published
  // ---------------------------------------------------------------------

  /** `check_publish_status`: FINISHED in dry-run mode, otherwise one check on the default service. */
  function CheckPublishStatus(dryRun: bool, containerId: string, ig: Instagrams): (r: Result<string>)
    ensures dryRun ==> r == Ok("FINISHED")
    ensures !dryRun ==> r == ig(DefaultAccount)(PT.CheckStatus(containerId, 0))
  {
    if dryRun then Ok("FINISHED") else ig(DefaultAccount)(PT.CheckStatus(containerId, 0))
  }

  /** `get_approved_items`: the approved queue as the module's service (no account) peeks it. */
  method GetApprovedItems(approved: Queue) returns (count: nat, items: seq<Doc>)
    ensures items == RQ.Peeked(approved.entries, LAT.ServiceAccount) && count == |items|
  {
    items := RQ.PeekQueue(approved, LAT.ServiceAccount);
    count := |items|;
  }

  /** Without an account every peeked approved message is listed, oldest first. */
  lemma ApprovedItemsSpec(approved: seq<Queued>)
    ensures var batch := RQ.Batch(approved);
      var items := RQ.Peeked(approved, LAT.ServiceAccount);
      && multiset(items) == multiset(seq(|batch|, i requires 0 <= i < |batch| => batch[i].msg.body))
      && Ordering.SortedBy(items, Store.CreatedAt, false)
  {
    var batch := RQ.Batch(approved);
    var v := RQ.Visible(batch, LAT.ServiceAccount);
    LAT.UnfilteredVisible(batch);
    assert v == seq(|batch|, i requires 0 <= i < |batch| => batch[i].msg.body);
    Ordering.SortByPermutes(v, Store.CreatedAt, false);
    Ordering.SortBySorted(v, Store.CreatedAt, false);
  }

  /** `mark_as_published`: the earlier queue's `mark_published`. */
  method MarkAsPublished(approved: Queue, id: string, mediaId: string, now: string) returns (r: Result<Doc>, abandoned: seq<nat>)
    requires approved.Valid()
    modifies approved`entries
    ensures approved.Valid()
    ensures (r, abandoned, approved.entries) == LRQ.MarkPublishedStep(old(approved.entries), id, mediaId, now)
  {
    r, abandoned := LRQ.MarkPublished(approved, id, mediaId, now);
  }
}
