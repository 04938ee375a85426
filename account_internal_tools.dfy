/**
 * The internal tools of the account agents (agents/account/internal_tools.py):
 * the same published-history query as the account tools, filtered by an
 * explicit loop, and a frequency report whose unknown post types all fall
 * into the "other" bucket. Their review-status check is the one of
 * `AccountTools.GetReviewStatus`, word for word.
 */
module AccountInternalTools {
  import opened Wrappers
  import opened Text
  import opened Docs
  import opened Store
  import opened Ordering
  import MediaMetadataService
  import InstaAccountTools
  import AccountTools

  /** `OfType` on a sequence grown at the end keeps the new item exactly when it has the type. */
  lemma {:induction false} OfTypeSnoc(items: seq<Doc>, d: Doc, t: string)
    ensures InstaAccountTools.OfType(items + [d], t)
         == InstaAccountTools.OfType(items, t) + (if InstaAccountTools.HasType(d, t) then [d] else [])
  {
    if items == [] {
      assert [] + [d] == [d];
      assert [d][1..] == [];
    } else {
      var xs := items + [d];
      assert xs[0] == items[0];
      assert xs[1..] == items[1..] + [d];
      OfTypeSnoc(items[1..], d, t);
    }
  }

  /**
   * The loop of `get_recent_post_history` that keeps the items whose
   * lower-cased post type or media type is `t`: the comprehension of the
   * account tools, item for item and in order.
   */
  method FilterByType(items: seq<Doc>, t: string) returns (filtered: seq<Doc>)
    ensures filtered == InstaAccountTools.OfType(items, t)
  {
    filtered := [];
    var i := 0;
    while i < |items|
      invariant 0 <= i <= |items|
      invariant filtered == InstaAccountTools.OfType(items[..i], t)
    {
      var item := items[i];
      assert items[..i + 1] == items[..i] + [item];
      OfTypeSnoc(items[..i], item, t);
      var postType := InstaAccountTools.LowerField(item, "post_type");
      var mediaType := InstaAccountTools.LowerField(item, "media_type");
      if t == postType || t == mediaType {
        filtered := filtered + [item];
      }
      i := i + 1;
    }
    assert items[..|items|] == items;
  }

  /**
   * `get_recent_post_history`: the account's published records (three times
   * `limit`, at least 30), filtered by the stripped, lower-cased type and cut
   * to `limit`; the same items as the account tools' store fallback.
   */
  method GetRecentPostHistory(c: Container, acct: InstaAccountTools.Account, limit: int, contentType: string)
    returns (items: seq<Doc>)
    requires c.Valid()
    ensures var fetch := if limit * 3 > 30 then limit * 3 else 30;
      items == InstaAccountTools.TypeFiltered(AccountTools.PublishedRows(c, acct.targetAccountId, fetch), contentType, limit)
    ensures items == AccountTools.GetPostingHistory(c, acct, limit, contentType, None).items
  {
    var fetch := if limit * 3 > 30 then limit * 3 else 30;
    items := MediaMetadataService.QueryContent(c, "", "published", acct.targetAccountId, fetch);
    assert items == AccountTools.PublishedRows(c, acct.targetAccountId, fetch);
    var normalized := Lower(Strip(contentType));
    if normalized != [] {
      items := FilterByType(items, normalized);
    }
    items := Take(items, limit);
  }

  /** The keys of the report, those of the counts every report starts from. */
  const BucketKeys: set<string> := {"post", "reel", "carousel", "other"}

  lemma InitialBucketKeys()
    ensures InstaAccountTools.InitialCounts().Keys == BucketKeys
  {
  }

  /** The bucket a post type is counted in: its own key, or "other" for any type without one. */
  function Bucket(t: string): (b: string)
    ensures b in BucketKeys
    ensures b == t <==> t in BucketKeys
  {
    if t in BucketKeys then t else "other"
  }

  /**
   * The loop's update, `counts[t] += 1` when `t` is a key and
   * `counts["other"] += 1` otherwise, adds one to the bucket of `t` and
   * keeps the keys.
   */
  lemma BucketIncrement(m: map<string, int>, t: string)
    requires m.Keys == BucketKeys
    ensures var m' := if t in m then m[t := m[t] + 1] else m["other" := m["other"] + 1];
      && m' == AddOne(m, Bucket(t))
      && m'.Keys == BucketKeys
  {
  }

  /** `m[b] + 1` under `b`, counting from 0 for a new key. */
  function AddOne(m: map<string, int>, b: string): (r: map<string, int>)
    ensures r.Keys == m.Keys + {b}
  {
    m[b := (if b in m then m[b] else 0) + 1]
  }

  /** The counts after each type in turn adds one to its bucket. */
  function BucketTally(types: seq<string>): map<string, int>
  {
    if types == [] then InstaAccountTools.InitialCounts()
    else
      var m := BucketTally(types[..|types| - 1]);
      AddOne(m, Bucket(types[|types| - 1]))
  }

  /** The report has exactly the four initial keys. */
  lemma {:induction false} BucketTallyKeys(types: seq<string>)
    ensures BucketTally(types).Keys == BucketKeys
  {
    if types == [] {
      InitialBucketKeys();
    } else {
      BucketTallyKeys(types[..|types| - 1]);
    }
  }

  /** "post", "reel" and "carousel" hold the number of items of that type. */
  lemma {:induction false} BucketTallyKnown(types: seq<string>, k: string)
    requires k in {"post", "reel", "carousel"}
    ensures k in BucketTally(types) && BucketTally(types)[k] == multiset(types)[k]
  {
    BucketTallyKeys(types);
    if types != [] {
      var init := types[..|types| - 1];
      var t := types[|types| - 1];
      assert types == init + [t];
      assert multiset(types)[k] == multiset(init)[k] + (if t == k then 1 else 0);
      BucketTallyKeys(init);
      BucketTallyKnown(init, k);
      BucketTallySnoc(init, t);
    }
  }

  /** The number of types other than "post", "reel" and "carousel". */
  function Unnamed(types: seq<string>): nat
  {
    if types == [] then 0
    else Unnamed(types[..|types| - 1]) + (if types[|types| - 1] in {"post", "reel", "carousel"} then 0 else 1)
  }

  /** The unnamed types are all those that are not one of the three. */
  lemma {:induction false} UnnamedCount(types: seq<string>)
    ensures Unnamed(types) == |types| - multiset(types)["post"] - multiset(types)["reel"] - multiset(types)["carousel"]
  {
    if types != [] {
      var init := types[..|types| - 1];
      var t := types[|types| - 1];
      assert types == init + [t];
      assert multiset(types) == multiset(init) + multiset{t};
      UnnamedCount(init);
    }
  }

  /** "other" holds every item of any other type; with `UnnamedCount`, the four counts add up to the number of items. */
  lemma {:induction false} BucketTallyOther(types: seq<string>)
    ensures "other" in BucketTally(types)
    ensures BucketTally(types)["other"] == Unnamed(types)
  {
    BucketTallyKeys(types);
    if types != [] {
      var init := types[..|types| - 1];
      var t := types[|types| - 1];
      BucketTallyKeys(init);
      BucketTallyOther(init);
      BucketTallySnoc(init, t);
      assert types == init + [t];
    }
  }

  /**
   * For the three named types the bucketed report agrees with the account
   * tools' report, which gives every unknown type a key of its own.
   */
  lemma KnownTypesAgree(types: seq<string>, k: string)
    requires k in {"post", "reel", "carousel"}
    ensures k in InstaAccountTools.Tally(types) && k in BucketTally(types)
    ensures InstaAccountTools.Tally(types)[k] == BucketTally(types)[k]
  {
    InstaAccountTools.TallyCounts(types, k);
    BucketTallyKnown(types, k);
  }

  /** The counts after the counting loop has seen `items`: in-window items add one to their bucket. */
  function BucketsAfter(items: seq<Doc>, parse: string -> Option<int>, windowStart: int): map<string, int>
  {
    if items == [] then InstaAccountTools.InitialCounts()
    else
      var m := BucketsAfter(items[..|items| - 1], parse, windowStart);
      var d := items[|items| - 1];
      if InstaAccountTools.InWindowItem(d, parse, windowStart) then AddOne(m, Bucket(InstaAccountTools.LowerField(d, "post_type"))) else m
  }

  lemma BucketsAfterSnoc(items: seq<Doc>, d: Doc, parse: string -> Option<int>, windowStart: int)
    ensures var m := BucketsAfter(items, parse, windowStart);
      BucketsAfter(items + [d], parse, windowStart)
      == if InstaAccountTools.InWindowItem(d, parse, windowStart) then AddOne(m, Bucket(InstaAccountTools.LowerField(d, "post_type"))) else m
  {
    assert (items + [d])[..|items|] == items;
  }

  lemma BucketTallySnoc(types: seq<string>, t: string)
    ensures BucketTally(types + [t]) == AddOne(BucketTally(types), Bucket(t))
  {
    assert (types + [t])[..|types|] == types;
  }

  /** The loop's counts are the bucketed tally of the post types of the in-window items. */
  lemma {:induction false} BucketsAfterTally(items: seq<Doc>, parse: string -> Option<int>, windowStart: int)
    ensures BucketsAfter(items, parse, windowStart)
         == BucketTally(InstaAccountTools.PostTypes(InstaAccountTools.InWindow(items, parse, windowStart)))
  {
    if items != [] {
      var init := items[..|items| - 1];
      var d := items[|items| - 1];
      assert items == init + [d];
      BucketsAfterTally(init, parse, windowStart);
      var before := InstaAccountTools.InWindow(init, parse, windowStart);
      var m := BucketsAfter(init, parse, windowStart);
      assert m == BucketTally(InstaAccountTools.PostTypes(before));
      BucketsAfterSnoc(init, d, parse, windowStart);
      InstaAccountTools.InWindowSnoc(init, d, parse, windowStart);
      if InstaAccountTools.InWindowItem(d, parse, windowStart) {
        var t := InstaAccountTools.LowerField(d, "post_type");
        assert BucketsAfter(items, parse, windowStart) == AddOne(m, Bucket(t));
        InstaAccountTools.PostTypesSnoc(before, d);
        BucketTallySnoc(InstaAccountTools.PostTypes(before), t);
        assert InstaAccountTools.PostTypes(InstaAccountTools.InWindow(items, parse, windowStart))
            == InstaAccountTools.PostTypes(before) + [t];
      } else {
        assert BucketsAfter(items, parse, windowStart) == m;
        assert InstaAccountTools.InWindow(items, parse, windowStart) == before;
      }
    }
  }

  /** The report on `items`: the number of in-window items and their bucketed tally. */
  function Frequency(items: seq<Doc>, parse: string -> Option<int>, windowStart: int): (nat, map<string, int>)
  {
    var inWindow := InstaAccountTools.InWindow(items, parse, windowStart);
    (|inWindow|, BucketTally(InstaAccountTools.PostTypes(inWindow)))
  }

  /** The counting loop of `get_content_type_frequency` computes the report. */
  method CountByBucket(items: seq<Doc>, parse: string -> Option<int>, windowStart: int)
    returns (analyzed: nat, counts: map<string, int>)
    ensures (analyzed, counts) == Frequency(items, parse, windowStart)
  {
    counts := InstaAccountTools.InitialCounts();
    InitialBucketKeys();
    var inWindow: seq<Doc> := [];
    var i := 0;
    while i < |items|
      invariant 0 <= i <= |items|
      invariant inWindow == InstaAccountTools.InWindow(items[..i], parse, windowStart)
      invariant counts == BucketsAfter(items[..i], parse, windowStart)
      invariant counts.Keys == BucketKeys
    {
      var item := items[i];
      assert items[..i + 1] == items[..i] + [item];
      BucketsAfterSnoc(items[..i], item, parse, windowStart);
      InstaAccountTools.InWindowSnoc(items[..i], item, parse, windowStart);
      if InstaAccountTools.InWindowItem(item, parse, windowStart) {
        inWindow := inWindow + [item];
        var postType := InstaAccountTools.LowerField(item, "post_type");
        BucketIncrement(counts, postType);
        if postType in counts {
          counts := counts[postType := counts[postType] + 1];
        } else {
          counts := counts["other" := counts["other"] + 1];
        }
      }
      i := i + 1;
    }
    assert items[..|items|] == items;
    BucketsAfterTally(items, parse, windowStart);
    analyzed := |inWindow|;
  }

  /**
   * `get_content_type_frequency`: the in-window records among the latest
   * `limit` published ones, counted into the four fixed buckets.
   */
  method GetContentTypeFrequency(c: Container, acct: InstaAccountTools.Account, days: int, limit: int, now: int,
                                 parse: string -> Option<int>)
    returns (analyzed: nat, counts: map<string, int>)
    requires c.Valid()
    ensures (analyzed, counts) == Frequency(AccountTools.PublishedRows(c, acct.targetAccountId, limit), parse, InstaAccountTools.WindowStart(now, days))
  {
    var items := MediaMetadataService.QueryContent(c, "", "published", acct.targetAccountId, limit);
    assert items == AccountTools.PublishedRows(c, acct.targetAccountId, limit);
    analyzed, counts := CountByBucket(items, parse, InstaAccountTools.WindowStart(now, days));
  }
}
