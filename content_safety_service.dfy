/**
 * Text and image moderation (services/content_safety_service.py). The
 * moderation service answers with one analysis per harm category; every
 * category at or above the severity threshold is blocked, and the content
 * is safe exactly when nothing is blocked. Errors fail open: the result is
 * safe and carries the error text.
 *
 * The service call is a parameter: `analyze` maps the text actually sent to
 * the service's answer, `Err` standing for any exception raised while
 * building the client, downloading the image or calling the service.
 */
module ContentSafetyService {
  import opened Wrappers
  import opened Text

  /** At or above this severity a category is a hard block (the service grades 0 to 6). */
  const SeverityThreshold: int := 2

  /** The service accepts at most this many characters of text. */
  const TextLimit: nat := 10000

  /** One entry of `categories_analysis`. */
  datatype Analysis = Analysis(category: string, severity: Option<int>)

  /** `SafetyResult`: verdict, severity per category, blocked categories in analysis order, error. */
  datatype SafetyResult = SafetyResult(safe: bool, categories: map<string, int>, blocked: seq<string>, error: Option<string>)

  /** `SafetyResult()` with its defaults. */
  function Default(): SafetyResult
  {
    SafetyResult(true, map[], [], None)
  }

  /** `SafetyResult(safe=True, error=str(e))`: the fail-open answer. */
  function FailOpen(e: string): SafetyResult
  {
    SafetyResult(true, map[], [], Some(e))
  }

  /** `item.severity or 0`: a missing severity reads as 0. */
  function SeverityOf(a: Analysis): (r: int)
    ensures a.severity.None? ==> r == 0
    ensures a.severity.Some? ==> r == a.severity.value
  {
    a.severity.GetOr(0)
  }

  predicate Blocks(a: Analysis)
  {
    SeverityOf(a) >= SeverityThreshold
  }

  /** The `categories` dict after the loop has seen `items`: later entries overwrite earlier ones. */
  function CategoriesOf(items: seq<Analysis>): map<string, int>
  {
    if items == [] then map[]
    else
      var last := items[|items| - 1];
      CategoriesOf(items[..|items| - 1])[last.category := SeverityOf(last)]
  }

  /** The `blocked` list after the loop has seen `items`. */
  function BlockedOf(items: seq<Analysis>): seq<string>
  {
    if items == [] then []
    else
      var last := items[|items| - 1];
      BlockedOf(items[..|items| - 1]) + (if Blocks(last) then [last.category] else [])
  }

  /** The result of a successful analysis. */
  function Summary(items: seq<Analysis>): SafetyResult
  {
    SafetyResult(BlockedOf(items) == [], CategoriesOf(items), BlockedOf(items), None)
  }

  /** The per-category loop shared by `analyze_text` and `analyze_image_from_url`. */
  method Tally(items: seq<Analysis>) returns (r: SafetyResult)
    ensures r == Summary(items)
    ensures r.safe <==> forall i :: 0 <= i < |items| ==> !Blocks(items[i])
  {
    var categories: map<string, int> := map[];
    var blocked: seq<string> := [];
    var i := 0;
    while i < |items|
      invariant 0 <= i <= |items|
      invariant categories == CategoriesOf(items[..i])
      invariant blocked == BlockedOf(items[..i])
    {
      assert items[..i + 1][..i] == items[..i];
      var item := items[i];
      var severity := SeverityOf(item);
      categories := categories[item.category := severity];
      if severity >= SeverityThreshold {
        blocked := blocked + [item.category];
      }
      i := i + 1;
    }
    assert items[..|items|] == items;
    r := SafetyResult(|blocked| == 0, categories, blocked, None);
    SafeIffNoneBlocks(items);
  }

  /** `analyze_text`, as a function of the text and the service's answer. */
  function TextResult(text: string, analyze: string -> Result<seq<Analysis>>): SafetyResult
  {
    if IsBlank(text) then Default()
    else
      match analyze(Head(text, TextLimit))
      case Ok(items) => Summary(items)
      case Err(e) => FailOpen(e)
  }

  /** `analyze_text`: blank text is safe without a call; otherwise the first 10,000 characters are analysed. */
  method AnalyzeText(text: string, analyze: string -> Result<seq<Analysis>>) returns (r: SafetyResult)
    ensures r == TextResult(text, analyze)
  {
    if IsBlank(text) {
      return Default();
    }
    var response := analyze(Head(text, TextLimit));
    match response
    case Err(e) =>
      r := FailOpen(e);
    case Ok(items) =>
      r := Tally(items);
  }

  /** `analyze_image_from_url`, with the download and the analysis as one answer. */
  function ImageResult(url: string, response: Result<seq<Analysis>>): SafetyResult
  {
    if url == [] then Default()
    else
      match response
      case Ok(items) => Summary(items)
      case Err(e) => FailOpen(e)
  }

  method AnalyzeImage(url: string, response: Result<seq<Analysis>>) returns (r: SafetyResult)
    ensures r == ImageResult(url, response)
  {
    if url == [] {
      return Default();
    }
    match response
    case Err(e) =>
      r := FailOpen(e);
    case Ok(items) =>
      r := Tally(items);
  }

  /** A category is blocked iff some analysis of it has severity at or above the threshold. */
  lemma {:induction false} BlockedIff(items: seq<Analysis>, c: string)
    ensures c in BlockedOf(items) <==> exists i :: 0 <= i < |items| && items[i].category == c && Blocks(items[i])
  {
    if items != [] {
      var init := items[..|items| - 1];
      BlockedIff(init, c);
      assert forall i :: 0 <= i < |init| ==> init[i] == items[i];
    }
  }

  /** The result is safe iff no analysis reaches the threshold. */
  lemma {:induction false} SafeIffNoneBlocks(items: seq<Analysis>)
    ensures BlockedOf(items) == [] <==> forall i :: 0 <= i < |items| ==> !Blocks(items[i])
  {
    if items != [] {
      var init := items[..|items| - 1];
      SafeIffNoneBlocks(init);
      assert forall i :: 0 <= i < |init| ==> init[i] == items[i];
    }
  }

  /** Every blocked category is a key of `categories`, and the keys are exactly the analysed categories. */
  lemma {:induction false} BlockedAreCategories(items: seq<Analysis>)
    ensures forall c :: c in BlockedOf(items) ==> c in CategoriesOf(items)
    ensures forall c :: c in CategoriesOf(items) <==> exists i :: 0 <= i < |items| && items[i].category == c
  {
    if items != [] {
      var init := items[..|items| - 1];
      BlockedAreCategories(init);
      assert forall i :: 0 <= i < |init| ==> init[i] == items[i];
    }
  }

  /** Blocked categories keep the order of the analyses: the loop over `a + b` blocks `a`'s first. */
  lemma {:induction false} BlockedInOrder(a: seq<Analysis>, b: seq<Analysis>)
    ensures BlockedOf(a + b) == BlockedOf(a) + BlockedOf(b)
    decreases |b|
  {
    if b == [] {
      assert a + b == a;
    } else {
      var init := b[..|b| - 1];
      assert (a + b)[..|a + b| - 1] == a + init;
      BlockedInOrder(a, init);
    }
  }

  predicate DistinctCategories(items: seq<Analysis>)
  {
    forall i, j :: 0 <= i < j < |items| ==> items[i].category != items[j].category
  }

  /**
   * With one analysis per category (the service's answer), `categories`
   * holds each category's own severity, and a category is blocked iff its
   * severity is at or above the threshold.
   */
  lemma {:induction false} DistinctThreshold(items: seq<Analysis>)
    requires DistinctCategories(items)
    ensures forall i :: 0 <= i < |items| ==>
      items[i].category in CategoriesOf(items) && CategoriesOf(items)[items[i].category] == SeverityOf(items[i])
    ensures forall c :: c in BlockedOf(items) <==> c in CategoriesOf(items) && CategoriesOf(items)[c] >= SeverityThreshold
  {
    if items != [] {
      var init := items[..|items| - 1];
      assert forall i :: 0 <= i < |init| ==> init[i] == items[i];
      DistinctThreshold(init);
      BlockedAreCategories(init);
      forall c
        ensures c in BlockedOf(items) <==> c in CategoriesOf(items) && CategoriesOf(items)[c] >= SeverityThreshold
      {
        var last := items[|items| - 1];
        if c != last.category && c in CategoriesOf(init) {
          var i :| 0 <= i < |init| && init[i].category == c;
        }
      }
    }
  }

  /** Blank text is safe with no categories, whatever the service would have said: no call is made. */
  lemma BlankTextSkipsService(text: string, analyze: string -> Result<seq<Analysis>>)
    requires IsBlank(text)
    ensures TextResult(text, analyze) == Default()
    ensures TextResult(text, analyze).safe && TextResult(text, analyze).categories == map[]
  {
  }

  /** Only the first 10,000 characters reach the service, so texts agreeing on them get the same verdict. */
  lemma OnlyHeadAnalysed(t1: string, t2: string, analyze: string -> Result<seq<Analysis>>)
    requires !IsBlank(t1) && !IsBlank(t2)
    requires Head(t1, TextLimit) == Head(t2, TextLimit)
    ensures TextResult(t1, analyze) == TextResult(t2, analyze)
  {
  }

  /** Any failure of the text or image analysis yields safe with the error recorded. */
  lemma FailsOpen(text: string, url: string, analyze: string -> Result<seq<Analysis>>, e: string)
    requires !IsBlank(text) && analyze(Head(text, TextLimit)) == Err(e)
    ensures TextResult(text, analyze).safe && TextResult(text, analyze).error == Some(e)
    ensures url != [] ==> ImageResult(url, Err(e)).safe && ImageResult(url, Err(e)).error == Some(e)
  {
  }

  /** An empty image URL yields the default safe result. */
  lemma EmptyUrlSafe(response: Result<seq<Analysis>>)
    ensures ImageResult([], response) == Default()
  {
  }
}
