/** The reviews tab (components/dashboard/tabs/reviews-tab.tsx): the site filter, the summary
    figures, the request bodies sent to the review-analysis route and how its reply is shown.
    Reviews and sites are JSON objects; the request itself is the runtime's, so its outcome is a
    parameter. */
module ReviewsTab {
  import opened Wrappers
  import opened JsText
  import opened Json
  import opened Seqs
  import opened TabList
  import Http
  import AnalyzeReview

  /** The filter keeps every review for "all", otherwise those whose `siteId` is the chosen id, in
      order. */
  function Filtered(reviews: seq<Row>, chosen: string): (r: seq<Row>)
    ensures chosen == "all" ==> r == reviews
    ensures chosen != "all" ==> forall i | 0 <= i < |r| :: Get(r[i], "siteId") == Some(Str(chosen))
    ensures chosen != "all" ==>
              forall i | 0 <= i < |reviews| :: reviews[i] in r <==> Get(reviews[i], "siteId") == Some(Str(chosen))
  {
    if chosen == "all" then reviews
    else
      FilterMembers(reviews, (x: Row) => Get(x, "siteId") == Some(Str(chosen)));
      Filter(reviews, (x: Row) => Get(x, "siteId") == Some(Str(chosen)))
  }

  // ---------------------------------------------------------------------------------------------
  // Summary figures

  /** `Math.round(x)`: the nearest integer, halves rounded up. */
  function Round(x: real): (r: int)
    ensures r as real - 0.5 <= x < r as real + 0.5
  {
    (x + 0.5).Floor
  }

  /** `total > 0 ? Math.round((positive / total) * 100) : 0`, a percentage from 0 to 100. */
  function Percent(part: nat, total: nat): (r: int)
    ensures total == 0 ==> r == 0
    ensures part <= total ==> 0 <= r <= 100
    ensures total > 0 && part == total ==> r == 100
    ensures total > 0 ==> r as real - 0.5 <= (part as real / total as real) * 100.0 < r as real + 0.5
  {
    if total > 0 then
      ShareBounds(part, total);
      Round((part as real / total as real) * 100.0)
    else 0
  }

  /** A share of a positive total lies between 0 and 1 when the part is at most the total, and is
      1 for the whole. */
  lemma ShareBounds(part: nat, total: nat)
    requires total > 0
    ensures 0.0 <= part as real / total as real
    ensures part <= total ==> part as real / total as real <= 1.0
    ensures part == total ==> part as real / total as real == 1.0
  {
    var t := total as real;
    var q := part as real / t;
    assert q * t == part as real;
    assert q < 0.0 ==> q * t < 0.0;
    assert q > 1.0 ==> q * t > 1.0 * t;
  }

  predicate HasSentiment(review: Row, sentiment: string) {
    Get(review, "sentiment") == Some(Str(sentiment))
  }

  /** How many of the reviews are positive. */
  function Positives(reviews: seq<Row>): nat {
    Count(reviews, (x: Row) => HasSentiment(x, "positive"))
  }

  /** The satisfaction rate of the filtered reviews: the share of positive ones, in percent,
      rounded to the nearest integer. */
  function SatisfactionRate(reviews: seq<Row>): (r: int)
    ensures 0 <= r <= 100
    ensures |reviews| > 0 ==>
              r as real - 0.5 <= (Positives(reviews) as real / |reviews| as real) * 100.0 < r as real + 0.5
    ensures |reviews| == 0 ==> r == 0
    ensures (forall i | 0 <= i < |reviews| :: !HasSentiment(reviews[i], "positive")) ==> r == 0
    ensures |reviews| > 0 && (forall i | 0 <= i < |reviews| :: HasSentiment(reviews[i], "positive")) ==> r == 100
  {
    var positive := (x: Row) => HasSentiment(x, "positive");
    FilterExtremes(reviews, positive);
    Percent(Count(reviews, positive), |reviews|)
  }

  /** `r.rating || 0` as a number; a rating that is not a number is read as 0. */
  function RatingValue(review: Row): real {
    match Get(review, "rating")
    case Some(Num(n)) => n
    case _ => 0.0
  }

  function RatingSum(reviews: seq<Row>): real {
    if |reviews| == 0 then 0.0 else RatingValue(reviews[0]) + RatingSum(reviews[1..])
  }

  /** The average rating as shown: "0" for no review, otherwise the mean printed by `toFixed(1)`
      (a parameter, as number formatting is the runtime's). */
  function AverageText(reviews: seq<Row>, fixed1: real -> string): (r: string)
    ensures |reviews| == 0 ==> r == "0"
    ensures |reviews| > 0 ==> r == fixed1(RatingSum(reviews) / |reviews| as real)
  {
    if |reviews| > 0 then fixed1(RatingSum(reviews) / |reviews| as real) else "0"
  }

  // ---------------------------------------------------------------------------------------------
  // Request bodies

  /** `v || fallback`. */
  function Or(v: Option<Json>, fallback: Json): (r: Json)
    ensures Truthy(v) ==> Some(r) == v
    ensures !Truthy(v) ==> r == fallback
  {
    if Truthy(v) then v.value else fallback
  }

  /** `sites.find((s) => s.id === siteId)?.name || "N/A"`: always a truthy value. */
  function SiteName(sites: seq<Row>, siteId: Option<Json>): (r: Json)
    ensures Truthy(Some(r))
    ensures FindById(sites, siteId).None? ==> r == Str("N/A")
  {
    match FindById(sites, siteId)
    case None => Str("N/A")
    case Some(site) => Or(Get(site, "name"), Str("N/A"))
  }

  /** The body of a single-review analysis: comment and title default to "", the rating to 0 and
      an unknown site to "N/A". */
  function SingleRequest(review: Row, sites: seq<Row>): Json {
    Obj([("review", Or(Get(review, "comment"), Str(""))), ("title", Or(Get(review, "title"), Str(""))),
         ("rating", Or(Get(review, "rating"), Num(0.0))), ("siteName", SiteName(sites, Get(review, "siteId")))])
  }

  /** One review of a batch body. */
  function BatchItem(review: Row, sites: seq<Row>): Json {
    Obj([("comment", Or(Get(review, "comment"), Str(""))), ("title", Or(Get(review, "title"), Str(""))),
         ("rating", Or(Get(review, "rating"), Num(0.0))), ("siteName", SiteName(sites, Get(review, "siteId")))])
  }

  /** The `filterSite` of a batch body: "Tous les sites" for "all", else the chosen site's name. */
  function FilterSite(sites: seq<Row>, chosen: string): (r: Json)
    ensures chosen == "all" ==> r == Str("Tous les sites")
    ensures chosen != "all" ==> r == SiteName(sites, Some(Str(chosen)))
  {
    if chosen == "all" then Str("Tous les sites") else SiteName(sites, Some(Str(chosen)))
  }

  /** The body of a batch analysis: the flag, one item per filtered review in order, and the
      filter's site. */
  function BatchRequest(reviews: seq<Row>, sites: seq<Row>, chosen: string): (r: Json)
    ensures r.Obj? && Get(r.fields, "batchAnalysis") == Some(Bool(true))
    ensures Get(r.fields, "filterSite") == Some(FilterSite(sites, chosen))
    ensures var items := Filtered(reviews, chosen);
            Get(r.fields, "reviews") == Some(Arr(seq(|items|, j requires 0 <= j < |items| => BatchItem(items[j], sites))))
  {
    var items := Filtered(reviews, chosen);
    var arr := Arr(seq(|items|, j requires 0 <= j < |items| => BatchItem(items[j], sites)));
    var site := FilterSite(sites, chosen);
    var r := Obj([("batchAnalysis", Bool(true)), ("reviews", arr), ("filterSite", site)]);
    GetOfThree("batchAnalysis", Bool(true), "reviews", arr, "filterSite", site, "batchAnalysis");
    GetOfThree("batchAnalysis", Bool(true), "reviews", arr, "filterSite", site, "reviews");
    GetOfThree("batchAnalysis", Bool(true), "reviews", arr, "filterSite", site, "filterSite");
    r
  }

  /** The route takes a batch body on its batch path exactly when the filter kept some review;
      with none it answers the missing-data error, since the body has none of the single-review
      fields. */
  lemma BatchRequestRoute(reviews: seq<Row>, sites: seq<Row>, chosen: string)
    ensures var route := AnalyzeReview.Dispatch(Http.Body(BatchRequest(reviews, sites, chosen)));
            && (route.Batch? <==> |Filtered(reviews, chosen)| > 0)
            && (route.Missing? <==> |Filtered(reviews, chosen)| == 0)
  {
    var items := Filtered(reviews, chosen);
    var arr := seq(|items|, j requires 0 <= j < |items| => BatchItem(items[j], sites));
    var site := FilterSite(sites, chosen);
    assert BatchRequest(reviews, sites, chosen)
        == Obj([("batchAnalysis", Bool(true)), ("reviews", Arr(arr)), ("filterSite", site)]);
    BatchShapeRoute(arr, site);
  }

  /** A body with the flag set, an array of reviews and a filter site takes the batch path when
      the array has an element, and is missing data otherwise: it has none of the single-review
      fields. */
  lemma BatchShapeRoute(items: seq<Json>, site: Json)
    ensures AnalyzeReview.Dispatch(Http.Body(Obj([("batchAnalysis", Bool(true)), ("reviews", Arr(items)), ("filterSite", site)])))
         == if |items| > 0 then AnalyzeReview.Batch(Arr(items), Some(site)) else AnalyzeReview.Missing
  {
    GetOfThree("batchAnalysis", Bool(true), "reviews", Arr(items), "filterSite", site, "batchAnalysis");
    GetOfThree("batchAnalysis", Bool(true), "reviews", Arr(items), "filterSite", site, "reviews");
    GetOfThree("batchAnalysis", Bool(true), "reviews", Arr(items), "filterSite", site, "filterSite");
    GetOfThree("batchAnalysis", Bool(true), "reviews", Arr(items), "filterSite", site, "review");
    GetOfThree("batchAnalysis", Bool(true), "reviews", Arr(items), "filterSite", site, "title");
  }

  /** The route takes a single-review body on its single path exactly when the review has a
      truthy comment, title and rating (the site name is never falsy); otherwise the defaults ""
      and 0 it sends are falsy and the route answers the missing-data error. */
  lemma SingleRequestRoute(review: Row, sites: seq<Row>)
    ensures var route := AnalyzeReview.Dispatch(Http.Body(SingleRequest(review, sites)));
            && (route.Single? <==>
                  Truthy(Get(review, "comment")) && Truthy(Get(review, "title")) && Truthy(Get(review, "rating")))
            && (route.Single? || route.Missing?)
  {
    var comment := Or(Get(review, "comment"), Str(""));
    var title := Or(Get(review, "title"), Str(""));
    var rating := Or(Get(review, "rating"), Num(0.0));
    SingleShapeRoute(comment, title, rating, SiteName(sites, Get(review, "siteId")));
    assert Truthy(Some(comment)) == Truthy(Get(review, "comment"));
    assert Truthy(Some(title)) == Truthy(Get(review, "title"));
    assert Truthy(Some(rating)) == Truthy(Get(review, "rating"));
  }

  /** A body with exactly the four single-review fields takes the single path when all four are
      truthy, and is missing data otherwise. */
  lemma SingleShapeRoute(review: Json, title: Json, rating: Json, site: Json)
    ensures AnalyzeReview.Dispatch(Http.Body(Obj([("review", review), ("title", title), ("rating", rating), ("siteName", site)])))
         == if Truthy(Some(review)) && Truthy(Some(title)) && Truthy(Some(rating)) && Truthy(Some(site))
            then AnalyzeReview.Single(review, title, rating, site) else AnalyzeReview.Missing
  {
    var fields := [("review", review), ("title", title), ("rating", rating), ("siteName", site)];
    GetOfFour("review", review, "title", title, "rating", rating, "siteName", site, "batchAnalysis");
    GetOfFour("review", review, "title", title, "rating", rating, "siteName", site, "reviews");
    GetOfFour("review", review, "title", title, "rating", rating, "siteName", site, "review");
    GetOfFour("review", review, "title", title, "rating", rating, "siteName", site, "title");
    GetOfFour("review", review, "title", title, "rating", rating, "siteName", site, "rating");
    GetOfFour("review", review, "title", title, "rating", rating, "siteName", site, "siteName");
  }

  // ---------------------------------------------------------------------------------------------
  // The reply

  /** How the request ended: a response whose status is not ok (with its status text), a parsed
      body, or a thrown value. */
  datatype Outcome = NotOk(status: nat, statusText: string) | Data(body: Json) | Threw(thrown: Http.Thrown)

  /** The analysis dialog: the analysis or the error shown, and whether it is loading. */
  datatype Panel = Panel(analysis: Option<Json>, error: Option<Json>, loading: bool)

  /** The end of `handleAnalyzeWithAI` and `handleBatchAnalysis`: a reply whose `error` is truthy
      shows that error, any other readable reply is stored as the analysis, a status that is not
      ok shows "Erreur <status>: <text>", and a thrown value its message or `fallback` ("Erreur
      lors de l'analyse" for one review, "Erreur lors de l'analyse groupée" for a batch). Reading
      `error` of a null body throws a TypeError whose message is `nullRead`. */
  function Settle(outcome: Outcome, fallback: string, nullRead: string): (r: Panel)
    ensures !r.loading
    ensures r.analysis.Some? <==> !r.error.Some?
    ensures r.analysis.Some? <==>
              outcome.Data? && outcome.body != Null && !Truthy(Http.Property(outcome.body, "error"))
    ensures r.analysis.Some? ==> r.analysis == Some(outcome.body)
    ensures outcome.Data? && outcome.body != Null && Truthy(Http.Property(outcome.body, "error")) ==>
              r.error == Http.Property(outcome.body, "error")
    ensures outcome.NotOk? ==> r.error == Some(Str("Erreur " + NatText(outcome.status) + ": " + outcome.statusText))
    ensures outcome.Threw? ==> r.error == Some(Str(Http.ErrorText(outcome.thrown, fallback)))
  {
    match outcome
    case NotOk(status, text) => Panel(None, Some(Str("Erreur " + NatText(status) + ": " + text)), false)
    case Threw(t) => Panel(None, Some(Str(Http.ErrorText(t, fallback))), false)
    case Data(body) =>
      if body.Null? then Panel(None, Some(Str(nullRead)), false)
      else if Truthy(Http.Property(body, "error")) then Panel(None, Http.Property(body, "error"), false)
      else Panel(Some(body), None, false)
  }
}
