/** The review analysis endpoint (app/api/ai/analyze-review/route.ts): it chooses between a batch
    and a single analysis, asks the provider, cleans and parses the reply, and merges the parsed
    object into the response.

    Two defects of the handler are modelled side by side with their repair (`Variant`):
    - the handlers are returned from inside `try` without `await`, so their rejections bypass the
      `catch` and reach the framework, which answers 500 instead of the 200 fallback;
    - the prompt templates keep their `{{...}}` placeholders, which nothing fills in, so the provider
      never sees the reviews. */
module AnalyzeReview {
  import opened Wrappers
  import opened JsText
  import opened Json
  import opened Sanitizer
  import opened Http

  /** How the endpoint answers: a JSON response, or a promise rejection that no handler catches (the
      framework then answers 500 with its own page). */
  datatype Outcome = Respond(status: nat, body: Json) | Unhandled

  /** The prompt sent to the provider, if the provider was called, and the outcome. */
  datatype Handled = Handled(prompt: Option<string>, outcome: Outcome)

  // ---------------------------------------------------------------------------------------------
  // Dispatch

  datatype Route =
    | Batch(reviews: Json, filterSite: Option<Json>)
    | Single(review: Json, title: Json, rating: Json, siteName: Json)
    | Missing
    | Caught   // the body could not be read or destructured: the `catch` of POST answers

  function Dispatch(req: Request): (r: Route)
    ensures r.Caught? <==> req.Malformed? || req == Body(Null)
    ensures r.Batch? ==> Truthy(Property(req.value, "batchAnalysis")) && LengthPositive(r.reviews)
                         && Some(r.reviews) == Property(req.value, "reviews")
    ensures r.Single? ==>
      && Property(req.value, "review") == Some(r.review) && Truthy(Some(r.review))
      && Property(req.value, "title") == Some(r.title) && Truthy(Some(r.title))
      && Property(req.value, "rating") == Some(r.rating) && Truthy(Some(r.rating))
      && Property(req.value, "siteName") == Some(r.siteName) && Truthy(Some(r.siteName))
  {
    match req
    case Malformed(_) => Caught
    case Body(v) =>
      if v.Null? then Caught
      else
        var batch := Property(v, "batchAnalysis");
        var reviews := Property(v, "reviews");
        var review := Property(v, "review");
        var title := Property(v, "title");
        var rating := Property(v, "rating");
        var site := Property(v, "siteName");
        if Truthy(batch) && Truthy(reviews) && LengthPositive(reviews.value) then
          Batch(reviews.value, Property(v, "filterSite"))
        else if Truthy(review) && Truthy(title) && Truthy(rating) && Truthy(site) then
          Single(review.value, title.value, rating.value, site.value)
        else Missing
  }

  /** The batch flag takes precedence: a body that qualifies for both analyses gets the batch one. */
  lemma BatchTakesPrecedence(v: Json)
    requires v != Null
    requires Truthy(Property(v, "batchAnalysis")) && Truthy(Property(v, "reviews"))
    requires LengthPositive(Property(v, "reviews").value)
    ensures Dispatch(Body(v)) == Batch(Property(v, "reviews").value, Property(v, "filterSite"))
  {
  }

  /** A readable body that qualifies for neither analysis is a missing-data request. */
  lemma MissingIffNeither(v: Json)
    requires v != Null
    ensures Dispatch(Body(v)).Missing? <==>
      && !(Truthy(Property(v, "batchAnalysis")) && Truthy(Property(v, "reviews"))
           && LengthPositive(Property(v, "reviews").value))
      && !(Truthy(Property(v, "review")) && Truthy(Property(v, "title"))
           && Truthy(Property(v, "rating")) && Truthy(Property(v, "siteName")))
  {
  }

  // ---------------------------------------------------------------------------------------------
  // Prompts

  const SingleHead: string :=
    ("Tu es un expert en analyse " + "d\U{2019}avis clients pour des " + "sites écotouristiques.\n\n")
    + "Ta mission :\n"
    + "- Analyser précisément l\U{2019}avis suivant.\n"
    + ("- Identifier les sentiments, " + "forces, faiblesses et actions " + "prioritaires.\n")
    + ("- Répondre UNIQUEMENT avec " + "un JSON valide, sans introduction, " + "sans explication, sans balises " + "\"<think>\", sans markdown, " + "sans texte en dehors de " + "l\U{2019}objet JSON.\n")
    + ("- La réponse doit être exclusivement " + "en français.\n\n")
    + "Données :\n"
    + "Site : "

  const SingleTail: string :=
    ("\n\nRéponds uniquement avec " + "un JSON strictement conforme " + "à cette structure :\n\n")
    + "{\n"
    + ("  \"summary\": \"Résumé court " + "et clair en français\",\n")
    + ("  \"sentiment_score\": \"nombre " + "entre -1 et 1\",\n")
    + ("  \"sentiment_label\": \"positif " + "| neutre | negatif\",\n")
    + ("  \"key_issues\": [\"problème1\", " + "\"problème2\"],\n")
    + ("  \"strengths\": [\"point fort1\", " + "\"point fort2\"],\n")
    + ("  \"recommended_actions\": " + "[\"action1\", \"action2\"],\n")
    + "  \"priority\": \"high | medium | low\"\n"
    + "}"

  /** The single-review template with its four slots filled by the given texts. */
  function SingleTemplate(site: string, rating: string, title: string, review: string): string {
    SingleHead + site + "\nNote : " + rating + "/5\nTitre : " + title + "\nAvis : " + review + SingleTail
  }

  const BatchHead: string :=
    ("Tu es un expert en analyse " + "d\U{2019}avis clients pour des " + "sites écotouristiques.\n\n")
    + "Ta mission :\n"
    + "- Analyser un ensemble d\U{2019}avis.\n"
    + "- Déterminer les tendances générales.\n"
    + ("- Identifier forces, faiblesses, " + "thèmes récurrents et actions " + "prioritaires.\n")
    + ("- Répondre UNIQUEMENT avec " + "un JSON valide, sans introduction, " + "sans explication, sans balises " + "\"<think>\", sans markdown.\n")
    + ("- La réponse doit être exclusivement " + "en français.\n\n")
    + "Filtre : "

  const BatchTail: string :=
    ("\n\nRéponds uniquement avec " + "un JSON strictement conforme " + "à cette structure :\n\n")
    + "{\n"
    + ("  \"overall_sentiment\": \"positif\" " + "| \"mixte\" | \"negatif\",\n")
    + "  \"average_rating\": \"nombre\",\n"
    + "  \"sentiment_distribution\": {\n"
    + "    \"positive\": \"pourcentage\",\n"
    + "    \"neutral\": \"pourcentage\",\n"
    + "    \"negative\": \"pourcentage\"\n"
    + "  },\n"
    + ("  \"key_issues\": [\"problème1\", " + "\"problème2\", \"problème3\"],\n")
    + ("  \"strengths\": [\"force1\", " + "\"force2\", \"force3\"],\n")
    + "  \"recurring_themes\": {\n"
    + "    \"positives\": [\"thème1\", \"thème2\"],\n"
    + "    \"negatives\": [\"thème1\", \"thème2\"]\n"
    + "  },\n"
    + ("  \"priority_actions\": [\"action1\", " + "\"action2\"],\n")
    + ("  \"summary\": \"Résumé clair " + "et concis de la tendance " + "générale\"\n")
    + "}"

  /** The batch template with its three slots filled by the given texts. */
  function BatchTemplate(filter: string, count: string, summary: string): string {
    BatchHead + filter + "\nNombre total d\U{2019}avis : " + count + "\n\nListe des avis :\n" + summary + BatchTail
  }

  /** The single prompt: as written, the template with its placeholders left in; corrected, the
      placeholders replaced by the request's values. */
  function SinglePrompt(variant: Variant, review: Json, title: Json, rating: Json, site: Json, fmt: NumberFormat): string {
    match variant
    case AsWritten => SingleTemplate("{{siteName}}", "{{rating}}", "{{title}}", "{{review}}")
    case Corrected =>
      SingleTemplate(Text(Some(site), fmt), Text(Some(rating), fmt),
                     Text(Some(title), fmt), Text(Some(review), fmt))
  }

  function BatchPrompt(variant: Variant, filterSite: Option<Json>, count: nat, summary: string, fmt: NumberFormat): string {
    match variant
    case AsWritten => BatchTemplate("{{filterSite}}", "{{reviews.length}}", "{{reviewsSummary}}")
    case Corrected => BatchTemplate(Text(filterSite, fmt), NatText(count), summary)
  }

  /** One line of the batch summary, or None where the handler throws: an item that is not an object
      or whose comment is not a string has no `substring`. */
  function SummaryLine(i: nat, item: Json, fmt: NumberFormat): (r: Option<string>)
    ensures r.Some? <==> Property(item, "comment").Some? && Property(item, "comment").value.Str?
  {
    match Property(item, "comment")
    case Some(Str(comment)) =>
      var head := "Avis " + NatText(i + 1) + ": " + Text(Property(item, "siteName"), fmt);
      var body := " | Note: " + Text(Property(item, "rating"), fmt) + "/5 | \""
                  + Text(Property(item, "title"), fmt) + "\" - ";
      Some(head + body + (Take(comment, 100) + "..."))
    case _ => None
  }

  /** A summary line opens with the review's number (counted from 1) and site, and closes with at most
      the first hundred characters of the comment followed by an ellipsis. */
  lemma SummaryLineShape(i: nat, item: Json, fmt: NumberFormat)
    requires SummaryLine(i, item, fmt).Some?
    ensures var line := SummaryLine(i, item, fmt).value;
      var comment := Property(item, "comment").value.s;
      && item.Obj?
      && StartsWith(line, "Avis " + NatText(i + 1) + ": " + Text(Property(item, "siteName"), fmt))
      && EndsWith(line, Take(comment, 100) + "...")
      && |Take(comment, 100)| <= 100
  {
    var head := "Avis " + NatText(i + 1) + ": " + Text(Property(item, "siteName"), fmt);
    var body := " | Note: " + Text(Property(item, "rating"), fmt) + "/5 | \""
                + Text(Property(item, "title"), fmt) + "\" - ";
    Framed(head, body, Take(Property(item, "comment").value.s, 100) + "...");
  }

  /** The summary lines of `items`, numbered by position; an item without a line gives the empty
      text, which only matters where the summary is not built at all. */
  function SummaryLines(items: seq<Json>, fmt: NumberFormat): seq<string> {
    seq(|items|, i requires 0 <= i < |items| => SummaryLine(i, items[i], fmt).GetOr(""))
  }

  /** The batch summary: the lines of the reviews in order, joined by line breaks, or None where
      building it throws (`map` exists only on arrays). */
  function BatchSummary(reviews: Json, fmt: NumberFormat): (r: Option<string>)
    ensures r.Some? <==> reviews.Arr? && forall i | 0 <= i < |reviews.items| :: SummaryLine(i, reviews.items[i], fmt).Some?
  {
    if reviews.Arr? && forall i | 0 <= i < |reviews.items| :: SummaryLine(i, reviews.items[i], fmt).Some? then
      Some(Join(SummaryLines(reviews.items, fmt), "\n"))
    else None
  }

  // ---------------------------------------------------------------------------------------------
  // Handlers

  /** How a handler settles: with a response, by an error thrown in POST's own `try`, or by a
      rejection of the handler's promise. */
  datatype Settled = Resolved(status: nat, body: Json) | Raised | Rejected

  datatype Attempt = Attempt(prompt: Option<string>, settled: Settled)

  const MissingDataBody: Json := Obj([("error", Str("Données manquantes pour l'analyse"))])

  /** The fallback analysis the `catch` of POST answers with. */
  const FallbackBody: Json := Obj([
    ("summary", Str("Erreur lors de l'analyse")),
    ("sentiment_score", Num(0.0)),
    ("key_issues", Arr([])),
    ("recommended_actions", Arr([])),
    ("priority", Str("medium"))])

  /** The parsed reply, once the reply text is cleaned: None where the provider call throws, where
      the reply has no text to clean, or where the parse throws. */
  function Analysis(reply: Reply, codec: Codec): Option<Json> {
    match reply
    case Answer(text) => codec.parse(SanitizeReview(text))
    case _ => None
  }

  /** `{ ...analysis, analysisType: "single", analyzedReview: { title, rating, siteName } }`. */
  function SingleBody(analysis: Json, title: Json, rating: Json, site: Json): (r: Json)
    ensures r.Obj?
    ensures Get(r.fields, "analysisType") == Some(Str("single"))
    ensures Get(r.fields, "analyzedReview") == Some(Obj([("title", title), ("rating", rating), ("siteName", site)]))
    ensures forall k | k != "analysisType" && k != "analyzedReview" :: Get(r.fields, k) == Get(Spread(analysis), k)
  {
    Obj(Put(Put(Spread(analysis), "analysisType", Str("single")),
            "analyzedReview", Obj([("title", title), ("rating", rating), ("siteName", site)])))
  }

  /** `{ ...analysis, analysisType: "batch", reviewsCount, filterSite }`; an undefined filter is
      dropped when the object is serialised. */
  function BatchBody(analysis: Json, count: nat, filterSite: Option<Json>): (r: Json)
    ensures r.Obj?
    ensures Get(r.fields, "analysisType") == Some(Str("batch"))
    ensures Get(r.fields, "reviewsCount") == Some(Num(count as real))
    ensures Get(r.fields, "filterSite") == filterSite
    ensures forall k | k != "analysisType" && k != "reviewsCount" && k != "filterSite" :: Get(r.fields, k) == Get(Spread(analysis), k)
  {
    AssignedThree(Spread(analysis), "analysisType", Str("batch"), "reviewsCount", Num(count as real),
                  "filterSite", filterSite);
    Obj(Assign(Put(Put(Spread(analysis), "analysisType", Str("batch")), "reviewsCount", Num(count as real)),
               "filterSite", filterSite))
  }

  /** `handleSingleReview`: the provider is always called; any failure rejects the handler. */
  function HandleSingle(variant: Variant, review: Json, title: Json, rating: Json, site: Json,
                        reply: Reply, codec: Codec, fmt: NumberFormat): (r: Attempt)
    ensures r.prompt == Some(SinglePrompt(variant, review, title, rating, site, fmt))
    ensures r.settled.Rejected? <==> Analysis(reply, codec).None?
    ensures !r.settled.Rejected? ==> r.settled == Resolved(200, SingleBody(Analysis(reply, codec).value, title, rating, site))
  {
    var prompt := SinglePrompt(variant, review, title, rating, site, fmt);
    match Analysis(reply, codec)
    case None => Attempt(Some(prompt), Rejected)
    case Some(a) => Attempt(Some(prompt), Resolved(200, SingleBody(a, title, rating, site)))
  }

  /** `handleBatchAnalysis`: the summary is built first, so a malformed review rejects the handler
      before the provider is called. */
  function HandleBatch(variant: Variant, reviews: Json, filterSite: Option<Json>,
                       reply: Reply, codec: Codec, fmt: NumberFormat): (r: Attempt)
    ensures r.prompt.Some? <==> BatchSummary(reviews, fmt).Some?
    ensures r.prompt.Some? ==>
      r.prompt.value == BatchPrompt(variant, filterSite, |reviews.items|, BatchSummary(reviews, fmt).value, fmt)
    ensures r.settled.Rejected? <==> BatchSummary(reviews, fmt).None? || Analysis(reply, codec).None?
    ensures !r.settled.Rejected? ==>
      r.settled == Resolved(200, BatchBody(Analysis(reply, codec).value, |reviews.items|, filterSite))
  {
    match BatchSummary(reviews, fmt)
    case None => Attempt(None, Rejected)
    case Some(summary) =>
      var count := |reviews.items|;
      var prompt := BatchPrompt(variant, filterSite, count, summary, fmt);
      match Analysis(reply, codec)
      case None => Attempt(Some(prompt), Rejected)
      case Some(a) => Attempt(Some(prompt), Resolved(200, BatchBody(a, count, filterSite)))
  }

  function Handle(variant: Variant, route: Route, reply: Reply, codec: Codec, fmt: NumberFormat): Attempt {
    match route
    case Caught => Attempt(None, Raised)
    case Missing => Attempt(None, Resolved(400, MissingDataBody))
    case Single(review, title, rating, site) => HandleSingle(variant, review, title, rating, site, reply, codec, fmt)
    case Batch(reviews, filterSite) => HandleBatch(variant, reviews, filterSite, reply, codec, fmt)
  }

  /** POST's `catch` sees what is thrown in its own `try`; a handler's rejection reaches it only when
      the handler's promise is awaited, which the corrected variant does. */
  function Conclude(variant: Variant, a: Attempt): (x: Handled)
    ensures x.prompt == a.prompt
  {
    match a.settled
    case Resolved(status, body) => Handled(a.prompt, Respond(status, body))
    case Raised => Handled(a.prompt, Respond(200, FallbackBody))
    case Rejected =>
      if variant == Corrected then Handled(a.prompt, Respond(200, FallbackBody))
      else Handled(a.prompt, Unhandled)
  }

  /** The endpoint as the source writes it. */
  function PostAsWritten(req: Request, reply: Reply, codec: Codec, fmt: NumberFormat): (x: Handled)
    ensures x.outcome.Respond? ==> x.outcome.status in {200, 400}
    ensures x.outcome.Unhandled? ==> x.prompt.Some? || Dispatch(req).Batch?
  {
    Conclude(AsWritten, Handle(AsWritten, Dispatch(req), reply, codec, fmt))
  }

  /** The endpoint with `return await` and filled-in templates: every failure gets the fallback
      analysis, a missing-data request gets 400 without any provider call. */
  function Post(req: Request, reply: Reply, codec: Codec, fmt: NumberFormat): (x: Handled)
    ensures x.outcome.Respond?
    ensures x.outcome.status == 400 <==> Dispatch(req).Missing?
    ensures x.outcome.status == 400 ==> x.outcome.body == MissingDataBody && x.prompt.None?
    ensures x.outcome.status != 400 ==> x.outcome.status == 200
    ensures x.prompt.Some? ==> Dispatch(req).Single? || Dispatch(req).Batch?
  {
    Conclude(Corrected, Handle(Corrected, Dispatch(req), reply, codec, fmt))
  }

  // ---------------------------------------------------------------------------------------------
  // The defects and their repair

  /** As written, a provider failure or an unparsable reply during a single analysis escapes the
      `catch`: the endpoint does not answer with its fallback analysis. */
  lemma FailureEscapesCatch(req: Request, reply: Reply, codec: Codec, fmt: NumberFormat)
    requires Dispatch(req).Single?
    requires Analysis(reply, codec).None?
    ensures PostAsWritten(req, reply, codec, fmt).outcome == Unhandled
  {
  }

  /** As written, a batch whose reviews are not all objects with a text comment is rejected before
      the provider is called, and escapes the `catch` too. */
  lemma MalformedBatchEscapesCatch(req: Request, reply: Reply, codec: Codec, fmt: NumberFormat)
    requires Dispatch(req).Batch?
    requires BatchSummary(Dispatch(req).reviews, fmt).None?
    ensures PostAsWritten(req, reply, codec, fmt) == Handled(None, Unhandled)
  {
  }

  /** With `return await`, the same failures are answered with the fallback analysis. */
  lemma FailureAnsweredWithFallback(req: Request, reply: Reply, codec: Codec, fmt: NumberFormat)
    requires Dispatch(req).Single? || Dispatch(req).Batch?
    requires Analysis(reply, codec).None?
    ensures Post(req, reply, codec, fmt).outcome == Respond(200, FallbackBody)
  {
  }

  /** Both variants agree whenever nothing fails inside a handler. */
  lemma VariantsAgreeWithoutRejection(req: Request, reply: Reply, codec: Codec, fmt: NumberFormat)
    requires !Handle(AsWritten, Dispatch(req), reply, codec, fmt).settled.Rejected?
    ensures PostAsWritten(req, reply, codec, fmt).outcome == Post(req, reply, codec, fmt).outcome
  {
    assert Handle(AsWritten, Dispatch(req), reply, codec, fmt).settled
        == Handle(Corrected, Dispatch(req), reply, codec, fmt).settled;
  }

  /** As written, the single prompt is the same text for every request: the provider is asked about
      a review it is never shown. */
  lemma PromptIgnoresReview(req: Request, reply: Reply, codec: Codec, fmt: NumberFormat)
    requires Dispatch(req).Single?
    ensures PostAsWritten(req, reply, codec, fmt).prompt
         == Some(SingleTemplate("{{siteName}}", "{{rating}}", "{{title}}", "{{review}}"))
  {
    SingleRoutePrompt(AsWritten, Dispatch(req), reply, codec, fmt);
  }

  /** A single route sends the single prompt of its variant. */
  lemma SingleRoutePrompt(variant: Variant, r: Route, reply: Reply, codec: Codec, fmt: NumberFormat)
    requires r.Single?
    ensures Conclude(variant, Handle(variant, r, reply, codec, fmt)).prompt
         == Some(SinglePrompt(variant, r.review, r.title, r.rating, r.siteName, fmt))
  {
  }

  /** As written, the batch prompt is also the same text for every batch. */
  lemma BatchPromptIgnoresReviews(req: Request, reply: Reply, codec: Codec, fmt: NumberFormat)
    requires Dispatch(req).Batch? && BatchSummary(Dispatch(req).reviews, fmt).Some?
    ensures PostAsWritten(req, reply, codec, fmt).prompt
         == Some(BatchTemplate("{{filterSite}}", "{{reviews.length}}", "{{reviewsSummary}}"))
  {
    BatchRoutePrompt(AsWritten, Dispatch(req), reply, codec, fmt);
  }

  /** A batch route whose summary can be built sends the batch prompt of its variant. */
  lemma BatchRoutePrompt(variant: Variant, r: Route, reply: Reply, codec: Codec, fmt: NumberFormat)
    requires r.Batch? && BatchSummary(r.reviews, fmt).Some?
    ensures Conclude(variant, Handle(variant, r, reply, codec, fmt)).prompt
         == Some(BatchPrompt(variant, r.filterSite, |r.reviews.items|, BatchSummary(r.reviews, fmt).value, fmt))
  {
  }

  /** The filled single template determines the review text it was filled with. */
  lemma SingleTemplateInjective(site: string, rating: string, title: string, a: string, b: string)
    requires a != b
    ensures SingleTemplate(site, rating, title, a) != SingleTemplate(site, rating, title, b)
  {
    FrameInjective(SingleHead + site + "\nNote : " + rating + "/5\nTitre : " + title + "\nAvis : ", a, b, SingleTail);
  }

  /** With the placeholders filled in, two single requests that differ only in the review text are
      sent different prompts. */
  lemma PromptCarriesReview(req1: Request, req2: Request, reply: Reply, codec: Codec, fmt: NumberFormat)
    requires Dispatch(req1).Single? && Dispatch(req2).Single?
    requires var r1 := Dispatch(req1); var r2 := Dispatch(req2);
      && r1.title == r2.title && r1.rating == r2.rating && r1.siteName == r2.siteName
      && r1.review.Str? && r2.review.Str? && r1.review != r2.review
    ensures Post(req1, reply, codec, fmt).prompt != Post(req2, reply, codec, fmt).prompt
  {
    RoutesCarryReview(Dispatch(req1), Dispatch(req2), reply, codec, fmt);
  }

  /** Two single routes that differ only in a textual review get different corrected prompts. */
  lemma RoutesCarryReview(r1: Route, r2: Route, reply: Reply, codec: Codec, fmt: NumberFormat)
    requires r1.Single? && r2.Single?
    requires r1.title == r2.title && r1.rating == r2.rating && r1.siteName == r2.siteName
    requires r1.review.Str? && r2.review.Str? && r1.review != r2.review
    ensures Conclude(Corrected, Handle(Corrected, r1, reply, codec, fmt)).prompt
         != Conclude(Corrected, Handle(Corrected, r2, reply, codec, fmt)).prompt
  {
    SingleRoutePrompt(Corrected, r1, reply, codec, fmt);
    SingleRoutePrompt(Corrected, r2, reply, codec, fmt);
    CorrectedPromptInjective(r1.review.s, r2.review.s, r1.title, r1.rating, r1.siteName, fmt);
  }

  /** The corrected single prompt determines the review text it was filled with. */
  lemma CorrectedPromptInjective(a: string, b: string, title: Json, rating: Json, site: Json, fmt: NumberFormat)
    requires a != b
    ensures SinglePrompt(Corrected, Str(a), title, rating, site, fmt) != SinglePrompt(Corrected, Str(b), title, rating, site, fmt)
  {
    assert Text(Some(Str(a)), fmt) == a && Text(Some(Str(b)), fmt) == b;
    SingleTemplateInjective(Text(Some(site), fmt), Text(Some(rating), fmt), Text(Some(title), fmt), a, b);
  }

  lemma SinglePromptSent(req: Request, reply: Reply, codec: Codec, fmt: NumberFormat)
    requires Dispatch(req).Single?
    ensures var r := Dispatch(req);
      Post(req, reply, codec, fmt).prompt
      == Some(SingleTemplate(Text(Some(r.siteName), fmt), Text(Some(r.rating), fmt),
                             Text(Some(r.title), fmt), Text(Some(r.review), fmt)))
  {
    SingleRoutePrompt(Corrected, Dispatch(req), reply, codec, fmt);
  }

  /** With the placeholders filled in, the batch prompt carries the summary of the reviews. */
  lemma BatchPromptCarriesSummary(req: Request, reply: Reply, codec: Codec, fmt: NumberFormat)
    requires Dispatch(req).Batch? && BatchSummary(Dispatch(req).reviews, fmt).Some?
    ensures var r := Dispatch(req);
      var head := BatchHead + Text(r.filterSite, fmt) + "\nNombre total d\U{2019}avis : "
                  + NatText(|r.reviews.items|) + "\n\nListe des avis :\n";
      Post(req, reply, codec, fmt).prompt == Some(head + BatchSummary(r.reviews, fmt).value + BatchTail)
  {
    var route := Dispatch(req);
    var summary := BatchSummary(route.reviews, fmt).value;
    assert Handle(Corrected, route, reply, codec, fmt).prompt
        == Some(BatchPrompt(Corrected, route.filterSite, |route.reviews.items|, summary, fmt));
  }

  // ---------------------------------------------------------------------------------------------
  // Successful analyses

  /** A single analysis answers 200 with the parsed object's own fields, the analysis type and the
      echoed review data; the type and the echo override fields of the same name. */
  lemma SingleSuccess(req: Request, text: string, codec: Codec, fmt: NumberFormat, analysis: Json)
    requires Dispatch(req).Single?
    requires codec.parse(SanitizeReview(text)) == Some(analysis)
    ensures var r := Dispatch(req);
      var x := Post(req, Answer(text), codec, fmt);
      && x.outcome.status == 200 && x.outcome.body.Obj?
      && Get(x.outcome.body.fields, "analysisType") == Some(Str("single"))
      && Get(x.outcome.body.fields, "analyzedReview")
         == Some(Obj([("title", r.title), ("rating", r.rating), ("siteName", r.siteName)]))
      && forall k | k != "analysisType" && k != "analyzedReview" ::
           Get(x.outcome.body.fields, k) == Get(Spread(analysis), k)
  {
  }
}
