/** The recommendations endpoint (app/api/ai/recommendations/route.ts): one prompt per focus area,
    built by the prompt builder, one provider call each, and the text replies collected in order. */
module Recommendations {
  import opened Wrappers
  import opened JsText
  import opened Json
  import opened Http
  import PromptBuilder

  /** A content block of a provider message: text, or any other kind (tool use, ...). */
  datatype Block = TextBlock(text: string) | OtherBlock

  /** What `anthropic.messages.create` gives: a message with its content blocks, or a thrown value. */
  datatype Completion = Message(content: seq<Block>) | Refused

  datatype Recommendation = Recommendation(focus: Json, content: string)

  /** The services the handler relies on. `decode` reads the body's context the way `buildPrompt`
      does, giving None where that reading throws; `build` is `buildPrompt` (question, context,
      type), which `Builder` defines from the personas; `provider` answers a prompt. */
  datatype Services = Services(
    decode: Json -> Option<PromptBuilder.DashboardContext>,
    build: (string, PromptBuilder.DashboardContext, string) -> string,
    provider: string -> Completion,
    fmt: NumberFormat)

  /** `buildPrompt` with the persona texts and number formatting of the deployment. */
  function Builder(p: PromptBuilder.Personas, fmt: NumberFormat): (string, PromptBuilder.DashboardContext, string) -> string {
    (question, ctx, kind) => PromptBuilder.BuildPrompt(question, ctx, kind, p, fmt)
  }

  const AllAreas: seq<Json> := [Str("commercial"), Str("operational"), Str("team")]

  const MissingContext: string := "Missing context"

  const ErrorMessage: string := "Failed to generate recommendations"

  /** `focus = "all"` then the list of types: the default applies to an undefined focus only, and
      "all" expands to the three areas in a fixed order. */
  function Types(focus: Option<Json>): (r: seq<Json>)
    ensures focus.None? || focus == Some(Str("all")) ==> r == AllAreas
    ensures focus.Some? && focus != Some(Str("all")) ==> r == [focus.value]
    ensures 1 <= |r| <= 3
  {
    var f := focus.GetOr(Str("all"));
    if f == Str("all") then AllAreas else [f]
  }

  /** The area the question names: strict comparison, so anything other than the two strings
      "commercial" and "operational" is asked about as the team. */
  function Area(kind: Json): string {
    if kind == Str("commercial") then "commerciale"
    else if kind == Str("operational") then "opérationnelle"
    else "de l'équipe"
  }

  const QuestionHead: string := ("Donne-moi les 3 recommandations " + "PRIORITAIRES pour améliorer " + "la performance ")

  const QuestionTail: string := ". Sois concis et actionnable."

  function Question(kind: Json): (r: string)
    ensures StartsWith(r, QuestionHead) && EndsWith(r, Area(kind) + QuestionTail)
  {
    Joined(QuestionHead, Area(kind) + QuestionTail);
    QuestionHead + (Area(kind) + QuestionTail)
  }

  /** Three distinct questions for the three areas. */
  lemma AreasDiffer()
    ensures Area(Str("commercial")) == "commerciale"
    ensures Area(Str("operational")) == "opérationnelle"
    ensures forall k: Json | k != Str("commercial") && k != Str("operational") :: Area(k) == "de l'équipe"
    ensures Question(Str("commercial")) != Question(Str("operational"))
    ensures Question(Str("commercial")) != Question(Str("team"))
    ensures Question(Str("operational")) != Question(Str("team"))
  {
    assert |Area(Str("commercial"))| == 11 && |Area(Str("operational"))| == 14 && |Area(Str("team"))| == 11;
    assert Area(Str("commercial"))[0] != Area(Str("team"))[0];
    var h := QuestionHead;
    assert Question(Str("commercial"))[|h|] == 'c';
    assert Question(Str("team"))[|h|] == 'd';
  }

  /** `buildPrompt(question, context, type)`: the persona is looked up with `String(type)`. */
  function PromptFor(kind: Json, ctx: PromptBuilder.DashboardContext, s: Services): string {
    s.build(Question(kind), ctx, ValueText(kind, s.fmt))
  }

  /** With the real `buildPrompt`, the prompt for a type opens with the persona that `String(type)`
      selects and ends with the question about the type's area. */
  lemma PromptForType(kind: Json, ctx: PromptBuilder.DashboardContext, p: PromptBuilder.Personas, s: Services)
    requires s.build == Builder(p, s.fmt)
    ensures StartsWith(PromptFor(kind, ctx, s), PromptBuilder.PersonaText(p, ValueText(kind, s.fmt)))
    ensures EndsWith(PromptFor(kind, ctx, s), Area(kind) + QuestionTail)
  {
    var r := PromptFor(kind, ctx, s);
    var q := Question(kind);
    var t := ValueText(kind, s.fmt);
    assert r == s.build(q, ctx, t) == Builder(p, s.fmt)(q, ctx, t);
    PromptBuilder.PromptEnds(q, ctx, t, p, s.fmt);
    assert Builder(p, s.fmt)(q, ctx, t) == PromptBuilder.BuildPrompt(q, ctx, t, p, s.fmt);
    AffixTransitive(r, q, Area(kind) + QuestionTail);
  }

  /** The three areas each get their own persona. */
  lemma PromptForArea(kind: string, ctx: PromptBuilder.DashboardContext, p: PromptBuilder.Personas, s: Services)
    requires s.build == Builder(p, s.fmt)
    ensures kind == "commercial" ==> StartsWith(PromptFor(Str(kind), ctx, s), p.commercial)
    ensures kind == "operational" ==> StartsWith(PromptFor(Str(kind), ctx, s), p.operational)
    ensures kind == "team" ==> StartsWith(PromptFor(Str(kind), ctx, s), p.team)
  {
    assert ValueText(Str(kind), s.fmt) == kind;
    PromptForType(Str(kind), ctx, p, s);
    var persona := PromptBuilder.PersonaText(p, kind);
    assert StartsWith(PromptFor(Str(kind), ctx, s), persona);
    PromptBuilder.PersonaChoice(p, kind);
    if kind == "commercial" {
      assert persona == p.commercial;
    } else if kind == "operational" {
      assert persona == p.operational;
    } else if kind == "team" {
      assert persona == p.team;
    }
  }

  /** The call throws: the provider failed, or the message has no first block (`content[0].type`). */
  predicate Throws(c: Completion) {
    c.Refused? || |c.content| == 0
  }

  /** The first block of the message exists and is text. */
  predicate TextFirst(c: Completion) {
    c.Message? && |c.content| > 0 && c.content[0].TextBlock?
  }

  /** `rec` is the recommendation a text reply `c` gives for type `kind`. */
  predicate Answers(kind: Json, c: Completion, rec: Recommendation) {
    TextFirst(c) && rec == Recommendation(kind, c.content[0].text)
  }

  /** What one reply adds: `{ focus: type, content }` when the first block is text, nothing otherwise. */
  function Kept(kind: Json, c: Completion): (r: seq<Recommendation>)
    ensures |r| <= 1
    ensures |r| == 1 <==> TextFirst(c)
    ensures |r| == 1 ==> r[0] == Recommendation(kind, c.content[0].text)
  {
    if TextFirst(c) then [Recommendation(kind, c.content[0].text)] else []
  }

  /** The recommendations a run over `types` collects when no call throws; `prompt` gives the
      prompt for a type and `provider` the reply to a prompt. */
  function Collected(types: seq<Json>, prompt: Json -> string, provider: string -> Completion): seq<Recommendation> {
    if |types| == 0 then []
    else
      var last := types[|types| - 1];
      Collected(types[..|types| - 1], prompt, provider) + Kept(last, provider(prompt(last)))
  }

  /** No call of a run over `types` throws. */
  predicate AllAnswered(types: seq<Json>, prompt: Json -> string, provider: string -> Completion) {
    forall i | 0 <= i < |types| :: !Throws(provider(prompt(types[i])))
  }

  /** There are never more recommendations than types, and each is the kept reply for one of the
      types. */
  lemma {:induction false} CollectedFollowsTypes(types: seq<Json>, prompt: Json -> string, provider: string -> Completion)
    ensures |Collected(types, prompt, provider)| <= |types|
    ensures forall k | 0 <= k < |Collected(types, prompt, provider)| ::
      exists j | 0 <= j < |types| :: Answers(types[j], provider(prompt(types[j])), Collected(types, prompt, provider)[k])
  {
    if |types| > 0 {
      var init := types[..|types| - 1];
      var last := types[|types| - 1];
      CollectedFollowsTypes(init, prompt, provider);
      var c := Collected(init, prompt, provider);
      var r := Collected(types, prompt, provider);
      assert r == c + Kept(last, provider(prompt(last)));
      forall k | 0 <= k < |r|
        ensures exists j | 0 <= j < |types| :: Answers(types[j], provider(prompt(types[j])), r[k])
      {
        if k < |c| {
          var j :| 0 <= j < |init| && Answers(init[j], provider(prompt(init[j])), c[k]);
          assert init[j] == types[j];
          assert r[k] == c[k];
        } else {
          assert Answers(types[|types| - 1], provider(prompt(types[|types| - 1])), r[k]);
        }
      }
    }
  }

  /** When every reply's first block is text, each type gets exactly one recommendation, in order. */
  lemma {:induction false} AllTextKeepsAll(types: seq<Json>, prompt: Json -> string, provider: string -> Completion)
    requires forall i | 0 <= i < |types| :: TextFirst(provider(prompt(types[i])))
    ensures |Collected(types, prompt, provider)| == |types|
    ensures forall i | 0 <= i < |types| ::
      Answers(types[i], provider(prompt(types[i])), Collected(types, prompt, provider)[i])
  {
    if |types| > 0 {
      var init := types[..|types| - 1];
      assert forall i | 0 <= i < |init| :: init[i] == types[i];
      AllTextKeepsAll(init, prompt, provider);
    }
  }

  /** The loop of POST: one call per type, in order, stopping at the first call that throws. */
  method Gather(types: seq<Json>, prompt: Json -> string, provider: string -> Completion)
    returns (calls: seq<string>, recs: seq<Recommendation>, ok: bool)
    ensures |calls| <= |types|
    ensures forall i | 0 <= i < |calls| :: calls[i] == prompt(types[i])
    ensures ok <==> AllAnswered(types, prompt, provider)
    ensures ok ==> |calls| == |types| && recs == Collected(types, prompt, provider)
    ensures !ok ==> 0 < |calls| && Throws(provider(calls[|calls| - 1]))
                    && forall i | 0 <= i < |calls| - 1 :: !Throws(provider(calls[i]))
  {
    calls := [];
    recs := [];
    var i := 0;
    while i < |types|
      invariant 0 <= i <= |types|
      invariant |calls| == i
      invariant forall j | 0 <= j < i :: calls[j] == prompt(types[j])
      invariant forall j | 0 <= j < i :: !Throws(provider(calls[j]))
      invariant recs == Collected(types[..i], prompt, provider)
    {
      var text := prompt(types[i]);
      calls := calls + [text];
      var message := provider(text);
      if Throws(message) {
        ok := false;
        return;
      }
      assert types[..i + 1][..i] == types[..i];
      recs := recs + Kept(types[i], message);
      i := i + 1;
    }
    assert types[..i] == types;
    ok := true;
  }

  /** A recommendation as the response lists it. */
  function RecommendationJson(r: Recommendation): Json {
    Obj([("focus", r.focus), ("content", Str(r.content))])
  }

  function ErrorBody(message: string): Json {
    Obj([("error", Str(message))])
  }

  /** The prompt for each type, once the context has been read. */
  function Prompter(ctx: PromptBuilder.DashboardContext, s: Services): Json -> string {
    k => PromptFor(k, ctx, s)
  }

  /** The body of the 200 answer. */
  function Listing(recs: seq<Recommendation>): (r: Json)
    ensures r.Obj? && Get(r.fields, "recommendations").Some?
    ensures Get(r.fields, "recommendations").value.Arr?
    ensures |Get(r.fields, "recommendations").value.items| == |recs|
    ensures forall k | 0 <= k < |recs| ::
      Get(r.fields, "recommendations").value.items[k] == Obj([("focus", recs[k].focus), ("content", Str(recs[k].content))])
  {
    Obj([("recommendations", Arr(seq(|recs|, k requires 0 <= k < |recs| => RecommendationJson(recs[k]))))])
  }

  /** The part of POST after the context has been read: the loop, then 200 with the list, or 500
      when a call throws. */
  method Answer(types: seq<Json>, prompt: Json -> string, provider: string -> Completion)
    returns (calls: seq<string>, response: Response)
    ensures response.status in {200, 500}
    ensures response.status == 200 <==> AllAnswered(types, prompt, provider)
    ensures response.status == 500 ==> response.body == ErrorBody(ErrorMessage)
    ensures response.status == 200 ==>
      && |calls| == |types|
      && (forall i | 0 <= i < |types| :: calls[i] == prompt(types[i]))
      && response.body == Listing(Collected(types, prompt, provider))
  {
    var recs, ok;
    calls, recs, ok := Gather(types, prompt, provider);
    if !ok {
      response := Response(500, ErrorBody(ErrorMessage));
    } else {
      response := Response(200, Listing(recs));
    }
  }

  /** POST: the prompts sent, in order, and the response. */
  method Post(req: Request, s: Services) returns (calls: seq<string>, response: Response)
    ensures response.status in {200, 400, 500}
    ensures response.status == 400 <==> req.Body? && req.value != Null && !Truthy(Property(req.value, "context"))
    ensures response.status == 400 ==> response.body == ErrorBody(MissingContext) && calls == []
    ensures response.status == 500 ==> response.body == ErrorBody(ErrorMessage)
    ensures response.status == 200 <==>
      && req.Body? && req.value != Null && Truthy(Property(req.value, "context"))
      && s.decode(Property(req.value, "context").value).Some?
      && AllAnswered(Types(Property(req.value, "focus")),
                     Prompter(s.decode(Property(req.value, "context").value).value, s), s.provider)
    ensures response.status == 200 ==>
      var types := Types(Property(req.value, "focus"));
      var prompt := Prompter(s.decode(Property(req.value, "context").value).value, s);
      && |calls| == |types|
      && (forall i | 0 <= i < |types| :: calls[i] == prompt(types[i]))
      && response.body == Listing(Collected(types, prompt, s.provider))
  {
    calls := [];
    if req.Malformed? || req.value.Null? {
      response := Response(500, ErrorBody(ErrorMessage));
      return;
    }
    var context := Property(req.value, "context");
    if !Truthy(context) {
      response := Response(400, ErrorBody(MissingContext));
      return;
    }
    var ctx := s.decode(context.value);
    if ctx.None? {
      response := Response(500, ErrorBody(ErrorMessage));
      return;
    }
    calls, response := Answer(Types(Property(req.value, "focus")), Prompter(ctx.value, s), s.provider);
  }
}
