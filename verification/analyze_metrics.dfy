/** The metrics analysis endpoint (app/api/ai/analyze-metrics/route.ts): the serialised context cut
    to 5000 code units and the director's question, quoted, inside a fixed prompt. */
module AnalyzeMetrics {
  import opened Wrappers
  import opened JsText
  import opened Json
  import opened Sanitizer
  import opened Http

  const Intro: string :=
    ("Tu es un expert en stratégie " + "et data analytics pour des " + "sites écotouristiques.\n\n")
    + "Ta mission :\n"
    + ("- Analyser les indicateurs " + "fournis (sites, employés, " + "avis, contexte).\n")
    + ("- Répondre à la question " + "business du directeur.\n")
    + ("- Répondre en français, " + "en format markdown lisible.\n\n")
    + "Contexte (JSON tronqué) :\n"

  const QuestionLabel: string := "\n\nQuestion :\n"

  const Outro: string :=
    ("\n\nStructure attendue de " + "la réponse (markdown) :\n")
    + "- Résumé global (2-3 phrases)\n"
    + ("- Section \"Insights clés\" " + "en liste à puces\n")
    + ("- Section \"Actions recommandées\" " + "en liste à puces\n")
    + ("- Si pertinent, mentionner " + "les risques ou points de " + "vigilance.")

  const ErrorMessage: string := "Erreur lors de l'analyse"

  /** The prompt: the fixed introduction and the context, then the question in double quotes, then
      the expected structure. */
  function MetricsPrompt(summary: string, question: string): (r: string)
    ensures StartsWith(r, Intro + summary + QuestionLabel)
    ensures EndsWith(r, "\"" + question + "\"" + Outro)
    ensures |r| == |Intro + summary + QuestionLabel| + |"\"" + question + "\"" + Outro|
  {
    var head := Intro + summary + QuestionLabel;
    var tail := "\"" + question + "\"" + Outro;
    Joined(head, tail);
    head + tail
  }

  /** The success body `{ success: true, analysis, source: "perplexity" }`. */
  function SuccessBody(analysis: string): Json {
    Obj([("success", Bool(true)), ("analysis", Str(analysis)), ("source", Str("perplexity"))])
  }

  /** What a reader of the success body finds under each key. */
  lemma SuccessFields(analysis: string, key: string)
    ensures Get(SuccessBody(analysis).fields, key)
         == if key == "success" then Some(Bool(true)) else if key == "analysis" then Some(Str(analysis))
            else if key == "source" then Some(Str("perplexity")) else None
  {
    GetOfThree("success", Bool(true), "analysis", Str(analysis), "source", Str("perplexity"), key);
  }

  /** POST. `JSON.stringify(undefined)` gives undefined, whose `slice` throws: a body without a
      context is answered with the error. */
  function Post(req: Request, reply: Reply, codec: Codec, fmt: NumberFormat): (x: Exchange)
    ensures x.response.status == 200 || x.response == Failed(ErrorMessage)
    ensures x.response.status == 200 <==> x.prompt.Some? && reply.Answer?
    ensures x.prompt.Some? <==> req.Body? && req.value != Null && Property(req.value, "context").Some?
  {
    match req
    case Malformed(_) => Exchange(None, Failed(ErrorMessage))
    case Body(v) =>
      if v.Null? then Exchange(None, Failed(ErrorMessage))
      else
        match Property(v, "context")
        case None => Exchange(None, Failed(ErrorMessage))
        case Some(context) =>
          var summary := Take(codec.stringify(context), 5000);
          var prompt := MetricsPrompt(summary, Text(Property(v, "question"), fmt));
          match reply
          case Answer(text) => Exchange(Some(prompt), Response(200, SuccessBody(SanitizeReport(text))))
          case _ => Exchange(Some(prompt), Failed(ErrorMessage))
  }

  /** The prompt sent for a body with a context: the serialised context cut to at most 5000 code
      units, then the question (`String(question)`) in double quotes. */
  lemma PromptSent(req: Request, reply: Reply, codec: Codec, fmt: NumberFormat)
    requires req.Body? && req.value != Null && Property(req.value, "context").Some?
    ensures var v := req.value;
      var serialized := codec.stringify(Property(v, "context").value);
      var p := Post(req, reply, codec, fmt).prompt.value;
      exists summary ::
        && |summary| <= 5000 && StartsWith(serialized, summary)
        && (|serialized| <= 5000 ==> summary == serialized)
        && StartsWith(p, Intro + summary + QuestionLabel)
        && EndsWith(p, "\"" + Text(Property(v, "question"), fmt) + "\"" + Outro)
  {
    var v := req.value;
    var serialized := codec.stringify(Property(v, "context").value);
    var summary := Take(serialized, 5000);
    assert Post(req, reply, codec, fmt).prompt == Some(MetricsPrompt(summary, Text(Property(v, "question"), fmt)));
    assert StartsWith(serialized, summary);
  }

  /** A success carries the cleaned reply and the source, and no error. */
  lemma SuccessReply(req: Request, reply: Reply, codec: Codec, fmt: NumberFormat)
    requires Post(req, reply, codec, fmt).response.status == 200
    ensures var body := Post(req, reply, codec, fmt).response.body;
      && reply.Answer? && body.Obj?
      && Get(body.fields, "success") == Some(Bool(true))
      && Get(body.fields, "analysis") == Some(Str(SanitizeReport(reply.text)))
      && Get(body.fields, "source") == Some(Str("perplexity"))
      && Get(body.fields, "error").None?
  {
    var analysis := SanitizeReport(reply.text);
    assert Post(req, reply, codec, fmt).response == Response(200, SuccessBody(analysis));
    SuccessFields(analysis, "success");
    SuccessFields(analysis, "analysis");
    SuccessFields(analysis, "source");
    SuccessFields(analysis, "error");
  }
}
