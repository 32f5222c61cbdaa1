/** The report generation endpoint (app/api/reports/generate/route.ts): it picks a template from
    `REPORT_PROMPTS` by report type, fills its `{{context}}` slot with the truncated serialised
    context, asks the provider and returns the cleaned text.

    One defect is modelled beside its repair (`Variant`): the lookup `REPORT_PROMPTS[type]` also
    finds the members every object inherits, so a report type such as "toString" yields a function,
    `??` keeps it, and `.replace` throws. */
module GenerateReport {
  import opened Wrappers
  import opened JsText
  import opened Json
  import opened Registry
  import opened Sanitizer
  import opened Http

  const Slot: string := "{{context}}"

  /** The line that introduces the context in every template. */
  const ContextLabel: string := "\n\nContexte (JSON tronqué) :\n"

  /** A report template: an introduction, the context label, the slot, then the request. */
  datatype Template = Template(intro: string, request: string)

  function TemplateText(t: Template): string {
    t.intro + ContextLabel + Slot + t.request
  }

  const Executive: Template := Template(
    ("Tu es un data analyst senior " + "qui rédige un **rapport " + "exécutif pour un PDG** \n" + "d'un groupe de sites écotouristiques " + "en Afrique de l'Ouest."),
    ("\n\nRédige un rapport en **français**, " + "format **Markdown**, avec " + ":\n- Un titre de rapport\n" + "- Une section \"KPI clés\" " + "avec chiffres plausibles " + "cohérents avec le contexte\n" + "- Une section \"Tendances\" " + "(3\U{2013}5 points)\n- Une section " + "\"Recommandations\" (2\U{2013}4 actions " + "stratégiques)"))

  const Financial: Template := Template(
    ("Tu es un contrôleur financier " + "qui prépare un **rapport " + "financier détaillé** \npour " + "un groupe de sites écotouristiques."),
    ("\n\nRédige un rapport en **français**, " + "format **Markdown**, avec " + ":\n- Tableau \"Revenus par " + "site\" (site, revenus, % " + "croissance)\n- Section \"Analyse " + "de la rentabilité\"\n- Section " + "\"Prévisions 30/60/90 jours\" " + "(avec montants plausibles)\n" + "- Section \"Opportunités " + "& leviers de croissance\""))

  const Operational: Template := Template(
    "Tu es un directeur des opérations.",
    ("\n\nRédige un **rapport opérationnel** " + "en français, Markdown, avec " + ":\n- Performance des sites " + "(occupation, incidents, " + "disponibilité des équipes)\n" + "- Liste des problèmes ouverts " + "/ risques\n- Recommandations " + "opérationnelles concrètes " + "(maintenance, staffing, " + "process)"))

  const Satisfaction: Template := Template(
    "Tu es responsable expérience client.",
    ("\n\nRédige un **rapport de " + "satisfaction clients** en " + "français, Markdown, avec " + ":\n- Métriques clés (NPS, " + "satisfaction moyenne, % " + "avis positifs/négatifs)\n" + "- Problèmes récurrents identifiés " + "dans les avis\n- Points forts " + "les plus appréciés\n- Plan " + "d\U{2019}actions prioritaire pour " + "améliorer la satisfaction"))

  const Anomalies: Template := Template(
    "Tu es analyste risques.",
    ("\n\nRédige un **rapport d'anomalies " + "& alertes** en français, " + "Markdown, avec :\n- Liste " + "des alertes critiques (sites " + "sous-performants, chutes " + "de NPS, etc.)\n- Incidents " + "récents marquants\n- Analyse " + "des causes probables\n- Actions " + "correctives recommandées"))

  const Strategic: Template := Template(
    "Tu es consultant stratégique.",
    ("\n\nRédige un **plan stratégique " + "30/60/90 jours** en français, " + "Markdown, avec :\n- Objectifs " + "globaux\n- Plan d\U{2019}actions " + "pour 0\U{2013}30 jours\n- Plan d\U{2019}actions " + "pour 30\U{2013}60 jours\n- Plan " + "d\U{2019}actions pour 60\U{2013}90 jours\n" + "- Indicateurs de succès " + "à suivre"))

  /** A table with the keys of `REPORT_PROMPTS`, in its order. */
  datatype Templates = Templates(
    executive: string, financial: string, operational: string,
    satisfaction: string, anomalies: string, strategic: string)

  function Table(t: Templates): seq<(string, string)> {
    [("executive", t.executive), ("financial", t.financial), ("operational", t.operational),
     ("satisfaction", t.satisfaction), ("anomalies", t.anomalies), ("strategic", t.strategic)]
  }

  /** `REPORT_PROMPTS`. */
  const ReportPrompts: Templates := Templates(
    TemplateText(Executive), TemplateText(Financial), TemplateText(Operational),
    TemplateText(Satisfaction), TemplateText(Anomalies), TemplateText(Strategic))

  const ReportTypes: set<string> :=
    {"executive", "financial", "operational", "satisfaction", "anomalies", "strategic"}

  /** A lookup in the table, key by key. */
  lemma FindInTable(t: Templates, key: string)
    ensures Find(Table(t), key)
         == if key == "executive" then Own(t.executive) else if key == "financial" then Own(t.financial)
            else if key == "operational" then Own(t.operational) else if key == "satisfaction" then Own(t.satisfaction)
            else if key == "anomalies" then Own(t.anomalies) else if key == "strategic" then Own(t.strategic)
            else if key in ObjectPrototypeMembers then Inherited(key) else Absent
  {
    FindSix("executive", t.executive, "financial", t.financial, "operational", t.operational,
            "satisfaction", t.satisfaction, "anomalies", t.anomalies, "strategic", t.strategic, key);
  }

  /** The table answers with a template exactly for the six report types, and with an inherited
      member for every member name. */
  lemma TableKeys(t: Templates, key: string)
    ensures Find(Table(t), key).Own? <==> key in ReportTypes
    ensures Find(Table(t), "executive") == Own(t.executive)
    ensures key in ObjectPrototypeMembers ==> Find(Table(t), key) == Inherited(key)
  {
    FindInTable(t, key);
    FindInTable(t, "executive");
    if key in ObjectPrototypeMembers {
      InheritedNotReportType(key);
    }
  }

  lemma InheritedNotReportType(key: string)
    requires key in ObjectPrototypeMembers
    ensures key !in ReportTypes
  {
  }

  const DefaultError: string := "Erreur lors de la génération du rapport"

  /** `reportType || "executive"`: a missing or falsy report type becomes "executive". */
  function ReportType(body: Json): (r: Json)
    ensures Truthy(Property(body, "reportType")) ==> Some(r) == Property(body, "reportType")
    ensures !Truthy(Property(body, "reportType")) ==> r == Str("executive")
  {
    var t := Property(body, "reportType");
    if Truthy(t) then t.value else Str("executive")
  }

  /** `REPORT_PROMPTS[type] ?? REPORT_PROMPTS.executive`, or None where the value found is not a
      string and `.replace` throws. As written an inherited member is such a value; corrected, only
      the table's own keys are looked up. */
  function BasePrompt(variant: Variant, t: Templates, key: string): (r: Option<string>)
    ensures Find(Table(t), key).Own? ==> r == Some(Find(Table(t), key).value)
    ensures Find(Table(t), key).Absent? ==> r == Some(t.executive)
    ensures Find(Table(t), key).Inherited? ==> (r.None? <==> variant == AsWritten)
  {
    TableKeys(t, key);
    match Find(Table(t), key)
    case Own(text) => Some(text)
    case Inherited(_) => if variant == AsWritten then None else Some(t.executive)
    case Absent => Some(t.executive)
  }

  /** The success body `{ success: true, type, content, generatedAt, source: "perplexity" }`. */
  function SuccessBody(kind: Json, content: string, now: string): (r: Json)
    ensures r.Obj?
    ensures Get(r.fields, "success") == Some(Bool(true))
    ensures Get(r.fields, "type") == Some(kind)
    ensures Get(r.fields, "content") == Some(Str(content))
    ensures Get(r.fields, "generatedAt") == Some(Str(now))
    ensures Get(r.fields, "source") == Some(Str("perplexity"))
    ensures Get(r.fields, "error").None?
  {
    var success := Bool(true);
    var source := Str("perplexity");
    GetOfFive("success", success, "type", kind, "content", Str(content), "generatedAt", Str(now), "source", source, "success");
    GetOfFive("success", success, "type", kind, "content", Str(content), "generatedAt", Str(now), "source", source, "type");
    GetOfFive("success", success, "type", kind, "content", Str(content), "generatedAt", Str(now), "source", source, "content");
    GetOfFive("success", success, "type", kind, "content", Str(content), "generatedAt", Str(now), "source", source, "generatedAt");
    GetOfFive("success", success, "type", kind, "content", Str(content), "generatedAt", Str(now), "source", source, "source");
    GetOfFive("success", success, "type", kind, "content", Str(content), "generatedAt", Str(now), "source", source, "error");
    Obj([("success", success), ("type", kind), ("content", Str(content)), ("generatedAt", Str(now)), ("source", source)])
  }

  /** The three places where the handler throws a TypeError: destructuring a null body, calling
      `replace` on a template that is not a string, and calling `replace` on a reply without text. */
  datatype TypeFault = NullBody | TemplateNotString | TextMissing

  /** POST over a template table. `now` is the clock reading `new Date().toISOString()` gives, and
      `fault` the message of the TypeError thrown at each place; the model does not relate the three
      messages. */
  function Generate(variant: Variant, t: Templates, req: Request, reply: Reply,
                    codec: Codec, fmt: NumberFormat, now: string, fault: TypeFault -> string): (x: Exchange)
    ensures x.response.status == 200 || x.response.status == 500
    ensures x.response.status == 200 <==> x.prompt.Some? && reply.Answer?
    ensures x.prompt.Some? <==>
      req.Body? && req.value != Null && BasePrompt(variant, t, ValueText(ReportType(req.value), fmt)).Some?
  {
    match req
    case Malformed(m) => Exchange(None, Failed(m))
    case Body(v) =>
      if v.Null? then Exchange(None, Failed(fault(NullBody)))
      else
        var kind := ReportType(v);
        match BasePrompt(variant, t, ValueText(kind, fmt))
        case None => Exchange(None, Failed(fault(TemplateNotString)))
        case Some(base) =>
          var prompt := ReplaceFirst(base, Slot, ContextSummary(codec.stringify, Property(v, "context"), 4000));
          match reply
          case Answer(text) => Exchange(Some(prompt), Response(200, SuccessBody(kind, SanitizeReport(text), now)))
          case NoText => Exchange(Some(prompt), Failed(fault(TextMissing)))
          case Failure(e) => Exchange(Some(prompt), Failed(ErrorText(e, DefaultError)))
  }

  /** The endpoint as the source writes it. */
  function Post(req: Request, reply: Reply, codec: Codec, fmt: NumberFormat, now: string, fault: TypeFault -> string): Exchange {
    Generate(AsWritten, ReportPrompts, req, reply, codec, fmt, now, fault)
  }

  lemma LabelHasNoBrace()
    ensures forall i | 0 <= i < |ContextLabel| :: ContextLabel[i] != '{'
  {
  }

  /** A template whose introduction has no brace gets the replacement right after its context label;
      a replacement without `$` is inserted as it is. */
  lemma TemplateFilled(t: Template, summary: string)
    requires forall i | 0 <= i < |t.intro| :: t.intro[i] != '{'
    ensures ReplaceFirst(TemplateText(t), Slot, summary)
         == t.intro + ContextLabel + Substitute(summary, Slot, t.intro + ContextLabel, t.request) + t.request
    ensures '$' !in summary ==> ReplaceFirst(TemplateText(t), Slot, summary) == t.intro + ContextLabel + summary + t.request
  {
    var head := t.intro + ContextLabel;
    LabelHasNoBrace();
    assert forall i | |t.intro| <= i < |head| :: head[i] == ContextLabel[i - |t.intro|];
    ReplaceFirstInTemplate(head, Slot, t.request, summary);
    if '$' !in summary {
      SubstitutePlain(summary, Slot, head, t.request);
    }
  }

  // ---------------------------------------------------------------------------------------------
  // Type fallback

  /** A missing or falsy report type uses the executive template. */
  lemma NoTypeUsesExecutive(variant: Variant, t: Templates, req: Request, reply: Reply, codec: Codec,
                            fmt: NumberFormat, now: string, fault: TypeFault -> string)
    requires req.Body? && req.value != Null
    requires !Truthy(Property(req.value, "reportType"))
    ensures Generate(variant, t, req, reply, codec, fmt, now, fault).prompt
         == Some(ReplaceFirst(t.executive, Slot, ContextSummary(codec.stringify, Property(req.value, "context"), 4000)))
  {
    TableKeys(t, "executive");
    assert ValueText(Str("executive"), fmt) == "executive";
  }

  /** A report type that names no template and no inherited member also uses the executive
      template, and the success reply still echoes the requested type. */
  lemma UnknownTypeUsesExecutive(variant: Variant, t: Templates, req: Request, text: string, codec: Codec,
                                 fmt: NumberFormat, now: string, fault: TypeFault -> string)
    requires req.Body? && Truthy(Property(req.value, "reportType"))
    requires var key := ValueText(Property(req.value, "reportType").value, fmt);
      key !in ReportTypes && key !in ObjectPrototypeMembers
    ensures var x := Generate(variant, t, req, Answer(text), codec, fmt, now, fault);
      && x.prompt == Some(ReplaceFirst(t.executive, Slot, ContextSummary(codec.stringify, Property(req.value, "context"), 4000)))
      && x.response.status == 200
      && Get(x.response.body.fields, "type") == Property(req.value, "reportType")
  {
    FindInTable(t, ValueText(Property(req.value, "reportType").value, fmt));
  }

  /** A report type of the table selects its own template. */
  lemma KnownTypeUsesItsTemplate(variant: Variant, t: Templates, req: Request, reply: Reply, codec: Codec,
                                 fmt: NumberFormat, now: string, fault: TypeFault -> string)
    requires req.Body? && Property(req.value, "reportType").Some? && Property(req.value, "reportType").value.Str?
    requires Property(req.value, "reportType").value.s in ReportTypes
    ensures var key := Property(req.value, "reportType").value.s;
      && Find(Table(t), key).Own?
      && Generate(variant, t, req, reply, codec, fmt, now, fault).prompt
         == Some(ReplaceFirst(Find(Table(t), key).value, Slot, ContextSummary(codec.stringify, Property(req.value, "context"), 4000)))
  {
    var key := Property(req.value, "reportType").value.s;
    TableKeys(t, key);
    assert ValueText(ReportType(req.value), fmt) == key;
  }

  // ---------------------------------------------------------------------------------------------
  // Responses

  /** A success carries `success: true`, the requested type, the cleaned reply, the clock reading and
      the source, and no error; a reply without a closing think tag is only trimmed. */
  lemma SuccessReply(variant: Variant, t: Templates, req: Request, reply: Reply,
                     codec: Codec, fmt: NumberFormat, now: string, fault: TypeFault -> string)
    requires Generate(variant, t, req, reply, codec, fmt, now, fault).response.status == 200
    ensures var body := Generate(variant, t, req, reply, codec, fmt, now, fault).response.body;
      && req.Body? && reply.Answer? && body.Obj?
      && Get(body.fields, "success") == Some(Bool(true))
      && Get(body.fields, "type") == Some(ReportType(req.value))
      && Get(body.fields, "content") == Some(Str(SanitizeReport(reply.text)))
      && Get(body.fields, "generatedAt") == Some(Str(now))
      && Get(body.fields, "source") == Some(Str("perplexity"))
      && Get(body.fields, "error").None?
      && ((forall j :: !OccursAt("</think>", reply.text, j)) ==> Get(body.fields, "content") == Some(Str(Trim(reply.text))))
  {
    if forall j :: !OccursAt("</think>", reply.text, j) {
      UnclosedThinkKept(reply.text);
    }
  }

  /** Every failure answers 500 with `success: false` and a message: the parser's for an unreadable
      body, the thrown error's (or the default text) for a provider failure, the TypeError's for
      a null body, a reply without text or a template that is not a string. */
  lemma ErrorAnswers(variant: Variant, t: Templates, req: Request, reply: Reply,
                     codec: Codec, fmt: NumberFormat, now: string, fault: TypeFault -> string)
    ensures var x := Generate(variant, t, req, reply, codec, fmt, now, fault);
      && (req.Malformed? ==> x == Exchange(None, Failed(req.message)))
      && (req == Body(Null) ==> x == Exchange(None, Failed(fault(NullBody))))
      && (x.prompt.None? && req.Body? && req.value != Null ==> x.response == Failed(fault(TemplateNotString)))
      && (x.prompt.Some? && reply.Failure? ==> x.response == Failed(ErrorText(reply.thrown, DefaultError)))
      && (x.prompt.Some? && reply.NoText? ==> x.response == Failed(fault(TextMissing)))
  {
  }

  // ---------------------------------------------------------------------------------------------
  // Inherited report types

  /** As written, a report type that names an inherited member ("toString", "constructor", ...)
      makes `.replace` throw: the provider is not called and the endpoint answers 500. */
  lemma InheritedTypeFails(t: Templates, req: Request, reply: Reply, codec: Codec, fmt: NumberFormat, now: string, fault: TypeFault -> string)
    requires req.Body? && Property(req.value, "reportType").Some?
    requires Property(req.value, "reportType").value.Str?
    requires Property(req.value, "reportType").value.s in ObjectPrototypeMembers
    ensures Generate(AsWritten, t, req, reply, codec, fmt, now, fault) == Exchange(None, Failed(fault(TemplateNotString)))
  {
    var key := Property(req.value, "reportType").value.s;
    TableKeys(t, key);
    assert ValueText(ReportType(req.value), fmt) == key;
    assert BasePrompt(AsWritten, t, key).None?;
  }

  /** Looking up own keys only, the same request gets the executive template and a success reply. */
  lemma InheritedTypeCorrected(t: Templates, req: Request, text: string, codec: Codec, fmt: NumberFormat, now: string, fault: TypeFault -> string)
    requires req.Body? && Property(req.value, "reportType").Some?
    requires Property(req.value, "reportType").value.Str?
    requires Property(req.value, "reportType").value.s in ObjectPrototypeMembers
    ensures var x := Generate(Corrected, t, req, Answer(text), codec, fmt, now, fault);
      && x.prompt == Some(ReplaceFirst(t.executive, Slot, ContextSummary(codec.stringify, Property(req.value, "context"), 4000)))
      && x.response.status == 200
  {
    var key := Property(req.value, "reportType").value.s;
    TableKeys(t, key);
    assert ValueText(ReportType(req.value), fmt) == key;
    assert BasePrompt(Corrected, t, key) == Some(t.executive);
  }
}
