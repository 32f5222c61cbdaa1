/** The anomaly report endpoint (app/api/reports/anomaly/route.ts): an instruction chosen by
    anomaly type, a header naming the severity, the indented context cut to 4000 code units and a
    fixed request for a five-section report. */
module AnomalyReport {
  import opened Wrappers
  import opened JsText
  import opened Json
  import opened Registry
  import opened Sanitizer
  import opened Http

  /** A table with the keys of `anomalyPrompts`, in its order. */
  datatype Instructions = Instructions(
    revenueDrop: string, lowOccupancy: string, negativeSentiment: string,
    staffAbsence: string, siteClosure: string, complianceIssue: string)

  function InstructionTable(i: Instructions): seq<(string, string)> {
    [("revenue-drop", i.revenueDrop), ("low-occupancy", i.lowOccupancy),
     ("negative-sentiment", i.negativeSentiment), ("staff-absence", i.staffAbsence),
     ("site-closure", i.siteClosure), ("compliance-issue", i.complianceIssue)]
  }

  /** `anomalyPrompts`. */
  const AnomalyPrompts: Instructions := Instructions(
    ("Analyse la baisse de revenus " + "détectée et propose un plan " + "d'action d'urgence."),
    ("Évalue la faible occupation " + "et recommande des stratégies " + "commerciales immédiates."),
    ("Analyse les avis négatifs " + "et propose des correctifs " + "prioritaires."),
    ("Évalue l'impact des absences " + "et propose un plan de redéploiement."),
    ("Analyse l'impact de la fermeture " + "du site et propose un plan " + "de continuité."),
    ("Analyse les problèmes de " + "conformité et propose des " + "actions correctives."))

  const AnomalyTypes: set<string> :=
    {"revenue-drop", "low-occupancy", "negative-sentiment", "staff-absence", "site-closure", "compliance-issue"}

  const GenericInstruction: string := ("Analyse cette anomalie et " + "propose un plan d'action " + "priorisé.")

  const SeverityLabel: string := "RAPPORT D'ANOMALIE - SÉVÉRITÉ: "

  const ContextIntro: string := "\n\nCONTEXTE (JSON tronqué):\n"

  const ReportRequest: string :=
    ("Rédige un rapport structuré " + "en français, en markdown " + "lisible, avec les sections " + "suivantes :\n")
    + "1. Description de l'anomalie\n"
    + ("2. Impact estimé (financier, " + "opérationnel, client)\n")
    + ("3. Actions correctives prioritaires " + "(liste à puces avec niveaux " + "de priorité)\n")
    + "4. Responsable(s) à alerter\n"
    + ("5. Délai de résolution recommandé " + "et indicateurs de suivi.")

  const DefaultError: string := "Erreur lors de la génération du rapport"

  /** A lookup in the table, key by key. */
  lemma FindInInstructions(i: Instructions, key: string)
    ensures Find(InstructionTable(i), key)
         == if key == "revenue-drop" then Own(i.revenueDrop) else if key == "low-occupancy" then Own(i.lowOccupancy)
            else if key == "negative-sentiment" then Own(i.negativeSentiment)
            else if key == "staff-absence" then Own(i.staffAbsence)
            else if key == "site-closure" then Own(i.siteClosure)
            else if key == "compliance-issue" then Own(i.complianceIssue)
            else if key in ObjectPrototypeMembers then Inherited(key) else Absent
  {
    FindSix("revenue-drop", i.revenueDrop, "low-occupancy", i.lowOccupancy,
            "negative-sentiment", i.negativeSentiment, "staff-absence", i.staffAbsence,
            "site-closure", i.siteClosure, "compliance-issue", i.complianceIssue, key);
  }

  /** `anomalyPrompts[anomalyType] || GENERIC`: the key is `String(anomalyType)`; an empty text
      falls back like a missing one, and an inherited member, being a function, is kept and prints
      as its source. */
  function Instruction(i: Instructions, anomalyType: Option<Json>, fmt: NumberFormat): string {
    match Find(InstructionTable(i), Text(anomalyType, fmt))
    case Own(text) => if text != "" then text else GenericInstruction
    case Inherited(name) => InheritedText(name)
    case Absent => GenericInstruction
  }

  /** The six anomaly types get their own instruction; any other value, undefined included, gets the
      generic one, except the names of inherited members, which print as their source ("constructor"
      as the `Object` function). */
  lemma InstructionChoice(anomalyType: Option<Json>, fmt: NumberFormat)
    ensures var key := Text(anomalyType, fmt);
      && (key in AnomalyTypes ==>
            Find(InstructionTable(AnomalyPrompts), key).Own?
            && Instruction(AnomalyPrompts, anomalyType, fmt) == Find(InstructionTable(AnomalyPrompts), key).value)
      && (key !in AnomalyTypes && key !in ObjectPrototypeMembers ==> Instruction(AnomalyPrompts, anomalyType, fmt) == GenericInstruction)
      && (key in ObjectPrototypeMembers ==> Instruction(AnomalyPrompts, anomalyType, fmt) == InheritedText(key))
      && (key == "constructor" ==> Instruction(AnomalyPrompts, anomalyType, fmt) == "function Object() { [native code] }")
      && (anomalyType.None? ==> Instruction(AnomalyPrompts, anomalyType, fmt) == GenericInstruction)
  {
    var key := Text(anomalyType, fmt);
    FindInInstructions(AnomalyPrompts, key);
    InstructionsNonEmpty();
    if key in ObjectPrototypeMembers {
      InheritedNotAnomalyType(key);
    }
    assert Text(None, fmt) == "undefined";
  }

  lemma InstructionsNonEmpty()
    ensures var i := AnomalyPrompts;
      && i.revenueDrop != "" && i.lowOccupancy != "" && i.negativeSentiment != ""
      && i.staffAbsence != "" && i.siteClosure != "" && i.complianceIssue != ""
  {
  }

  lemma InheritedNotAnomalyType(key: string)
    requires key in ObjectPrototypeMembers
    ensures key !in AnomalyTypes
  {
  }

  /** The prompt: the severity header, the instruction, the context block, then the fixed request. */
  function AnomalyPrompt(severity: string, instruction: string, summary: string): (r: string)
    ensures StartsWith(r, SeverityLabel + ToUpper(severity) + "\n\n" + instruction + ContextIntro)
    ensures EndsWith(r, summary + "\n\n" + ReportRequest)
    ensures |r| == |SeverityLabel + ToUpper(severity) + "\n\n" + instruction + ContextIntro| + |summary + "\n\n" + ReportRequest|
  {
    var head := SeverityLabel + ToUpper(severity) + "\n\n" + instruction + ContextIntro;
    var tail := summary + "\n\n" + ReportRequest;
    Joined(head, tail);
    head + tail
  }

  /** The success body `{ success: true, report, timestamp, anomalyType, severity }`. */
  function SuccessBody(report: string, now: string, anomalyType: Option<Json>, severity: Option<Json>): Json {
    Obj([("success", Bool(true)), ("report", Str(report)), ("timestamp", Str(now))]
        + Defined("anomalyType", anomalyType) + Defined("severity", severity))
  }

  /** What a reader of the success body finds under each key: an undefined type or severity is
      dropped when the object is serialised, and nothing else is present. */
  lemma SuccessFields(report: string, now: string, anomalyType: Option<Json>, severity: Option<Json>, key: string)
    ensures Get(SuccessBody(report, now, anomalyType, severity).fields, key)
         == if key == "success" then Some(Bool(true)) else if key == "report" then Some(Str(report))
            else if key == "timestamp" then Some(Str(now)) else if key == "anomalyType" then anomalyType
            else if key == "severity" then severity else None
  {
    var fixed := [("success", Bool(true)), ("report", Str(report)), ("timestamp", Str(now))];
    GetOfThree("success", Bool(true), "report", Str(report), "timestamp", Str(now), key);
    GetAppend(fixed + Defined("anomalyType", anomalyType), Defined("severity", severity), key);
    GetAppend(fixed, Defined("anomalyType", anomalyType), key);
  }

  /** POST with the instruction table `i`; `now` is the clock reading. */
  function Generate(i: Instructions, req: Request, reply: Reply, codec: Codec, fmt: NumberFormat, now: string): (x: Exchange)
    ensures x.response.status == 200 || x.response == Failed(DefaultError)
    ensures x.response.status == 200 <==> x.prompt.Some? && !reply.Failure?
    ensures x.prompt.Some? <==> req.Body? && req.value != Null
  {
    match req
    case Malformed(_) => Exchange(None, Failed(DefaultError))
    case Body(v) =>
      if v.Null? then Exchange(None, Failed(DefaultError))
      else
        var anomalyType := Property(v, "anomalyType");
        var severity := Property(v, "severity");
        var summary := ContextSummary(codec.stringifyIndented, Property(v, "context"), 4000);
        var prompt := AnomalyPrompt(Text(severity, fmt), Instruction(i, anomalyType, fmt), summary);
        match reply
        case Failure(_) => Exchange(Some(prompt), Failed(DefaultError))
        case NoText => Exchange(Some(prompt), Response(200, SuccessBody(SanitizeReport(""), now, anomalyType, severity)))
        case Answer(text) => Exchange(Some(prompt), Response(200, SuccessBody(SanitizeReport(text), now, anomalyType, severity)))
  }

  /** The endpoint as the source writes it. */
  function Post(req: Request, reply: Reply, codec: Codec, fmt: NumberFormat, now: string): Exchange {
    Generate(AnomalyPrompts, req, reply, codec, fmt, now)
  }

  /** The prompt sent for a readable body: severity header in capitals, the chosen instruction, and
      the indented context cut to at most 4000 code units, before the fixed request. */
  lemma PromptSent(i: Instructions, req: Request, reply: Reply, codec: Codec, fmt: NumberFormat, now: string)
    requires req.Body? && req.value != Null
    ensures var v := req.value;
      var summary := ContextSummary(codec.stringifyIndented, Property(v, "context"), 4000);
      var p := Generate(i, req, reply, codec, fmt, now).prompt.value;
      && |summary| <= 4000
      && StartsWith(p, SeverityLabel + ToUpper(Text(Property(v, "severity"), fmt)) + "\n\n"
                       + Instruction(i, Property(v, "anomalyType"), fmt) + ContextIntro)
      && EndsWith(p, summary + "\n\n" + ReportRequest)
  {
  }

  /** A success echoes the anomaly type and severity as they came and carries the cleaned reply (the
      empty text where the reply has none). */
  lemma SuccessReply(i: Instructions, req: Request, reply: Reply, codec: Codec, fmt: NumberFormat, now: string)
    requires Generate(i, req, reply, codec, fmt, now).response.status == 200
    ensures var body := Generate(i, req, reply, codec, fmt, now).response.body;
      && req.Body? && body.Obj?
      && Get(body.fields, "success") == Some(Bool(true))
      && Get(body.fields, "report") == Some(Str(if reply.Answer? then SanitizeReport(reply.text) else ""))
      && Get(body.fields, "timestamp") == Some(Str(now))
      && Get(body.fields, "anomalyType") == Property(req.value, "anomalyType")
      && Get(body.fields, "severity") == Property(req.value, "severity")
  {
    var v := req.value;
    var report := if reply.Answer? then SanitizeReport(reply.text) else SanitizeReport("");
    var at := Property(v, "anomalyType");
    var sev := Property(v, "severity");
    SuccessFields(report, now, at, sev, "success");
    SuccessFields(report, now, at, sev, "report");
    SuccessFields(report, now, at, sev, "timestamp");
    SuccessFields(report, now, at, sev, "anomalyType");
    SuccessFields(report, now, at, sev, "severity");
    if reply.NoText? {
      assert SanitizeReport("") == "" by {
        ReportKeepsFences("");
        assert AllWhite([]);
      }
    }
  }
}
