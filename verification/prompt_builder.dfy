/** The prompt builder of the assistant (lib/prompts/prompt-builder.ts): the eight threshold rules
    over the dashboard context, the anomaly prompt that lists what they detect, and the general prompt
    that puts a persona in front of a summary of the context. */
module PromptBuilder {
  import opened JsText
  import opened Registry

  // ---------------------------------------------------------------------------------------------
  // The dashboard context (lib/types/ai-context.ts), restricted to the fields the prompts read.

  datatype Financial = Financial(
    monthlyRevenue: real, revenueChange: real, averageRevenuePerVisitor: real,
    conversionRate: real, forecast30Days: real)

  datatype Operations = Operations(
    totalVisitors: real, visitorsTrend: real, occupancyRate: real, uptime: real,
    supportResponseTime: real)

  datatype SentimentSplit = SentimentSplit(positive: real, neutral: real, negative: real)

  datatype Clients = Clients(
    nps: real, npsTrend: real, satisfactionRate: real, retentionRate: real,
    sentimentAnalysis: SentimentSplit)

  /** `openIssues` is only ever counted, so the model keeps its length. */
  datatype Team = Team(complianceScore: real, turnoverRate: real, openIssues: nat)

  datatype History = History(
    seasonalPatterns: string, bestPerformingSites: seq<string>, worstPerformingSites: seq<string>)

  datatype DashboardContext = DashboardContext(
    financial: Financial, operations: Operations, clients: Clients, team: Team, history: History,
    period: string, timestamp: string)

  /** The persona texts of lib/prompts/system-prompt.ts, which the model treats as given constants. */
  datatype Personas = Personas(system: string, commercial: string, operational: string, team: string)

  // ---------------------------------------------------------------------------------------------
  // Threshold rules

  datatype Anomaly = Anomaly(severity: string, description: string, value: string)

  /** The eight rules, in the order the detector evaluates them. */
  datatype Rule =
    | RevenueDrop | Overload | LowOccupancy | NpsDrop | NegativeSentiment | LowUptime
    | LowCompliance | HighTurnover

  const RuleOrder: seq<Rule> :=
    [RevenueDrop, Overload, LowOccupancy, NpsDrop, NegativeSentiment, LowUptime, LowCompliance, HighTurnover]

  /** The metric a rule watches. */
  function Metric(rule: Rule, ctx: DashboardContext): real {
    match rule
    case RevenueDrop => ctx.financial.revenueChange
    case Overload => ctx.operations.occupancyRate
    case LowOccupancy => ctx.operations.occupancyRate
    case NpsDrop => ctx.clients.npsTrend
    case NegativeSentiment => ctx.clients.sentimentAnalysis.negative
    case LowUptime => ctx.operations.uptime
    case LowCompliance => ctx.team.complianceScore
    case HighTurnover => ctx.team.turnoverRate
  }

  /** Every rule compares its metric strictly with a fixed threshold. */
  predicate Fires(rule: Rule, ctx: DashboardContext) {
    var m := Metric(rule, ctx);
    match rule
    case RevenueDrop => m < -20.0
    case Overload => m > 90.0
    case LowOccupancy => m < 50.0
    case NpsDrop => m < -10.0
    case NegativeSentiment => m > 40.0
    case LowUptime => m < 95.0
    case LowCompliance => m < 80.0
    case HighTurnover => m > 20.0
  }

  function Severity(rule: Rule): string {
    match rule
    case RevenueDrop => "CRITIQUE"
    case LowUptime => "CRITIQUE"
    case HighTurnover => "MOYENNE"
    case _ => "HAUTE"
  }

  function Description(rule: Rule): string {
    match rule
    case RevenueDrop => "Baisse revenue > 20%"
    case Overload => "Surcharge capacité détectée"
    case LowOccupancy => "Occupation faible → Besoin stimulation"
    case NpsDrop => "NPS dégradé rapidement"
    case NegativeSentiment => "Trop d'avis négatifs"
    case LowUptime => "Infrastructure uptime critique"
    case LowCompliance => "Score conformité insuffisant"
    case HighTurnover => "Turnover staff élevé"
  }

  /** The value text: the metric as `String(x)`, with `%` for every rule but the NPS trend. */
  function ValueText(rule: Rule, ctx: DashboardContext, fmt: NumberFormat): string {
    if rule == NpsDrop then fmt.show(Metric(rule, ctx)) else fmt.show(Metric(rule, ctx)) + "%"
  }

  function RuleAnomaly(rule: Rule, ctx: DashboardContext, fmt: NumberFormat): Anomaly {
    Anomaly(Severity(rule), Description(rule), ValueText(rule, ctx, fmt))
  }

  /** `if (condition) anomalies.push(a)`: the anomaly when the condition holds, nothing otherwise. */
  function Push(condition: bool, a: Anomaly): (r: seq<Anomaly>)
    ensures |r| <= 1 && (|r| == 1 <==> condition)
  {
    if condition then [a] else []
  }

  /** The anomaly a rule contributes: one when it fires, none otherwise. */
  function Contribution(rule: Rule, ctx: DashboardContext, fmt: NumberFormat): (r: seq<Anomaly>)
    ensures |r| <= 1
  {
    Push(Fires(rule, ctx), RuleAnomaly(rule, ctx, fmt))
  }

  /** The anomalies of the rules in `rules` that fire, in the order of `rules`. */
  function FiredAnomalies(rules: seq<Rule>, ctx: DashboardContext, fmt: NumberFormat): seq<Anomaly> {
    if |rules| == 0 then []
    else FiredAnomalies(rules[..|rules| - 1], ctx, fmt) + Contribution(rules[|rules| - 1], ctx, fmt)
  }

  /** `detectAnomalies`, written as the source writes it: one guarded push per rule. */
  function DetectAnomalies(ctx: DashboardContext, fmt: NumberFormat): seq<Anomaly> {
    var f := ctx.financial;
    var o := ctx.operations;
    var c := ctx.clients;
    var t := ctx.team;
    Push(f.revenueChange < -20.0,
         Anomaly("CRITIQUE", "Baisse revenue > 20%", fmt.show(f.revenueChange) + "%"))
    + Push(o.occupancyRate > 90.0,
         Anomaly("HAUTE", "Surcharge capacité détectée", fmt.show(o.occupancyRate) + "%"))
    + Push(o.occupancyRate < 50.0,
         Anomaly("HAUTE", "Occupation faible → Besoin stimulation", fmt.show(o.occupancyRate) + "%"))
    + Push(c.npsTrend < -10.0,
         Anomaly("HAUTE", "NPS dégradé rapidement", fmt.show(c.npsTrend)))
    + Push(c.sentimentAnalysis.negative > 40.0,
         Anomaly("HAUTE", "Trop d'avis négatifs", fmt.show(c.sentimentAnalysis.negative) + "%"))
    + Push(o.uptime < 95.0,
         Anomaly("CRITIQUE", "Infrastructure uptime critique", fmt.show(o.uptime) + "%"))
    + Push(t.complianceScore < 80.0,
         Anomaly("HAUTE", "Score conformité insuffisant", fmt.show(t.complianceScore) + "%"))
    + Push(t.turnoverRate > 20.0,
         Anomaly("MOYENNE", "Turnover staff élevé", fmt.show(t.turnoverRate) + "%"))
  }

  lemma FiredSnoc(rules: seq<Rule>, rule: Rule, ctx: DashboardContext, fmt: NumberFormat)
    ensures FiredAnomalies(rules + [rule], ctx, fmt) == FiredAnomalies(rules, ctx, fmt) + Contribution(rule, ctx, fmt)
  {
    assert (rules + [rule])[..|rules|] == rules;
  }

  /** The detector applies the eight rules independently and reports those that fire, in the fixed
      rule order, each with its rule's severity, description and value text. */
  lemma DetectAnomaliesFollowsRules(ctx: DashboardContext, fmt: NumberFormat)
    ensures DetectAnomalies(ctx, fmt) == FiredAnomalies(RuleOrder, ctx, fmt)
  {
    var r1 := [RevenueDrop];
    var r2 := r1 + [Overload];
    var r3 := r2 + [LowOccupancy];
    var r4 := r3 + [NpsDrop];
    var r5 := r4 + [NegativeSentiment];
    var r6 := r5 + [LowUptime];
    var r7 := r6 + [LowCompliance];
    var r8 := r7 + [HighTurnover];
    assert r8 == RuleOrder;
    FiredSnoc([], RevenueDrop, ctx, fmt);
    assert [] + [RevenueDrop] == r1;
    assert [] + Contribution(RevenueDrop, ctx, fmt) == Contribution(RevenueDrop, ctx, fmt);
    FiredSnoc(r1, Overload, ctx, fmt);
    FiredSnoc(r2, LowOccupancy, ctx, fmt);
    FiredSnoc(r3, NpsDrop, ctx, fmt);
    FiredSnoc(r4, NegativeSentiment, ctx, fmt);
    FiredSnoc(r5, LowUptime, ctx, fmt);
    FiredSnoc(r6, LowCompliance, ctx, fmt);
    FiredSnoc(r7, HighTurnover, ctx, fmt);
    DetectAnomaliesPieces(ctx, fmt);
  }

  lemma DetectAnomaliesPieces(ctx: DashboardContext, fmt: NumberFormat)
    ensures DetectAnomalies(ctx, fmt)
      == Contribution(RevenueDrop, ctx, fmt) + Contribution(Overload, ctx, fmt)
       + Contribution(LowOccupancy, ctx, fmt) + Contribution(NpsDrop, ctx, fmt)
       + Contribution(NegativeSentiment, ctx, fmt) + Contribution(LowUptime, ctx, fmt)
       + Contribution(LowCompliance, ctx, fmt) + Contribution(HighTurnover, ctx, fmt)
  {
    FirstFourPushes(ctx, fmt);
    LastFourPushes(ctx, fmt);
  }

  /** The first four guarded pushes are the contributions of the revenue, capacity and NPS rules. */
  lemma FirstFourPushes(ctx: DashboardContext, fmt: NumberFormat)
    ensures Contribution(RevenueDrop, ctx, fmt) == Push(ctx.financial.revenueChange < -20.0,
              Anomaly("CRITIQUE", "Baisse revenue > 20%", fmt.show(ctx.financial.revenueChange) + "%"))
    ensures Contribution(Overload, ctx, fmt) == Push(ctx.operations.occupancyRate > 90.0,
              Anomaly("HAUTE", "Surcharge capacité détectée", fmt.show(ctx.operations.occupancyRate) + "%"))
    ensures Contribution(LowOccupancy, ctx, fmt) == Push(ctx.operations.occupancyRate < 50.0,
              Anomaly("HAUTE", "Occupation faible → Besoin stimulation", fmt.show(ctx.operations.occupancyRate) + "%"))
    ensures Contribution(NpsDrop, ctx, fmt) == Push(ctx.clients.npsTrend < -10.0,
              Anomaly("HAUTE", "NPS dégradé rapidement", fmt.show(ctx.clients.npsTrend)))
  {
  }

  /** The last four guarded pushes are the contributions of the sentiment, uptime, compliance and
      turnover rules. */
  lemma LastFourPushes(ctx: DashboardContext, fmt: NumberFormat)
    ensures Contribution(NegativeSentiment, ctx, fmt) == Push(ctx.clients.sentimentAnalysis.negative > 40.0,
              Anomaly("HAUTE", "Trop d'avis négatifs", fmt.show(ctx.clients.sentimentAnalysis.negative) + "%"))
    ensures Contribution(LowUptime, ctx, fmt) == Push(ctx.operations.uptime < 95.0,
              Anomaly("CRITIQUE", "Infrastructure uptime critique", fmt.show(ctx.operations.uptime) + "%"))
    ensures Contribution(LowCompliance, ctx, fmt) == Push(ctx.team.complianceScore < 80.0,
              Anomaly("HAUTE", "Score conformité insuffisant", fmt.show(ctx.team.complianceScore) + "%"))
    ensures Contribution(HighTurnover, ctx, fmt) == Push(ctx.team.turnoverRate > 20.0,
              Anomaly("MOYENNE", "Turnover staff élevé", fmt.show(ctx.team.turnoverRate) + "%"))
  {
  }

  /** Every comparison is strict: nothing is reported exactly when each metric lies within its
      threshold, boundaries included. */
  lemma NoAnomalyIffWithinThresholds(ctx: DashboardContext, fmt: NumberFormat)
    ensures DetectAnomalies(ctx, fmt) == [] <==>
      && ctx.financial.revenueChange >= -20.0
      && 50.0 <= ctx.operations.occupancyRate <= 90.0
      && ctx.clients.npsTrend >= -10.0
      && ctx.clients.sentimentAnalysis.negative <= 40.0
      && ctx.operations.uptime >= 95.0
      && ctx.team.complianceScore >= 80.0
      && ctx.team.turnoverRate <= 20.0
  {
  }

  /** Overload and low occupancy exclude each other, so at most seven anomalies are reported. */
  lemma AtMostSevenAnomalies(ctx: DashboardContext, fmt: NumberFormat)
    ensures !(Fires(Overload, ctx) && Fires(LowOccupancy, ctx))
    ensures |DetectAnomalies(ctx, fmt)| <= 7
  {
    DetectAnomaliesPieces(ctx, fmt);
    var pieces := [Contribution(RevenueDrop, ctx, fmt), Contribution(Overload, ctx, fmt),
                   Contribution(LowOccupancy, ctx, fmt), Contribution(NpsDrop, ctx, fmt),
                   Contribution(NegativeSentiment, ctx, fmt), Contribution(LowUptime, ctx, fmt),
                   Contribution(LowCompliance, ctx, fmt), Contribution(HighTurnover, ctx, fmt)];
    assert |pieces[1]| + |pieces[2]| <= 1;
    assert |DetectAnomalies(ctx, fmt)| == |pieces[0]| + |pieces[1]| + |pieces[2]| + |pieces[3]|
      + |pieces[4]| + |pieces[5]| + |pieces[6]| + |pieces[7]|;
  }

  /** Severity is fixed per rule: revenue and uptime are critical, turnover is medium, the other five
      are high; the value is the metric's text, with `%` except for the NPS trend. */
  lemma AnomalyShape(ctx: DashboardContext, fmt: NumberFormat, i: nat)
    requires i < |FiredAnomalies(RuleOrder, ctx, fmt)|
    ensures exists rule | Fires(rule, ctx) ::
      var a := FiredAnomalies(RuleOrder, ctx, fmt)[i];
      && a.description == Description(rule)
      && (a.severity == "CRITIQUE" <==> rule == RevenueDrop || rule == LowUptime)
      && (a.severity == "MOYENNE" <==> rule == HighTurnover)
      && a.value == fmt.show(Metric(rule, ctx)) + (if rule == NpsDrop then "" else "%")
  {
    FiredMembers(RuleOrder, ctx, fmt, i);
  }

  lemma {:induction false} FiredMembers(rules: seq<Rule>, ctx: DashboardContext, fmt: NumberFormat, i: nat)
    requires i < |FiredAnomalies(rules, ctx, fmt)|
    ensures exists rule | rule in rules && Fires(rule, ctx) :: FiredAnomalies(rules, ctx, fmt)[i] == RuleAnomaly(rule, ctx, fmt)
  {
    var init := rules[..|rules| - 1];
    var last := rules[|rules| - 1];
    var earlier := FiredAnomalies(init, ctx, fmt);
    if i < |earlier| {
      FiredMembers(init, ctx, fmt, i);
      var rule :| rule in init && Fires(rule, ctx) && earlier[i] == RuleAnomaly(rule, ctx, fmt);
      assert rule in rules;
      assert FiredAnomalies(rules, ctx, fmt)[i] == RuleAnomaly(rule, ctx, fmt);
    } else {
      assert FiredAnomalies(rules, ctx, fmt)[i] == RuleAnomaly(last, ctx, fmt);
    }
  }

  // ---------------------------------------------------------------------------------------------
  // The anomaly prompt

  /** One line per anomaly: "⚠️ severity: description (Valeur: value)". */
  function AnomalyLine(a: Anomaly): string {
    "\U{26A0}\U{FE0F} " + a.severity + ": " + a.description + " (Valeur: " + a.value + ")"
  }

  function AnomalyLines(anomalies: seq<Anomaly>): seq<string> {
    seq(|anomalies|, i requires 0 <= i < |anomalies| => AnomalyLine(anomalies[i]))
  }

  const AnomalyHeader: string := "\n\nDÉTECTION ANOMALIES SYSTÈME:\n\n"

  const AnomalyRequest: string :=
    ("\n\nAnalyse CHAQUE anomalie:\n" + "1. Diagnostic et cause probable\n" + "2. Impact potentiel (business/opérationn" + "el)\n3. Action immédiate " + "recommandée\n4. KPI à monitorer\n\n")

  /** `buildAnomalyPrompt`: the system persona, the detected anomalies one per line, the analysis
      request, then `serialized`, the two-space JSON text of the context. */
  function BuildAnomalyPrompt(ctx: DashboardContext, personas: Personas, fmt: NumberFormat, serialized: string): (r: string)
    ensures StartsWith(r, personas.system + AnomalyHeader)
    ensures EndsWith(r, AnomalyRequest + serialized)
  {
    AnomalyFrame(personas.system, Join(AnomalyLines(DetectAnomalies(ctx, fmt)), "\n"), serialized)
  }

  function AnomalyFrame(system: string, block: string, serialized: string): (r: string)
    ensures StartsWith(r, system + AnomalyHeader)
    ensures EndsWith(r, AnomalyRequest + serialized)
  {
    Framed(system + AnomalyHeader, block, AnomalyRequest + serialized);
    system + AnomalyHeader + block + (AnomalyRequest + serialized)
  }

  /** The anomaly block of the prompt holds exactly one line per detected anomaly, in detection order:
      splitting it at line breaks gives back those lines. */
  lemma AnomalyBlockLines(ctx: DashboardContext, personas: Personas, fmt: NumberFormat, serialized: string)
    requires ShowsPlainly(fmt)
    requires DetectAnomalies(ctx, fmt) != []
    ensures var anomalies := DetectAnomalies(ctx, fmt);
      var block := Join(AnomalyLines(anomalies), "\n");
      && BuildAnomalyPrompt(ctx, personas, fmt, serialized)
         == personas.system + AnomalyHeader + block + (AnomalyRequest + serialized)
      && Split(block, '\n') == AnomalyLines(anomalies)
  {
    var anomalies := DetectAnomalies(ctx, fmt);
    var lines := AnomalyLines(anomalies);
    DetectAnomaliesFollowsRules(ctx, fmt);
    forall i | 0 <= i < |lines| ensures '\n' !in lines[i] {
      FiredMembers(RuleOrder, ctx, fmt, i);
      var rule :| rule in RuleOrder && Fires(rule, ctx) && anomalies[i] == RuleAnomaly(rule, ctx, fmt);
      RuleLineIsSingle(rule, ctx, fmt);
    }
    SplitJoin(lines, '\n');
  }

  /** A rule's anomaly line never spans two lines. */
  lemma RuleLineIsSingle(rule: Rule, ctx: DashboardContext, fmt: NumberFormat)
    requires ShowsPlainly(fmt)
    ensures '\n' !in AnomalyLine(RuleAnomaly(rule, ctx, fmt))
  {
    var a := RuleAnomaly(rule, ctx, fmt);
    var shown := fmt.show(Metric(rule, ctx));
    assert NoLineTerminator(shown);
    assert '\n' !in a.value;
    LabelsAreSingleLine(rule);
    assert "\U{26A0}\U{FE0F} " + a.severity + ": " + a.description + " (Valeur: " + a.value + ")" == AnomalyLine(a);
  }

  lemma LabelsAreSingleLine(rule: Rule)
    ensures '\n' !in Severity(rule) && '\n' !in Description(rule)
  {
    assert '\n' !in "CRITIQUE" && '\n' !in "HAUTE" && '\n' !in "MOYENNE";
    DescriptionIsSingleLine(rule);
  }

  lemma DescriptionIsSingleLine(rule: Rule)
    ensures '\n' !in Description(rule)
  {
    match rule
    case RevenueDrop => RevenueLabelsAreSingleLine(rule);
    case Overload => RevenueLabelsAreSingleLine(rule);
    case LowOccupancy => OccupancyLabelsAreSingleLine(rule);
    case NpsDrop => OccupancyLabelsAreSingleLine(rule);
    case NegativeSentiment => ServiceLabelsAreSingleLine(rule);
    case LowUptime => ServiceLabelsAreSingleLine(rule);
    case LowCompliance => TeamLabelsAreSingleLine(rule);
    case HighTurnover => TeamLabelsAreSingleLine(rule);
  }

  lemma RevenueLabelsAreSingleLine(rule: Rule)
    requires rule == RevenueDrop || rule == Overload
    ensures '\n' !in Description(rule)
  {
    match rule
    case RevenueDrop => assert '\n' !in "Baisse revenue > 20%";
    case Overload => assert '\n' !in "Surcharge capacité détectée";
  }

  lemma OccupancyLabelsAreSingleLine(rule: Rule)
    requires rule == LowOccupancy || rule == NpsDrop
    ensures '\n' !in Description(rule)
  {
    match rule
    case LowOccupancy => assert '\n' !in "Occupation faible → Besoin stimulation";
    case NpsDrop => assert '\n' !in "NPS dégradé rapidement";
  }

  lemma ServiceLabelsAreSingleLine(rule: Rule)
    requires rule == NegativeSentiment || rule == LowUptime
    ensures '\n' !in Description(rule)
  {
    match rule
    case NegativeSentiment => assert '\n' !in "Trop d'avis négatifs";
    case LowUptime => assert '\n' !in "Infrastructure uptime critique";
  }

  lemma TeamLabelsAreSingleLine(rule: Rule)
    requires rule == LowCompliance || rule == HighTurnover
    ensures '\n' !in Description(rule)
  {
    match rule
    case LowCompliance => assert '\n' !in "Score conformité insuffisant";
    case HighTurnover => assert '\n' !in "Turnover staff élevé";
  }

  /** The dashboard's fixture context (lib/utils/mock-context.ts). */
  const MockContext: DashboardContext := DashboardContext(
    Financial(45000000.0, -12.0, 25000.0, 6.5, 52000000.0),
    Operations(1850.0, 8.0, 68.0, 98.5, 3.2),
    Clients(42.0, -8.0, 4.1, 28.0, SentimentSplit(72.0, 18.0, 10.0)),
    Team(82.0, 18.0, 3),
    History(("Pics en juillet-août et " + "décembre, creux en septembre-octobre"),
            ["Plages", "Lagune", "Forêt"], ["Réserves", "Savane"]),
    "month", "2025-01-01T00:00:00.000Z")

  /** Every metric of the fixture lies inside the thresholds, so it raises no anomaly. */
  lemma MockContextIsQuiet(fmt: NumberFormat)
    ensures DetectAnomalies(MockContext, fmt) == []
  {
    NoAnomalyIffWithinThresholds(MockContext, fmt);
  }

  // ---------------------------------------------------------------------------------------------
  // The general prompt

  /** The persona table of `buildPrompt`: "conversational" and "anomaly" both map to the system
      persona. */
  function PersonaTable(p: Personas): seq<(string, string)> {
    [("conversational", p.system), ("commercial", p.commercial), ("operational", p.operational),
     ("team", p.team), ("anomaly", p.system)]
  }

  /** `${systemPrompt}` for the looked-up persona; an unknown type prints as "undefined". */
  function PersonaText(p: Personas, kind: string): string {
    match Find(PersonaTable(p), kind)
    case Own(t) => t
    case Inherited(name) => InheritedText(name)
    case Absent => "undefined"
  }

  lemma PersonaChoice(p: Personas, kind: string)
    ensures kind == "conversational" || kind == "anomaly" ==> PersonaText(p, kind) == p.system
    ensures kind == "commercial" ==> PersonaText(p, kind) == p.commercial
    ensures kind == "operational" ==> PersonaText(p, kind) == p.operational
    ensures kind == "team" ==> PersonaText(p, kind) == p.team
    ensures (kind !in {"conversational", "commercial", "operational", "team", "anomaly"}
             && kind !in ObjectPrototypeMembers) ==> PersonaText(p, kind) == "undefined"
    ensures kind in ObjectPrototypeMembers ==> PersonaText(p, kind) == InheritedText(kind)
  {
    var t4 := [("anomaly", p.system)];
    var t3 := [("team", p.team)] + t4;
    var t2 := [("operational", p.operational)] + t3;
    var t1 := [("commercial", p.commercial)] + t2;
    FindCons("anomaly", p.system, [], kind);
    assert t4 == t4 + [];
    FindCons("team", p.team, t4, kind);
    FindCons("operational", p.operational, t3, kind);
    FindCons("commercial", p.commercial, t2, kind);
    FindCons("conversational", p.system, t1, kind);
    assert PersonaTable(p) == [("conversational", p.system)] + t1;
  }

  /** A trend as the summary prints it: `${x > 0 ? "+" : ""}${x}`. */
  function Signed(x: real, fmt: NumberFormat): string {
    if x > 0.0 then "+" + fmt.show(x) else fmt.show(x)
  }

  /** The sign marks growth: the text opens with "+" exactly when the trend is strictly positive, and
      the number itself follows unchanged. */
  lemma SignedMarksGrowth(x: real, fmt: NumberFormat)
    requires ShowsPlainly(fmt)
    ensures |Signed(x, fmt)| > 0
    ensures Signed(x, fmt)[0] == '+' <==> x > 0.0
    ensures EndsWith(Signed(x, fmt), fmt.show(x))
  {
    var shown := fmt.show(x);
    assert |shown| > 0 && shown[0] != '+';
  }

  /** The body of the context summary, from the finance section to the seasonal trend. */
  function Sections(ctx: DashboardContext, fmt: NumberFormat): string
  {
    var f := ctx.financial;
    var o := ctx.operations;
    var c := ctx.clients;
    var t := ctx.team;
    var h := ctx.history;
    "FINANCES:\n"
    + "- Revenu mois: " + fmt.locale(f.monthlyRevenue) + " CFA (" + Signed(f.revenueChange, fmt) + "%)\n"
    + "- Revenu/visiteur: " + fmt.locale(f.averageRevenuePerVisitor) + " CFA\n"
    + "- Conversion: " + fmt.show(f.conversionRate) + "%\n"
    + "- Prévisions: J+30: " + fmt.locale(f.forecast30Days) + " CFA\n\n"
    + "OPÉRATIONS:\n"
    + "- Visiteurs: " + fmt.locale(o.totalVisitors) + " (" + Signed(o.visitorsTrend, fmt) + "%)\n"
    + "- Occupation moyenne: " + fmt.show(o.occupancyRate) + "%\n"
    + "- Uptime: " + fmt.show(o.uptime) + "%\n"
    + "- Support temps moyen: " + fmt.show(o.supportResponseTime) + " min\n\n"
    + "CLIENTS:\n"
    + "- NPS: " + fmt.show(c.nps) + " (tendance: " + Signed(c.npsTrend, fmt) + ")\n"
    + "- Satisfaction: " + fmt.show(c.satisfactionRate) + "/5\n"
    + "- Rétention: " + fmt.show(c.retentionRate) + "%\n"
    + "- Sentiment: " + fmt.show(c.sentimentAnalysis.positive) + "% positif, "
    + fmt.show(c.sentimentAnalysis.negative) + "% négatif\n\n"
    + "ÉQUIPE:\n"
    + "- Score conformité: " + fmt.show(t.complianceScore) + "%\n"
    + "- Turnover: " + fmt.show(t.turnoverRate) + "%\n"
    + "- Problèmes ouverts: " + NatText(t.openIssues) + "\n\n"
    + "HISTORIQUE (12 mois):\n"
    + "- Meilleurs sites: " + Join(h.bestPerformingSites, ", ") + "\n"
    + "- Sites faibles: " + Join(h.worstPerformingSites, ", ") + "\n"
    + "- Tendance saisonnière: " + h.seasonalPatterns
  }

  /** `buildPrompt`: the persona for `kind`, a blank line, then the context summary, which opens with
      a line break and the period in capitals and ends with the question. */
  function BuildPrompt(question: string, ctx: DashboardContext, kind: string, p: Personas, fmt: NumberFormat): (r: string)
    ensures StartsWith(r, PersonaText(p, kind) + ("\n\n\nCONTEXTE ACTUEL (" + ToUpper(ctx.period) + " - "))
    ensures EndsWith(r, "\n\nQUESTION DU PDG:\n" + question)
  {
    var head := PersonaText(p, kind) + ("\n\n\nCONTEXTE ACTUEL (" + ToUpper(ctx.period) + " - ");
    var body := ctx.timestamp + "):\n\n" + Sections(ctx, fmt);
    var tail := "\n\nQUESTION DU PDG:\n" + question;
    Framed(head, body, tail);
    head + body + tail
  }

  /** A prompt opens with the persona of its type and closes with its question. */
  lemma PromptEnds(question: string, ctx: DashboardContext, kind: string, p: Personas, fmt: NumberFormat)
    ensures StartsWith(BuildPrompt(question, ctx, kind, p, fmt), PersonaText(p, kind))
    ensures EndsWith(BuildPrompt(question, ctx, kind, p, fmt), question)
  {
    var r := BuildPrompt(question, ctx, kind, p, fmt);
    AffixParts(r, PersonaText(p, kind), "\n\n\nCONTEXTE ACTUEL (" + ToUpper(ctx.period) + " - ");
    AffixParts(r, "\n\nQUESTION DU PDG:\n", question);
  }
}
