/** The alerts tab of the dashboard (components/dashboard/tabs/alerts-tab.tsx): five threshold rules
    over sites, employees and reviews, the dismissal set, the severity counters, and the attachment
    of a generated anomaly report to its alert. */
module AlertsTab {
  import opened Wrappers
  import opened JsText
  import opened Json
  import opened Seqs
  import Http
  import AnomalyReport

  /** The fields of a site that the rules read; a missing number is None. */
  datatype Site = Site(
    name: string,
    monthlyRevenue: Option<real>,
    occupancyRate: Option<real>,
    status: string,
    closureReason: Option<string>)

  datatype Employee = Employee(name: string, status: string)

  /** A review; a missing rating is None. */
  datatype Review = Review(rating: Option<real>)

  datatype Severity = Critical | High | Medium | Low

  /** The fixed ids of the five rules' alerts; `IdText` gives each id as the code writes it. */
  datatype AlertId = RevenueAlert | OccupancyAlert | ReviewsAlert | ClosedAlert | StaffAlert

  function IdText(id: AlertId): string {
    match id
    case RevenueAlert => "alert-revenue"
    case OccupancyAlert => "alert-occupancy"
    case ReviewsAlert => "alert-reviews"
    case ClosedAlert => "alert-closed"
    case StaffAlert => "alert-staff"
  }

  /** The anomaly type each rule gives its alert. */
  function AnomalyTypeOf(id: AlertId): string {
    match id
    case RevenueAlert => "revenue-drop"
    case OccupancyAlert => "low-occupancy"
    case ReviewsAlert => "negative-sentiment"
    case ClosedAlert => "site-closure"
    case StaffAlert => "staff-absence"
  }

  /** The position of each rule in the effect. */
  function Rank(id: AlertId): (r: nat)
    ensures r < 5
  {
    match id
    case RevenueAlert => 0
    case OccupancyAlert => 1
    case ReviewsAlert => 2
    case ClosedAlert => 3
    case StaffAlert => 4
  }

  /** The ids are distinct strings, and every anomaly type is one for which the anomaly report route
      has a dedicated instruction. */
  lemma IdsDistinct(x: AlertId, y: AlertId)
    ensures IdText(x) == IdText(y) <==> x == y
    ensures AnomalyTypeOf(x) in AnomalyReport.AnomalyTypes
  {
    if x != y {
      assert IdText(x)[6] != IdText(y)[6] || IdText(x)[9] != IdText(y)[9];
    }
  }

  /** What each rule attaches to its alert, to be sent with the report request. */
  datatype AlertContext =
    | RevenueContext(sites: seq<Site>, threshold: real, average: real)
    | OccupancyContext(sites: seq<Site>, threshold: real)
    | ReviewsContext(negativeReviewsCount: nat, reviews: seq<Review>)
    | ClosureContext(closedSites: seq<Site>)
    | StaffContext(absentCount: nat, employees: seq<Employee>)

  datatype Alert = Alert(
    id: AlertId,
    severity: Severity,
    title: string,
    description: string,
    timestamp: int,
    action: Option<string>,
    anomalyType: Option<string>,
    context: AlertContext,
    generatedReport: Option<Json>)

  // ---------------------------------------------------------------------------------------------
  // The five rules

  const RevenueThreshold: real := 50000.0

  const OccupancyThreshold: real := 50.0

  /** `x || 0` on a number that may be missing. */
  function OrZero(x: Option<real>): real {
    if x.Some? then x.value else 0.0
  }

  /** `${x}` on a number that may be missing. */
  function NumberText(x: Option<real>, fmt: NumberFormat): string {
    if x.Some? then fmt.show(x.value) else "undefined"
  }

  function Revenues(sites: seq<Site>): (r: seq<real>)
    ensures |r| == |sites|
    ensures forall i | 0 <= i < |sites| :: r[i] == OrZero(sites[i].monthlyRevenue)
  {
    seq(|sites|, i requires 0 <= i < |sites| => OrZero(sites[i].monthlyRevenue))
  }

  /** The revenue rule: the mean of the monthly revenues, a missing one counting as 0, below 50000.
      With no sites the mean is NaN, which is below nothing. */
  function RevenueRule(sites: seq<Site>, fmt: NumberFormat, now: int): (r: seq<Alert>)
    ensures RuleOutput(r, 0)
    ensures |r| == 1 <==> |sites| > 0 && Sum(Revenues(sites)) < RevenueThreshold * |sites| as real
    ensures |r| == 1 ==> r[0].id == RevenueAlert && r[0].severity == High
                         && r[0].anomalyType == Some(AnomalyTypeOf(RevenueAlert))
                         && r[0].context.RevenueContext? && r[0].context.sites == sites
  {
    if |sites| == 0 then []
    else
      var average := Sum(Revenues(sites)) / |sites| as real;
      if average < RevenueThreshold then
        [Alert(RevenueAlert, High, "Baisse des revenus détectée",
               "Revenus moyens par site: " + fmt.fixed0(average) + " CFA (seuil: 50,000 CFA)",
               now, Some("Analyser stratégie commerciale"), Some(AnomalyTypeOf(RevenueAlert)),
               RevenueContext(sites, RevenueThreshold, average), None)]
      else []
  }

  predicate LowOccupancy(s: Site) {
    OrZero(s.occupancyRate) < OccupancyThreshold
  }

  function OccupancyLine(s: Site, fmt: NumberFormat): string {
    s.name + ": " + NumberText(s.occupancyRate, fmt) + "%"
  }

  /** The occupancy rule: one alert for all the sites whose occupancy, a missing one counting as 0,
      is below 50. */
  function OccupancyRule(sites: seq<Site>, fmt: NumberFormat, now: int): (r: seq<Alert>)
    ensures RuleOutput(r, 1)
    ensures |r| == 1 <==> exists i | 0 <= i < |sites| :: LowOccupancy(sites[i])
    ensures |r| == 1 ==> r[0].id == OccupancyAlert && r[0].severity == Medium
                         && r[0].anomalyType == Some(AnomalyTypeOf(OccupancyAlert))
                         && r[0].context == OccupancyContext(Filter(sites, LowOccupancy), OccupancyThreshold)
                         && r[0].title == NatText(|Filter(sites, LowOccupancy)|) + " site(s) sous-utilisé(s)"
  {
    var low := Filter(sites, LowOccupancy);
    FilterExtremes(sites, LowOccupancy);
    if |low| > 0 then
      [Alert(OccupancyAlert, Medium, NatText(|low|) + " site(s) sous-utilisé(s)",
             Join(seq(|low|, i requires 0 <= i < |low| => OccupancyLine(low[i], fmt)), ", "),
             now, Some("Lancer campagne marketing ciblée"), Some(AnomalyTypeOf(OccupancyAlert)),
             OccupancyContext(low, OccupancyThreshold), None)]
    else []
  }

  /** `r.rating <= 2`: a missing rating compares false. */
  predicate Negative(r: Review) {
    r.rating.Some? && r.rating.value <= 2.0
  }

  /** The review rule: more than two reviews rated 2 or less. */
  function ReviewsRule(reviews: seq<Review>, now: int): (r: seq<Alert>)
    ensures RuleOutput(r, 2)
    ensures |r| == 1 <==> Count(reviews, Negative) > 2
    ensures |r| == 1 ==> r[0].id == ReviewsAlert && r[0].severity == High
                         && r[0].anomalyType == Some(AnomalyTypeOf(ReviewsAlert))
                         && r[0].context == ReviewsContext(Count(reviews, Negative), Filter(reviews, Negative))
  {
    var count := Count(reviews, Negative);
    if count > 2 then
      [Alert(ReviewsAlert, High, NatText(count) + " avis négatifs détectés",
             ("Sentiment client dégradé " + "- Action recommandée"),
             now, Some("Investiguer et corriger les problèmes"), Some(AnomalyTypeOf(ReviewsAlert)),
             ReviewsContext(count, Filter(reviews, Negative)), None)]
    else []
  }

  /** The status a closed site carries: the rule compares "fermé", the data declares "closed". */
  function ClosedStatus(v: Http.Variant): string {
    match v
    case AsWritten => "fermé"
    case Corrected => "closed"
  }

  /** The status of an employee on leave: the rule compares "congé", the data declares "on_leave". */
  function LeaveStatus(v: Http.Variant): string {
    match v
    case AsWritten => "congé"
    case Corrected => "on_leave"
  }

  function Closed(v: Http.Variant): Site -> bool {
    (s: Site) => s.status == "maintenance" || s.status == ClosedStatus(v)
  }

  function OnLeave(v: Http.Variant): Employee -> bool {
    (e: Employee) => e.status == LeaveStatus(v)
  }

  /** `${s.closureReason || "Maintenance"}`: an empty reason counts as missing. */
  function ClosureLine(s: Site): string {
    s.name + " - " + (if s.closureReason.Some? && s.closureReason.value != "" then s.closureReason.value else "Maintenance")
  }

  /** The closure rule: some site is in maintenance or closed. */
  function ClosureRule(v: Http.Variant, sites: seq<Site>, now: int): (r: seq<Alert>)
    ensures RuleOutput(r, 3)
    ensures |r| == 1 <==> exists i | 0 <= i < |sites| :: sites[i].status in {"maintenance", ClosedStatus(v)}
    ensures |r| == 1 ==> r[0].id == ClosedAlert && r[0].severity == Critical
                         && r[0].anomalyType == Some(AnomalyTypeOf(ClosedAlert))
                         && r[0].context == ClosureContext(Filter(sites, Closed(v)))
  {
    var closed := Filter(sites, Closed(v));
    FilterExtremes(sites, Closed(v));
    if |closed| > 0 then
      [Alert(ClosedAlert, Critical, NatText(|closed|) + " site(s) fermé(s) ou en maintenance",
             Join(seq(|closed|, i requires 0 <= i < |closed| => ClosureLine(closed[i])), ", "),
             now, Some("Gérer impact revenus"), Some(AnomalyTypeOf(ClosedAlert)),
             ClosureContext(closed), None)]
    else []
  }

  /** The staff rule: more than three employees on leave. */
  function StaffRule(v: Http.Variant, employees: seq<Employee>, now: int): (r: seq<Alert>)
    ensures RuleOutput(r, 4)
    ensures |r| == 1 <==> Count(employees, OnLeave(v)) > 3
    ensures |r| == 1 ==> r[0].id == StaffAlert && r[0].severity == Medium
                         && r[0].anomalyType == Some(AnomalyTypeOf(StaffAlert))
                         && r[0].context == StaffContext(Count(employees, OnLeave(v)), Filter(employees, OnLeave(v)))
  {
    var absent := Count(employees, OnLeave(v));
    if absent > 3 then
      [Alert(StaffAlert, Medium, NatText(absent) + " employé(s) en congé",
             "Potentiel impact opérationnel",
             now, Some("Replanifier effectifs"), Some(AnomalyTypeOf(StaffAlert)),
             StaffContext(absent, Filter(employees, OnLeave(v))), None)]
    else []
  }

  /** The alert-generation effect: the five rules in order. Each rule reads the clock with its own
      `new Date()`; `clock` gives the reading of each rule, and the model does not relate them. */
  function GenerateAlerts(v: Http.Variant, sites: seq<Site>, employees: seq<Employee>, reviews: seq<Review>,
                          fmt: NumberFormat, clock: AlertId -> int): seq<Alert> {
    RevenueRule(sites, fmt, clock(RevenueAlert)) + OccupancyRule(sites, fmt, clock(OccupancyAlert)) + ReviewsRule(reviews, clock(ReviewsAlert))
    + ClosureRule(v, sites, clock(ClosedAlert)) + StaffRule(v, employees, clock(StaffAlert))
  }

  /** What a rule yields: no alert, or the alert of that rank with its anomaly type. */
  predicate RuleOutput(x: seq<Alert>, rank: nat) {
    && |x| <= 1
    && (|x| == 1 ==> Rank(x[0].id) == rank && x[0].anomalyType == Some(AnomalyTypeOf(x[0].id)))
  }

  /** Alerts in strictly increasing rank (so with distinct ids), each with its anomaly type. */
  predicate InRuleOrder(r: seq<Alert>, below: nat) {
    && (forall i, j | 0 <= i < j < |r| :: Rank(r[i].id) < Rank(r[j].id))
    && (forall i | 0 <= i < |r| :: Rank(r[i].id) < below && r[i].anomalyType == Some(AnomalyTypeOf(r[i].id)))
  }

  lemma InRuleOrderAppend(r: seq<Alert>, x: seq<Alert>, rank: nat)
    requires InRuleOrder(r, rank) && RuleOutput(x, rank)
    ensures InRuleOrder(r + x, rank + 1)
  {
    forall i, j | 0 <= i < j < |r + x|
      ensures Rank((r + x)[i].id) < Rank((r + x)[j].id)
    {
      if j >= |r| {
        assert (r + x)[j] == x[0];
      }
    }
  }

  /** Five rule outputs in rank order make at most five alerts in rule order. */
  lemma FiveInOrder(a: seq<Alert>, b: seq<Alert>, c: seq<Alert>, d: seq<Alert>, e: seq<Alert>)
    requires RuleOutput(a, 0) && RuleOutput(b, 1) && RuleOutput(c, 2) && RuleOutput(d, 3) && RuleOutput(e, 4)
    ensures |a + b + c + d + e| <= 5
    ensures InRuleOrder(a + b + c + d + e, 5)
  {
    assert InRuleOrder([], 0);
    InRuleOrderAppend([], a, 0);
    assert [] + a == a;
    InRuleOrderAppend(a, b, 1);
    InRuleOrderAppend(a + b, c, 2);
    InRuleOrderAppend(a + b + c, d, 3);
    InRuleOrderAppend(a + b + c + d, e, 4);
  }

  /** At most five alerts, in rule order, each carrying its rule's anomaly type. */
  lemma GeneratedShape(v: Http.Variant, sites: seq<Site>, employees: seq<Employee>, reviews: seq<Review>,
                       fmt: NumberFormat, clock: AlertId -> int)
    ensures |GenerateAlerts(v, sites, employees, reviews, fmt, clock)| <= 5
    ensures InRuleOrder(GenerateAlerts(v, sites, employees, reviews, fmt, clock), 5)
  {
    FiveInOrder(RevenueRule(sites, fmt, clock(RevenueAlert)), OccupancyRule(sites, fmt, clock(OccupancyAlert)), ReviewsRule(reviews, clock(ReviewsAlert)),
                ClosureRule(v, sites, clock(ClosedAlert)), StaffRule(v, employees, clock(StaffAlert)));
  }

  /** A rule output holds an id exactly when it is non-empty and the id has the rule's rank. */
  lemma PresentInOutput(x: seq<Alert>, rank: nat, id: AlertId)
    requires RuleOutput(x, rank)
    ensures Present(x, id) <==> |x| == 1 && Rank(id) == rank
  {
    if |x| == 1 && Rank(id) == rank {
      assert x[0].id == id;
    }
  }

  /** In five rule outputs, an id is present exactly when the rule of its rank yielded an alert. */
  lemma FivePresent(a: seq<Alert>, b: seq<Alert>, c: seq<Alert>, d: seq<Alert>, e: seq<Alert>, id: AlertId)
    requires RuleOutput(a, 0) && RuleOutput(b, 1) && RuleOutput(c, 2) && RuleOutput(d, 3) && RuleOutput(e, 4)
    ensures Present(a + b + c + d + e, id) <==>
      || (Rank(id) == 0 && |a| == 1) || (Rank(id) == 1 && |b| == 1) || (Rank(id) == 2 && |c| == 1)
      || (Rank(id) == 3 && |d| == 1) || (Rank(id) == 4 && |e| == 1)
  {
    PresentAppend(a, b, id);
    PresentAppend(a + b, c, id);
    PresentAppend(a + b + c, d, id);
    PresentAppend(a + b + c + d, e, id);
    PresentInOutput(a, 0, id);
    PresentInOutput(b, 1, id);
    PresentInOutput(c, 2, id);
    PresentInOutput(d, 3, id);
    PresentInOutput(e, 4, id);
  }

  /** The condition under which each alert is raised, stated on the inputs. */
  predicate Raised(id: AlertId, v: Http.Variant, sites: seq<Site>, employees: seq<Employee>, reviews: seq<Review>) {
    match id
    case RevenueAlert => |sites| > 0 && Sum(Revenues(sites)) < RevenueThreshold * |sites| as real
    case OccupancyAlert => exists i | 0 <= i < |sites| :: LowOccupancy(sites[i])
    case ReviewsAlert => Count(reviews, Negative) > 2
    case ClosedAlert => exists i | 0 <= i < |sites| :: sites[i].status in {"maintenance", ClosedStatus(v)}
    case StaffAlert => Count(employees, OnLeave(v)) > 3
  }

  /** Each alert is present exactly when its condition holds. */
  lemma GeneratedFires(v: Http.Variant, sites: seq<Site>, employees: seq<Employee>, reviews: seq<Review>,
                       fmt: NumberFormat, clock: AlertId -> int, id: AlertId)
    ensures Present(GenerateAlerts(v, sites, employees, reviews, fmt, clock), id) <==> Raised(id, v, sites, employees, reviews)
  {
    var a := RevenueRule(sites, fmt, clock(RevenueAlert));
    var b := OccupancyRule(sites, fmt, clock(OccupancyAlert));
    var c := ReviewsRule(reviews, clock(ReviewsAlert));
    var d := ClosureRule(v, sites, clock(ClosedAlert));
    var e := StaffRule(v, employees, clock(StaffAlert));
    assert GenerateAlerts(v, sites, employees, reviews, fmt, clock) == a + b + c + d + e;
    FivePresent(a, b, c, d, e, id);
    match id
    case RevenueAlert => assert Rank(id) == 0;
    case OccupancyAlert => assert Rank(id) == 1;
    case ReviewsAlert => assert Rank(id) == 2;
    case ClosedAlert => assert Rank(id) == 3;
    case StaffAlert => assert Rank(id) == 4;
  }

  /** Some alert in the list has this id. */
  predicate Present(alerts: seq<Alert>, id: AlertId) {
    exists i | 0 <= i < |alerts| :: alerts[i].id == id
  }

  lemma PresentAppend(x: seq<Alert>, y: seq<Alert>, id: AlertId)
    ensures Present(x + y, id) <==> Present(x, id) || Present(y, id)
  {
    if Present(x + y, id) {
      var i :| 0 <= i < |x + y| && (x + y)[i].id == id;
      if i >= |x| {
        assert y[i - |x|].id == id;
      }
    }
    if Present(x, id) {
      var i :| 0 <= i < |x| && x[i].id == id;
      assert (x + y)[i].id == id;
    }
    if Present(y, id) {
      var i :| 0 <= i < |y| && y[i].id == id;
      assert (x + y)[|x| + i].id == id;
    }
  }

  /** Sites all earning less than the threshold raise the revenue alert. */
  lemma LowRevenueRaises(sites: seq<Site>, fmt: NumberFormat, now: int)
    requires |sites| > 0
    requires forall i | 0 <= i < |sites| :: OrZero(sites[i].monthlyRevenue) < RevenueThreshold
    ensures |RevenueRule(sites, fmt, now)| == 1
  {
    SumBelow(Revenues(sites), RevenueThreshold);
  }

  /** The statuses the data declares for a closed site and an employee on leave are not the ones the
      rules compare: as written, a closed site and any number of employees on leave raise nothing;
      with the declared statuses both rules fire. */
  lemma DeclaredStatusesMissed(site: Site, employees: seq<Employee>, now: int)
    requires site.status == "closed"
    requires |employees| > 3 && forall i | 0 <= i < |employees| :: employees[i].status == "on_leave"
    ensures ClosureRule(Http.AsWritten, [site], now) == []
    ensures |ClosureRule(Http.Corrected, [site], now)| == 1
    ensures StaffRule(Http.AsWritten, employees, now) == []
    ensures |StaffRule(Http.Corrected, employees, now)| == 1
  {
    assert site.status != "maintenance" && site.status != "fermé";
    assert !Closed(Http.AsWritten)(site);
    assert [site][0] == site;
    assert forall i | 0 <= i < |employees| :: !OnLeave(Http.AsWritten)(employees[i]);
    FilterExtremes(employees, OnLeave(Http.AsWritten));
    assert forall i | 0 <= i < |employees| :: OnLeave(Http.Corrected)(employees[i]);
    FilterExtremes(employees, OnLeave(Http.Corrected));
  }

  // ---------------------------------------------------------------------------------------------
  // Dismissal and counters

  /** The alerts not dismissed, in their order. */
  function Active(alerts: seq<Alert>, dismissed: set<AlertId>): seq<Alert> {
    Filter(alerts, NotDismissed(dismissed))
  }

  function NotDismissed(dismissed: set<AlertId>): Alert -> bool {
    (a: Alert) => a.id !in dismissed
  }

  /** An alert is shown exactly when its id has not been dismissed, and there are never more active
      alerts than alerts. */
  lemma ActiveAlerts(alerts: seq<Alert>, dismissed: set<AlertId>)
    ensures |Active(alerts, dismissed)| <= |alerts|
    ensures forall i | 0 <= i < |Active(alerts, dismissed)| :: Active(alerts, dismissed)[i].id !in dismissed
    ensures forall i | 0 <= i < |alerts| :: alerts[i] in Active(alerts, dismissed) <==> alerts[i].id !in dismissed
  {
    FilterMembers(alerts, NotDismissed(dismissed));
  }

  /** The tab's state: the generated alerts and the dismissed ids. */
  datatype TabState = TabState(alerts: seq<Alert>, dismissed: set<AlertId>)

  /** The dismiss button: the id joins the dismissed set; the alerts stay as they are. */
  function Dismiss(st: TabState, id: AlertId): (r: TabState)
    ensures r.alerts == st.alerts
    ensures id in r.dismissed && st.dismissed <= r.dismissed && r.dismissed - st.dismissed <= {id}
  {
    st.(dismissed := st.dismissed + {id})
  }

  /** After dismissing `id`, the active alerts are those that were active, minus the ones with that
      id; dismissing twice is dismissing once. */
  lemma DismissHides(st: TabState, id: AlertId)
    ensures var after := Dismiss(st, id);
      forall i | 0 <= i < |st.alerts| ::
        st.alerts[i] in Active(after.alerts, after.dismissed)
        <==> st.alerts[i] in Active(st.alerts, st.dismissed) && st.alerts[i].id != id
    ensures Dismiss(Dismiss(st, id), id) == Dismiss(st, id)
  {
    ActiveAlerts(st.alerts, st.dismissed);
    ActiveAlerts(st.alerts, st.dismissed + {id});
  }

  /** The number of alerts of one severity, as a counter card shows it. */
  function SeverityCount(alerts: seq<Alert>, sev: Severity): nat {
    Count(alerts, HasSeverity(sev))
  }

  function HasSeverity(sev: Severity): Alert -> bool {
    (a: Alert) => a.severity == sev
  }

  /** Every alert has exactly one severity: the four counters add up to the number of alerts. */
  lemma {:induction false} CountsPartition(alerts: seq<Alert>)
    ensures SeverityCount(alerts, Critical) + SeverityCount(alerts, High) + SeverityCount(alerts, Medium)
            + SeverityCount(alerts, Low) == |alerts|
  {
    if |alerts| > 0 {
      CountsPartition(alerts[1..]);
    }
  }

  /** 1 when `x` holds one alert of severity `sev`, else 0. */
  function Single(x: seq<Alert>, sev: Severity): nat {
    if |x| == 1 && x[0].severity == sev then 1 else 0
  }

  /** Over five rule outputs of at most one alert each, the count of a severity is the number of
      outputs holding an alert of that severity. */
  lemma FiveCounts(a: seq<Alert>, b: seq<Alert>, c: seq<Alert>, d: seq<Alert>, e: seq<Alert>, sev: Severity)
    requires |a| <= 1 && |b| <= 1 && |c| <= 1 && |d| <= 1 && |e| <= 1
    ensures SeverityCount(a + b + c + d + e, sev)
            == Single(a, sev) + Single(b, sev) + Single(c, sev) + Single(d, sev) + Single(e, sev)
  {
    var p := HasSeverity(sev);
    CountAppend(a, b, p);
    CountAppend(a + b, c, p);
    CountAppend(a + b + c, d, p);
    CountAppend(a + b + c + d, e, p);
    CountOne(a, sev);
    CountOne(b, sev);
    CountOne(c, sev);
    CountOne(d, sev);
    CountOne(e, sev);
  }

  /** At most one alert, counted by severity. */
  lemma CountOne(x: seq<Alert>, sev: Severity)
    requires |x| <= 1
    ensures SeverityCount(x, sev) == Single(x, sev)
  {
    if |x| == 1 {
      assert x[1..] == [];
    }
  }

  /** At most one alert, of the given severity. */
  predicate Rated(x: seq<Alert>, sev: Severity) {
    |x| <= 1 && (|x| == 1 ==> x[0].severity == sev)
  }

  /** The counters over five rule outputs of the rules' severities. */
  lemma RatedCounts(a: seq<Alert>, b: seq<Alert>, c: seq<Alert>, d: seq<Alert>, e: seq<Alert>)
    requires Rated(a, High) && Rated(b, Medium) && Rated(c, High) && Rated(d, Critical) && Rated(e, Medium)
    ensures SeverityCount(a + b + c + d + e, Critical) == |d|
    ensures SeverityCount(a + b + c + d + e, High) == |a| + |c|
    ensures SeverityCount(a + b + c + d + e, Medium) == |b| + |e|
    ensures SeverityCount(a + b + c + d + e, Low) == 0
  {
    FiveCounts(a, b, c, d, e, Critical);
    FiveCounts(a, b, c, d, e, High);
    FiveCounts(a, b, c, d, e, Medium);
    FiveCounts(a, b, c, d, e, Low);
  }

  /** The counters on generated alerts: the closure alert is the only critical one, the revenue and
      review alerts are the high ones, the occupancy and staff alerts the medium ones, and none is
      low. */
  lemma GeneratedCounts(v: Http.Variant, sites: seq<Site>, employees: seq<Employee>, reviews: seq<Review>,
                        fmt: NumberFormat, clock: AlertId -> int)
    ensures var r := GenerateAlerts(v, sites, employees, reviews, fmt, clock);
      && SeverityCount(r, Critical) == |ClosureRule(v, sites, clock(ClosedAlert))|
      && SeverityCount(r, High) == |RevenueRule(sites, fmt, clock(RevenueAlert))| + |ReviewsRule(reviews, clock(ReviewsAlert))|
      && SeverityCount(r, Medium) == |OccupancyRule(sites, fmt, clock(OccupancyAlert))| + |StaffRule(v, employees, clock(StaffAlert))|
      && SeverityCount(r, Low) == 0
  {
    RatedCounts(RevenueRule(sites, fmt, clock(RevenueAlert)), OccupancyRule(sites, fmt, clock(OccupancyAlert)), ReviewsRule(reviews, clock(ReviewsAlert)),
                ClosureRule(v, sites, clock(ClosedAlert)), StaffRule(v, employees, clock(StaffAlert)));
  }

  // ---------------------------------------------------------------------------------------------
  // Attaching a generated report

  /** `!alert.anomalyType`: a missing or empty anomaly type stops the handler before any request. */
  predicate CanReport(alert: Alert) {
    alert.anomalyType.Some? && alert.anomalyType.value != ""
  }

  /** The reply of the anomaly report route said `success`; None stands for a request or a parse that
      threw, which the handler catches. */
  predicate Succeeded(data: Option<Json>) {
    data.Some? && Truthy(Http.Property(data.value, "success"))
  }

  /** `handleGenerateAnomalyReport`: on a successful reply, `generatedReport` is set to `data.report`
      on the alerts with the reported alert's id; otherwise the alerts stay as they are. */
  function AttachReport(alerts: seq<Alert>, target: Alert, data: Option<Json>): (r: seq<Alert>)
    ensures |r| == |alerts|
    ensures !CanReport(target) || !Succeeded(data) ==> r == alerts
    ensures forall i | 0 <= i < |alerts| :: alerts[i].id != target.id ==> r[i] == alerts[i]
    ensures CanReport(target) && Succeeded(data) ==>
      forall i | 0 <= i < |alerts| :: alerts[i].id == target.id ==>
        r[i] == alerts[i].(generatedReport := Http.Property(data.value, "report"))
  {
    if !CanReport(target) || !Succeeded(data) then alerts
    else
      var report := Http.Property(data.value, "report");
      seq(|alerts|, i requires 0 <= i < |alerts| =>
        if alerts[i].id == target.id then alerts[i].(generatedReport := report) else alerts[i])
  }

  /** Attaching the same reply twice is attaching it once, and it changes no alert's id, severity or
      text, so it changes neither the active list's ids nor the counters. */
  lemma AttachStable(alerts: seq<Alert>, target: Alert, data: Option<Json>, sev: Severity)
    ensures AttachReport(AttachReport(alerts, target, data), target, data) == AttachReport(alerts, target, data)
    ensures var r := AttachReport(alerts, target, data);
      forall i | 0 <= i < |alerts| :: r[i].id == alerts[i].id && r[i].severity == alerts[i].severity
                                      && r[i].title == alerts[i].title && r[i].description == alerts[i].description
    ensures SeverityCount(AttachReport(alerts, target, data), sev) == SeverityCount(alerts, sev)
  {
    SameSeverities(alerts, AttachReport(alerts, target, data), sev);
  }

  /** Two lists with the same severities position by position have the same counters. */
  lemma {:induction false} SameSeverities(xs: seq<Alert>, ys: seq<Alert>, sev: Severity)
    requires |xs| == |ys|
    requires forall i | 0 <= i < |xs| :: xs[i].severity == ys[i].severity
    ensures SeverityCount(xs, sev) == SeverityCount(ys, sev)
  {
    if |xs| > 0 {
      SameSeverities(xs[1..], ys[1..], sev);
    }
  }
}
