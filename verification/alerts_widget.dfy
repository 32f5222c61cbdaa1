/** The AI alerts widget (components/ai/alerts-widget.tsx): the keyword classifier that turns the
    anomaly analysis into at most three alerts, the refresh that installs them, dismissal, and the
    colour of a severity. */
module AlertsWidget {
  import opened Wrappers
  import opened JsText
  import opened Json
  import opened Registry
  import Http

  /** The three alerts the classifier knows; `IdText` gives each id as the code writes it. */
  datatype Kind = CriticalKind | RevenueKind | OccupancyKind

  function IdText(k: Kind): string {
    match k
    case CriticalKind => "alert-critical"
    case RevenueKind => "alert-revenue"
    case OccupancyKind => "alert-occupancy"
  }

  datatype WidgetAlert = WidgetAlert(
    kind: Kind,
    severity: string,
    title: string,
    description: string,
    action: Option<string>,
    dismissed: bool)

  /** The position of each alert in the classifier's output. */
  function Rank(k: Kind): nat {
    match k
    case CriticalKind => 0
    case RevenueKind => 1
    case OccupancyKind => 2
  }

  /** The values of `analysis` that have an `includes` method: a string, searched for a substring,
      and an array, searched for an element equal to the keyword. */
  datatype Analysis = Text(s: string) | Items(items: seq<Json>)

  /** `analysis.includes(keyword)`: a case-sensitive substring test on a string, a strict equality
      test on each element of an array. */
  predicate Contains(analysis: Analysis, keyword: string) {
    match analysis
    case Text(s) => Includes(s, keyword)
    case Items(xs) => Str(keyword) in xs
  }

  /** The keywords that raise each alert. */
  predicate Mentions(analysis: Analysis, k: Kind) {
    match k
    case CriticalKind => Contains(analysis, "CRITIQUE")
    case RevenueKind => Contains(analysis, "revenue") || Contains(analysis, "Baisse")
    case OccupancyKind => Contains(analysis, "Occupation") || Contains(analysis, "capacité")
  }

  function AlertOf(k: Kind): (a: WidgetAlert)
    ensures a.kind == k && !a.dismissed
    ensures a.severity == match k case CriticalKind => "critical" case RevenueKind => "high" case OccupancyKind => "medium"
  {
    match k
    case CriticalKind =>
      WidgetAlert(k, "critical", "Alerte Critique Détectée",
                  ("Une anomalie critique nécessite " + "une action immédiate."), Some("Examiner maintenant"), false)
    case RevenueKind =>
      WidgetAlert(k, "high", "Baisse de Revenus",
                  ("La tendance des revenus " + "montre une baisse significative."), Some("Analyser les causes"), false)
    case OccupancyKind =>
      WidgetAlert(k, "medium", "Anomalie d'Occupation",
                  "Le taux d'occupation n'est pas optimal.", Some("Optimiser la capacité"), false)
  }

  function Raise(analysis: Analysis, k: Kind): (r: seq<WidgetAlert>)
    ensures |r| <= 1
    ensures |r| == 1 <==> Mentions(analysis, k)
    ensures |r| == 1 ==> r[0] == AlertOf(k)
  {
    if Mentions(analysis, k) then [AlertOf(k)] else []
  }

  /** `parseAnomalyAnalysis`. */
  function ParseAnalysis(analysis: Analysis): seq<WidgetAlert> {
    Raise(analysis, CriticalKind) + Raise(analysis, RevenueKind) + Raise(analysis, OccupancyKind)
  }

  /** What one keyword test yields: the alert of that kind exactly when `raised`. */
  predicate Yields(x: seq<WidgetAlert>, k: Kind, raised: bool, make: Kind -> WidgetAlert) {
    |x| <= 1 && (|x| == 1 <==> raised) && (|x| == 1 ==> x[0] == make(k))
  }

  /** Alerts in strictly increasing rank below `below`, each made by `make` for a raised kind. */
  predicate InOrder(r: seq<WidgetAlert>, below: nat, m: Kind -> bool, make: Kind -> WidgetAlert) {
    && (forall i, j | 0 <= i < j < |r| :: Rank(r[i].kind) < Rank(r[j].kind))
    && (forall i | 0 <= i < |r| :: Rank(r[i].kind) < below && r[i] == make(r[i].kind) && m(r[i].kind))
  }

  lemma InOrderAppend(r: seq<WidgetAlert>, x: seq<WidgetAlert>, k: Kind, m: Kind -> bool, make: Kind -> WidgetAlert)
    requires make(k).kind == k
    requires InOrder(r, Rank(k), m, make) && Yields(x, k, m(k), make)
    ensures InOrder(r + x, Rank(k) + 1, m, make)
  {
    forall i, j | 0 <= i < j < |r + x|
      ensures Rank((r + x)[i].kind) < Rank((r + x)[j].kind)
    {
      if j >= |r| {
        assert (r + x)[j] == x[0];
      }
    }
  }

  /** Some alert of the list has kind `k`. */
  predicate Has(r: seq<WidgetAlert>, k: Kind) {
    exists i | 0 <= i < |r| :: r[i].kind == k
  }

  lemma HasAppend(x: seq<WidgetAlert>, y: seq<WidgetAlert>, k: Kind)
    ensures Has(x + y, k) <==> Has(x, k) || Has(y, k)
  {
    if Has(x + y, k) {
      var i :| 0 <= i < |x + y| && (x + y)[i].kind == k;
      if i >= |x| {
        assert y[i - |x|].kind == k;
      }
    }
    if Has(x, k) {
      var i :| 0 <= i < |x| && x[i].kind == k;
      assert (x + y)[i].kind == k;
    }
    if Has(y, k) {
      var i :| 0 <= i < |y| && y[i].kind == k;
      assert (x + y)[|x| + i].kind == k;
    }
  }

  /** Three keyword tests in order make at most three alerts in rank order, one per raised kind. */
  lemma ThreeInOrder(a: seq<WidgetAlert>, b: seq<WidgetAlert>, c: seq<WidgetAlert>, m: Kind -> bool,
                     make: Kind -> WidgetAlert)
    requires forall k: Kind :: make(k).kind == k
    requires Yields(a, CriticalKind, m(CriticalKind), make) && Yields(b, RevenueKind, m(RevenueKind), make)
    requires Yields(c, OccupancyKind, m(OccupancyKind), make)
    ensures |a + b + c| <= 3
    ensures InOrder(a + b + c, 3, m, make)
    ensures forall k: Kind :: Has(a + b + c, k) <==> m(k)
  {
    assert InOrder([], 0, m, make);
    assert [] + a == a;
    InOrderAppend([], a, CriticalKind, m, make);
    InOrderAppend(a, b, RevenueKind, m, make);
    InOrderAppend(a + b, c, OccupancyKind, m, make);
    forall k: Kind
      ensures Has(a + b + c, k) <==> m(k)
    {
      HasAppend(a, b, k);
      HasAppend(a + b, c, k);
      if |a| == 1 { assert a[0].kind == CriticalKind; }
      if |b| == 1 { assert b[0].kind == RevenueKind; }
      if |c| == 1 { assert c[0].kind == OccupancyKind; }
      if m(k) {
        assert k == CriticalKind ==> a[0].kind == k;
        assert k == RevenueKind ==> b[0].kind == k;
        assert k == OccupancyKind ==> c[0].kind == k;
      }
    }
  }

  /** The classifier yields at most three fresh alerts, in the order critical, revenue, occupancy
      (so with distinct ids), one for each kind whose keywords the text mentions, and none when it
      mentions no keyword. */
  lemma ParseShape(analysis: Analysis)
    ensures |ParseAnalysis(analysis)| <= 3
    ensures InOrder(ParseAnalysis(analysis), 3, k => Mentions(analysis, k), AlertOf)
    ensures forall k: Kind :: Has(ParseAnalysis(analysis), k) <==> Mentions(analysis, k)
  {
    ThreeInOrder(Raise(analysis, CriticalKind), Raise(analysis, RevenueKind), Raise(analysis, OccupancyKind),
                 k => Mentions(analysis, k), AlertOf);
  }

  /** No keyword, no alert. */
  lemma ParseEmpty(analysis: Analysis)
    ensures ParseAnalysis(analysis) == [] <==> forall k: Kind :: !Mentions(analysis, k)
  {
    ParseShape(analysis);
    var r := ParseAnalysis(analysis);
    if r != [] {
      assert Has(r, r[0].kind);
    }
  }

  // ---------------------------------------------------------------------------------------------
  // Refresh and dismissal

  /** How the request to the anomaly route ended: a status other than ok, a thrown value, or the
      parsed body. */
  datatype Fetched = NotOk | Threw(thrown: Http.Thrown) | Data(value: Json)

  datatype WidgetState = WidgetState(alerts: seq<WidgetAlert>, loading: bool, error: Option<string>)

  const FetchFailed: string := "Failed to fetch anomalies"

  const UnknownError: string := "Unknown error"

  /** The places where `fetchAnomalies` throws a TypeError: reading `analysis` of a null body,
      reading `includes` of a missing or null `analysis`, and calling an `includes` that is not a
      function (a number, a boolean or an object). */
  datatype WidgetFault = AnalysisOfNull | IncludesOfMissing(isNull: bool) | IncludesNotFunction

  /** The `analysis` of a parsed body as `parseAnomalyAnalysis` sees it: a value with `includes`,
      or the TypeError it raises. */
  datatype Read = Readable(analysis: Analysis) | Throws(fault: WidgetFault)

  function AnalysisOf(body: Json): (r: Read)
    ensures r.Readable? <==> Http.Property(body, "analysis").Some?
                             && (Http.Property(body, "analysis").value.Str? || Http.Property(body, "analysis").value.Arr?)
    ensures r.Readable? && r.analysis.Text? ==> Http.Property(body, "analysis") == Some(Str(r.analysis.s))
    ensures r.Readable? && r.analysis.Items? ==> Http.Property(body, "analysis") == Some(Arr(r.analysis.items))
    ensures r == Throws(AnalysisOfNull) <==> body.Null?
  {
    if body.Null? then Throws(AnalysisOfNull)
    else
      match Http.Property(body, "analysis")
      case Some(Str(s)) => Readable(Text(s))
      case Some(Arr(xs)) => Readable(Items(xs))
      case Some(Null) => Throws(IncludesOfMissing(true))
      case None => Throws(IncludesOfMissing(false))
      case Some(_) => Throws(IncludesNotFunction)
  }

  /** `fetchAnomalies`: a string or array `analysis` replaces the alerts with its classification and
      clears the error; anything else keeps the alerts and shows an error: the fixed message for a
      failed status, the thrown error's message, or `fault` of the place where the TypeError was
      raised. Loading ends in every case. */
  function Refresh(st: WidgetState, fetched: Fetched, fault: WidgetFault -> string): (r: WidgetState)
    ensures !r.loading
    ensures r.error.None? <==> fetched.Data? && AnalysisOf(fetched.value).Readable?
    ensures r.error.None? ==> r.alerts == ParseAnalysis(AnalysisOf(fetched.value).analysis)
    ensures r.error.Some? ==> r.alerts == st.alerts
    ensures fetched == NotOk ==> r.error == Some(FetchFailed)
    ensures fetched.Threw? ==> r.error == Some(Http.ErrorText(fetched.thrown, UnknownError))
    ensures fetched.Data? && AnalysisOf(fetched.value).Throws? ==>
              r.error == Some(fault(AnalysisOf(fetched.value).fault))
  {
    match fetched
    case NotOk => WidgetState(st.alerts, false, Some(FetchFailed))
    case Threw(e) => WidgetState(st.alerts, false, Some(Http.ErrorText(e, UnknownError)))
    case Data(v) =>
      match AnalysisOf(v)
      case Readable(a) => WidgetState(ParseAnalysis(a), false, None)
      case Throws(f) => WidgetState(st.alerts, false, Some(fault(f)))
  }

  /** An array `analysis` raises an alert exactly when one of its elements is one of the keywords
      itself; a longer text that merely contains the keyword raises nothing. */
  lemma ArrayAnalysis(xs: seq<Json>)
    ensures Mentions(Items(xs), CriticalKind) <==> Str("CRITIQUE") in xs
    ensures (Str("CRITIQUE") !in xs && Str("revenue") !in xs && Str("Baisse") !in xs
             && Str("Occupation") !in xs && Str("capacité") !in xs) ==> ParseAnalysis(Items(xs)) == []
    ensures ParseAnalysis(Items([Str("Baisse de revenue CRITIQUE")])) == []
  {
    ParseEmpty(Items(xs));
    ParseEmpty(Items([Str("Baisse de revenue CRITIQUE")]));
  }

  /** The dismiss button: `dismissed` is set on the alerts with that id. */
  function Dismiss(alerts: seq<WidgetAlert>, k: Kind): (r: seq<WidgetAlert>)
    ensures |r| == |alerts|
    ensures forall i | 0 <= i < |alerts| :: r[i].kind == alerts[i].kind
  {
    seq(|alerts|, i requires 0 <= i < |alerts| => if alerts[i].kind == k then alerts[i].(dismissed := true) else alerts[i])
  }

  /** `alerts.filter((a) => !a.dismissed)`. */
  function Active(alerts: seq<WidgetAlert>): (r: seq<WidgetAlert>)
    ensures |r| <= |alerts|
    ensures forall i | 0 <= i < |r| :: !r[i].dismissed && r[i] in alerts
  {
    if |alerts| == 0 then []
    else if alerts[0].dismissed then Active(alerts[1..])
    else [alerts[0]] + Active(alerts[1..])
  }

  /** Dismissing changes the dismissed flag of the alerts with that id and nothing else; afterwards
      no alert with that id is active, and every other alert is active exactly as before. */
  lemma {:induction false} DismissHides(alerts: seq<WidgetAlert>, k: Kind)
    ensures forall i | 0 <= i < |alerts| :: alerts[i].kind != k ==> Dismiss(alerts, k)[i] == alerts[i]
    ensures forall i | 0 <= i < |alerts| :: alerts[i].kind == k ==>
      Dismiss(alerts, k)[i] == alerts[i].(dismissed := true)
    ensures forall i | 0 <= i < |Active(Dismiss(alerts, k))| :: Active(Dismiss(alerts, k))[i].kind != k
    ensures Active(Dismiss(alerts, k)) == Filtered(Active(alerts), k)
  {
    if |alerts| > 0 {
      DismissHides(alerts[1..], k);
      assert Dismiss(alerts, k)[1..] == Dismiss(alerts[1..], k);
    }
  }

  /** The alerts of `alerts` whose id differs from `k`. */
  function Filtered(alerts: seq<WidgetAlert>, k: Kind): seq<WidgetAlert> {
    if |alerts| == 0 then []
    else if alerts[0].kind == k then Filtered(alerts[1..], k)
    else [alerts[0]] + Filtered(alerts[1..], k)
  }

  // ---------------------------------------------------------------------------------------------
  // Colours

  /** The class names of the four severities. */
  datatype Palette = Palette(critical: string, high: string, medium: string, low: string)

  const Colors: Palette := Palette(
    ("bg-red-100 dark:bg-red-900/30 " + "text-red-900 dark:text-red-100 " + "border-red-300 dark:border-red-700"),
    ("bg-orange-100 dark:bg-orange-900/30 " + "text-orange-900 dark:text-orange-100 " + "border-orange-300 dark:border-orange-700"),
    ("bg-yellow-100 dark:bg-yellow-900/30 " + "text-yellow-900 dark:text-yellow-100 " + "border-yellow-300 dark:border-yellow-700"),
    ("bg-blue-100 dark:bg-blue-900/30 " + "text-blue-900 dark:text-blue-100 " + "border-blue-300 dark:border-blue-700"))

  function PaletteTable(p: Palette): seq<(string, string)> {
    [("critical", p.critical), ("high", p.high), ("medium", p.medium), ("low", p.low)]
  }

  /** `colors[severity] || colors.low`: an own entry if non-empty, an inherited member as it prints,
      and the low colour otherwise. */
  function SeverityColor(p: Palette, severity: string): string {
    match Find(PaletteTable(p), severity)
    case Own(c) => if c != "" then c else p.low
    case Inherited(name) => InheritedText(name)
    case Absent => p.low
  }

  /** The four severities get their own colours; any other severity that is not an inherited object
      member falls back to the low colour. */
  lemma ColorChoice(p: Palette, severity: string)
    requires p.critical != "" && p.high != "" && p.medium != ""
    ensures severity == "critical" ==> SeverityColor(p, severity) == p.critical
    ensures severity == "high" ==> SeverityColor(p, severity) == p.high
    ensures severity == "medium" ==> SeverityColor(p, severity) == p.medium
    ensures severity !in {"critical", "high", "medium"} && severity !in ObjectPrototypeMembers ==>
      SeverityColor(p, severity) == p.low
    ensures severity in ObjectPrototypeMembers ==> SeverityColor(p, severity) == InheritedText(severity)
  {
    var t := PaletteTable(p);
    FindCons("critical", p.critical, t[1..], severity);
    assert t == [("critical", p.critical)] + t[1..];
    FindCons("high", p.high, t[2..], severity);
    assert t[1..] == [("high", p.high)] + t[2..];
    FindCons("medium", p.medium, t[3..], severity);
    assert t[2..] == [("medium", p.medium)] + t[3..];
    FindCons("low", p.low, [], severity);
    assert t[3..] == [("low", p.low)] + [];
  }

  /** The deployed palette has non-empty colours. */
  lemma ColorsNonEmpty()
    ensures Colors.critical != "" && Colors.high != "" && Colors.medium != "" && Colors.low != ""
  {
    assert Colors.critical[0] == 'b' && Colors.high[0] == 'b' && Colors.medium[0] == 'b' && Colors.low[0] == 'b';
  }
}
