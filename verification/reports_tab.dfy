/** The reports tab (components/dashboard/tabs/reports-tab.tsx): the catalogue of report types,
    the list of generated reports with what a generation reply adds to it, and deletion. The
    request to the report route is the runtime's; the model takes its outcome as a parameter, and
    the clock reading behind the new id and date too. */
module ReportsTab {
  import opened Wrappers
  import opened JsText
  import opened Json
  import opened Seqs
  import Http

  /** An entry of the catalogue `REPORT_TYPES`. */
  datatype ReportType = ReportType(id: string, name: string, desc: string, pages: nat)

  const Catalogue: seq<ReportType> := [
    ReportType("executive", "Rapport Exécutif", "Synthèse KPI pour PDG", 8),
    ReportType("financial", "Rapport Financier", "Analyse revenus détaillée", 12),
    ReportType("operational", "Rapport Opérationnel", "Performance sites et équipes", 10),
    ReportType("satisfaction", "Rapport Satisfaction", "Analyse avis et NPS clients", 6),
    ReportType("anomalies", "Rapport Anomalies", "Alertes et incidents détectés", 4),
    ReportType("strategic", "Rapport Stratégique", "Recommandations 30/60/90j", 15)]

  /** A generated report; `content` is the reply's `content`, undefined if it had none. */
  datatype Report = Report(id: string, reportType: string, name: string, generatedAt: nat, pages: nat,
                           content: Option<Json>)

  /** The tab's state: the reports, newest first, the type being generated and the error shown. */
  datatype Tab = Tab(reports: seq<Report>, generating: Option<string>, error: Option<Json>)

  /** How the request ended: a response whose status is not ok, a parsed body, or a thrown value
      (network failure, unreadable body). */
  datatype Outcome = NotOk(status: nat) | Data(body: Json) | Threw(thrown: Http.Thrown)

  /** `REPORT_TYPES.find((r) => r.id === reportType)`. */
  function Find(types: seq<ReportType>, reportType: string): (r: Option<ReportType>)
    ensures r.None? <==> forall i | 0 <= i < |types| :: types[i].id != reportType
    ensures r.Some? ==> r.value in types && r.value.id == reportType
  {
    if |types| == 0 then None
    else if types[0].id == reportType then Some(types[0])
    else Find(types[1..], reportType)
  }

  /** A type finds the first entry with its id. */
  lemma {:induction false} FindFirst(types: seq<ReportType>, i: nat)
    requires i < |types|
    requires forall j | 0 <= j < i :: types[j].id != types[i].id
    ensures Find(types, types[i].id) == Some(types[i])
  {
    if i > 0 {
      FindFirst(types[1..], i - 1);
    }
  }

  /** The catalogue's ids are the six report types, in order, each named and with pages. */
  lemma CatalogueIds()
    ensures |Catalogue| == 6
    ensures forall i | 0 <= i < |Catalogue| :: Catalogue[i].name != "" && Catalogue[i].pages > 0
    ensures Catalogue[0].id == "executive" && Catalogue[1].id == "financial"
    ensures Catalogue[2].id == "operational" && Catalogue[3].id == "satisfaction"
    ensures Catalogue[4].id == "anomalies" && Catalogue[5].id == "strategic"
    ensures Catalogue[0].pages == 8 && Catalogue[1].pages == 12 && Catalogue[2].pages == 10
    ensures Catalogue[3].pages == 6 && Catalogue[4].pages == 4 && Catalogue[5].pages == 15
  {
  }

  /** No two catalogue entries share an id. */
  lemma CatalogueDistinct()
    ensures forall i, j | 0 <= i < j < |Catalogue| :: Catalogue[i].id != Catalogue[j].id
  {
    CatalogueIds();
    assert "executive" != "financial" && "executive" != "operational" && "executive" != "satisfaction";
    assert "executive" != "anomalies" && "executive" != "strategic";
    assert "financial" != "operational" && "financial" != "satisfaction" && "financial" != "anomalies";
    assert "financial" != "strategic";
    assert "operational" != "satisfaction" && "operational" != "anomalies" && "operational" != "strategic";
    assert "satisfaction" != "anomalies" && "satisfaction" != "strategic";
    assert "anomalies" != "strategic";
  }

  /** The type finds a catalogue entry with this page count. */
  predicate PagesFound(reportType: string, pages: nat) {
    Find(Catalogue, reportType).Some? && Find(Catalogue, reportType).value.pages == pages
  }

  /** The six ids are distinct, so each finds its own entry, with the page count of the list:
      8, 12, 10, 6, 4 and 15. */
  lemma CatalogueEntries()
    ensures forall i | 0 <= i < |Catalogue| :: Find(Catalogue, Catalogue[i].id) == Some(Catalogue[i])
    ensures PagesFound("executive", 8) && PagesFound("financial", 12) && PagesFound("operational", 10)
    ensures PagesFound("satisfaction", 6) && PagesFound("anomalies", 4) && PagesFound("strategic", 15)
  {
    CatalogueIds();
    CatalogueDistinct();
    forall i | 0 <= i < |Catalogue|
      ensures Find(Catalogue, Catalogue[i].id) == Some(Catalogue[i])
    {
      FindFirst(Catalogue, i);
    }
  }

  /** Every catalogue entry a type finds has a name and pages, so neither default applies to it. */
  lemma CatalogueNamed(reportType: string)
    ensures Find(Catalogue, reportType).Some? ==>
              Find(Catalogue, reportType).value.name != "" && Find(Catalogue, reportType).value.pages != 0
  {
    CatalogueIds();
  }

  /** `reportInfo?.name || "Rapport"`. */
  function NameOf(info: Option<ReportType>): string {
    if info.Some? && info.value.name != "" then info.value.name else "Rapport"
  }

  /** `reportInfo?.pages || 8`. */
  function PagesOf(info: Option<ReportType>): nat {
    if info.Some? && info.value.pages != 0 then info.value.pages else 8
  }

  /** `err instanceof Error ? err.message : "Erreur réseau"`, as the error shown. */
  function ThrownText(t: Http.Thrown): Json {
    Str(Http.ErrorText(t, "Erreur réseau"))
  }

  /** `handleGenerateReport` from the click to the `finally`: on a successful reply a report goes to
      the front, named and paged from its catalogue entry, or "Rapport" and 8 pages without one;
      otherwise the list is unchanged and the error is the reply's `error`, the default message,
      "HTTP <status>" or the thrown message. The in-progress marker is cleared on every outcome.
      Reading `success` of a null body throws a TypeError whose message is `nullRead`. The clock is
      read twice: `Date.now()` for the id (`idClock`) and `new Date()` for the date (`generated`). */
  function Generate(tab: Tab, reportType: string, outcome: Outcome, idClock: nat, generated: nat, nullRead: string): (r: Tab)
    ensures r.generating.None?
    ensures match outcome
            case Data(body) =>
              if body.Null? then r.reports == tab.reports && r.error == Some(Str(nullRead))
              else if Truthy(Http.Property(body, "success")) then
                && r.error.None?
                && |r.reports| == |tab.reports| + 1 && r.reports[1..] == tab.reports
                && r.reports[0].id == "report-" + NatText(idClock)
                && r.reports[0].reportType == reportType
                && r.reports[0].generatedAt == generated
                && r.reports[0].content == Http.Property(body, "content")
                && (Find(Catalogue, reportType).Some? ==>
                      r.reports[0].name == Find(Catalogue, reportType).value.name &&
                      r.reports[0].pages == Find(Catalogue, reportType).value.pages)
                && (Find(Catalogue, reportType).None? ==> r.reports[0].name == "Rapport" && r.reports[0].pages == 8)
              else
                && r.reports == tab.reports
                && (Truthy(Http.Property(body, "error")) ==> r.error == Http.Property(body, "error"))
                && (!Truthy(Http.Property(body, "error")) ==> r.error == Some(Str("Erreur lors de la génération")))
            case NotOk(status) => r.reports == tab.reports && r.error == Some(Str("HTTP " + NatText(status)))
            case Threw(t) => r.reports == tab.reports && r.error == Some(ThrownText(t))
  {
    var started := tab.(generating := Some(reportType), error := None);
    var ended :=
      match outcome
      case NotOk(status) => started.(error := Some(Str("HTTP " + NatText(status))))
      case Threw(t) => started.(error := Some(ThrownText(t)))
      case Data(body) =>
        if body.Null? then started.(error := Some(Str(nullRead)))
        else if Truthy(Http.Property(body, "success")) then
          var info := Find(Catalogue, reportType);
          CatalogueNamed(reportType);
          var report := Report("report-" + NatText(idClock), reportType, NameOf(info), generated, PagesOf(info),
                               Http.Property(body, "content"));
          assert ([report] + started.reports)[1..] == started.reports;
          started.(reports := [report] + started.reports)
        else
          var shown := Http.Property(body, "error");
          started.(error := if Truthy(shown) then shown else Some(Str("Erreur lors de la génération")));
    ended.(generating := None)
  }

  /** `handleDeleteReport`: exactly the reports with the id go, the rest stay in order. */
  function Delete(tab: Tab, id: string): (r: Tab)
    ensures r.generating == tab.generating && r.error == tab.error
    ensures forall i | 0 <= i < |r.reports| :: r.reports[i].id != id
    ensures forall i | 0 <= i < |tab.reports| :: tab.reports[i] in r.reports <==> tab.reports[i].id != id
    ensures |r.reports| == |tab.reports| - Count(tab.reports, (x: Report) => x.id == id)
  {
    FilterMembers(tab.reports, (x: Report) => x.id != id);
    FilterComplement(tab.reports, (x: Report) => x.id != id, (x: Report) => x.id == id);
    tab.(reports := Filter(tab.reports, (x: Report) => x.id != id))
  }

  /** Deleting the report a successful generation just added, when its id was new, gives back the
      list from before. */
  lemma DeleteUndoesGenerate(tab: Tab, reportType: string, body: Json, idClock: nat, generated: nat, nullRead: string)
    requires body != Null && Truthy(Http.Property(body, "success"))
    requires forall i | 0 <= i < |tab.reports| :: tab.reports[i].id != "report-" + NatText(idClock)
    ensures Delete(Generate(tab, reportType, Data(body), idClock, generated, nullRead), "report-" + NatText(idClock)).reports
         == tab.reports
  {
    var id := "report-" + NatText(idClock);
    var r := Generate(tab, reportType, Data(body), idClock, generated, nullRead);
    var p := (x: Report) => x.id != id;
    assert r.reports == [r.reports[0]] + tab.reports;
    FilterAppend([r.reports[0]], tab.reports, p);
    FilterExtremes(tab.reports, p);
    assert Filter([r.reports[0]], p) == [];
  }
}
