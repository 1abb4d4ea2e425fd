/**
 * regional_report.js: the report's guard and request, the doughnut chart
 * that replaces the previous one, the summary table (count order, total,
 * severity and its colour) and the numbered list of top threats.
 */
module RegionalReport {
  import opened Wrappers
  import opened JsValue
  import opened Browser
  import ApiClient
  import Ranking
  import Text
  import StatisticsModel

  /** DISEASE_SEVERITY_INDEX */
  const ClientSeverityIndex: map<string, nat> := map[
    "Healthy" := 0,
    "Sooty Mould" := 1,
    "Powdery Mildew" := 2,
    "Gall Midge" := 2,
    "Anthracnose" := 3,
    "Bacterial Canker" := 3,
    "Cutting Weevil" := 3,
    "die back" := 3
  ]

  /** DISEASE_COLOR_MAP */
  const ColorMap: map<string, string> := map[
    "Anthracnose" := "#f0ad4e",
    "Bacterial Canker" := "#337ab7",
    "Cutting Weevil" := "#9966FF",
    "die back" := "#dc3545",
    "Gall Midge" := "#ffc107",
    "Powdery Mildew" := "#20c997",
    "Sooty Mould" := "#6c757d"
  ]

  /** `DISEASE_COLOR_MAP[name] || fallback` */
  function ColorOr(name: string, fallback: string): (color: string)
    ensures name in ColorMap ==> color == ColorMap[name]
    ensures name !in ColorMap ==> color == fallback
  {
    if name in ColorMap then ColorMap[name] else fallback
  }

  /** The report needs both coordinates; None lets it go. */
  function GenerateCheck(latitude: string, longitude: string): (failure: Option<string>)
    ensures failure.None? <==> latitude != "" && longitude != ""
    ensures failure.Some? ==> failure.value == "Please enter or detect both Latitude and Longitude."
  {
    if latitude == "" || longitude == "" then Some("Please enter or detect both Latitude and Longitude.") else None
  }

  /** The request's endpoint; the coordinates are put in as typed. */
  function RegionalEndpoint(latitude: string, longitude: string): (endpoint: string)
    ensures Text.StartsWith(endpoint, "/api/user/regional-stats?")
  {
    "/api/user/regional-stats?" + "latitude=" + latitude + "&longitude=" + longitude
  }

  /** '&' does not occur in "<name>=<value>" when it occurs in neither part. */
  lemma NoAmpersand(name: string, value: string)
    requires '&' !in name && '&' !in value
    ensures '&' !in name + "=" + value
  {
    var s := name + "=" + value;
    forall i | 0 <= i < |s| ensures s[i] != '&' {
      if i < |name| { assert s[i] == name[i]; }
      else if i > |name| { assert s[i] == value[i - |name| - 1]; }
    }
  }

  /** The query string holds the two coordinates, latitude first, when neither has a '&'. */
  lemma EndpointQuery(latitude: string, longitude: string)
    requires '&' !in latitude && '&' !in longitude
    ensures Text.Split(RegionalEndpoint(latitude, longitude)[25..], '&')
         == ["latitude=" + latitude, "longitude=" + longitude]
  {
    var a := "latitude=" + latitude;
    var b := "longitude=" + longitude;
    assert RegionalEndpoint(latitude, longitude)[25..] == a + ['&'] + b;
    NoAmpersand("latitude", latitude);
    NoAmpersand("longitude", longitude);
    Text.SplitAfter(a, '&', b);
  }

  /** `rawCounts.reduce((sum, count) => sum + count, 0)` */
  function Total(d: seq<(string, real)>): real {
    if d == [] then 0.0 else d[0].1 + Total(d[1..])
  }

  lemma {:induction false} TotalAppend(a: seq<(string, real)>, b: seq<(string, real)>)
    ensures Total(a + b) == Total(a) + Total(b)
    decreases |a|
  {
    if a == [] {
      assert a + b == b;
    } else {
      assert (a + b)[0] == a[0];
      assert (a + b)[1..] == a[1..] + b;
      TotalAppend(a[1..], b);
    }
  }

  /** Reordering the entries does not change the total. */
  lemma {:induction false} TotalPermutation(a: seq<(string, real)>, b: seq<(string, real)>)
    requires multiset(a) == multiset(b)
    ensures Total(a) == Total(b)
    decreases |a|
  {
    if a == [] {
      assert |b| == |multiset(b)| == 0;
    } else {
      var x := a[0];
      assert x in multiset(b);
      var j :| 0 <= j < |b| && b[j] == x;
      var rest := b[..j] + b[j + 1..];
      assert b == b[..j] + [x] + b[j + 1..];
      TotalAppend(b[..j] + [x], b[j + 1..]);
      TotalAppend(b[..j], [x]);
      TotalAppend(b[..j], b[j + 1..]);
      assert Total([x]) == x.1;
      assert a == [x] + a[1..];
      assert multiset(b) == multiset(b[..j]) + multiset{x} + multiset(b[j + 1..]);
      assert multiset(rest) == multiset(b[..j]) + multiset(b[j + 1..]);
      assert multiset(a) == multiset{x} + multiset(a[1..]);
      assert multiset(a[1..]) == multiset(a) - multiset{x};
      assert multiset(rest) == multiset(b) - multiset{x};
      TotalPermutation(a[1..], rest);
    }
  }

  /** `DISEASE_SEVERITY_INDEX[disease] || 'N/A'`: 0 and unknown classes show 'N/A'. */
  function SeverityShown(disease: string): (shown: Json)
    ensures disease in ClientSeverityIndex && ClientSeverityIndex[disease] != 0 ==>
      shown == JNum(ClientSeverityIndex[disease] as real)
    ensures !(disease in ClientSeverityIndex && ClientSeverityIndex[disease] != 0) ==> shown == JStr("N/A")
  {
    if disease in ClientSeverityIndex && ClientSeverityIndex[disease] != 0 then JNum(ClientSeverityIndex[disease] as real)
    else JStr("N/A")
  }

  /** The shown severity is the server's severity where that is positive, and 'N/A' exactly where it is 0. */
  lemma SeverityShownAgreesWithServer(disease: string)
    ensures StatisticsModel.Severity(disease) > 0 ==> SeverityShown(disease) == JNum(StatisticsModel.Severity(disease) as real)
    ensures StatisticsModel.Severity(disease) == 0 <==> SeverityShown(disease) == JStr("N/A")
  {
    assert ClientSeverityIndex == StatisticsModel.SeverityIndex;
  }

  /** `severity >= 3 ? 'red' : severity >= 2 ? 'orange' : 'green'`; 'N/A' compares false both times. */
  function SeverityColor(severity: Json): (color: string)
    ensures severity.JNum? && severity.n >= 3.0 ==> color == "red"
    ensures severity.JNum? && 2.0 <= severity.n < 3.0 ==> color == "orange"
    ensures !(severity.JNum? && severity.n >= 2.0) ==> color == "green"
  {
    if severity.JNum? && severity.n >= 3.0 then "red"
    else if severity.JNum? && severity.n >= 2.0 then "orange"
    else "green"
  }

  /** 'Healthy' and unknown classes are shown as 'N/A' in green. */
  lemma HealthyShownGreen(disease: string)
    requires disease == "Healthy" || disease !in ClientSeverityIndex
    ensures SeverityShown(disease) == JStr("N/A") && SeverityColor(SeverityShown(disease)) == "green"
  {
  }

  /** One row of the summary table. */
  datatype SummaryRow = SummaryRow(disease: string, count: real, severity: Json, color: string)

  function RowOf(entry: (string, real)): SummaryRow {
    var severity := SeverityShown(entry.0);
    SummaryRow(entry.0, entry.1, severity, SeverityColor(severity))
  }

  /** The table: its rows, then the TOTAL row's count. */
  datatype Summary = Summary(rows: seq<SummaryRow>, total: real)

  function Count(entry: (string, real)): real { entry.1 }

  /** The rows' counts add up to the TOTAL row. */
  function RowsTotal(rows: seq<SummaryRow>): real {
    if rows == [] then 0.0 else rows[0].count + RowsTotal(rows[1..])
  }

  /** One threat of the action plan. */
  datatype Threat = Threat(name: string, count: real, organic: Json, chemical: Json)

  /** One card of the action plan, numbered from 1. */
  datatype ThreatCard = ThreatCard(number: nat, name: string, count: real, organic: Json, chemical: Json, border: string)

  function CardOf(index: nat, t: Threat): ThreatCard {
    ThreatCard(index + 1, t.name, t.count,
               Or(t.organic, JStr("No specific organic treatment recorded.")),
               Or(t.chemical, JStr("No specific chemical treatment recorded.")),
               ColorOr(t.name, "#333"))
  }

  /** The chart for the regional counts, in the server's key order. */
  function RegionalChart(data: seq<(string, real)>): (chart: Chart)
    ensures chart.kind == "doughnut"
    ensures |chart.labels| == |chart.values| == |chart.colors| == |data|
    ensures forall i | 0 <= i < |data| ::
      && chart.labels[i] == JStr(data[i].0) && chart.values[i] == JNum(data[i].1)
      && chart.colors[i] == ColorOr(data[i].0, "#cccccc")
  {
    Chart("doughnut",
          seq(|data|, i requires 0 <= i < |data| => JStr(data[i].0)),
          seq(|data|, i requires 0 <= i < |data| => JNum(data[i].1)),
          seq(|data|, i requires 0 <= i < |data| => ColorOr(data[i].0, "#cccccc")))
  }

  /** How the regional-stats call settled, with `|| {}` and `|| []` applied. */
  datatype RegionalReply =
    | Loaded(regionalData: seq<(string, real)>, topTreatments: seq<Threat>, message: Json)
    | LoadFailed(error: string)

  /** The report page. */
  class RegionalPage {
    const chart: ChartSlot
    var chartMessage: Json
    var summary: Option<Summary>
    var cards: seq<ThreatCard>
    var shown: Option<Notice>

    constructor()
      ensures fresh(chart) && chart.Valid() && chart.current == None
      ensures chartMessage == JStr("") && summary == None && cards == [] && shown == None
    {
      chart := new ChartSlot();
      chartMessage := JStr("");
      summary := None;
      cards := [];
      shown := None;
    }

    /** renderSummaryTable: rows by count, largest first and stable on ties, then the total of all counts. */
    method RenderSummaryTable(data: seq<(string, real)>)
      modifies this
      ensures summary.Some? && summary.value.total == Total(data)
      ensures var sorted := Ranking.SortDesc(data, Count);
        && |summary.value.rows| == |data|
        && forall i | 0 <= i < |data| :: summary.value.rows[i] == RowOf(sorted[i])
      ensures chartMessage == old(chartMessage) && cards == old(cards) && shown == old(shown)
    {
      var sorted := Ranking.SortDesc(data, Count);
      Ranking.SortDescCorrect(data, Count);
      var rows: seq<SummaryRow> := [];
      for i := 0 to |sorted|
        invariant |rows| == i
        invariant forall j | 0 <= j < i :: rows[j] == RowOf(sorted[j])
        invariant chartMessage == old(chartMessage) && cards == old(cards) && shown == old(shown)
      {
        rows := rows + [RowOf(sorted[i])];
      }
      summary := Some(Summary(rows, Total(data)));
    }

    /** renderTopTreatments: cleared for no threats, otherwise one card per threat in the given order. */
    method RenderTopTreatments(top: seq<Threat>)
      modifies this
      ensures |cards| == |top|
      ensures forall i | 0 <= i < |top| :: cards[i] == CardOf(i, top[i])
      ensures chartMessage == old(chartMessage) && summary == old(summary) && shown == old(shown)
    {
      cards := [];
      if |top| == 0 {
        return;
      }
      for i := 0 to |top|
        invariant |cards| == i
        invariant forall j | 0 <= j < i :: cards[j] == CardOf(j, top[j])
        invariant chartMessage == old(chartMessage) && summary == old(summary) && shown == old(shown)
      {
        cards := cards + [CardOf(i, top[i])];
      }
    }

    /**
     * The generate button: the guard, then loadRegionalStatistics. No data
     * means the message and no chart alive; a failure destroys the chart
     * too; otherwise the chart is replaced and the table and action plan
     * are rendered.
     */
    method Generate(latitude: string, longitude: string, reply: RegionalReply)
      returns (call: Option<ApiClient.Call>)
      requires chart.Valid()
      modifies this, chart
      ensures chart.Valid()
      ensures GenerateCheck(latitude, longitude).Some? ==>
        && call == None && shown == Some(Notice(JStr(GenerateCheck(latitude, longitude).value), true))
        && summary == old(summary) && cards == old(cards) && chart.live == old(chart.live)
        && chartMessage == old(chartMessage) && chart.current == old(chart.current)
      ensures GenerateCheck(latitude, longitude).None? ==>
        call == Some(ApiClient.Call(RegionalEndpoint(latitude, longitude), "GET", ApiClient.Data(JNull), true))
      ensures GenerateCheck(latitude, longitude).None? && reply.Loaded? && reply.regionalData == [] ==>
        && chartMessage == Or(reply.message, JStr("No active disease outbreaks found within 5km."))
        && chart.live == [] && summary == None && cards == [] && shown == old(shown)
      ensures GenerateCheck(latitude, longitude).None? && reply.Loaded? && reply.regionalData != [] ==>
        && chart.current == Some(RegionalChart(reply.regionalData)) && chart.live == [chart.current.value]
        && summary.Some? && summary.value.total == Total(reply.regionalData)
        && |summary.value.rows| == |reply.regionalData|
        && (forall i | 0 <= i < |reply.regionalData| ::
              summary.value.rows[i] == RowOf(Ranking.SortDesc(reply.regionalData, Count)[i]))
        && |cards| == |reply.topTreatments|
        && (forall i | 0 <= i < |reply.topTreatments| :: cards[i] == CardOf(i, reply.topTreatments[i]))
        && shown == Some(Notice(JStr("Regional disease risk assessment loaded successfully."), false))
      ensures GenerateCheck(latitude, longitude).None? && reply.LoadFailed? ==>
        && chartMessage == JStr("Failed to load regional data: " + reply.error)
        && shown == Some(Notice(JStr(ApiClient.FailureText(reply.error, "Failed to load regional data.")), true))
        && chart.live == [] && summary == None && cards == []
    {
      var failure := GenerateCheck(latitude, longitude);
      if failure.Some? {
        shown := Some(Notice(JStr(failure.value), true));
        return None;
      }
      chartMessage := JStr("Fetching data from surrounding 5km...");
      summary := None;
      cards := [];
      call := Some(ApiClient.Call(RegionalEndpoint(latitude, longitude), "GET", ApiClient.Data(JNull), true));
      match reply {
        case Loaded(data, top, message) =>
          if |data| == 0 {
            chartMessage := Or(message, JStr("No active disease outbreaks found within 5km."));
            chart.DestroyIfAny();
            return;
          }
          chartMessage := JStr("");
          chart.Replace(RegionalChart(data));
          RenderSummaryTable(data);
          RenderTopTreatments(top);
          shown := Some(Notice(JStr("Regional disease risk assessment loaded successfully."), false));
        case LoadFailed(message) =>
          chartMessage := JStr("Failed to load regional data: " + message);
          shown := Some(Notice(JStr(ApiClient.FailureText(message, "Failed to load regional data.")), true));
          chart.DestroyIfAny();
      }
    }
  }

  /** The TOTAL row equals the sum of the counts in the rows above it. */
  lemma {:induction false} TotalRowAddsUp(data: seq<(string, real)>)
    ensures var sorted := Ranking.SortDesc(data, Count);
      RowsTotal(seq(|sorted|, i requires 0 <= i < |sorted| => RowOf(sorted[i]))) == Total(data)
  {
    var sorted := Ranking.SortDesc(data, Count);
    Ranking.SortDescCorrect(data, Count);
    TotalPermutation(sorted, data);
    RowsTotalOf(sorted);
  }

  lemma {:induction false} RowsTotalOf(entries: seq<(string, real)>)
    ensures RowsTotal(seq(|entries|, i requires 0 <= i < |entries| => RowOf(entries[i]))) == Total(entries)
    decreases |entries|
  {
    if entries != [] {
      var rows := seq(|entries|, i requires 0 <= i < |entries| => RowOf(entries[i]));
      var tail := entries[1..];
      assert rows[1..] == seq(|tail|, i requires 0 <= i < |tail| => RowOf(tail[i]));
      RowsTotalOf(tail);
    }
  }
}
