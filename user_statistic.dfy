/**
 * user_statistic.js (the later definitions, from StatsAPI on): the
 * statistics query string, the empty state, and the two chart variables
 * that are destroyed and replaced on every load.
 *
 * As written, the empty and the error branches overwrite the canvases'
 * parent elements, so the canvases are gone for every later load of the
 * page. LoadAsWritten and RunAsWritten model that; StatisticsPage models
 * the page with the canvases kept and a placeholder shown in their place.
 */
module UserStatistic {
  import opened Wrappers
  import opened JsValue
  import opened Browser
  import ApiClient

  const StatisticsBase: string := "/api/user/statistics"

  /** URLSearchParams.toString() of name/value pairs; `encode` is its form encoding of one value. */
  function FormQuery(params: seq<(string, string)>, encode: string -> string): (q: string)
    ensures q == "" <==> params == []
    ensures |params| == 1 ==> q == params[0].0 + "=" + encode(params[0].1)
  {
    if |params| == 0 then ""
    else
      var first := params[0].0 + "=" + encode(params[0].1);
      if |params| == 1 then first else first + "&" + FormQuery(params[1..], encode)
  }

  /**
   * StatsAPI.getStatistics' endpoint: start_date then end_date, each only
   * when its field is non-empty, and no '?' when neither is.
   */
  function StatisticsEndpoint(startDate: string, endDate: string, encode: string -> string): (r: string)
    ensures startDate == "" && endDate == "" ==> r == StatisticsBase
    ensures startDate != "" && endDate == "" ==> r == StatisticsBase + "?start_date=" + encode(startDate)
    ensures startDate == "" && endDate != "" ==> r == StatisticsBase + "?end_date=" + encode(endDate)
    ensures startDate != "" && endDate != "" ==>
      r == StatisticsBase + "?start_date=" + encode(startDate) + "&end_date=" + encode(endDate)
  {
    var params := (if startDate != "" then [("start_date", startDate)] else [])
                + (if endDate != "" then [("end_date", endDate)] else []);
    var query := FormQuery(params, encode);
    assert startDate != "" && endDate != "" ==> params[1..] == [("end_date", endDate)];
    if query != "" then StatisticsBase + "?" + query else StatisticsBase
  }

  /** The statistics as the page reads them, or the message apiCall threw. */
  datatype StatsReply =
    | Stats(totalScans: Json, message: Json, distribution: seq<(string, Json)>, treeCounts: seq<Json>)
    | StatsFailed(error: string)

  const HealthyColor: string := "#5cb85c"
  const DiseasedColor: string := "#f0ad4e"
  const TreeBarColor: string := "#337ab7"

  /** Empty state: `data.total_scans === 0`, a strict comparison. */
  predicate EmptyPeriod(reply: StatsReply) {
    reply.Stats? && reply.totalScans == JNum(0.0)
  }

  /** renderDiseaseChart: one slice per class in the object's order, green for 'Healthy' and orange for the rest. */
  function DiseaseChart(distribution: seq<(string, Json)>): (c: Chart)
    ensures c.kind == "pie"
    ensures |c.labels| == |c.values| == |c.colors| == |distribution|
    ensures forall i | 0 <= i < |distribution| ::
      && c.labels[i] == JStr(distribution[i].0) && c.values[i] == distribution[i].1
      && (c.colors[i] == HealthyColor <==> distribution[i].0 == "Healthy")
      && (c.colors[i] == HealthyColor || c.colors[i] == DiseasedColor)
  {
    Chart("pie",
          seq(|distribution|, i requires 0 <= i < |distribution| => JStr(distribution[i].0)),
          seq(|distribution|, i requires 0 <= i < |distribution| => distribution[i].1),
          seq(|distribution|, i requires 0 <= i < |distribution| =>
                if distribution[i].0 == "Healthy" then HealthyColor else DiseasedColor))
  }

  /** renderTreeScanChart: one bar per entry in the server's order, labelled by tree_name and sized by count. */
  function TreeChart(treeCounts: seq<Json>): (c: Chart)
    ensures c.kind == "bar" && c.colors == [TreeBarColor]
    ensures |c.labels| == |c.values| == |treeCounts|
    ensures forall i | 0 <= i < |treeCounts| ::
      c.labels[i] == Prop(treeCounts[i], "tree_name") && c.values[i] == Prop(treeCounts[i], "count")
  {
    Chart("bar",
          seq(|treeCounts|, i requires 0 <= i < |treeCounts| => Prop(treeCounts[i], "tree_name")),
          seq(|treeCounts|, i requires 0 <= i < |treeCounts| => Prop(treeCounts[i], "count")),
          [TreeBarColor])
  }

  const LoadingMessage: string := "Loading statistics..."
  const NoDataMessage: string := "Statistics loaded (No data)."
  const LoadedMessage: string := "Statistics loaded successfully."
  const FailedMessage: string := "Failed to load statistics data."

  /** The TypeError a property read on the null that getElementById returns for a missing element throws. */
  function NullRead(property: string): string {
    "Cannot read properties of null (reading '" + property + "')"
  }

  /** One loadStatistics run as written: whether the canvases still exist after it, the charts it created, its last message, and whether its catch block threw. */
  datatype AsWrittenRun = AsWrittenRun(canvases: bool, charts: Option<(Chart, Chart)>, shown: Notice, uncaught: bool)

  /**
   * loadStatistics as written, given whether the canvases exist. The empty
   * and the error branch replace the canvases' parents' HTML, which removes
   * the canvases. Without them, the first getElementById(...).parentElement
   * or .getContext throws, the catch block shows that error and then throws
   * on the same missing canvas.
   */
  function LoadAsWritten(canvases: bool, reply: StatsReply): (r: AsWrittenRun)
    ensures canvases && reply.Stats? && !EmptyPeriod(reply) ==>
      r == AsWrittenRun(true, Some((DiseaseChart(reply.distribution), TreeChart(reply.treeCounts))),
                        Notice(JStr(LoadedMessage), false), false)
    ensures canvases && EmptyPeriod(reply) ==>
      r == AsWrittenRun(false, None, Notice(Or(reply.message, JStr(NoDataMessage)), false), false)
    ensures canvases && reply.StatsFailed? ==>
      r == AsWrittenRun(false, None, Notice(JStr(ApiClient.FailureText(reply.error, FailedMessage)), true), false)
    ensures !canvases ==> !r.canvases && r.charts == None && r.shown.isError && r.uncaught
  {
    if canvases then
      match reply
      case Stats(totalScans, message, distribution, treeCounts) =>
        if totalScans == JNum(0.0) then AsWrittenRun(false, None, Notice(Or(message, JStr(NoDataMessage)), false), false)
        else AsWrittenRun(true, Some((DiseaseChart(distribution), TreeChart(treeCounts))),
                          Notice(JStr(LoadedMessage), false), false)
      case StatsFailed(error) =>
        AsWrittenRun(false, None, Notice(JStr(ApiClient.FailureText(error, FailedMessage)), true), false)
    else
      var thrown := match reply
        case Stats(totalScans, _, _, _) =>
          if totalScans == JNum(0.0) then NullRead("parentElement") else NullRead("getContext")
        case StatsFailed(error) => error;
      AsWrittenRun(false, None, Notice(JStr(ApiClient.FailureText(thrown, FailedMessage)), true), true)
  }

  /** Successive loads of one page as written (the Apply button), starting with canvases present or not. */
  function RunAsWritten(canvases: bool, replies: seq<StatsReply>): (runs: seq<AsWrittenRun>)
    ensures |runs| == |replies|
  {
    if replies == [] then []
    else
      var first := LoadAsWritten(canvases, replies[0]);
      [first] + RunAsWritten(first.canvases, replies[1..])
  }

  /**
   * As written, once a period without scans or a failed request has been
   * shown, no later load draws a chart, whatever it receives, and every
   * later load ends with an uncaught error.
   */
  lemma {:induction false} ChartsNeverReturn(first: StatsReply, later: seq<StatsReply>)
    requires EmptyPeriod(first) || first.StatsFailed?
    ensures forall i | 1 <= i <= |later| ::
      RunAsWritten(true, [first] + later)[i].charts == None && RunAsWritten(true, [first] + later)[i].uncaught
  {
    var replies := [first] + later;
    assert replies[1..] == later;
    var head := LoadAsWritten(true, first);
    assert !head.canvases;
    LaterRunsFail(later);
    var rest := RunAsWritten(false, later);
    assert RunAsWritten(true, replies) == [head] + rest;
    var runs := RunAsWritten(true, replies);
    forall i | 1 <= i < |runs|
      ensures runs[i].charts == None && runs[i].uncaught
    {
      assert runs[i] == rest[i - 1];
    }
  }

  lemma {:induction false} LaterRunsFail(replies: seq<StatsReply>)
    ensures forall i | 0 <= i < |replies| ::
      RunAsWritten(false, replies)[i].charts == None && RunAsWritten(false, replies)[i].uncaught
  {
    if replies != [] {
      var first := LoadAsWritten(false, replies[0]);
      var rest := RunAsWritten(false, replies[1..]);
      LaterRunsFail(replies[1..]);
      assert RunAsWritten(false, replies) == [first] + rest;
      var runs := RunAsWritten(false, replies);
      forall i | 0 <= i < |runs|
        ensures runs[i].charts == None && runs[i].uncaught
      {
        if i > 0 {
          assert runs[i] == rest[i - 1];
        }
      }
    }
  }

  /** A concrete instance: an empty first period, then a period with one Healthy scan. */
  lemma EmptyThenDataShowsNoChart()
    ensures var runs := RunAsWritten(true, [Stats(JNum(0.0), JUndefined, [], []),
                                            Stats(JNum(1.0), JUndefined, [("Healthy", JNum(1.0))], [])]);
      && runs[0].shown == Notice(JStr(NoDataMessage), false)
      && runs[1].charts == None
      && runs[1].shown == Notice(JStr(NullRead("getContext")), true)
  {
    var replies := [Stats(JNum(0.0), JUndefined, [], []), Stats(JNum(1.0), JUndefined, [("Healthy", JNum(1.0))], [])];
    assert replies[1..][1..] == [];
  }

  const NoScanText: string := "No scan data for this period."
  const NoTreeText: string := "No tree data for this period."
  const ErrorText: string := "Error loading data."

  /**
   * The statistics page with the canvases kept: the empty and the error
   * branches show their text in each chart's container instead of the
   * chart, and a later load with data shows the charts again.
   */
  class StatisticsPage {
    const diseaseChart: ChartSlot
    const treeChart: ChartSlot
    var diseasePanel: Panel
    var treePanel: Panel
    var shown: Option<Notice>

    constructor()
      ensures fresh(diseaseChart) && fresh(treeChart) && diseaseChart != treeChart
      ensures diseaseChart.Valid() && diseaseChart.current == None
      ensures treeChart.Valid() && treeChart.current == None
      ensures diseasePanel == Canvas && treePanel == Canvas && shown == None
    {
      diseaseChart := new ChartSlot();
      treeChart := new ChartSlot();
      diseasePanel := Canvas;
      treePanel := Canvas;
      shown := None;
    }

    /**
     * loadStatistics with the dates in the filter fields; `reply` is how
     * the GET settled. An empty period and a failure leave the chart
     * variables as they were.
     */
    method Load(startDate: string, endDate: string, encode: string -> string, reply: StatsReply)
      returns (call: ApiClient.Call)
      requires diseaseChart.Valid() && treeChart.Valid() && diseaseChart != treeChart
      modifies this, diseaseChart, treeChart
      ensures diseaseChart.Valid() && treeChart.Valid()
      ensures call == ApiClient.Call(StatisticsEndpoint(startDate, endDate, encode), "GET", ApiClient.Data(JNull), true)
      ensures reply.Stats? && !EmptyPeriod(reply) ==>
        && diseaseChart.current == Some(DiseaseChart(reply.distribution))
        && diseaseChart.live == [diseaseChart.current.value]
        && treeChart.current == Some(TreeChart(reply.treeCounts))
        && treeChart.live == [treeChart.current.value]
        && diseasePanel == Canvas && treePanel == Canvas
        && shown == Some(Notice(JStr(LoadedMessage), false))
      ensures EmptyPeriod(reply) ==>
        && diseasePanel == Placeholder(NoScanText) && treePanel == Placeholder(NoTreeText)
        && shown == Some(Notice(Or(reply.message, JStr(NoDataMessage)), false))
      ensures reply.StatsFailed? ==>
        && diseasePanel == Placeholder(ErrorText) && treePanel == Placeholder(ErrorText)
        && shown == Some(Notice(JStr(ApiClient.FailureText(reply.error, FailedMessage)), true))
      ensures EmptyPeriod(reply) || reply.StatsFailed? ==>
        && diseaseChart.current == old(diseaseChart.current) && diseaseChart.live == old(diseaseChart.live)
        && treeChart.current == old(treeChart.current) && treeChart.live == old(treeChart.live)
    {
      shown := Some(Notice(JStr(LoadingMessage), false));
      call := ApiClient.Call(StatisticsEndpoint(startDate, endDate, encode), "GET", ApiClient.Data(JNull), true);
      match reply {
        case Stats(totalScans, message, distribution, treeCounts) =>
          if totalScans == JNum(0.0) {
            diseasePanel := Placeholder(NoScanText);
            treePanel := Placeholder(NoTreeText);
            shown := Some(Notice(Or(message, JStr(NoDataMessage)), false));
            return;
          }
          diseasePanel := Canvas;
          diseaseChart.Replace(DiseaseChart(distribution));
          treePanel := Canvas;
          treeChart.Replace(TreeChart(treeCounts));
          shown := Some(Notice(JStr(LoadedMessage), false));
        case StatsFailed(error) =>
          shown := Some(Notice(JStr(ApiClient.FailureText(error, FailedMessage)), true));
          diseasePanel := Placeholder(ErrorText);
          treePanel := Placeholder(ErrorText);
      }
    }
  }
}
