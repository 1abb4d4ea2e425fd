/**
 * admin_dashboard.js: who may see the admin overview, the four metric
 * cards, the global disease chart with its percentage list, and the list
 * of the first eight users.
 */
module AdminDashboard {
  import opened Wrappers
  import opened JsValue
  import opened Browser
  import ApiClient
  import Session
  import Text
  import RegionalReport

  const AccessDeniedAlert: string := "Access Denied. Admin privileges required."

  /**
   * The page's access decision: None when the page loads, otherwise where
   * the browser is sent. A logged-out user goes to /login; a logged-in one
   * whose payload is not an admin's goes to /dashboard.
   */
  function AccessTarget(loggedIn: bool, payload: Json): (r: Option<string>)
    ensures r == None <==> loggedIn && Session.AdminPayload(payload)
    ensures r == Some("/login") <==> !loggedIn
    ensures r == Some("/dashboard") <==> loggedIn && !Session.AdminPayload(payload)
  {
    if !loggedIn then Some("/login")
    else if Truthy(payload) && Prop(payload, "role") == JStr("admin") then None
    else Some("/dashboard")
  }

  /**
   * The DOMContentLoaded handler: no checkAuthAndRedirect, a direct check
   * instead. Anyone but a logged-in admin gets one alert and one
   * navigation, and nothing is loaded.
   */
  method Start(w: Window, storage: LocalStorage, getterDefined: bool, decode: string -> Option<Json>,
               parseNumber: string -> Option<real>, nowMs: real)
    returns (load: bool)
    modifies w
    ensures var target := AccessTarget(Session.LoggedIn(storage, getterDefined, decode, parseNumber, nowMs),
                                       Session.StoredPayload(storage, decode));
      && (load <==> target == None)
      && (load ==> w.navigations == old(w.navigations) && w.alerts == old(w.alerts))
      && (!load ==>
            && w.alerts == old(w.alerts) + [AccessDeniedAlert]
            && w.navigations == old(w.navigations) + [target.value])
  {
    var isAuthenticated := Session.LoggedIn(storage, getterDefined, decode, parseNumber, nowMs);
    var isAdmin := false;
    if isAuthenticated {
      var payload := Session.StoredPayload(storage, decode);
      if Truthy(payload) && Prop(payload, "role") == JStr("admin") {
        isAdmin := true;
      }
    }
    if !isAdmin {
      w.Alert(AccessDeniedAlert);
      w.Navigate(if isAuthenticated then "/dashboard" else "/login");
      return false;
    }
    load := true;
  }

  /** `${metrics.key || 0}` */
  function MetricText(metrics: Json, key: string, numberText: real -> string): (s: string)
    ensures !Truthy(Prop(metrics, key)) ==> s == "0"
    ensures Truthy(Prop(metrics, key)) ==> s == JsString(Prop(metrics, key), numberText)
  {
    var v := Prop(metrics, key);
    if Truthy(v) then JsString(v, numberText) else "0"
  }

  const MetricKeys: seq<string> := ["total_users", "total_scans", "total_farms", "total_trees"]

  /** The four cards, in the order Total Users, Total Scans, Total Farms, Total Trees; `response.metrics || {}` first. */
  function MetricCards(metrics: Json, numberText: real -> string): (cards: seq<string>)
    ensures |cards| == |MetricKeys|
    ensures forall i | 0 <= i < |MetricKeys| :: cards[i] == MetricText(Or(metrics, JObj([])), MetricKeys[i], numberText)
    ensures forall i | 0 <= i < |MetricKeys| :: !Truthy(Prop(metrics, MetricKeys[i])) ==> cards[i] == "0"
  {
    var m := Or(metrics, JObj([]));
    assert forall k :: Prop(m, k) == Prop(metrics, k);
    seq(|MetricKeys|, i requires 0 <= i < |MetricKeys| => MetricText(m, MetricKeys[i], numberText))
  }

  /** The chart's colour list. */
  const Palette: seq<string> := ["#FF6384", "#36A2EB", "#FFCE56", "#4BC0C0", "#9966FF", "#FF9F40", "#5cb85c", "#c9c9c9"]

  /** `colors.slice(0, labels.length)` */
  function SliceColors(n: nat): (c: seq<string>)
    ensures |c| == if n < |Palette| then n else |Palette|
    ensures forall i | 0 <= i < |c| :: c[i] == Palette[i]
  {
    if n < |Palette| then Palette[..n] else Palette
  }

  /** renderGlobalDiseaseChart's doughnut: one slice per class, coloured from the palette while it lasts. */
  function DistributionChart(distribution: seq<(string, real)>): (c: Chart)
    ensures c.kind == "doughnut"
    ensures |c.labels| == |c.values| == |distribution|
    ensures forall i | 0 <= i < |distribution| ::
      c.labels[i] == JStr(distribution[i].0) && c.values[i] == JNum(distribution[i].1)
    ensures c.colors == SliceColors(|distribution|)
  {
    Chart("doughnut",
          seq(|distribution|, i requires 0 <= i < |distribution| => JStr(distribution[i].0)),
          seq(|distribution|, i requires 0 <= i < |distribution| => JNum(distribution[i].1)),
          SliceColors(|distribution|))
  }

  /** A class's share of all scans, in percent, before toFixed(1). */
  function Percent(count: real, total: real): real
    requires total > 0.0
  {
    count / total * 100.0
  }

  function PercentSum(distribution: seq<(string, real)>, total: real): real
    requires total > 0.0
  {
    if distribution == [] then 0.0 else Percent(distribution[0].1, total) + PercentSum(distribution[1..], total)
  }

  lemma {:induction false} PercentSumScales(distribution: seq<(string, real)>, total: real)
    requires total > 0.0
    ensures PercentSum(distribution, total) == RegionalReport.Total(distribution) / total * 100.0
  {
    if distribution != [] {
      PercentSumScales(distribution[1..], total);
      var c := distribution[0].1;
      var rest := RegionalReport.Total(distribution[1..]);
      assert (c + rest) / total == c / total + rest / total;
    }
  }

  /** The shares in the list add up to 100 percent, before rounding. */
  lemma PercentagesAddUp(distribution: seq<(string, real)>)
    requires RegionalReport.Total(distribution) > 0.0
    ensures PercentSum(distribution, RegionalReport.Total(distribution)) == 100.0
  {
    var total := RegionalReport.Total(distribution);
    PercentSumScales(distribution, total);
    assert total / total == 1.0;
  }

  /** One entry of the percentage list beside the chart: its marker colour cycles through the palette. */
  datatype DistributionItem = DistributionItem(className: string, count: real, percent: real, color: string)

  function ItemOf(distribution: seq<(string, real)>, i: nat): (item: DistributionItem)
    requires i < |distribution| && RegionalReport.Total(distribution) > 0.0
    ensures item.color == Palette[i % |Palette|]
    ensures item.className == distribution[i].0 && item.count == distribution[i].1
    ensures item.percent == Percent(distribution[i].1, RegionalReport.Total(distribution))
  {
    DistributionItem(distribution[i].0, distribution[i].1,
                     Percent(distribution[i].1, RegionalReport.Total(distribution)), Palette[i % |Palette|])
  }

  /** The sum of the percentages shown in the list. */
  function ShownPercentSum(items: seq<DistributionItem>): real {
    if items == [] then 0.0 else items[0].percent + ShownPercentSum(items[1..])
  }

  lemma {:induction false} ShownPercentsFollowShares(items: seq<DistributionItem>, distribution: seq<(string, real)>, total: real)
    requires total > 0.0 && |items| == |distribution|
    requires forall i | 0 <= i < |items| :: items[i].percent == Percent(distribution[i].1, total)
    ensures ShownPercentSum(items) == PercentSum(distribution, total)
    decreases |items|
  {
    if items != [] {
      ShownPercentsFollowShares(items[1..], distribution[1..], total);
    }
  }

  /** The percentages of a rendered list add up to 100, before toFixed(1) rounds them. */
  lemma ListedPercentagesAddUp(distribution: seq<(string, real)>, items: seq<DistributionItem>)
    requires RegionalReport.Total(distribution) > 0.0 && |items| == |distribution|
    requires forall i | 0 <= i < |distribution| :: items[i] == ItemOf(distribution, i)
    ensures ShownPercentSum(items) == 100.0
  {
    ShownPercentsFollowShares(items, distribution, RegionalReport.Total(distribution));
    PercentagesAddUp(distribution);
  }

  /** The first eight markers have their slice's colour; later ones repeat the palette from the start. */
  lemma MarkersMatchSlices(distribution: seq<(string, real)>, i: nat)
    requires i < |distribution| && RegionalReport.Total(distribution) > 0.0
    ensures i < |Palette| ==> ItemOf(distribution, i).color == DistributionChart(distribution).colors[i]
    ensures i >= |Palette| ==>
      i >= |DistributionChart(distribution).colors| && ItemOf(distribution, i).color == ItemOf(distribution, i - |Palette|).color
  {
    assert |Palette| == 8;
    if i < |Palette| {
      assert i % |Palette| == i;
      assert DistributionChart(distribution).colors[i] == SliceColors(|distribution|)[i] == Palette[i];
    } else {
      assert (i - |Palette|) % |Palette| == i % |Palette|;
    }
  }

  /** The metrics reply: `response.metrics` and the entries of `response.disease_distribution || {}`. */
  datatype MetricsReply = MetricsLoaded(metrics: Json, distribution: seq<(string, real)>) | MetricsFailed(error: string)

  /** The metrics grid: not filled yet, the four cards, or the failure text. */
  datatype Grid = GridPending | Cards(values: seq<string>) | GridFailed

  /** A list on the page: its entries, or one line of text in their place. */
  datatype ListView<T> = Items(items: seq<T>) | Line(text: string)

  /** One line of the user list. */
  datatype UserRow = UserRow(username: string, email: string, role: string, roleColor: string)

  const NoChartText: string := "No disease data available for charting."
  const NoDistributionText: string := "No scan data available for distribution."
  const ChartErrorText: string := "Error loading chart data."
  const LoadingUsersText: string := "Loading users..."
  const UsersFailedText: string := "Failed to load user list."
  const ListedUsers: nat := 8

  /** Whether a user's line can be built: reading from null or undefined, or upper-casing a role that is not a string, throws. */
  predicate Listable(user: Json) {
    !(user.JNull? || user.JUndefined?) && Prop(user, "role").JStr?
  }

  /** The line of a user whose line can be built: the role upper-cased, red for exactly 'admin' and green otherwise. */
  function LineOf(user: Json, numberText: real -> string): (line: UserRow)
    requires Listable(user)
    ensures line.role == Text.Upper(Prop(user, "role").s)
    ensures line.roleColor == "red" <==> Prop(user, "role") == JStr("admin")
    ensures line.roleColor == "red" || line.roleColor == "green"
  {
    var role := Prop(user, "role").s;
    UserRow(JsString(Prop(user, "username"), numberText), JsString(Prop(user, "email"), numberText),
            Text.Upper(role), if role == "admin" then "red" else "green")
  }

  /** Only the lower-case role is coloured as an admin, though "Admin" is shown as ADMIN too. */
  lemma RoleColourIsCaseSensitive(numberText: real -> string)
    ensures LineOf(JObj([("role", JStr("admin"))]), numberText).roleColor == "red"
    ensures LineOf(JObj([("role", JStr("Admin"))]), numberText).role == "ADMIN"
    ensures LineOf(JObj([("role", JStr("Admin"))]), numberText).roleColor == "green"
  {
    assert JObj([("role", JStr("Admin"))]).entries[0].0 == "role";
    assert JObj([("role", JStr("admin"))]).entries[0].0 == "role";
    assert Text.Upper("Admin") == "ADMIN";
  }

  /** Whether every user in the first eight has a line. */
  predicate ListedRowsBuild(users: seq<Json>) {
    forall i | 0 <= i < |users| && i < ListedUsers :: Listable(users[i])
  }

  class AdminDashboardPage {
    const chart: ChartSlot
    var grid: Grid
    var chartPanel: Panel
    var distributionList: ListView<DistributionItem>
    var usersList: ListView<UserRow>
    /** The "View All Users (n)" link's count, when the link is shown. */
    var viewAll: Option<nat>

    constructor()
      ensures fresh(chart) && chart.Valid() && chart.current == None
      ensures grid == GridPending && chartPanel == Canvas && distributionList == Items([])
      ensures usersList == Items([]) && viewAll == None
    {
      chart := new ChartSlot();
      grid := GridPending;
      chartPanel := Canvas;
      distributionList := Items([]);
      usersList := Items([]);
      viewAll := None;
    }

    /** The percentage list of renderGlobalDiseaseChart: one line per class when there were scans at all. */
    method RenderDistributionList(distribution: seq<(string, real)>)
      modifies this
      ensures RegionalReport.Total(distribution) > 0.0 ==>
        && distributionList.Items? && |distributionList.items| == |distribution|
        && (forall i | 0 <= i < |distribution| :: distributionList.items[i] == ItemOf(distribution, i))
        && ShownPercentSum(distributionList.items) == 100.0
      ensures RegionalReport.Total(distribution) <= 0.0 ==> distributionList == Line(NoDistributionText)
      ensures grid == old(grid) && chartPanel == old(chartPanel)
      ensures usersList == old(usersList) && viewAll == old(viewAll)
    {
      var totalScans := RegionalReport.Total(distribution);
      if totalScans <= 0.0 {
        distributionList := Line(NoDistributionText);
        return;
      }
      var items: seq<DistributionItem> := [];
      for i := 0 to |distribution|
        invariant |items| == i
        invariant forall j | 0 <= j < i :: items[j] == ItemOf(distribution, j)
      {
        items := items + [ItemOf(distribution, i)];
      }
      ListedPercentagesAddUp(distribution, items);
      distributionList := Items(items);
    }

    /**
     * loadAdminMetrics with how the GET settled. The chart is drawn only
     * for a non-empty distribution, and then replaces the previous one.
     * Once a placeholder has taken the canvas's place, drawing returns
     * early, and the paths that look the canvas up again throw from inside
     * the catch block (`uncaught`), after the grid and list were updated.
     */
    method LoadMetrics(reply: MetricsReply, numberText: real -> string) returns (call: ApiClient.Call, uncaught: bool)
      requires chart.Valid()
      modifies this, chart
      ensures chart.Valid()
      ensures call == ApiClient.Call("/api/admin/metrics", "GET", ApiClient.Data(JNull), true)
      ensures uncaught <==> old(chartPanel) != Canvas && !(reply.MetricsLoaded? && reply.distribution != [])
      ensures reply.MetricsLoaded? && !uncaught ==> grid == Cards(MetricCards(reply.metrics, numberText))
      ensures reply.MetricsLoaded? && reply.distribution != [] && old(chartPanel) == Canvas ==>
        && chart.current == Some(DistributionChart(reply.distribution)) && chart.live == [chart.current.value]
        && chartPanel == Canvas
        && (RegionalReport.Total(reply.distribution) > 0.0 ==>
              && distributionList.Items? && |distributionList.items| == |reply.distribution|
              && forall i | 0 <= i < |reply.distribution| ::
                   distributionList.items[i] == ItemOf(reply.distribution, i))
        && (RegionalReport.Total(reply.distribution) <= 0.0 ==> distributionList == Line(NoDistributionText))
      ensures reply.MetricsLoaded? && reply.distribution != [] && old(chartPanel) != Canvas ==>
        chartPanel == old(chartPanel) && distributionList == old(distributionList)
      ensures reply.MetricsLoaded? && reply.distribution == [] && old(chartPanel) == Canvas ==>
        chartPanel == Placeholder(NoChartText) && distributionList == Line(NoDistributionText)
      ensures reply.MetricsFailed? && old(chartPanel) == Canvas ==>
        && grid == GridFailed && chartPanel == Placeholder(ChartErrorText) && distributionList == Line(ChartErrorText)
      ensures uncaught ==>
        grid == GridFailed && chartPanel == old(chartPanel) && distributionList == Line(ChartErrorText)
      ensures !(reply.MetricsLoaded? && reply.distribution != [] && old(chartPanel) == Canvas) ==>
        chart.current == old(chart.current) && chart.live == old(chart.live)
      ensures usersList == old(usersList) && viewAll == old(viewAll)
    {
      call := ApiClient.Call("/api/admin/metrics", "GET", ApiClient.Data(JNull), true);
      uncaught := false;
      var failed := reply.MetricsFailed?;
      if reply.MetricsLoaded? {
        grid := Cards(MetricCards(reply.metrics, numberText));
        if |reply.distribution| > 0 {
          if chartPanel == Canvas {
            chart.Replace(DistributionChart(reply.distribution));
            RenderDistributionList(reply.distribution);
          }
        } else if chartPanel == Canvas {
          chartPanel := Placeholder(NoChartText);
          distributionList := Line(NoDistributionText);
        } else {
          // Reading parentElement of the missing canvas throws into the catch block.
          failed := true;
        }
      }
      if failed {
        grid := GridFailed;
        distributionList := Line(ChartErrorText);
        if chartPanel == Canvas {
          chartPanel := Placeholder(ChartErrorText);
        } else {
          uncaught := true;
        }
      }
    }

    /**
     * loadAdminUsers with how the GET settled: the first eight users in
     * the order received, and the link to the full list only when there
     * are more. Any throw on the way, including one on a single user,
     * leaves only the failure line.
     */
    method LoadUsers(reply: ApiClient.Outcome, numberText: real -> string) returns (call: ApiClient.Call)
      modifies this
      ensures call == ApiClient.Call("/api/admin/users", "GET", ApiClient.Data(JNull), true)
      ensures reply.Returned? && reply.data.JArr? && ListedRowsBuild(reply.data.items) ==>
        var users := reply.data.items;
        && usersList.Items?
        && |usersList.items| == (if |users| < ListedUsers then |users| else ListedUsers)
        && (forall i | 0 <= i < |usersList.items| :: usersList.items[i] == LineOf(users[i], numberText))
        && (viewAll.Some? <==> |users| > ListedUsers)
        && (viewAll.Some? ==> viewAll.value == |users|)
      ensures !(reply.Returned? && reply.data.JArr? && ListedRowsBuild(reply.data.items)) ==>
        usersList == Line(UsersFailedText) && viewAll == None
      ensures grid == old(grid) && chartPanel == old(chartPanel) && distributionList == old(distributionList)
    {
      usersList := Line(LoadingUsersText);
      viewAll := None;
      call := ApiClient.Call("/api/admin/users", "GET", ApiClient.Data(JNull), true);
      if !(reply.Returned? && reply.data.JArr?) {
        usersList := Line(UsersFailedText);
        return;
      }
      var users := reply.data.items;
      var rows := ListedRows(users, numberText);
      if rows.None? {
        usersList := Line(UsersFailedText);
        return;
      }
      usersList := Items(rows.value);
      if |users| > ListedUsers {
        viewAll := Some(|users|);
      }
    }
  }

  /**
   * The lines of `users.slice(0, 8).forEach(...)`, in order, or None when
   * one of them throws.
   */
  method ListedRows(users: seq<Json>, numberText: real -> string) returns (rows: Option<seq<UserRow>>)
    ensures rows.Some? <==> ListedRowsBuild(users)
    ensures rows.Some? ==>
      && |rows.value| == (if |users| < ListedUsers then |users| else ListedUsers)
      && forall i | 0 <= i < |rows.value| :: Listable(users[i]) && rows.value[i] == LineOf(users[i], numberText)
  {
    var n := if |users| < ListedUsers then |users| else ListedUsers;
    var lines: seq<UserRow> := [];
    for i := 0 to n
      invariant |lines| == i
      invariant forall j | 0 <= j < i :: Listable(users[j]) && lines[j] == LineOf(users[j], numberText)
    {
      if !Listable(users[i]) {
        return None;
      }
      lines := lines + [LineOf(users[i], numberText)];
    }
    rows := Some(lines);
  }
}
