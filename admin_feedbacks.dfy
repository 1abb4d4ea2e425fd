/**
 * admin_feedbacks.js: the page's admin gate, the rows of the feedback
 * table (subject snippet, status badge class, which status options are
 * disabled) and the status select's value across a change.
 */
module AdminFeedbacks {
  import opened Wrappers
  import opened JsValue
  import opened Browser
  import ApiClient
  import Session
  import Text

  const SnippetLength: nat := 50

  /** A subject over 50 characters is cut to its first 50 and marked with "...". */
  function SubjectSnippet(subject: string): (r: string)
    ensures |subject| <= SnippetLength ==> r == subject
    ensures |subject| > SnippetLength ==>
      |r| == SnippetLength + 3 && r[..SnippetLength] == subject[..SnippetLength] && r[SnippetLength..] == "..."
    ensures |r| <= SnippetLength + 3 && Text.StartsWith(r, Text.Take(subject, SnippetLength))
  {
    if |subject| > SnippetLength then subject[..SnippetLength] + "..." else subject
  }

  /** `status.replace('_', '-')`: only the first underscore becomes a hyphen. */
  function StatusClass(status: string): (r: string)
    ensures |r| == |status|
    ensures '_' !in status ==> r == status
    ensures '_' in status ==>
      var k := Text.IndexOf(status, '_').value;
      && r[k] == '-' && '_' !in r[..k]
      && forall i | 0 <= i < |status| && i != k :: r[i] == status[i]
  {
    assert '_' in status ==> '_' !in status[..Text.IndexOf(status, '_').value];
    Text.ReplaceFirst(status, '_', '-')
  }

  /** A status with two underscores keeps the second one. */
  lemma SecondUnderscoreKept(a: string, b: string, c: string)
    requires '_' !in a
    ensures StatusClass(a + "_" + b + "_" + c) == a + "-" + b + "_" + c
  {
    var s := a + "_" + b + "_" + c;
    assert s == a + ['_'] + (b + "_" + c);
    Text.IndexOfAfter(a, '_', b + "_" + c);
    var r := StatusClass(s);
    assert r == s[..|a|] + ['-'] + s[|a| + 1..];
    assert s[..|a|] == a;
    assert s[|a| + 1..] == b + "_" + c;
  }

  /** The values of the three status options, in the order they are listed. */
  const StatusOptions: seq<string> := ["new", "in_review", "resolved"]

  /** Which status options are disabled: the one equal to the row's status, compared strictly. */
  function DisabledOptions(status: Json): (d: seq<bool>)
    ensures |d| == |StatusOptions|
    ensures forall i | 0 <= i < |StatusOptions| :: d[i] <==> status == JStr(StatusOptions[i])
  {
    seq(|StatusOptions|, i requires 0 <= i < |StatusOptions| => status == JStr(StatusOptions[i]))
  }

  /** Exactly one option is disabled when the status is one of them, and none otherwise. */
  lemma OneOptionDisabled(status: Json)
    ensures forall i, j | 0 <= i < j < |StatusOptions| :: !(DisabledOptions(status)[i] && DisabledOptions(status)[j])
    ensures (exists i | 0 <= i < |StatusOptions| :: DisabledOptions(status)[i])
            <==> status.JStr? && status.s in StatusOptions
  {
    var d := DisabledOptions(status);
    if status.JStr? && status.s in StatusOptions {
      var i :| 0 <= i < |StatusOptions| && StatusOptions[i] == status.s;
      assert d[i];
    }
  }

  /** A feedback as the table reads it. */
  datatype Feedback = Feedback(feedbackId: Json, subject: string, status: string)

  /** What one table row shows. */
  datatype Row = Row(feedbackId: Json, snippet: string, statusClass: string, disabled: seq<bool>)

  function RowOf(f: Feedback): Row {
    Row(f.feedbackId, SubjectSnippet(f.subject), StatusClass(f.status), DisabledOptions(JStr(f.status)))
  }

  /** The table body. */
  class FeedbackTable {
    var rows: seq<Row>
    var emptyNotice: bool

    constructor()
      ensures rows == [] && !emptyNotice
    {
      rows := [];
      emptyNotice := false;
    }

    /**
     * loadFeedbacks once the list has arrived: the empty notice for no
     * feedback, otherwise renderFeedbacks' one row per feedback in order.
     */
    method Show(feedbacks: seq<Feedback>)
      modifies this
      ensures emptyNotice <==> feedbacks == []
      ensures |rows| == |feedbacks|
      ensures forall i | 0 <= i < |feedbacks| :: rows[i] == RowOf(feedbacks[i])
    {
      rows := [];
      if |feedbacks| == 0 {
        emptyNotice := true;
        return;
      }
      emptyNotice := false;
      for i := 0 to |feedbacks|
        invariant !emptyNotice
        invariant |rows| == i
        invariant forall j | 0 <= j < i :: rows[j] == RowOf(feedbacks[j])
      {
        rows := rows + [RowOf(feedbacks[i])];
      }
    }
  }

  /** One row's status select, with its data-id and data-current-status attributes. */
  class StatusSelect {
    const feedbackId: string
    const currentStatus: string
    var value: string
    var reloads: nat
    var notice: Option<Notice>

    constructor(feedbackId: string, currentStatus: string)
      ensures this.feedbackId == feedbackId && this.currentStatus == currentStatus
      ensures value == "" && reloads == 0 && notice == None
    {
      this.feedbackId := feedbackId;
      this.currentStatus := currentStatus;
      value := "";
      reloads := 0;
      notice := None;
    }

    /**
     * handleStatusUpdate. `confirmed` is the answer to confirm(), `reply`
     * how the PUT settled. An empty choice does nothing; a cancelled one
     * resets the select to '' without a request; a failed request puts the
     * row's original status back; a successful one reloads the table.
     */
    method HandleStatusUpdate(confirmed: bool, reply: ApiClient.Outcome) returns (call: Option<ApiClient.Call>)
      modifies this
      ensures old(value) == "" ==>
        call == None && value == "" && reloads == old(reloads) && notice == old(notice)
      ensures old(value) != "" && !confirmed ==>
        call == None && value == "" && reloads == old(reloads) && notice == old(notice)
      ensures old(value) != "" && confirmed ==>
        call == Some(ApiClient.Call("/api/admin/feedbacks/" + feedbackId, "PUT",
                                    ApiClient.Data(Single("status", JStr(old(value)))), true))
      ensures old(value) != "" && confirmed && reply.Returned? ==>
        && value == old(value) && reloads == old(reloads) + 1
        && notice == Some(Notice(Prop(reply.data, "message"), false))
      ensures old(value) != "" && confirmed && reply.Threw? ==>
        && value == currentStatus && reloads == old(reloads)
        && notice == Some(Notice(JStr(ApiClient.FailureText(reply.message,
                                        "Failed to update status for ID " + feedbackId + ".")), true))
    {
      var newStatus := value;
      if newStatus == "" {
        return None;
      }
      if !confirmed {
        value := "";
        return None;
      }
      call := Some(ApiClient.Call("/api/admin/feedbacks/" + feedbackId, "PUT",
                                  ApiClient.Data(Single("status", JStr(newStatus))), true));
      match reply {
        case Returned(response) =>
          notice := Some(Notice(Prop(response, "message"), false));
          reloads := reloads + 1;
        case Threw(message) =>
          notice := Some(Notice(JStr(ApiClient.FailureText(message,
                                       "Failed to update status for ID " + feedbackId + ".")), true));
          value := currentStatus;
      }
    }
  }

  const DeniedAlert: string := "Access Denied. Redirecting to user dashboard."

  /**
   * The page's start: checkAuthAndRedirect(true), then the feedback list
   * loads only for a logged-in user whose payload says 'admin'; anyone
   * else gets an alert and is sent to /dashboard, which is then the last
   * navigation.
   */
  method Gate(w: Window, storage: LocalStorage, getterDefined: bool, decode: string -> Option<Json>,
              parseNumber: string -> Option<real>, nowMs: real)
    returns (load: bool)
    modifies w
    ensures var loggedIn := Session.LoggedIn(storage, getterDefined, decode, parseNumber, nowMs);
      load <==> loggedIn && Session.AdminPayload(Session.StoredPayload(storage, decode))
    ensures load ==> w.navigations == old(w.navigations) && w.alerts == old(w.alerts)
    ensures !load ==>
      && w.alerts == old(w.alerts) + [DeniedAlert]
      && w.navigations == old(w.navigations)
         + Session.Visits(Session.AuthRedirect(Session.LoggedIn(storage, getterDefined, decode, parseNumber, nowMs),
                                               true, false, old(w.pathname)))
         + ["/dashboard"]
  {
    Session.CheckAuthAndRedirect(w, storage, getterDefined, decode, parseNumber, nowMs, true, false);
    var loggedIn := Session.LoggedIn(storage, getterDefined, decode, parseNumber, nowMs);
    if loggedIn && Prop(Session.StoredPayload(storage, decode), "role") == JStr("admin") {
      load := true;
    } else {
      w.Alert(DeniedAlert);
      w.Navigate("/dashboard");
      load := false;
    }
  }
}
