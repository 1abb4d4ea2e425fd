/**
 * The admin blueprint's decisions: the admin gate layered on the token
 * wrapper, the feedback status whitelist, the disease update's required
 * fields, and the rewriting of each feedback's submitted_at.
 */
module AdminRoutes {
  import opened Wrappers
  import opened PyValue
  import opened Http
  import Text
  import Ordered
  import UserRoutes

  const AdminOnly: string := "Authorization failed: Admin access required"

  /** The looked-up user exists and its role is 'admin'. */
  predicate IsAdmin(user: Option<seq<(string, Value)>>) {
    user.Some? && Get(user.value, "role") == Str("admin")
  }

  /** decorated_admin: `not user or user.get('role') != 'admin'` answers 403 without running the view. */
  function AdminGate(user: Option<seq<(string, Value)>>, userId: int, view: int -> Reply): (r: Reply)
    ensures !IsAdmin(user) ==> r == Json(403, AdminOnly)
    ensures IsAdmin(user) ==> r == view(userId)
  {
    if user.None? || user.value == [] || Get(user.value, "role") != Str("admin") then Json(403, AdminOnly)
    else view(userId)
  }

  /** admin_required: the token wrapper first, then the role lookup of the token's user. */
  function AdminRequired(jwt: UserRoutes.JwtCheck, findUser: int -> Option<seq<(string, Value)>>, view: int -> Reply): Reply {
    UserRoutes.TokenRequired(jwt, id => AdminGate(findUser(id), id, view))
  }

  /**
   * The view runs only for an accepted token with an integer identity whose
   * user is an admin; a rejected token gets the extension's reply, and every
   * other request ends in 401 or 403.
   */
  lemma AdminRequiredOutcomes(jwt: UserRoutes.JwtCheck, findUser: int -> Option<seq<(string, Value)>>, view: int -> Reply)
    ensures var r := AdminRequired(jwt, findUser, view);
      && (jwt.JwtRejected? ==> r == jwt.reply)
      && (jwt.JwtAccepted? ==>
            var id := UserRoutes.PyInt(jwt.identity);
            && (id.None? ==> r == Json(401, UserRoutes.InvalidIdentity))
            && (id.Some? && !IsAdmin(findUser(id.value)) ==> r == Json(403, AdminOnly))
            && (id.Some? && IsAdmin(findUser(id.value)) ==> r == view(id.value)))
  {
  }

  // ---------------------------------------------------------------- feedback status

  const FeedbackStatuses: seq<string> := ["new", "in_review", "resolved"]

  /** The text of the success message. */
  function StatusUpdatedMessage(feedbackId: nat, status: string): string {
    "Feedback " + Text.NatToString(feedbackId) + " status updated to " + status
  }

  /** The message reads back the id and the status it was built from. */
  lemma StatusUpdatedMessageNames(feedbackId: nat, status: string)
    ensures var m := StatusUpdatedMessage(feedbackId, status);
      var digits := m[|"Feedback "|..|"Feedback "| + |Text.NatToString(feedbackId)|];
      && Text.StartsWith(m, "Feedback ")
      && Text.DigitsValue(digits) == feedbackId
      && m[|m| - |status|..] == status
  {
    var m := StatusUpdatedMessage(feedbackId, status);
    var digits := Text.NatToString(feedbackId);
    assert m[|"Feedback "|..|"Feedback "| + |digits|] == digits;
    Text.NatToStringValue(feedbackId);
  }

  /**
   * update_feedback_status_route: a status outside the whitelist is 400 and
   * no update is attempted; otherwise the model's answer picks 200 or 500.
   */
  function UpdateFeedbackStatus(feedbackId: nat, json: Value, update: (nat, string) -> bool): (r: Reply)
    ensures !json.Dict? ==> r == Crash
    ensures json.Dict? ==>
      (r == Json(400, "Invalid status value")
       <==> !(Get(json.entries, "status").Str? && Get(json.entries, "status").s in FeedbackStatuses))
    ensures Code(r) == 200 ==>
      && json.Dict? && Get(json.entries, "status").Str?
      && var status := Get(json.entries, "status").s;
      && status in FeedbackStatuses && update(feedbackId, status)
      && r == Json(200, StatusUpdatedMessage(feedbackId, status))
    ensures json.Dict? && Get(json.entries, "status").Str? && Get(json.entries, "status").s in FeedbackStatuses
            && update(feedbackId, Get(json.entries, "status").s) ==>
      r == Json(200, StatusUpdatedMessage(feedbackId, Get(json.entries, "status").s))
    ensures json.Dict? && Get(json.entries, "status").Str? && Get(json.entries, "status").s in FeedbackStatuses
            && !update(feedbackId, Get(json.entries, "status").s) ==>
      r == Json(500, "Failed to update feedback status")
  {
    match BodyDict(json)
    case None => Crash
    case Some(data) =>
      var newStatus := Get(data, "status");
      if !(newStatus.Str? && newStatus.s in FeedbackStatuses) then Json(400, "Invalid status value")
      else if update(feedbackId, newStatus.s) then Json(200, StatusUpdatedMessage(feedbackId, newStatus.s))
      else Json(500, "Failed to update feedback status")
  }

  // ---------------------------------------------------------------- disease update

  /**
   * update_disease_route: all three texts must be truthy before the update is
   * attempted; the model's answer then picks 200 or 500.
   */
  function UpdateDisease(json: Value, update: (Value, Value, Value) -> bool): (r: Reply)
    ensures !json.Dict? ==> r == Crash
    ensures json.Dict? ==>
      (r == Json(400, "Description, organic treatment, and chemical treatment are required")
       <==> !Truthy(Get(json.entries, "description")) || !Truthy(Get(json.entries, "organic_treatment"))
            || !Truthy(Get(json.entries, "chemical_treatment")))
    ensures Code(r) == 200 <==>
      && json.Dict?
      && Truthy(Get(json.entries, "description")) && Truthy(Get(json.entries, "organic_treatment"))
      && Truthy(Get(json.entries, "chemical_treatment"))
      && update(Get(json.entries, "description"), Get(json.entries, "organic_treatment"),
                Get(json.entries, "chemical_treatment"))
  {
    match BodyDict(json)
    case None => Crash
    case Some(data) =>
      var description := Get(data, "description");
      var organic := Get(data, "organic_treatment");
      var chemical := Get(data, "chemical_treatment");
      if !(Truthy(description) && Truthy(organic) && Truthy(chemical)) then
        Json(400, "Description, organic treatment, and chemical treatment are required")
      else if update(description, organic, chemical) then Json(200, "Disease information updated successfully")
      else Json(500, "Failed to update disease information or disease not found")
  }

  // ---------------------------------------------------------------- submitted_at

  /** isoformat().split('.')[0] */
  function TruncateIso(iso: string): (r: string)
    ensures '.' !in r
    ensures Text.StartsWith(iso, r)
    ensures '.' !in iso ==> r == iso
    ensures '.' in iso ==> iso[|r|] == '.'
  {
    Text.Split(iso, '.')[0]
  }

  /**
   * One feedback after the loop body: a truthy submitted_at that is a date
   * becomes its truncated ISO text; a truthy value of another kind has no
   * isoformat() and raises (None).
   */
  function FormatFeedback(feedback: seq<(string, Value)>): (r: Option<seq<(string, Value)>>)
    ensures !Truthy(Get(feedback, "submitted_at")) ==> r == Some(feedback)
    ensures r.None? <==> Truthy(Get(feedback, "submitted_at"))
                         && !(Get(feedback, "submitted_at").DateTime? || Get(feedback, "submitted_at").Date?)
    ensures r.Some? && Truthy(Get(feedback, "submitted_at")) ==>
      && Ordered.Keys(r.value) == Ordered.Keys(feedback)
      && Get(r.value, "submitted_at") == Str(TruncateIso(Get(feedback, "submitted_at").iso))
      && '.' !in Get(r.value, "submitted_at").s
      && forall k | k != "submitted_at" :: Ordered.Get(r.value, k) == Ordered.Get(feedback, k)
  {
    var submitted := Get(feedback, "submitted_at");
    if !Truthy(submitted) then Some(feedback)
    else if submitted.DateTime? || submitted.Date? then
      Some(Ordered.Put(feedback, "submitted_at", Str(TruncateIso(submitted.iso))))
    else None
  }

  /**
   * The loop of get_all_feedbacks_route, rewriting each dict in place.
   * `failedAt` is the index whose rewrite raised (the view then answers 500);
   * the dicts before it are rewritten and the rest untouched.
   */
  method FormatFeedbacks(feedbacks: array<seq<(string, Value)>>) returns (failedAt: Option<nat>)
    modifies feedbacks
    ensures failedAt.None? ==>
      forall i | 0 <= i < feedbacks.Length ::
        FormatFeedback(old(feedbacks[i])).Some? && feedbacks[i] == FormatFeedback(old(feedbacks[i])).value
    ensures failedAt.Some? ==>
      && failedAt.value < feedbacks.Length
      && FormatFeedback(old(feedbacks[failedAt.value])).None?
      && (forall i | 0 <= i < failedAt.value ::
            FormatFeedback(old(feedbacks[i])).Some? && feedbacks[i] == FormatFeedback(old(feedbacks[i])).value)
      && (forall i | failedAt.value <= i < feedbacks.Length :: feedbacks[i] == old(feedbacks[i]))
  {
    for i := 0 to feedbacks.Length
      invariant forall j | 0 <= j < i ::
        FormatFeedback(old(feedbacks[j])).Some? && feedbacks[j] == FormatFeedback(old(feedbacks[j])).value
      invariant forall j | i <= j < feedbacks.Length :: feedbacks[j] == old(feedbacks[j])
    {
      var formatted := FormatFeedback(feedbacks[i]);
      if formatted.None? {
        return Some(i);
      }
      feedbacks[i] := formatted.value;
    }
    return None;
  }
}
