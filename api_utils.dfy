/**
 * The response helpers shared by every Flask view: the recursive conversion
 * of dates to ISO text, and the {status, message, data} envelope.
 */
module ApiUtils {
  import opened PyValue
  import Ordered

  /** No datetime or date remains anywhere inside the value. */
  predicate DateFree(v: Value)
    decreases v
  {
    match v
    case DateTime(_) => false
    case Date(_) => false
    case List(items) => forall i | 0 <= i < |items| :: DateFree(items[i])
    case Dict(entries) => forall i | 0 <= i < |entries| :: DateFree(entries[i].1)
    case _ => true
  }

  /**
   * format_date_to_iso: dates become their isoformat() text, dicts keep their
   * keys and lists their length and order with every member converted, and
   * every other value comes back as it is.
   */
  function FormatDateToIso(v: Value): (r: Value)
    ensures DateFree(r)
    ensures v.DateTime? || v.Date? ==> r == Str(v.iso)
    ensures v.List? ==> r.List? && |r.items| == |v.items|
    ensures v.List? ==> forall i | 0 <= i < |v.items| :: r.items[i] == FormatDateToIso(v.items[i])
    ensures v.Dict? ==> r.Dict? && Ordered.Keys(r.entries) == Ordered.Keys(v.entries)
    ensures v.Dict? ==> forall i | 0 <= i < |v.entries| :: r.entries[i].1 == FormatDateToIso(v.entries[i].1)
    ensures !(v.DateTime? || v.Date? || v.List? || v.Dict?) ==> r == v
    decreases v
  {
    match v
    case DateTime(iso) => Str(iso)
    case Date(iso) => Str(iso)
    case List(items) =>
      List(seq(|items|, i requires 0 <= i < |items| => FormatDateToIso(items[i])))
    case Dict(entries) =>
      Dict(seq(|entries|, i requires 0 <= i < |entries| =>
        (entries[i].0, FormatDateToIso(entries[i].1))))
    case _ => v
  }

  /** A value without dates is left exactly as it is. */
  lemma {:induction false} DateFreeUnchanged(v: Value)
    requires DateFree(v)
    ensures FormatDateToIso(v) == v
    decreases v
  {
    match v
    case List(items) =>
      forall i | 0 <= i < |items| ensures FormatDateToIso(items[i]) == items[i] {
        DateFreeUnchanged(items[i]);
      }
      assert FormatDateToIso(v).items == items;
    case Dict(entries) =>
      forall i | 0 <= i < |entries| ensures FormatDateToIso(entries[i].1) == entries[i].1 {
        assert entries[i].1 < v;
        DateFreeUnchanged(entries[i].1);
      }
      assert FormatDateToIso(v).entries == entries;
    case _ =>
  }

  /** Converting twice is the same as converting once. */
  lemma FormatIdempotent(v: Value)
    ensures FormatDateToIso(FormatDateToIso(v)) == FormatDateToIso(v)
  {
    DateFreeUnchanged(FormatDateToIso(v));
  }

  /** What json_response hands to Flask: the JSON body and the HTTP status. */
  datatype Response = Response(body: Value, statusCode: int)

  /**
   * json_response: None becomes {}, and the body holds exactly status,
   * message and data, with status equal to the HTTP code returned.
   */
  function JsonResponse(data: Value, message: string, statusCode: int): (r: Response)
    ensures r.statusCode == statusCode
    ensures r.body.Dict? && Ordered.Keys(r.body.entries) == ["status", "message", "data"]
    ensures Ordered.Values(r.body.entries)[0] == Int(statusCode)
    ensures Ordered.Values(r.body.entries)[1] == Str(message)
    ensures data.PyNone? ==> Ordered.Values(r.body.entries)[2] == Dict([])
    ensures !data.PyNone? ==> Ordered.Values(r.body.entries)[2] == FormatDateToIso(data)
    ensures DateFree(Ordered.Values(r.body.entries)[2])
  {
    var payload := if data.PyNone? then Dict([]) else data;
    Response(Dict([("status", Int(statusCode)), ("message", Str(message)),
                   ("data", FormatDateToIso(payload))]), statusCode)
  }
}
