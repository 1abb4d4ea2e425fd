/** What a Flask view hands back to the client. */
module Http {
  import opened Wrappers
  import opened PyValue

  datatype Reply =
    | Json(status: int, message: string)                 // jsonify({"message": ...}), status
    | Created(message: string, idKey: string, newId: Value)  // jsonify({"message": ..., idKey: newId}), 201
    | Crash                                              // an exception escaped the view, or it returned None

  /** The HTTP status the client sees; Flask answers an escaped exception with 500. */
  function Code(r: Reply): (code: int)
    ensures r.Crash? ==> code == 500
    ensures r.Created? ==> code == 201
  {
    match r
    case Json(status, _) => status
    case Created(_, _, _) => 201
    case Crash => 500
  }

  /** request.get_json() followed by .get: only a JSON object has .get; anything else raises. */
  function BodyDict(json: Value): (body: Option<seq<(string, Value)>>)
    ensures body.Some? <==> json.Dict?
  {
    if json.Dict? then Some(json.entries) else None
  }
}
