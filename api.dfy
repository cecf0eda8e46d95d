/**
 * The JSON response builders: the list envelope of `api_response` with its
 * defaults, and the success and error shortcuts. They build the Python value
 * handed to the serialiser; serialising it is not modelled.
 */
module Api {
  import opened Common
  import opened PyValues

  /** `api_response(data, total_count, limit, offset, next_url, previous_url)`. */
  function ApiResponse(
    data: Value,
    totalCount: Value := PNone,
    limit: Value := PNone,
    offset: Value := PInt(0),
    nextUrl: Value := PNone,
    previousUrl: Value := PNone): (r: Value)
    ensures !data.PList? ==> r == data
    ensures data.PList? ==>
              var total := if totalCount == PNone then PInt(|data.elems|) else totalCount;
              && r.PDict? && r.entries.Keys == {"success", "result"}
              && At(r, ["success"]) == Some(PBool(true))
              && At(r, ["result", "objects"]) == Some(data)
              && At(r, ["result", "meta", "total_count"]) == Some(total)
              && At(r, ["result", "meta", "limit"]) == Some(if limit == PNone then total else limit)
              && At(r, ["result", "meta", "offset"]) == Some(offset)
              && At(r, ["result", "meta", "next"]) == Some(nextUrl)
              && At(r, ["result", "meta", "previous"]) == Some(previousUrl)
              && r.entries["result"].PDict? && r.entries["result"].entries.Keys == {"meta", "objects"}
              && r.entries["result"].entries["meta"].PDict?
              && r.entries["result"].entries["meta"].entries.Keys
                   == {"limit", "next", "offset", "previous", "total_count"}
  {
    if data.PList? then
      var totalCount' := if totalCount == PNone then PInt(|data.elems|) else totalCount;
      var limit' := if limit == PNone then totalCount' else limit;
      PDict(map[
        "success" := PBool(true),
        "result" := PDict(map[
          "meta" := PDict(map[
            "limit" := limit',
            "next" := nextUrl,
            "offset" := offset,
            "previous" := previousUrl,
            "total_count" := totalCount']),
          "objects" := data])])
    else
      data
  }

  /** The objects of a list envelope, or `None` for anything else. */
  function EnvelopeObjects(r: Value): Option<seq<Value>> {
    match At(r, ["result", "objects"])
    case Some(PList(xs)) => if At(r, ["result", "meta"]).Some? then Some(xs) else None
    case _ => None
  }

  /** The envelope gives back the list it wraps. */
  lemma EnvelopeRoundTrip(xs: seq<Value>, totalCount: Value, limit: Value, offset: Value, nextUrl: Value, previousUrl: Value)
    ensures EnvelopeObjects(ApiResponse(PList(xs), totalCount, limit, offset, nextUrl, previousUrl)) == Some(xs)
  {
  }

  /** With every default, the meta block counts the list, offset 0, no links. */
  lemma EnvelopeDefaults(xs: seq<Value>)
    ensures At(ApiResponse(PList(xs)), ["result", "meta"]) == Some(PDict(map[
              "limit" := PInt(|xs|), "next" := PNone, "offset" := PInt(0),
              "previous" := PNone, "total_count" := PInt(|xs|)]))
  {
  }

  /** The dict both shortcuts build: `success`, `result` (`{}` for `None`), and `message` when one is given. */
  function Body(success: bool, data: Value, message: Option<string>): (r: Value)
    ensures r.PDict?
    ensures r.entries.Keys == {"success", "result"} + (if message.Some? then {"message"} else {})
    ensures At(r, ["success"]) == Some(PBool(success))
    ensures At(r, ["result"]) == Some(if data == PNone then PDict(map[]) else data)
    ensures message.Some? ==> At(r, ["message"]) == Some(PStr(message.value))
  {
    var response := map["success" := PBool(success), "result" := if data != PNone then data else PDict(map[])];
    if message.Some? then PDict(response["message" := PStr(message.value)]) else PDict(response)
  }

  /** `api_response_success(data, message)`: the success dict itself, never an envelope. */
  function ApiResponseSuccess(data: Value := PNone, message: Option<string> := None): (r: Value)
    ensures r == Body(true, data, message)
  {
    ApiResponse(Body(true, data, message))
  }

  /** `api_response_error(data, message)`: the error dict itself, never an envelope. */
  function ApiResponseError(data: Value := PNone, message: Option<string> := None): (r: Value)
    ensures r == Body(false, data, message)
  {
    ApiResponse(Body(false, data, message))
  }
}
