/** The homework API as the bot sees it: the classification of the HTTP
    status code in `get_api_answer`, and the shape check of the decoded
    answer in `check_response`. */
module Api {
  import opened Outcomes
  import opened Json
  import opened Errors

  /** HTTP status codes: 200 OK, 400 Bad Request and 401 Unauthorized
      (sections 15.3.1, 15.5.1 and 15.5.2 of RFC 9110). */
  const Ok200: int := 200
  const BadRequest400: int := 400
  const Unauthorized401: int := 401

  /** What the GET request to the endpoint produced: it raised before any
      answer arrived, or an answer came with a status code and a JSON body. */
  datatype FetchOutcome =
    | Unreachable
    | Answered(statusCode: int, body: Json)

  /** The failure `get_api_answer` raises for a status code, or None when
      the code lets the decoded body through. 400 is checked first, then
      401, then everything else but 200. */
  function StatusCodeError(code: int): (r: Option<Error>)
    ensures r.None? <==> code == Ok200
    ensures code == BadRequest400 ==> r == Some(BadFromDate)
    ensures code == Unauthorized401 ==> r == Some(BadToken)
    ensures code != Ok200 && code != BadRequest400 && code != Unauthorized401 ==>
              r == Some(UnexpectedStatus(code))
  {
    if code == BadRequest400 then Some(BadFromDate)
    else if code == Unauthorized401 then Some(BadToken)
    else if code != Ok200 then Some(UnexpectedStatus(code))
    else None
  }

  /** `get_api_answer(timestamp)` once the request has produced `outcome`:
      only a 200 answer yields its decoded body. */
  function GetApiAnswer(outcome: FetchOutcome): (r: Result<Json, Error>)
    ensures r.Ok? <==> outcome.Answered? && outcome.statusCode == Ok200
    ensures r.Ok? ==> r.value == outcome.body
    ensures outcome.Unreachable? ==> r == Err(EndpointUnreachable)
    ensures outcome.Answered? && outcome.statusCode != Ok200 ==>
              Some(r.error) == StatusCodeError(outcome.statusCode)
  {
    match outcome
    case Unreachable => Err(EndpointUnreachable)
    case Answered(code, body) =>
      match StatusCodeError(code)
      case Some(e) => Err(e)
      case None => Ok(body)
  }

  /** An answer with the documented shape: an object holding a `homeworks`
      list and a `current_date` of any type. */
  predicate WellFormed(response: Json)
  {
    && response.JObject?
    && "homeworks" in response.fields
    && response.fields["homeworks"].JArray?
    && "current_date" in response.fields
  }

  /** `check_response(response)`: the latest homework, None when the list is
      empty, or the first shape check that fails. */
  function CheckResponse(response: Json): (r: Result<Option<Json>, Error>)
    ensures r.Ok? <==> WellFormed(response)
    ensures !response.JObject? ==> r == Err(ResponseNotDict(TypeOf(response)))
    ensures response.JObject? && "homeworks" !in response.fields ==> r == Err(HomeworksMissing)
    ensures response.JObject? && "homeworks" in response.fields && !response.fields["homeworks"].JArray? ==>
              r == Err(HomeworksNotList(TypeOf(response.fields["homeworks"])))
    ensures (response.JObject? && "homeworks" in response.fields && response.fields["homeworks"].JArray? &&
             "current_date" !in response.fields) ==> r == Err(CurrentDateMissing)
    ensures r.Ok? ==> var hs := response.fields["homeworks"].items;
              r.value == if hs == [] then None else Some(hs[0])
  {
    if !response.JObject? then Err(ResponseNotDict(TypeOf(response)))
    else if "homeworks" !in response.fields then Err(HomeworksMissing)
    else
      var homeworks := response.fields["homeworks"];
      if !homeworks.JArray? then Err(HomeworksNotList(TypeOf(homeworks)))
      else if "current_date" !in response.fields then Err(CurrentDateMissing)
      else if |homeworks.items| == 0 then Ok(None)
      else Ok(Some(homeworks.items[0]))
  }

  /** The type of `current_date` is never checked: replacing its value by
      any other leaves the verdict of `check_response` unchanged. */
  lemma CurrentDateTypeUnchecked(fields: map<string, Json>, v: Json)
    requires "current_date" in fields
    ensures CheckResponse(JObject(fields)) == CheckResponse(JObject(fields["current_date" := v]))
  {
  }

  /** Only the head of the list matters: homeworks after the first are
      ignored. */
  lemma LaterHomeworksIgnored(fields: map<string, Json>, head: Json, rest: seq<Json>)
    ensures CheckResponse(JObject(fields["homeworks" := JArray([head] + rest)]))
         == CheckResponse(JObject(fields["homeworks" := JArray([head])]))
  {
  }
}
