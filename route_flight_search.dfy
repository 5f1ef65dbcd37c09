/** `POST /api/flight/search`: required fields, defaults, and the response envelope. */
module FlightSearchRoute {
  import opened Wrappers
  import opened Js
  import opened Llm
  import opened Http
  import opened Flight

  datatype FlightBody = FlightBody(route: Option<string>, timing: Option<string>, timeOfDay: Option<string>,
                                   userLocation: Option<string>, ageGroup: Option<string>)

  const MissingFields := "必要な情報が不足しています"
  const SearchFailed := "航空券情報の取得に失敗しました。もう一度お試しください。"
  const UnknownLocation := "不明"
  const DefaultAgeGroup := "80代"

  /** The request forwarded to the library, or None when route, timing or time of day is falsy. */
  function FlightRequestOf(body: FlightBody): (r: Option<FlightRequest>)
    ensures r.Some? <==> Truthy(body.route) && Truthy(body.timing) && Truthy(body.timeOfDay)
    ensures r.Some? ==> r.value.route == body.route.value
    ensures r.Some? ==> r.value.timing == body.timing.value && r.value.timeOfDay == body.timeOfDay.value
    ensures r.Some? && Truthy(body.userLocation) ==> r.value.userLocation == body.userLocation.value
    ensures r.Some? && !Truthy(body.userLocation) ==> r.value.userLocation == UnknownLocation
    ensures r.Some? && Truthy(body.ageGroup) ==> r.value.ageGroup == body.ageGroup.value
    ensures r.Some? && !Truthy(body.ageGroup) ==> r.value.ageGroup == DefaultAgeGroup
  {
    if !Truthy(body.route) || !Truthy(body.timing) || !Truthy(body.timeOfDay) then None
    else Some(FlightRequest(body.route.value, body.timing.value, body.timeOfDay.value,
                            Or(body.userLocation, "不明"), Or(body.ageGroup, "80代")))
  }

  function PostFlightSearch(incoming: Incoming<FlightBody>, model: Prompts -> Result<seq<Block>, JsError>,
                            parse: JsonParser, now: string): (r: Reply<map<string, Json>>)
    ensures incoming.Malformed? ==> r == Reply(500, Failure(SearchFailed))
    ensures incoming.Parsed? && FlightRequestOf(incoming.body).None? ==> r == Reply(400, ErrorOnly(MissingFields))
    ensures incoming.Parsed? && FlightRequestOf(incoming.body).Some? ==>
      var result := SearchFlightInfo(FlightRequestOf(incoming.body).value, model, parse, now);
      && (result.Ok? ==> r == Reply(200, Success(result.value)))
      && (result.Err? ==> r == Reply(500, Failure(SearchFailed)))
  {
    match incoming
    case Malformed(_) => Reply(500, Failure(SearchFailed))
    case Parsed(body) =>
      match FlightRequestOf(body)
      case None => Reply(400, ErrorOnly(MissingFields))
      case Some(request) =>
        match SearchFlightInfo(request, model, parse, now)
        case Ok(data) => Reply(200, Success(data))
        case Err(_) => Reply(500, Failure(SearchFailed))
  }

  /** A rejected body never reaches the model. */
  lemma MissingFieldsSkipModel(body: FlightBody, m1: Prompts -> Result<seq<Block>, JsError>,
                               m2: Prompts -> Result<seq<Block>, JsError>, parse: JsonParser, now: string)
    requires !Truthy(body.route) || !Truthy(body.timing) || !Truthy(body.timeOfDay)
    ensures PostFlightSearch(Parsed(body), m1, parse, now) == PostFlightSearch(Parsed(body), m2, parse, now)
    ensures PostFlightSearch(Parsed(body), m1, parse, now).body.ErrorOnly?
  {
  }

  /** The user's route, timing and time of day reach the prompts exactly as sent. */
  lemma FieldsReachPrompts(body: FlightBody)
    requires Truthy(body.route) && Truthy(body.timing) && Truthy(body.timeOfDay)
    ensures Text.Contains(FlightPrompts(FlightRequestOf(body).value).user, body.route.value)
    ensures Text.Contains(FlightPrompts(FlightRequestOf(body).value).user, body.timing.value)
    ensures Text.Contains(FlightPrompts(FlightRequestOf(body).value).user, body.timeOfDay.value)
  {
    Flight.PromptsCarryRequest(FlightRequestOf(body).value);
  }
}
