/**
 * The flight search library: two prompts from the request, the model's text
 * blocks joined, and the first-to-last brace span parsed. Unlike the
 * daily-goods search, citation tags are left in the text.
 */
module Flight {
  import opened Wrappers
  import opened Text
  import opened Js
  import opened Templates
  import opened Llm

  datatype FlightRequest = FlightRequest(route: string, timing: string, timeOfDay: string,
                                         userLocation: string, ageGroup: string)

  datatype FlightField = RouteSlot | TimingSlot | TimeOfDaySlot | LocationSlot | AgeSlot

  function FlightValue(request: FlightRequest, f: FlightField): string
  {
    match f
    case RouteSlot => request.route
    case TimingSlot => request.timing
    case TimeOfDaySlot => request.timeOfDay
    case LocationSlot => request.userLocation
    case AgeSlot => request.ageGroup
  }

  function Values(request: FlightRequest): FlightField -> string
  {
    f => FlightValue(request, f)
  }

  /** The travel adviser's rules, naming where the user lives and their age group. */
  const SystemTemplate: Template<FlightField> := [
    Lit("<travel adviser rules 1-4; rule 5: airport access from>"), Slot(LocationSlot),
    Lit("<rule 6: consider people in their>"), Slot(AgeSlot),
    Lit("<required items>")
  ]

  /** The question, the search instruction and the JSON shape to answer in. */
  const UserTemplate: Template<FlightField> := [
    Slot(RouteSlot), Lit("<tickets,>"), Slot(TimingSlot), Lit("<,>"), Slot(TimeOfDaySlot),
    Lit("<departure; search with web_search; answer as JSON: summary, advice>")
  ]

  function FlightPrompts(request: FlightRequest): Prompts
  {
    Prompts(Render(SystemTemplate, Values(request)), Render(UserTemplate, Values(request)))
  }

  /**
   * `searchFlightInfo`: the model's error is rethrown unchanged; otherwise the
   * joined text, citation tags included, goes to the brace-span extraction.
   */
  function SearchFlightInfo(request: FlightRequest, model: Prompts -> Result<seq<Block>, JsError>,
                            parse: JsonParser, now: string): (r: Result<map<string, Json>, JsError>)
    ensures model(FlightPrompts(request)).Err? ==> r == Err(model(FlightPrompts(request)).error)
    ensures model(FlightPrompts(request)).Ok? ==>
      r == ExtractJson(ReplyText(model(FlightPrompts(request)).value), parse, now)
    ensures r.Ok? ==> GeneratedAtKey in r.value && r.value[GeneratedAtKey] == JStr(now)
  {
    var blocks :- model(FlightPrompts(request));
    ExtractJson(ReplyText(blocks), parse, now)
  }

  /** Each of the five request fields is written verbatim into one of the prompts. */
  lemma PromptsCarryRequest(request: FlightRequest)
    ensures Contains(FlightPrompts(request).system, request.userLocation)
    ensures Contains(FlightPrompts(request).system, request.ageGroup)
    ensures Contains(FlightPrompts(request).user, request.route)
    ensures Contains(FlightPrompts(request).user, request.timing)
    ensures Contains(FlightPrompts(request).user, request.timeOfDay)
  {
    var value := Values(request);
    assert SystemTemplate[1] == Slot(LocationSlot) && SystemTemplate[3] == Slot(AgeSlot);
    assert UserTemplate[0] == Slot(RouteSlot) && UserTemplate[2] == Slot(TimingSlot);
    assert UserTemplate[4] == Slot(TimeOfDaySlot);
    assert value(LocationSlot) == request.userLocation && value(AgeSlot) == request.ageGroup;
    assert value(RouteSlot) == request.route && value(TimingSlot) == request.timing;
    assert value(TimeOfDaySlot) == request.timeOfDay;
    RenderContainsSlot(SystemTemplate, value, LocationSlot);
    RenderContainsSlot(SystemTemplate, value, AgeSlot);
    RenderContainsSlot(UserTemplate, value, RouteSlot);
    RenderContainsSlot(UserTemplate, value, TimingSlot);
    RenderContainsSlot(UserTemplate, value, TimeOfDaySlot);
  }

  /** The user prompt depends on the route, timing and time of day only. */
  lemma UserPromptIgnoresProfile(a: FlightRequest, b: FlightRequest)
    requires a.route == b.route && a.timing == b.timing && a.timeOfDay == b.timeOfDay
    ensures FlightPrompts(a).user == FlightPrompts(b).user
  {
    forall f | Slot(f) in UserTemplate ensures Values(a)(f) == Values(b)(f) {
      assert f != LocationSlot && f != AgeSlot;
    }
    RenderDeterminedBySlots(UserTemplate, Values(a), Values(b));
  }

  /** A reply without any text block ends in the parse-failure error. */
  lemma ReplyWithoutTextFails(request: FlightRequest, model: Prompts -> Result<seq<Block>, JsError>,
                              parse: JsonParser, now: string)
    requires model(FlightPrompts(request)).Ok?
    requires forall i :: 0 <= i < |model(FlightPrompts(request)).value| ==>
      model(FlightPrompts(request)).value[i].kind != "text"
    ensures SearchFlightInfo(request, model, parse, now) == Err(JsError(NoJsonMessage))
  {
    ReplyTextWithoutTextBlocks(model(FlightPrompts(request)).value);
  }
}
