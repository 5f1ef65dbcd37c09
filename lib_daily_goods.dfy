/**
 * The daily-goods search library: builds the two prompts from a request,
 * asks the model (with web search), strips the citation tags from its text
 * and parses the first-to-last brace span of what remains.
 */
module DailyGoods {
  import opened Wrappers
  import opened Text
  import opened Js
  import opened Templates
  import opened Llm
  import opened DailyGoodsTypes

  const WalkPhrase := "徒歩で行ける範囲（半径500m以内）"
  const BicyclePhrase := "自転車で行ける範囲（半径2-3km以内）"
  const CarPhrase := "車で行ける範囲（制限なし）"

  /** The distance limit phrase for a means of transport; anything but walking or cycling gets the car's. */
  function DistanceLimit(transport: Option<string>): (r: string)
    ensures r == WalkPhrase <==> transport == Some(Walk.Label())
    ensures r == BicyclePhrase <==> transport == Some(Bicycle.Label())
    ensures r == CarPhrase <==> transport != Some(Walk.Label()) && transport != Some(Bicycle.Label())
  {
    if transport == Some("徒歩") then WalkPhrase
    else if transport == Some("自転車") then BicyclePhrase
    else CarPhrase
  }

  /** `request.transport`: the request type has no such field, so the read is always undefined. */
  const RequestTransport: Option<string> := None

  /** `${x}` of a string or of undefined. */
  function Interpolated(o: Option<string>): string
  {
    match o
    case None => "undefined"
    case Some(s) => s
  }

  /** The values the prompt templates interpolate. */
  datatype GoodsField = LocationSlot | DistanceSlot | AgeSlot | PrioritySlot | TransportSlot | ProductSlot

  function GoodsValue(request: GoodsRequest, f: GoodsField): string
  {
    match f
    case LocationSlot => request.userLocation
    case DistanceSlot => DistanceLimit(RequestTransport)
    case AgeSlot => request.ageGroup
    case PrioritySlot => request.priority
    case TransportSlot => Interpolated(RequestTransport)
    case ProductSlot => request.product
  }

  /** The system prompt: the adviser's rules, with its six interpolations in order. */
  const SystemTemplate: Template<GoodsField> := [
    Lit("<adviser rules 1-3; rule 4: only stores from>"), Slot(LocationSlot),
    Lit("<within>"), Slot(DistanceSlot),
    Lit("<rule 5: consider people in their>"), Slot(AgeSlot),
    Lit("<rule 6: weigh most>"), Slot(PrioritySlot),
    Lit("<rule 7: transport is>"), Slot(TransportSlot),
    Lit("<required items; at most 3 stores, only within>"), Slot(DistanceSlot),
    Lit("<tips; warnings>")
  ]

  /** The user prompt: the request, the search instruction and the JSON shape to answer in. */
  const UserTemplate: Template<GoodsField> := [
    Slot(ProductSlot), Lit("<wanted; priority:>"), Slot(PrioritySlot),
    Lit("<location:>"), Slot(LocationSlot),
    Lit("<transport:>"), Slot(TransportSlot), Lit("<(>"), Slot(DistanceSlot), Lit("<)>"),
    Lit("<search with web_search from>"), Slot(LocationSlot), Lit("<within>"), Slot(DistanceSlot),
    Lit("<important: only stores within>"), Slot(DistanceSlot),
    Lit("<answer as JSON; recommendation, stores, advice.mainAdvice:>"), Slot(LocationSlot),
    Lit("<,>"), Slot(ProductSlot), Lit("<,>"), Slot(TransportSlot), Lit("<,>"), Slot(PrioritySlot),
    Lit("<tips, warnings>")
  ]

  function Values(request: GoodsRequest): GoodsField -> string
  {
    f => GoodsValue(request, f)
  }

  function GoodsPrompts(request: GoodsRequest): Prompts
  {
    Prompts(Render(SystemTemplate, Values(request)), Render(UserTemplate, Values(request)))
  }

  /**
   * `searchDailyGoods`: the model's error is rethrown unchanged; otherwise the
   * reply's text blocks are joined, stripped of citation tags and handed to
   * the brace-span extraction.
   */
  function SearchDailyGoods(request: GoodsRequest, model: Prompts -> Result<seq<Block>, JsError>,
                            parse: JsonParser, now: string): (r: Result<map<string, Json>, JsError>)
    ensures model(GoodsPrompts(request)).Err? ==> r == Err(model(GoodsPrompts(request)).error)
    ensures model(GoodsPrompts(request)).Ok? ==>
      r == ExtractJson(StripCites(ReplyText(model(GoodsPrompts(request)).value)), parse, now)
    ensures r.Ok? ==> GeneratedAtKey in r.value && r.value[GeneratedAtKey] == JStr(now)
  {
    var reply := model(GoodsPrompts(request));
    if reply.Err? then Err(reply.error)
    else ExtractJson(StripCites(ReplyText(reply.value)), parse, now)
  }

  /** Every request field is written verbatim into the system prompt. */
  lemma SystemPromptCarriesRequest(request: GoodsRequest)
    ensures Contains(GoodsPrompts(request).system, request.userLocation)
    ensures Contains(GoodsPrompts(request).system, request.ageGroup)
    ensures Contains(GoodsPrompts(request).system, request.priority)
  {
    SystemSlots();
    var value := Values(request);
    assert value(LocationSlot) == request.userLocation;
    assert value(AgeSlot) == request.ageGroup;
    assert value(PrioritySlot) == request.priority;
    RenderContainsSlot(SystemTemplate, value, LocationSlot);
    RenderContainsSlot(SystemTemplate, value, AgeSlot);
    RenderContainsSlot(SystemTemplate, value, PrioritySlot);
  }

  /** Every request field but the age group is written verbatim into the user prompt. */
  lemma UserPromptCarriesRequest(request: GoodsRequest)
    ensures Contains(GoodsPrompts(request).user, request.product)
    ensures Contains(GoodsPrompts(request).user, request.priority)
    ensures Contains(GoodsPrompts(request).user, request.userLocation)
  {
    UserSlots();
    var value := Values(request);
    assert value(ProductSlot) == request.product;
    assert value(PrioritySlot) == request.priority;
    assert value(LocationSlot) == request.userLocation;
    RenderContainsSlot(UserTemplate, value, ProductSlot);
    RenderContainsSlot(UserTemplate, value, PrioritySlot);
    RenderContainsSlot(UserTemplate, value, LocationSlot);
  }

  /**
   * The transport is never read, so whatever the request, both prompts name
   * the car's unlimited range and the user prompt names the transport "undefined".
   */
  lemma PromptsAssumeCar(request: GoodsRequest)
    ensures Contains(GoodsPrompts(request).system, CarPhrase)
    ensures Contains(GoodsPrompts(request).user, CarPhrase)
    ensures Contains(GoodsPrompts(request).user, "undefined")
  {
    assert GoodsValue(request, DistanceSlot) == CarPhrase;
    assert GoodsValue(request, TransportSlot) == "undefined";
    SystemSlots();
    UserSlots();
    RenderContainsSlot(SystemTemplate, Values(request), DistanceSlot);
    RenderContainsSlot(UserTemplate, Values(request), DistanceSlot);
    RenderContainsSlot(UserTemplate, Values(request), TransportSlot);
  }

  /** The system prompt interpolates every request-derived value. */
  lemma SystemSlots()
    ensures Slot(LocationSlot) in SystemTemplate && Slot(DistanceSlot) in SystemTemplate
    ensures Slot(AgeSlot) in SystemTemplate && Slot(PrioritySlot) in SystemTemplate
    ensures Slot(TransportSlot) in SystemTemplate
  {
    assert SystemTemplate[1] == Slot(LocationSlot) && SystemTemplate[3] == Slot(DistanceSlot);
    assert SystemTemplate[5] == Slot(AgeSlot) && SystemTemplate[7] == Slot(PrioritySlot);
    assert SystemTemplate[9] == Slot(TransportSlot);
  }

  /** The product is not written into the system prompt. */
  lemma SystemOmitsProduct()
    ensures Slot(ProductSlot) !in SystemTemplate
  {
  }

  /** The user prompt interpolates every request-derived value but the age group. */
  lemma UserSlots()
    ensures Slot(LocationSlot) in UserTemplate && Slot(DistanceSlot) in UserTemplate
    ensures Slot(PrioritySlot) in UserTemplate && Slot(ProductSlot) in UserTemplate
    ensures Slot(TransportSlot) in UserTemplate
  {
    assert UserTemplate[0] == Slot(ProductSlot) && UserTemplate[2] == Slot(PrioritySlot);
    assert UserTemplate[4] == Slot(LocationSlot) && UserTemplate[6] == Slot(TransportSlot);
    assert UserTemplate[8] == Slot(DistanceSlot);
  }

  /** The age group is not written into the user prompt. */
  lemma UserOmitsAge()
    ensures Slot(AgeSlot) !in UserTemplate
  {
  }

  /** A reply without any text block (only tool use) ends in the parse-failure error. */
  lemma ReplyWithoutTextFails(request: GoodsRequest, model: Prompts -> Result<seq<Block>, JsError>,
                              parse: JsonParser, now: string)
    requires model(GoodsPrompts(request)).Ok?
    requires forall i :: 0 <= i < |model(GoodsPrompts(request)).value| ==>
      model(GoodsPrompts(request)).value[i].kind != "text"
    ensures SearchDailyGoods(request, model, parse, now) == Err(JsError(NoJsonMessage))
  {
    ReplyTextWithoutTextBlocks(model(GoodsPrompts(request)).value);
    EmptyTextHasNoJson(parse, now);
  }

  /**
   * A reply whose one text block is a cited object hands the parser the bare
   * object, and a parsed object comes back stamped with the time.
   */
  lemma CitedReplyIsUnwrapped(request: GoodsRequest, model: Prompts -> Result<seq<Block>, JsError>,
                              parse: JsonParser, now: string, open: string, obj: string)
    requires MatchesCiteOpen(open, |open|)
    requires forall k :: 0 <= k < |obj| ==> obj[k] != '<'
    requires |obj| >= 2 && obj[0] == '{' && obj[|obj| - 1] == '}'
    requires model(GoodsPrompts(request)) == Ok([Block("text", Some(open + obj + "</cite>"))])
    requires parse(obj).Ok?
    ensures SearchDailyGoods(request, model, parse, now) == Ok(Stamp(parse(obj).value, now))
  {
    CitedBlockExtracts(open, obj, parse, now);
  }
}
