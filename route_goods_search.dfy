/** `POST /api/daily-goods/search`: required fields, defaults, and the response envelope. */
module GoodsSearchRoute {
  import opened Wrappers
  import opened Js
  import opened Llm
  import opened Http
  import opened DailyGoodsTypes
  import opened DailyGoods

  /** The fields of the JSON body the handler destructures, plus the transport a client may send. */
  datatype GoodsBody = GoodsBody(product: Option<string>, priority: Option<string>,
                                 userLocation: Option<string>, ageGroup: Option<string>,
                                 transport: Option<string>)

  const MissingFields := "必要な情報が不足しています"
  const SearchFailed := "商品情報の取得に失敗しました。もう一度お試しください。"
  const UnknownLocation := "不明"
  const DefaultAgeGroup := "80代"

  /**
   * The request forwarded to the library, or None when product or priority is
   * falsy. Product and priority are not checked against the enumerations, and
   * the transport is not forwarded.
   */
  function GoodsRequestOf(body: GoodsBody): (r: Option<GoodsRequest>)
    ensures r.Some? <==> Truthy(body.product) && Truthy(body.priority)
    ensures r.Some? ==> r.value.product == body.product.value && r.value.priority == body.priority.value
    ensures r.Some? && Truthy(body.userLocation) ==> r.value.userLocation == body.userLocation.value
    ensures r.Some? && !Truthy(body.userLocation) ==> r.value.userLocation == UnknownLocation
    ensures r.Some? && Truthy(body.ageGroup) ==> r.value.ageGroup == body.ageGroup.value
    ensures r.Some? && !Truthy(body.ageGroup) ==> r.value.ageGroup == DefaultAgeGroup
  {
    if !Truthy(body.product) || !Truthy(body.priority) then None
    else Some(GoodsRequest(body.product.value, body.priority.value,
                           Or(body.userLocation, "不明"), Or(body.ageGroup, "80代")))
  }

  /**
   * The handler: 400 with `{error}` alone when a field is missing; otherwise
   * the search result in a success envelope, and every failure (an unreadable
   * body, the model, the parse) as 500 with a fixed message.
   */
  function PostGoodsSearch(incoming: Incoming<GoodsBody>, model: Prompts -> Result<seq<Block>, JsError>,
                           parse: JsonParser, now: string): (r: Reply<map<string, Json>>)
    ensures incoming.Malformed? ==> r == Reply(500, Failure(SearchFailed))
    ensures incoming.Parsed? && GoodsRequestOf(incoming.body).None? ==> r == Reply(400, ErrorOnly(MissingFields))
    ensures incoming.Parsed? && GoodsRequestOf(incoming.body).Some? ==>
      var result := SearchDailyGoods(GoodsRequestOf(incoming.body).value, model, parse, now);
      && (result.Ok? ==> r == Reply(200, Success(result.value)))
      && (result.Err? ==> r == Reply(500, Failure(SearchFailed)))
  {
    if incoming.Malformed? then Reply(500, Failure(SearchFailed))
    else Respond(GoodsRequestOf(incoming.body), model, parse, now)
  }

  /** The reply to a readable body, from the request it yields. */
  function Respond(request: Option<GoodsRequest>, model: Prompts -> Result<seq<Block>, JsError>,
                   parse: JsonParser, now: string): (r: Reply<map<string, Json>>)
    ensures request.None? ==> r == Reply(400, ErrorOnly(MissingFields))
    ensures request.Some? && SearchDailyGoods(request.value, model, parse, now).Ok? ==>
      r == Reply(200, Success(SearchDailyGoods(request.value, model, parse, now).value))
    ensures request.Some? && SearchDailyGoods(request.value, model, parse, now).Err? ==>
      r == Reply(500, Failure(SearchFailed))
  {
    if request.None? then Reply(400, ErrorOnly(MissingFields))
    else
      var result := SearchDailyGoods(request.value, model, parse, now);
      if result.Ok? then Reply(200, Success(result.value)) else Reply(500, Failure(SearchFailed))
  }

  /** The body's transport never changes the reply. */
  lemma TransportIsIgnored(body: GoodsBody, transport: Option<string>,
                           model: Prompts -> Result<seq<Block>, JsError>, parse: JsonParser, now: string)
    ensures PostGoodsSearch(Parsed(body.(transport := transport)), model, parse, now)
         == PostGoodsSearch(Parsed(body), model, parse, now)
  {
    assert GoodsRequestOf(body.(transport := transport)) == GoodsRequestOf(body);
  }

  /** A rejected body never reaches the model: the reply is the same whatever the model would say. */
  lemma MissingFieldsSkipModel(body: GoodsBody, m1: Prompts -> Result<seq<Block>, JsError>,
                               m2: Prompts -> Result<seq<Block>, JsError>, parse: JsonParser, now: string)
    requires !Truthy(body.product) || !Truthy(body.priority)
    ensures PostGoodsSearch(Parsed(body), m1, parse, now) == PostGoodsSearch(Parsed(body), m2, parse, now)
    ensures PostGoodsSearch(Parsed(body), m1, parse, now).body.ErrorOnly?
  {
  }

  /** The underlying error never reaches the client: two different failures give the same reply. */
  lemma FailureHidesCause(body: GoodsBody, m1: Prompts -> Result<seq<Block>, JsError>,
                          m2: Prompts -> Result<seq<Block>, JsError>, parse: JsonParser, now: string)
    requires GoodsRequestOf(body).Some?
    requires m1(GoodsPrompts(GoodsRequestOf(body).value)).Err?
    requires m2(GoodsPrompts(GoodsRequestOf(body).value)).Err?
    ensures PostGoodsSearch(Parsed(body), m1, parse, now) == PostGoodsSearch(Parsed(body), m2, parse, now)
  {
  }

  /**
   * A body naming any listed product and priority, with no location or age
   * group, searches for them as an unknown location's 80s user, whatever
   * transport it names.
   */
  lemma ListedPicksWithDefaults(product: Product, priority: Priority, transport: Option<string>)
    ensures GoodsRequestOf(GoodsBody(Some(product.Label()), Some(priority.Label()), None, None, transport))
         == Some(GoodsRequest(product.Label(), priority.Label(), "不明", "80代"))
  {
    match product {
      case ToiletPaper =>
      case TissuePaper =>
      case KitchenPaper =>
      case LaundryDetergent =>
      case DishDetergent =>
      case CleaningDetergent =>
      case Sponge =>
      case Rice =>
      case WaterAndTea =>
      case CannedFood =>
      case Seasoning =>
      case Batteries =>
      case LightBulbs =>
      case TrashBags =>
      case WrapAndFoil =>
    }
    match priority {
      case Cheapest =>
      case UsualStore =>
      case NearbyStore =>
      case WellReviewed =>
    }
  }

  /**
   * Any non-empty product and priority are accepted as they are, listed or
   * not, and a non-empty location and age group pass through.
   */
  lemma AnyProductAccepted(product: string, priority: string, location: string, ageGroup: string)
    requires product != "" && priority != "" && location != "" && ageGroup != ""
    ensures GoodsRequestOf(GoodsBody(Some(product), Some(priority), Some(location), Some(ageGroup), None))
         == Some(GoodsRequest(product, priority, location, ageGroup))
  {
  }

  /** Example: a cake, which is not one of the listed products, is accepted. */
  lemma UnlistedProductAccepted()
    ensures GoodsRequestOf(GoodsBody(Some("ケーキ"), Some("x"), Some(""), Some("70代"), None))
         == Some(GoodsRequest("ケーキ", "x", "不明", "70代"))
    ensures forall p: Product :: p.Label() != "ケーキ"
  {
  }
}
