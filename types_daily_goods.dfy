/** The daily-goods vocabulary: products, priorities, means of transport and the search request. */
module DailyGoodsTypes {

  datatype Product =
    | ToiletPaper | TissuePaper | KitchenPaper | LaundryDetergent | DishDetergent
    | CleaningDetergent | Sponge | Rice | WaterAndTea | CannedFood
    | Seasoning | Batteries | LightBulbs | TrashBags | WrapAndFoil
  {
    function Label(): string
    {
      match this
      case ToiletPaper => "トイレットペーパー"
      case TissuePaper => "ティッシュペーパー"
      case KitchenPaper => "キッチンペーパー"
      case LaundryDetergent => "洗濯洗剤"
      case DishDetergent => "食器用洗剤"
      case CleaningDetergent => "掃除用洗剤"
      case Sponge => "スポンジ"
      case Rice => "お米"
      case WaterAndTea => "水・お茶"
      case CannedFood => "缶詰"
      case Seasoning => "調味料"
      case Batteries => "電池"
      case LightBulbs => "電球"
      case TrashBags => "ゴミ袋"
      case WrapAndFoil => "ラップ・アルミホイル"
    }
  }

  const AllProducts: seq<Product> := [
    ToiletPaper, TissuePaper, KitchenPaper, LaundryDetergent, DishDetergent,
    CleaningDetergent, Sponge, Rice, WaterAndTea, CannedFood,
    Seasoning, Batteries, LightBulbs, TrashBags, WrapAndFoil
  ]

  datatype Priority = Cheapest | UsualStore | NearbyStore | WellReviewed
  {
    function Label(): string
    {
      match this
      case Cheapest => "一番安い"
      case UsualStore => "いつもの店"
      case NearbyStore => "近いお店"
      case WellReviewed => "評判が良い"
    }
  }

  const AllPriorities: seq<Priority> := [Cheapest, UsualStore, NearbyStore, WellReviewed]

  datatype Transport = Walk | Bicycle | Car
  {
    function Label(): string
    {
      match this
      case Walk => "徒歩"
      case Bicycle => "自転車"
      case Car => "車"
    }
  }

  /**
   * The request the search library takes. It has no transport field: the
   * library's reads of `request.transport` always see `undefined`.
   * Product and priority are whatever strings the route was given.
   */
  datatype GoodsRequest = GoodsRequest(product: string, priority: string, userLocation: string, ageGroup: string)

  /** Every product is listed once, and no two products share a label. */
  lemma ProductsAreDistinct()
    ensures |AllProducts| == 15
    ensures forall p: Product :: p in AllProducts
    ensures forall i, j :: 0 <= i < j < |AllProducts| ==> AllProducts[i].Label() != AllProducts[j].Label()
  {
    forall p: Product ensures p in AllProducts {
      match p
      case ToiletPaper => assert AllProducts[0] == p;
      case TissuePaper => assert AllProducts[1] == p;
      case KitchenPaper => assert AllProducts[2] == p;
      case LaundryDetergent => assert AllProducts[3] == p;
      case DishDetergent => assert AllProducts[4] == p;
      case CleaningDetergent => assert AllProducts[5] == p;
      case Sponge => assert AllProducts[6] == p;
      case Rice => assert AllProducts[7] == p;
      case WaterAndTea => assert AllProducts[8] == p;
      case CannedFood => assert AllProducts[9] == p;
      case Seasoning => assert AllProducts[10] == p;
      case Batteries => assert AllProducts[11] == p;
      case LightBulbs => assert AllProducts[12] == p;
      case TrashBags => assert AllProducts[13] == p;
      case WrapAndFoil => assert AllProducts[14] == p;
    }
  }

  lemma PrioritiesAreDistinct()
    ensures |AllPriorities| == 4
    ensures forall p: Priority :: p in AllPriorities
    ensures forall i, j :: 0 <= i < j < |AllPriorities| ==> AllPriorities[i].Label() != AllPriorities[j].Label()
  {
    forall p: Priority ensures p in AllPriorities {
      match p
      case Cheapest => assert AllPriorities[0] == p;
      case UsualStore => assert AllPriorities[1] == p;
      case NearbyStore => assert AllPriorities[2] == p;
      case WellReviewed => assert AllPriorities[3] == p;
    }
  }
}
