/**
 * The shopping-script library: one prompt describing a deal, and the model's
 * text blocks joined as the script. Nothing is stripped or parsed.
 */
module ShoppingScript {
  import opened Wrappers
  import opened Text
  import opened Decimal
  import opened Js
  import opened Templates
  import opened Llm
  import opened DailyDealTypes

  const NoRecommendation := "特になし"
  const NearbyDistance := "近く"
  const MotherLabel := "お母様（指宿）"
  const GiboLabel := "義母様（旭川）"

  /** Who the script is for: the mother for 'mother', the mother-in-law for every other value. */
  function UserLabel(userId: string): (r: string)
    ensures r == MotherLabel <==> userId == Mother
    ensures r == GiboLabel <==> userId != Mother
  {
    if userId == "mother" then MotherLabel else GiboLabel
  }

  datatype ScriptField = ProductSlot | StoreSlot | RegularSlot | SaleSlot | DiscountSlot
                       | RecommendationSlot | DistanceSlot | UserSlot

  function ScriptValue(deal: DailyDeal, f: ScriptField): string
  {
    match f
    case ProductSlot => deal.product_name
    case StoreSlot => deal.store_name
    case RegularSlot => IntToDecimal(deal.regular_price)
    case SaleSlot => IntToDecimal(deal.sale_price)
    case DiscountSlot => IntToDecimal(deal.regular_price - deal.sale_price)
    case RecommendationSlot => Or(deal.recommendation_point, NoRecommendation)
    case DistanceSlot => Or(deal.distance, NearbyDistance)
    case UserSlot => UserLabel(deal.user_id)
  }

  function Values(deal: DailyDeal): ScriptField -> string
  {
    f => ScriptValue(deal, f)
  }

  /** The presenter persona and tone rules; no interpolation. */
  const SystemPrompt := "<TV shopping presenter persona; tone rules 1-5; plain text for read-aloud>"

  const UserTemplate: Template<ScriptField> := [
    Lit("<write a script for this deal; product:>"), Slot(ProductSlot),
    Lit("<store:>"), Slot(StoreSlot),
    Lit("<regular price:>"), Slot(RegularSlot), Lit("円"),
    Lit("<sale price:>"), Slot(SaleSlot), Lit("円"),
    Lit("<discount:>"), Slot(DiscountSlot), Lit("円"),
    Lit("<recommendation:>"), Slot(RecommendationSlot),
    Lit("<distance:>"), Slot(DistanceSlot),
    Lit("<user:>"), Slot(UserSlot)
  ]

  function ScriptPrompts(deal: DailyDeal): Prompts
  {
    Prompts(SystemPrompt, Render(UserTemplate, Values(deal)))
  }

  /** `generateShoppingScript`: the joined text blocks, or the model's error rethrown unchanged. */
  function GenerateShoppingScript(deal: DailyDeal, model: Prompts -> Result<seq<Block>, JsError>): (r: Result<string, JsError>)
    ensures model(ScriptPrompts(deal)).Err? ==> r == Err(model(ScriptPrompts(deal)).error)
    ensures model(ScriptPrompts(deal)).Ok? ==> r == Ok(ReplyText(model(ScriptPrompts(deal)).value))
  {
    var blocks :- model(ScriptPrompts(deal));
    Ok(ReplyText(blocks))
  }

  /** Every field has a slot in the user template. */
  lemma EveryFieldHasSlot(f: ScriptField)
    ensures Slot(f) in UserTemplate
  {
    match f {
      case ProductSlot => assert UserTemplate[1] == Slot(f);
      case StoreSlot => assert UserTemplate[3] == Slot(f);
      case RegularSlot => assert UserTemplate[5] == Slot(f);
      case SaleSlot => assert UserTemplate[8] == Slot(f);
      case DiscountSlot => assert UserTemplate[11] == Slot(f);
      case RecommendationSlot => assert UserTemplate[14] == Slot(f);
      case DistanceSlot => assert UserTemplate[16] == Slot(f);
      case UserSlot => assert UserTemplate[18] == Slot(f);
    }
  }

  /** Every slot's value, defaults applied, is written verbatim into the user prompt. */
  lemma PromptShowsEveryField(deal: DailyDeal, f: ScriptField)
    ensures Contains(ScriptPrompts(deal).user, ScriptValue(deal, f))
  {
    EveryFieldHasSlot(f);
    assert Values(deal)(f) == ScriptValue(deal, f);
    RenderContainsSlot(UserTemplate, Values(deal), f);
  }

  /**
   * The prompt names the deal's product and store verbatim, the discount it
   * computes itself as regular minus sale price, and the defaults for a
   * missing recommendation or distance.
   */
  lemma PromptDescribesDeal(deal: DailyDeal)
    ensures Contains(ScriptPrompts(deal).user, deal.product_name)
    ensures Contains(ScriptPrompts(deal).user, deal.store_name)
    ensures Contains(ScriptPrompts(deal).user, IntToDecimal(deal.regular_price - deal.sale_price))
    ensures !Truthy(deal.recommendation_point) ==> Contains(ScriptPrompts(deal).user, NoRecommendation)
    ensures !Truthy(deal.distance) ==> Contains(ScriptPrompts(deal).user, NearbyDistance)
    ensures Contains(ScriptPrompts(deal).user, UserLabel(deal.user_id))
  {
    forall f: ScriptField ensures Contains(ScriptPrompts(deal).user, ScriptValue(deal, f)) {
      PromptShowsEveryField(deal, f);
    }
    TextShowingSlotsDescribesDeal(deal, ScriptPrompts(deal).user);
  }

  lemma TextShowingSlotsDescribesDeal(deal: DailyDeal, u: string)
    requires forall f: ScriptField :: Contains(u, ScriptValue(deal, f))
    ensures Contains(u, deal.product_name) && Contains(u, deal.store_name)
    ensures Contains(u, IntToDecimal(deal.regular_price - deal.sale_price))
    ensures !Truthy(deal.recommendation_point) ==> Contains(u, NoRecommendation)
    ensures !Truthy(deal.distance) ==> Contains(u, NearbyDistance)
    ensures Contains(u, UserLabel(deal.user_id))
  {
    assert Contains(u, ScriptValue(deal, ProductSlot)) && Contains(u, ScriptValue(deal, StoreSlot));
    assert Contains(u, ScriptValue(deal, DiscountSlot)) && Contains(u, ScriptValue(deal, UserSlot));
    assert Contains(u, ScriptValue(deal, RecommendationSlot)) && Contains(u, ScriptValue(deal, DistanceSlot));
  }

  /**
   * The stored discount_amount, the id, the dates, the stock status, the image,
   * the active flag and the timestamps never reach the prompt.
   */
  lemma PromptIgnoresUnusedFields(a: DailyDeal, b: DailyDeal)
    requires a.product_name == b.product_name && a.store_name == b.store_name
    requires a.regular_price == b.regular_price && a.sale_price == b.sale_price
    requires a.recommendation_point == b.recommendation_point && a.distance == b.distance
    requires a.user_id == b.user_id
    ensures ScriptPrompts(a) == ScriptPrompts(b)
  {
    forall f | Slot(f) in UserTemplate ensures Values(a)(f) == Values(b)(f) {
    }
    RenderDeterminedBySlots(UserTemplate, Values(a), Values(b));
  }

  /** A sale price above the regular price puts a negative discount in the prompt. */
  lemma NegativeDiscountIsNotClamped(deal: DailyDeal)
    requires deal.sale_price > deal.regular_price
    ensures Contains(ScriptPrompts(deal).user, "-" + NatDigits(deal.sale_price - deal.regular_price))
  {
    PromptDescribesDeal(deal);
  }

  /** A reply without text blocks is an empty script, not an error. */
  lemma ReplyWithoutTextIsEmpty(deal: DailyDeal, model: Prompts -> Result<seq<Block>, JsError>)
    requires model(ScriptPrompts(deal)).Ok?
    requires forall i :: 0 <= i < |model(ScriptPrompts(deal)).value| ==>
      model(ScriptPrompts(deal)).value[i].kind != "text"
    ensures GenerateShoppingScript(deal, model) == Ok("")
  {
    ReplyTextWithoutTextBlocks(model(ScriptPrompts(deal)).value);
  }
}
