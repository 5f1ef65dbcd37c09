/**
 * The daily-goods wizard: pick a product, then a priority, then confirm and
 * search. Back steps one page back and keeps what was picked.
 */
module DailyGoodsPage {
  import opened Wrappers
  import opened Js
  import opened Http
  import opened DailyGoodsTypes

  datatype Step = ProductStep | PriorityStep | ConfirmStep

  predicate IsProductLabel(s: string)
  {
    exists p: Product :: p.Label() == s
  }

  predicate IsPriorityLabel(s: string)
  {
    exists p: Priority :: p.Label() == s
  }

  /** The cards a step shows: the 15 products, then the 4 priorities, then none. */
  predicate IsCardOf(step: Step, value: string)
  {
    match step
    case ProductStep => IsProductLabel(value)
    case PriorityStep => IsPriorityLabel(value)
    case ConfirmStep => false
  }

  const ResultPath := "/daily-result"
  const HomePath := "/"

  class Wizard {
    var step: Step
    var selectedProduct: string
    var selectedPriority: string

    /**
     * What was picked is empty or a card's value; past the product step a
     * product is picked, and at the confirm step a priority too.
     */
    predicate Valid()
      reads this
    {
      && (selectedProduct == "" || IsProductLabel(selectedProduct))
      && (selectedPriority == "" || IsPriorityLabel(selectedPriority))
      && (step != ProductStep ==> IsProductLabel(selectedProduct))
      && (step == ConfirmStep ==> IsPriorityLabel(selectedPriority))
    }

    constructor()
      ensures step == ProductStep && selectedProduct == "" && selectedPriority == ""
      ensures Valid()
    {
      step := ProductStep;
      selectedProduct := "";
      selectedPriority := "";
    }

    /** `handleCardClick(value)` with a card the current step shows. */
    method CardClick(value: string)
      requires Valid()
      requires step != ConfirmStep ==> IsCardOf(step, value)
      modifies this
      ensures Valid()
      ensures old(step) == ProductStep ==>
        step == PriorityStep && selectedProduct == value && selectedPriority == old(selectedPriority)
      ensures old(step) == PriorityStep ==>
        step == ConfirmStep && selectedPriority == value && selectedProduct == old(selectedProduct)
      ensures old(step) == ConfirmStep ==>
        step == old(step) && selectedProduct == old(selectedProduct) && selectedPriority == old(selectedPriority)
    {
      if step == ProductStep {
        selectedProduct := value;
        step := PriorityStep;
      } else if step == PriorityStep {
        selectedPriority := value;
        step := ConfirmStep;
      }
    }

    /** `handleBack`: one step back, or home from the first step. Nothing picked is cleared. */
    method Back() returns (nav: Option<Navigation>)
      requires Valid()
      modifies this
      ensures Valid()
      ensures selectedProduct == old(selectedProduct) && selectedPriority == old(selectedPriority)
      ensures old(step) == PriorityStep ==> step == ProductStep && nav.None?
      ensures old(step) == ConfirmStep ==> step == PriorityStep && nav.None?
      ensures old(step) == ProductStep ==> step == ProductStep && nav == Some(Navigate(HomePath, []))
    {
      nav := None;
      if step == PriorityStep {
        step := ProductStep;
      } else if step == ConfirmStep {
        step := PriorityStep;
      } else {
        nav := Some(Navigate(HomePath, []));
      }
    }

    /**
     * `handleSearch` on the confirm page: the result page with exactly the
     * product and the priority as query parameters, both of them a card's value.
     */
    method Search() returns (nav: Navigation)
      requires Valid() && step == ConfirmStep
      ensures nav.path == ResultPath && |nav.query| == 2
      ensures QueryGet(nav.query, "product") == Some(selectedProduct) && IsProductLabel(selectedProduct)
      ensures QueryGet(nav.query, "priority") == Some(selectedPriority) && IsPriorityLabel(selectedPriority)
    {
      nav := Navigate(ResultPath, [("product", selectedProduct), ("priority", selectedPriority)]);
      assert nav.query[1].0 != "product";
    }
  }

  /** Every card value is non-empty, so a search from the confirm page always carries both parameters. */
  lemma CardValuesAreTruthy(s: string)
    requires IsProductLabel(s) || IsPriorityLabel(s)
    ensures Truthy(Some(s))
  {
    if IsProductLabel(s) {
      var p: Product :| p.Label() == s;
      match p {
        case ToiletPaper =>
        case TissuePaper =>
        case KitchenPaper =>
        case LaundryDetergent =>
        case DishDetergent =>
        case CleaningDetergent =>
        case Sponge =>
        case Rice =>
        case WaterAndTea =>
        case CannedFood =>
        case Seasoning =>
        case Batteries =>
        case LightBulbs =>
        case TrashBags =>
        case WrapAndFoil =>
      }
    } else {
      var p: Priority :| p.Label() == s;
      match p {
        case Cheapest =>
        case UsualStore =>
        case NearbyStore =>
        case WellReviewed =>
      }
    }
  }

  /**
   * Product, priority, confirm, back, back, for any product and priority:
   * the search names both picks, two steps back reach the first step with
   * both picks kept, and a third step back goes home.
   */
  method BackTwiceKeepsPicks(product: Product, priority: Priority)
    returns (query: seq<(string, string)>, first: Option<Navigation>, second: Option<Navigation>,
             third: Option<Navigation>, step: Step, picked: (string, string))
    ensures QueryGet(query, "product") == Some(product.Label())
    ensures QueryGet(query, "priority") == Some(priority.Label())
    ensures first.None? && second.None? && third == Some(Navigate(HomePath, []))
    ensures step == ProductStep && picked == (product.Label(), priority.Label())
  {
    var w := new Wizard();
    w.CardClick(product.Label());
    w.CardClick(priority.Label());
    var nav := w.Search();
    query := nav.query;
    first := w.Back();
    second := w.Back();
    step, picked := w.step, (w.selectedProduct, w.selectedPriority);
    third := w.Back();
  }
}
