/**
 * The admin page for deals: the list, and the form that creates a deal or
 * edits the one whose id it holds.
 */
module AdminDealsPage {
  import opened Wrappers
  import opened Text
  import opened Js
  import opened Http
  import opened DailyDealTypes
  import AdminDealsRoute

  const CollectionPath := "/api/admin/daily-deals"
  const FetchFailed := "データの取得に失敗しました"
  const Updated := "更新しました"
  const Registered := "登録しました"
  const SubmitFailed := "送信に失敗しました"
  const DeleteFailed := "削除に失敗しました"
  const ErrorPrefix := "エラー: "

  datatype Verb = Post | Put | Delete

  /** A request the page sends, with the form as its body where there is one. */
  datatype DealRequest = DealRequest(verb: Verb, path: string, body: Option<DealForm>)

  /** `fetch` and `response.json()` of a request: the envelope, or the error either throws. */
  type DealServer = DealRequest -> Result<Envelope<DailyDeal>, JsError>

  /** The empty form: for the mother, zero prices, both dates today, plenty in stock, active. */
  function DefaultForm(today: string): (f: DealForm)
    ensures f.user_id == Mother && f.regular_price == 0 && f.sale_price == 0
    ensures f.sale_start_date == today && f.sale_end_date == today
    ensures f.stock_status == "豊富" && f.is_active
    ensures f.store_name == "" && f.product_name == "" && f.distance == ""
    ensures f.recommendation_point == "" && f.image_url == ""
  {
    DealForm("mother", "", "", 0, 0, "", today, today, "豊富", "", "", true)
  }

  /** The form `handleEdit` fills from a deal: its twelve editable fields, absent texts as ''. */
  function FormOf(deal: DailyDeal): (f: DealForm)
    ensures f.user_id == deal.user_id && f.store_name == deal.store_name && f.product_name == deal.product_name
    ensures f.regular_price == deal.regular_price && f.sale_price == deal.sale_price
    ensures f.sale_start_date == deal.sale_start_date && f.sale_end_date == deal.sale_end_date
    ensures f.stock_status == deal.stock_status && f.is_active == deal.is_active
    ensures f.distance == deal.distance.GetOr("")
    ensures f.recommendation_point == deal.recommendation_point.GetOr("")
    ensures f.image_url == deal.image_url.GetOr("")
  {
    DealForm(deal.user_id, deal.store_name, deal.product_name, deal.regular_price, deal.sale_price,
             Or(deal.distance, ""), deal.sale_start_date, deal.sale_end_date, deal.stock_status,
             Or(deal.recommendation_point, ""), Or(deal.image_url, ""), deal.is_active)
  }

  /** The request a submit sends: PUT to the deal being edited when there is one, else POST to the collection. */
  function SubmitRequest(editingId: Option<string>, form: DealForm): (r: DealRequest)
    ensures r.body == Some(form)
    ensures Truthy(editingId) ==> r.verb == Put && r.path == CollectionPath + "/" + editingId.value
    ensures !Truthy(editingId) ==> r.verb == Post && r.path == CollectionPath
  {
    if Truthy(editingId) then DealRequest(Put, CollectionPath + "/" + editingId.value, Some(form))
    else DealRequest(Post, CollectionPath, Some(form))
  }

  class AdminPage {
    var deals: seq<DailyDeal>
    var loading: bool
    var error: string
    var formData: DealForm
    var editingId: Option<string>

    constructor(nowIso: string)
      ensures deals == [] && loading && error == ""
      ensures formData == DefaultForm(IsoDate(nowIso)) && editingId.None?
    {
      deals := [];
      loading := true;
      error := "";
      formData := DefaultForm(IsoDate(nowIso));
      editingId := None;
    }

    /**
     * `fetchDeals`, given what the listing request answered: the listing, or
     * the error shown. The form is not touched.
     */
    method FetchDeals(answer: Result<Envelope<seq<DailyDeal>>, JsError>)
      modifies this
      ensures !loading && formData == old(formData) && editingId == old(editingId)
      ensures answer.Err? ==> error == FetchFailed && deals == old(deals)
      ensures answer.Ok? && answer.value.Success? ==> deals == answer.value.data && error == old(error)
      ensures answer.Ok? && !answer.value.Success? ==> error == answer.value.error && deals == old(deals)
    {
      loading := true;
      match answer {
        case Err(_) =>
          error := FetchFailed;
        case Ok(envelope) =>
          if envelope.Success? {
            deals := envelope.data;
          } else {
            error := envelope.error;
          }
      }
      loading := false;
    }

    /** `handleEdit(deal)`. */
    method Edit(deal: DailyDeal)
      modifies this
      ensures editingId == Some(deal.id) && formData == FormOf(deal)
      ensures deals == old(deals) && loading == old(loading) && error == old(error)
    {
      editingId := Some(deal.id);
      formData := FormOf(deal);
    }

    /** `resetForm`. */
    method ResetForm(nowIso: string)
      modifies this
      ensures formData == DefaultForm(IsoDate(nowIso)) && editingId.None?
      ensures deals == old(deals) && loading == old(loading) && error == old(error)
    {
      formData := DefaultForm(IsoDate(nowIso));
      editingId := None;
    }

    /**
     * `handleSubmit`: send the form, then on success alert, stop editing and
     * reset the form (the list is then fetched again); on failure alert and
     * keep the form and the id.
     */
    method Submit(server: DealServer, nowIso: string) returns (sent: DealRequest, alertText: string)
      modifies this
      ensures sent == SubmitRequest(old(editingId), old(formData))
      ensures deals == old(deals) && loading == old(loading) && error == old(error)
      ensures server(sent).Ok? && server(sent).value.Success? ==>
        && formData == DefaultForm(IsoDate(nowIso)) && editingId.None?
        && alertText == (if Truthy(old(editingId)) then Updated else Registered)
      ensures server(sent).Ok? && !server(sent).value.Success? ==>
        formData == old(formData) && editingId == old(editingId) && alertText == ErrorPrefix + server(sent).value.error
      ensures server(sent).Err? ==>
        formData == old(formData) && editingId == old(editingId) && alertText == SubmitFailed
    {
      sent := SubmitRequest(editingId, formData);
      match server(sent) {
        case Err(_) =>
          alertText := SubmitFailed;
        case Ok(envelope) =>
          if envelope.Success? {
            alertText := if Truthy(editingId) then Updated else Registered;
            editingId := None;
            ResetForm(nowIso);
          } else {
            alertText := ErrorPrefix + envelope.error;
          }
      }
    }
  }

  /**
   * `handleDelete(id)`: nothing unless confirmed; then DELETE the deal and,
   * on failure, the alert shown. The page's state is not changed here.
   */
  function DeleteDeal(id: string, confirmed: bool, server: DealServer): (r: (Option<DealRequest>, Option<string>))
    ensures !confirmed ==> r == (None, None)
    ensures confirmed ==> r.0 == Some(DealRequest(Delete, CollectionPath + "/" + id, None))
    ensures confirmed && server(r.0.value).Ok? && server(r.0.value).value.Success? ==> r.1.None?
    ensures confirmed && server(r.0.value).Ok? && !server(r.0.value).value.Success? ==>
      r.1 == Some(ErrorPrefix + server(r.0.value).value.error)
    ensures confirmed && server(r.0.value).Err? ==> r.1 == Some(DeleteFailed)
  {
    if !confirmed then (None, None)
    else
      var request := DealRequest(Delete, CollectionPath + "/" + id, None);
      match server(request)
      case Err(_) => (Some(request), Some(DeleteFailed))
      case Ok(envelope) =>
        if envelope.Success? then (Some(request), None)
        else (Some(request), Some(ErrorPrefix + envelope.error))
  }

  /** Editing the row a POST of a form created gives back that very form. */
  lemma EditAfterPostRoundTrip(form: DealForm, id: string, discount: int, now: string)
    ensures FormOf(AdminDealsRoute.RowOf(form, id, discount, now)) == form
  {
  }

  /** The id, the stored discount and the timestamps never reach the form. */
  lemma EditIgnoresStoreFields(deal: DailyDeal, id: string, discount: int, created: string, updated: string)
    ensures FormOf(deal.(id := id, discount_amount := discount, created_at := created, updated_at := updated))
         == FormOf(deal)
  {
  }

  /** A deal whose id is empty is saved as a new deal: the empty id is falsy. */
  lemma EmptyIdPostsAgain(form: DealForm)
    ensures SubmitRequest(Some(""), form).verb == Post
  {
  }
}
