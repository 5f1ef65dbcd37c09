/**
 * `GET`/`POST /api/admin/daily-deals`: the whole table newest first, and the
 * insertion of one row from an unvalidated body.
 */
module AdminDealsRoute {
  import opened Wrappers
  import opened Js
  import opened Http
  import opened DailyDealTypes
  import opened DealOrder

  /**
   * The row the store creates from a posted form. The id, the stored discount
   * and the timestamps are the store's; the optional texts are kept as sent.
   */
  function RowOf(form: DealForm, id: string, discount: int, now: string): (d: DailyDeal)
    ensures d.id == id && d.discount_amount == discount && d.created_at == now && d.updated_at == now
    ensures d.user_id == form.user_id && d.product_name == form.product_name && d.store_name == form.store_name
    ensures d.regular_price == form.regular_price && d.sale_price == form.sale_price
    ensures d.distance == Some(form.distance) && d.recommendation_point == Some(form.recommendation_point)
    ensures d.image_url == Some(form.image_url) && d.is_active == form.is_active
    ensures d.sale_start_date == form.sale_start_date && d.sale_end_date == form.sale_end_date
    ensures d.stock_status == form.stock_status
  {
    DailyDeal(id, form.user_id, form.store_name, form.product_name, form.regular_price, form.sale_price,
              discount, Some(form.distance), form.sale_start_date, form.sale_end_date, form.stock_status,
              Some(form.recommendation_point), Some(form.image_url), form.is_active, now, now)
  }

  /** The `daily_deals` table. */
  class DealTable {
    var rows: seq<DailyDeal>

    constructor(initial: seq<DailyDeal>)
      ensures rows == initial
    {
      rows := initial;
    }

    /** The listing GET returns: every row, inactive ones included, newest first. */
    function Listing(): (r: seq<DailyDeal>)
      reads this
      ensures Sorted(CreatedAtDesc, r)
      ensures multiset(r) == multiset(rows)
    {
      SortBy(CreatedAtDesc, rows)
    }

    /** GET. `failure` is the store's error, when it fails. */
    method Get(failure: Option<JsError>) returns (r: Reply<seq<DailyDeal>>)
      ensures failure.Some? ==> r == Reply(500, Failure(failure.value.message))
      ensures failure.None? ==> r.status == 200 && r.body.Success?
      ensures failure.None? ==> Sorted(CreatedAtDesc, r.body.data) && multiset(r.body.data) == multiset(rows)
    {
      if failure.Some? {
        return Reply(500, Failure(failure.value.message));
      }
      r := Reply(200, Success(Listing()));
    }

    /**
     * POST: insert the body as one row and answer with it. An unreadable body
     * or a store error leaves the table as it was and answers 500 with the
     * error's own message.
     */
    method Post(incoming: Incoming<DealForm>, id: string, discount: int, now: string, failure: Option<JsError>)
      returns (r: Reply<DailyDeal>)
      modifies this
      ensures incoming.Malformed? ==> r == Reply(500, Failure(incoming.message)) && rows == old(rows)
      ensures incoming.Parsed? && failure.Some? ==>
        r == Reply(500, Failure(failure.value.message)) && rows == old(rows)
      ensures incoming.Parsed? && failure.None? ==>
        && r == Reply(200, Success(RowOf(incoming.body, id, discount, now)))
        && rows == old(rows) + [RowOf(incoming.body, id, discount, now)]
    {
      if incoming.Malformed? {
        return Reply(500, Failure(incoming.message));
      }
      if failure.Some? {
        return Reply(500, Failure(failure.value.message));
      }
      var row := RowOf(incoming.body, id, discount, now);
      rows := rows + [row];
      r := Reply(200, Success(row));
    }
  }

  /** After an insertion the listing holds the old rows and, once more, the new one. */
  lemma InsertedRowIsListed(rows: seq<DailyDeal>, row: DailyDeal)
    ensures multiset(SortBy(CreatedAtDesc, rows + [row])) == multiset(SortBy(CreatedAtDesc, rows)) + multiset{row}
    ensures row in SortBy(CreatedAtDesc, rows + [row])
  {
    assert multiset(rows + [row]) == multiset(rows) + multiset{row};
    assert row in multiset(SortBy(CreatedAtDesc, rows + [row]));
  }

  /** A row created after every other one is listed first. */
  lemma StrictlyNewestIsFirst(rows: seq<DailyDeal>, row: DailyDeal)
    requires forall i :: 0 <= i < |rows| ==> !Text.LexLe(row.created_at, rows[i].created_at)
    ensures SortBy(CreatedAtDesc, rows + [row])[0] == row
  {
    var s := SortBy(CreatedAtDesc, rows + [row]);
    assert multiset(rows + [row]) == multiset(rows) + multiset{row};
    assert row in multiset(s);
    assert s[0] in multiset(rows + [row]);
  }
}
