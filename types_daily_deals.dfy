/** The admin-managed deal record and the form that creates or edits one. */
module DailyDealTypes {
  import opened Wrappers

  const Mother := "mother"
  const Gibo := "gibo"

  /** A row of the `daily_deals` table. Prices are whole yen. */
  datatype DailyDeal = DailyDeal(
    id: string,
    user_id: string,
    store_name: string,
    product_name: string,
    regular_price: int,
    sale_price: int,
    discount_amount: int,
    distance: Option<string>,
    sale_start_date: string,
    sale_end_date: string,
    stock_status: string,
    recommendation_point: Option<string>,
    image_url: Option<string>,
    is_active: bool,
    created_at: string,
    updated_at: string)

  /**
   * The admin form: a deal without id, discount_amount and timestamps, with
   * the optional texts always present (possibly empty).
   */
  datatype DealForm = DealForm(
    user_id: string,
    store_name: string,
    product_name: string,
    regular_price: int,
    sale_price: int,
    distance: string,
    sale_start_date: string,
    sale_end_date: string,
    stock_status: string,
    recommendation_point: string,
    image_url: string,
    is_active: bool)
}
