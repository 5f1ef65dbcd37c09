/**
 * `GET /api/daily-deals/today?userId=…`: the user's active deals whose sale
 * window contains today, largest discount first.
 */
module TodayDealsRoute {
  import opened Wrappers
  import opened Text
  import opened Js
  import opened Http
  import opened DailyDealTypes
  import opened DealOrder

  const UserIdRequired := "User ID is required"

  /** `userId` is present and one of the two known users. */
  predicate KnownUser(userId: Option<string>)
  {
    userId.Some? && (userId.value == Mother || userId.value == Gibo)
  }

  /** The query's filters: the user, active, and start ≤ today ≤ end as ISO date strings. */
  predicate OnSaleToday(d: DailyDeal, userId: string, today: string)
  {
    && d.user_id == userId
    && d.is_active
    && LexLe(d.sale_start_date, today)
    && LexLe(today, d.sale_end_date)
  }

  /** Every stored row that passes the filters, as often as it is stored, and no other. */
  function Matching(rows: seq<DailyDeal>, userId: string, today: string): (r: seq<DailyDeal>)
    ensures forall i :: 0 <= i < |r| ==> OnSaleToday(r[i], userId, today)
    ensures forall d :: multiset(r)[d] == if OnSaleToday(d, userId, today) then multiset(rows)[d] else 0
    decreases |rows|
  {
    if rows == [] then []
    else
      var rest := Matching(rows[1..], userId, today);
      assert rows == [rows[0]] + rows[1..];
      if OnSaleToday(rows[0], userId, today) then [rows[0]] + rest else rest
  }

  /** The selection: the matching rows, largest discount first. */
  function SelectToday(rows: seq<DailyDeal>, userId: string, today: string): (r: seq<DailyDeal>)
    ensures forall i :: 0 <= i < |r| ==> OnSaleToday(r[i], userId, today)
    ensures forall d :: multiset(r)[d] == if OnSaleToday(d, userId, today) then multiset(rows)[d] else 0
    ensures forall i, j :: 0 <= i < j < |r| ==> r[i].discount_amount >= r[j].discount_amount
  {
    var m := Matching(rows, userId, today);
    var r := SortBy(DiscountDesc, m);
    assert forall i :: 0 <= i < |r| ==> r[i] in multiset(m);
    assert Sorted(DiscountDesc, r);
    r
  }

  /**
   * The handler. `table` is what the store answers for the query: the
   * table's rows, or its error.
   */
  function GetToday(query: seq<(string, string)>, table: Result<seq<DailyDeal>, JsError>, nowIso: string)
    : (r: Reply<seq<DailyDeal>>)
    ensures !KnownUser(QueryGet(query, "userId")) ==> r == Reply(400, Failure(UserIdRequired))
    ensures KnownUser(QueryGet(query, "userId")) && table.Err? ==> r == Reply(500, Failure(table.error.message))
    ensures KnownUser(QueryGet(query, "userId")) && table.Ok? ==>
      r == Reply(200, Success(SelectToday(table.value, QueryGet(query, "userId").value, IsoDate(nowIso))))
  {
    var userId := QueryGet(query, "userId");
    if !KnownUser(userId) then Reply(400, Failure(UserIdRequired))
    else
      match table
      case Err(e) => Reply(500, Failure(e.message))
      case Ok(rows) => Reply(200, Success(SelectToday(rows, userId.value, IsoDate(nowIso))))
  }

  /** An unknown user is refused before the store is asked: the reply does not depend on it. */
  lemma UnknownUserSkipsStore(query: seq<(string, string)>, t1: Result<seq<DailyDeal>, JsError>,
                              t2: Result<seq<DailyDeal>, JsError>, nowIso: string)
    requires !KnownUser(QueryGet(query, "userId"))
    ensures GetToday(query, t1, nowIso) == GetToday(query, t2, nowIso)
    ensures GetToday(query, t1, nowIso).status == 400
  {
  }

  /** The sale window is inclusive at both ends: a one-day sale is shown on that day. */
  lemma OneDaySaleIsShown(d: DailyDeal, day: string, time: string)
    requires d.is_active && d.sale_start_date == day && d.sale_end_date == day
    requires forall k :: 0 <= k < |day| ==> day[k] != 'T'
    ensures OnSaleToday(d, d.user_id, IsoDate(day + "T" + time))
  {
    IsoDateOfTimestamp(day, time);
    LexLeReflexive(day);
  }

  /** Rows of the other user, inactive rows, and rows whose sale has ended or not begun are never returned. */
  lemma ExcludedRowsAreAbsent(rows: seq<DailyDeal>, userId: string, today: string, d: DailyDeal)
    requires d.user_id != userId || !d.is_active || !LexLe(d.sale_start_date, today) || !LexLe(today, d.sale_end_date)
    ensures d !in SelectToday(rows, userId, today)
  {
    var r := SelectToday(rows, userId, today);
    assert multiset(r)[d] == 0;
  }

  /** A query naming the user twice is answered for the first. */
  lemma FirstUserIdCounts(table: seq<DailyDeal>, nowIso: string)
    ensures GetToday([("userId", "gibo"), ("userId", "mother")], Ok(table), nowIso)
         == Reply(200, Success(SelectToday(table, Gibo, IsoDate(nowIso))))
  {
    assert QueryGet([("userId", "gibo"), ("userId", "mother")], "userId") == Some("gibo");
  }
}
