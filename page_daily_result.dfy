/**
 * The daily-goods result page: it turns the query and the stored settings
 * into a search request, shows the result or an error, and composes the
 * message sent to an Echo Show.
 */
module DailyResultPage {
  import opened Wrappers
  import opened Text
  import opened Js
  import opened Http
  import opened Settings
  import opened DailyGoodsTypes
  import GoodsSearchRoute
  import Decimal

  type GoodsBody = GoodsSearchRoute.GoodsBody

  /** `fetch` of the search route and `response.json()`: the envelope, or the error either throws. */
  type GoodsServer = GoodsBody -> Result<Envelope<map<string, Json>>, JsError>

  const MissingConditions := "検索条件が不足しています"
  const SearchFailed := "検索に失敗しました"
  const Unexpected := "予期しないエラーが発生しました"
  const DefaultTransport := "自転車"

  /** The body posted for a product and a priority, from the settings when there are any. */
  function GoodsBodyFor(product: string, priority: string, settings: Option<UserSettings>): (b: GoodsBody)
    ensures b.product == Some(product) && b.priority == Some(priority)
    ensures settings.None? ==>
      b.userLocation == Some("不明") && b.transport == Some(DefaultTransport) && b.ageGroup == Some("80代")
    ensures settings.Some? ==> b.userLocation == Some(LocationText(settings.value.location))
    ensures settings.Some? && Truthy(settings.value.transport) ==> b.transport == settings.value.transport
    ensures settings.Some? && !Truthy(settings.value.transport) ==> b.transport == Some(DefaultTransport)
    ensures settings.Some? ==> b.ageGroup == settings.value.ageGroup
  {
    match settings
    case None => GoodsSearchRoute.GoodsBody(Some(product), Some(priority), Some("不明"), Some("80代"), Some("自転車"))
    case Some(s) =>
      GoodsSearchRoute.GoodsBody(Some(product), Some(priority), Some(LocationText(s.location)), s.ageGroup,
                                 Some(Or(s.transport, "自転車")))
  }

  /** The error text shown for an envelope without success: the server's error, or a generic one. */
  function ErrorText(e: Envelope<map<string, Json>>): (r: string)
    requires !e.Success?
    ensures e.error != "" ==> r == e.error
    ensures e.error == "" ==> r == SearchFailed
  {
    Or(Some(e.error), SearchFailed)
  }

  /** What a send did: nothing, an Echo Show message, or an alert. */
  datatype SendOutcome = NotSent | Sent(userId: string, title: Val, message: string) | Alerted(text: string)

  const SendFailedAlert := "送信に失敗しました。もう一度お試しください。"
  const NoInfo := "情報なし"

  const Closing := "お買い物の参考にしてください。"

  /** The lines between the product name and the closing sentence. */
  function MessageBody(store: string, price: string, distance: string): string
  {
    "の情報です。\n\nお店: " + store + "\n価格: " + price + "\n距離: " + distance + "\n\n"
  }

  /** The message before `.trim()`: the template starts with a line break and ends with a line break and indentation. */
  function RawMessage(productName: string, store: string, price: string, distance: string): string
  {
    "\n" + productName + MessageBody(store, price, distance) + Closing + Indent
  }

  /** Trimming removes exactly the template's leading line break and trailing indentation. */
  lemma TrimmedMessage(productName: string, store: string, price: string, distance: string)
    requires productName != [] && !IsJsWhitespace(productName[0])
    ensures Trim(RawMessage(productName, store, price, distance))
         == productName + MessageBody(store, price, distance) + Closing
  {
    ClosingTrims();
    TrimDropsFrame("\n", productName, MessageBody(store, price, distance), Closing, Indent);
  }

  const Indent := "\n        "

  /** The closing sentence ends in a visible character, and only white space follows it. */
  lemma ClosingTrims()
    ensures Closing != [] && !IsJsWhitespace(Closing[|Closing| - 1])
    ensures forall k :: 0 <= k < |Indent| ==> IsJsWhitespace(Indent[k])
    ensures TrimEnd(Closing + Indent) == Closing
  {
    assert Closing[|Closing| - 1] == '。';
    assert forall k :: 0 <= k < |Indent| ==> IsJsWhitespace(Indent[k]);
    TrimEndDropsWhitespace(Closing, Indent);
  }

  /** `result.stores[0]`; a result whose stores are missing or null throws. */
  function FirstStore(result: map<string, Json>): (r: Result<Val, JsError>)
    ensures r.Err? <==> "stores" !in result || result["stores"] == JNull
    ensures "stores" in result && result["stores"].JArr? && |result["stores"].items| > 0 ==>
      r == Ok(Def(result["stores"].items[0]))
    ensures "stores" in result && result["stores"].JArr? && |result["stores"].items| == 0 ==> r == Ok(Undefined)
    ensures "stores" in result && result["stores"].JObj? && "0" in result["stores"].fields ==>
      r == Ok(Def(result["stores"].fields["0"]))
  {
    assert Decimal.IntToDecimal(0) == "0";
    Index(Member(Def(JObj(result)), "stores").value, 0)
  }

  /** `first?.key || '情報なし'`. */
  function StoreText(first: Val, key: string): (r: string)
    ensures first.Def? && first.json.JObj? && key in first.json.fields ==>
      (first.json.fields[key].JStr? && first.json.fields[key].s != "" ==> r == first.json.fields[key].s)
    ensures first.Def? && first.json.JObj? && key !in first.json.fields ==> r == NoInfo
    ensures !first.Def? || first.json.JNull? ==> r == NoInfo
    ensures !TruthyVal(OptionalMember(first, key).value) ==> r == NoInfo
    ensures TruthyVal(OptionalMember(first, key).value) ==> r == ToJsString(OptionalMember(first, key).value)
  {
    TextOr(OptionalMember(first, key).value, NoInfo)
  }

  /**
   * The title and message for a result: the recommended product's name, and
   * the first store's name, price and distance. A result without a
   * recommendation or without stores throws.
   */
  function ComposeMessage(result: map<string, Json>): (r: Result<(Val, string), JsError>)
    ensures r.Err? <==>
      || "recommendation" !in result || result["recommendation"] == JNull
      || "stores" !in result || result["stores"] == JNull
  {
    var recommendation := Member(Def(JObj(result)), "recommendation").value;
    var title :- Member(recommendation, "productName");
    var first :- FirstStore(result);
    var message := RawMessage(ToJsString(title), StoreText(first, "name"), StoreText(first, "price"),
                              StoreText(first, "distance"));
    Ok((title, Trim(message)))
  }

  /**
   * A result whose store list is empty is sent with every store line falling
   * back to '情報なし', and with the product name first.
   */
  lemma NoStoresMessage(result: map<string, Json>, productName: string)
    requires "recommendation" in result && result["recommendation"].JObj?
    requires "productName" in result["recommendation"].fields
    requires result["recommendation"].fields["productName"] == JStr(productName)
    requires productName != [] && !IsJsWhitespace(productName[0])
    requires "stores" in result && result["stores"] == JArr([])
    ensures ComposeMessage(result)
         == Ok((Def(JStr(productName)), productName + MessageBody(NoInfo, NoInfo, NoInfo) + Closing))
  {
    assert FirstStore(result) == Ok(Undefined);
    TrimmedMessage(productName, NoInfo, NoInfo, NoInfo);
  }

  /**
   * A result with a product name and a non-empty store list is sent with the
   * product name as the title, and a message naming the product first, then
   * the first store's name, price and distance, each '情報なし' when falsy,
   * then the closing sentence.
   */
  lemma FirstStoreMessage(result: map<string, Json>, productName: string)
    requires "recommendation" in result && result["recommendation"].JObj?
    requires "productName" in result["recommendation"].fields
    requires result["recommendation"].fields["productName"] == JStr(productName)
    requires productName != [] && !IsJsWhitespace(productName[0])
    requires "stores" in result && result["stores"].JArr? && |result["stores"].items| > 0
    ensures var first := Def(result["stores"].items[0]);
      ComposeMessage(result)
        == Ok((Def(JStr(productName)),
               productName + MessageBody(StoreText(first, "name"), StoreText(first, "price"),
                                         StoreText(first, "distance")) + Closing))
  {
    var first := Def(result["stores"].items[0]);
    TrimmedMessage(productName, StoreText(first, "name"), StoreText(first, "price"), StoreText(first, "distance"));
  }

  /** A store without a name, or with an empty one, is shown as '情報なし'. */
  lemma FalsyStoreFieldShowsNoInfo(fields: map<string, Json>, key: string)
    requires key !in fields || fields[key] in {JNull, JStr(""), JNum(0), JBool(false)}
    ensures StoreText(Def(JObj(fields)), key) == NoInfo
  {
  }

  /**
   * What the page posts always passes the route's check, and the route then
   * searches for the stored location, or for '不明' and '80代' without settings;
   * a stored blob without an age group is searched as '80代'.
   */
  lemma PostedBodyIsAccepted(product: string, priority: string, settings: Option<UserSettings>)
    requires product != "" && priority != ""
    ensures GoodsSearchRoute.GoodsRequestOf(GoodsBodyFor(product, priority, settings)).Some?
    ensures settings.None? ==>
      GoodsSearchRoute.GoodsRequestOf(GoodsBodyFor(product, priority, settings))
        == Some(GoodsRequest(product, priority, "不明", "80代"))
    ensures settings.Some? ==>
      GoodsSearchRoute.GoodsRequestOf(GoodsBodyFor(product, priority, settings)).value.userLocation
        == LocationText(settings.value.location)
    ensures settings.Some? && !Truthy(settings.value.ageGroup) ==>
      GoodsSearchRoute.GoodsRequestOf(GoodsBodyFor(product, priority, settings)).value.ageGroup == "80代"
  {
  }

  class ResultPage {
    var result: Option<map<string, Json>>
    var loading: bool
    var error: string
    var sending: bool
    var sendSuccess: Option<string>

    constructor()
      ensures result.None? && loading && error == "" && !sending && sendSuccess.None?
    {
      result := None;
      loading := true;
      error := "";
      sending := false;
      sendSuccess := None;
    }

    /**
     * `fetchResult`: without both query parameters, an error and no request;
     * a stored blob that cannot be read throws before the request; otherwise
     * the body posted (returned as `sent`) and the result or the error shown.
     * Loading ends either way.
     */
    method FetchResult(query: seq<(string, string)>, stored: StoredSettings, server: GoodsServer)
      returns (sent: Option<GoodsBody>)
      modifies this
      ensures !loading && sending == old(sending) && sendSuccess == old(sendSuccess)
      ensures !Truthy(QueryGet(query, "product")) || !Truthy(QueryGet(query, "priority")) ==>
        sent.None? && error == MissingConditions && result == old(result)
      ensures Truthy(QueryGet(query, "product")) && Truthy(QueryGet(query, "priority")) && stored.Unreadable? ==>
        sent.None? && error == Unexpected && result == old(result)
      ensures Truthy(QueryGet(query, "product")) && Truthy(QueryGet(query, "priority")) && !stored.Unreadable? ==>
        sent == Some(GoodsBodyFor(QueryGet(query, "product").value, QueryGet(query, "priority").value, Found(stored)))
      ensures sent.Some? && server(sent.value).Err? ==> error == Unexpected && result == old(result)
      ensures sent.Some? && server(sent.value).Ok? && server(sent.value).value.Success? ==>
        result == Some(server(sent.value).value.data) && error == old(error)
      ensures sent.Some? && server(sent.value).Ok? && !server(sent.value).value.Success? ==>
        error == ErrorText(server(sent.value).value) && result == old(result)
    {
      var product := QueryGet(query, "product");
      var priority := QueryGet(query, "priority");
      if !Truthy(product) || !Truthy(priority) {
        error := MissingConditions;
        loading := false;
        return None;
      }
      if stored.Unreadable? {
        error := Unexpected;
        loading := false;
        return None;
      }
      var body := GoodsBodyFor(product.value, priority.value, Found(stored));
      sent := Some(body);
      match server(body) {
        case Err(_) =>
          error := Unexpected;
        case Ok(envelope) =>
          if envelope.Success? {
            result := Some(envelope.data);
          } else {
            error := ErrorText(envelope);
          }
      }
      loading := false;
    }

    /** `handleSendToEchoShow(userId)`: nothing without a result; the message, or an alert when composing throws. */
    method SendToEchoShow(userId: string) returns (outcome: SendOutcome)
      modifies this
      ensures result == old(result) && error == old(error) && loading == old(loading)
      ensures old(result).None? ==> outcome == NotSent && sendSuccess == old(sendSuccess) && sending == old(sending)
      ensures old(result).Some? ==> !sending
      ensures old(result).Some? && ComposeMessage(old(result).value).Ok? ==>
        && outcome == Sent(userId, ComposeMessage(result.value).value.0, ComposeMessage(result.value).value.1)
        && sendSuccess == Some(userId)
      ensures old(result).Some? && ComposeMessage(old(result).value).Err? ==>
        outcome == Alerted(SendFailedAlert) && sendSuccess.None?
    {
      if result.None? {
        return NotSent;
      }
      sending := true;
      sendSuccess := None;
      var composed := ComposeMessage(result.value);
      match composed {
        case Ok(m) =>
          outcome := Sent(userId, m.0, m.1);
          sendSuccess := Some(userId);
        case Err(_) =>
          outcome := Alerted(SendFailedAlert);
      }
      sending := false;
    }
  }
}
