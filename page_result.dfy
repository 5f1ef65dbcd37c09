/** The flight result page: the query and the stored settings become a search request. */
module FlightResultPage {
  import opened Wrappers
  import opened Js
  import opened Http
  import opened Settings
  import FlightSearchRoute
  import Flight

  type FlightBody = FlightSearchRoute.FlightBody

  /** `fetch` of the flight route and `response.json()`: the envelope, or the error either throws. */
  type FlightServer = FlightBody -> Result<Envelope<map<string, Json>>, JsError>

  const MissingConditions := "検索条件が不足しています"
  const SearchFailed := "検索に失敗しました"
  const Unexpected := "予期しないエラーが発生しました"

  /** The body posted: the three query values, and the location and age group from the settings. */
  function FlightBodyFor(route: string, timing: string, timeOfDay: string, settings: Option<UserSettings>)
    : (b: FlightBody)
    ensures b.route == Some(route) && b.timing == Some(timing) && b.timeOfDay == Some(timeOfDay)
    ensures settings.None? ==> b.userLocation == Some("不明") && b.ageGroup == Some("80代")
    ensures settings.Some? ==> b.userLocation == Some(LocationText(settings.value.location))
    ensures settings.Some? ==> b.ageGroup == settings.value.ageGroup
  {
    match settings
    case None => FlightSearchRoute.FlightBody(Some(route), Some(timing), Some(timeOfDay), Some("不明"), Some("80代"))
    case Some(s) =>
      FlightSearchRoute.FlightBody(Some(route), Some(timing), Some(timeOfDay), Some(LocationText(s.location)),
                                   s.ageGroup)
  }

  /** The query values, when all three are present and non-empty. */
  function Conditions(query: seq<(string, string)>): (r: Option<(string, string, string)>)
    ensures r.Some? <==>
      Truthy(QueryGet(query, "route")) && Truthy(QueryGet(query, "timing")) && Truthy(QueryGet(query, "timeOfDay"))
    ensures r.Some? ==> r.value == (QueryGet(query, "route").value, QueryGet(query, "timing").value,
                                    QueryGet(query, "timeOfDay").value)
  {
    var route := QueryGet(query, "route");
    var timing := QueryGet(query, "timing");
    var timeOfDay := QueryGet(query, "timeOfDay");
    if Truthy(route) && Truthy(timing) && Truthy(timeOfDay) then Some((route.value, timing.value, timeOfDay.value))
    else None
  }

  class ResultPage {
    var result: Option<map<string, Json>>
    var loading: bool
    var error: string

    constructor()
      ensures result.None? && loading && error == ""
    {
      result := None;
      loading := true;
      error := "";
    }

    /**
     * `fetchResult`: without the three query values, an error and no request;
     * a stored blob that cannot be read throws before the request; otherwise
     * the body posted (as `sent`) and the result or the error shown. Loading
     * ends either way.
     */
    method FetchResult(query: seq<(string, string)>, stored: StoredSettings, server: FlightServer)
      returns (sent: Option<FlightBody>)
      modifies this
      ensures !loading
      ensures Conditions(query).None? ==> sent.None? && error == MissingConditions && result == old(result)
      ensures Conditions(query).Some? && stored.Unreadable? ==>
        sent.None? && error == Unexpected && result == old(result)
      ensures Conditions(query).Some? && !stored.Unreadable? ==>
        var (route, timing, timeOfDay) := Conditions(query).value;
        sent == Some(FlightBodyFor(route, timing, timeOfDay, Found(stored)))
      ensures sent.Some? && server(sent.value).Err? ==> error == Unexpected && result == old(result)
      ensures sent.Some? && server(sent.value).Ok? && server(sent.value).value.Success? ==>
        result == Some(server(sent.value).value.data) && error == old(error)
      ensures sent.Some? && server(sent.value).Ok? && !server(sent.value).value.Success? ==>
        && (server(sent.value).value.error != "" ==> error == server(sent.value).value.error)
        && (server(sent.value).value.error == "" ==> error == SearchFailed)
        && result == old(result)
    {
      var conditions := Conditions(query);
      if conditions.None? {
        error := MissingConditions;
        loading := false;
        return None;
      }
      if stored.Unreadable? {
        error := Unexpected;
        loading := false;
        return None;
      }
      var (route, timing, timeOfDay) := conditions.value;
      var body := FlightBodyFor(route, timing, timeOfDay, Found(stored));
      sent := Some(body);
      match server(body) {
        case Err(_) =>
          error := Unexpected;
        case Ok(envelope) =>
          if envelope.Success? {
            result := Some(envelope.data);
          } else {
            error := Or(Some(envelope.error), SearchFailed);
          }
      }
      loading := false;
    }
  }

  /** What the page posts always passes the flight route's check, with the values the page chose. */
  lemma PostedBodyIsAccepted(route: string, timing: string, timeOfDay: string, settings: Option<UserSettings>)
    requires route != "" && timing != "" && timeOfDay != ""
    ensures FlightSearchRoute.FlightRequestOf(FlightBodyFor(route, timing, timeOfDay, settings)).Some?
    ensures settings.None? ==>
      FlightSearchRoute.FlightRequestOf(FlightBodyFor(route, timing, timeOfDay, settings))
        == Some(Flight.FlightRequest(route, timing, timeOfDay, "不明", "80代"))
    ensures settings.Some? ==>
      FlightSearchRoute.FlightRequestOf(FlightBodyFor(route, timing, timeOfDay, settings)).value.userLocation
        == LocationText(settings.value.location)
  {
  }
}
