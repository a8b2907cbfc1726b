/** The React page (src/App.tsx): the seasonal context shown for the chosen
    date, the colour given to a condition, the order of the probability
    breakdown, and the form state that `checkForecast` updates around its
    request to the API. */
module WebClient {
  import opened Common
  import opened Seasons
  import opened Ranking
  import opened Requests
  import Dashboard

  // ----- Seasonal context ----------------------------------------------------

  /** An entry of the page's season table: its key, its months as JavaScript
      month indices (0 for January) and its description. */
  datatype ClientSeason = ClientSeason(key: string, months: seq<int>, desc: string)

  const ClientSeasons: seq<ClientSeason> := [
    ClientSeason("winter", [11, 0, 1], "Winter in NYC: Cold with occasional snow and rain"),
    ClientSeason("spring", [2, 3, 4], "Spring in NYC: Mild temperatures with frequent rain showers"),
    ClientSeason("summer", [5, 6, 7], "Summer in NYC: Warm and humid with afternoon thunderstorms"),
    ClientSeason("fall", [8, 9, 10], "Fall in NYC: Cool and crisp with occasional rain")
  ]

  /** The position of a season's entry in the page's table. */
  function ClientIndex(s: Season): (i: int)
    ensures 0 <= i < |ClientSeasons|
    ensures forall m :: m in ClientSeasons[i].months <==> m + 1 in MonthsOf(s)
  {
    match s
    case Winter => 0
    case Spring => 1
    case Summer => 2
    case Fall => 3
  }

  /** The entry of a season: its months are the season's calendar months less one. */
  function ContextOf(s: Season): (c: ClientSeason)
    ensures c in ClientSeasons
    ensures forall m :: m in c.months <==> m + 1 in MonthsOf(s)
  {
    ClientSeasons[ClientIndex(s)]
  }

  /** Every month index 0–11 lies in exactly one entry of the page's table, and
      no other number lies in any. */
  lemma ClientSeasonsPartitionMonths(m: int)
    ensures 0 <= m < 12 ==> forall i :: 0 <= i < |ClientSeasons| ==> (m in ClientSeasons[i].months <==> i == ClientIndex(SeasonOf(m + 1)))
    ensures !(0 <= m < 12) ==> forall i :: 0 <= i < |ClientSeasons| ==> m !in ClientSeasons[i].months
  {
    SeasonsPartitionMonths(m + 1);
    if 0 <= m < 12 {
      var k := ClientIndex(SeasonOf(m + 1));
      forall i | 0 <= i < |ClientSeasons|
        ensures m in ClientSeasons[i].months <==> i == k
      {
        var s := [Winter, Spring, Summer, Fall][i];
        assert ClientIndex(s) == i;
      }
    }
  }

  /** `getSeasonalContext`: nothing without a date; otherwise the first entry
      of the table holding the date's month index, which is the month's own
      season; nothing for an index outside 0–11 (`None` stands for the NaN of
      a date the browser cannot parse). */
  method SeasonalContext(date: string, month: Option<int>) returns (ctx: Option<ClientSeason>)
    ensures date == [] ==> ctx == None
    ensures date != [] && month.Some? && 0 <= month.value < 12 ==> ctx == Some(ContextOf(SeasonOf(month.value + 1)))
    ensures date != [] && !(month.Some? && 0 <= month.value < 12) ==> ctx == None
  {
    if date == [] {
      return None;
    }
    if month.None? {
      return None;
    }
    var m := month.value;
    ClientSeasonsPartitionMonths(m);
    var i := 0;
    while i < |ClientSeasons|
      invariant 0 <= i <= |ClientSeasons|
      invariant 0 <= m < 12 ==> i <= ClientIndex(SeasonOf(m + 1))
    {
      var data := ClientSeasons[i];
      if m in data.months {
        return Some(data);
      }
      i := i + 1;
    }
    return None;
  }

  // ----- Colours -------------------------------------------------------------

  const DefaultColor: string := "text-gray-600 bg-gray-50"

  const Palette: map<string, string> := map[
    "Clear" := "text-yellow-600 bg-yellow-50",
    "Rain" := "text-blue-600 bg-blue-50",
    "Cloudy" := "text-gray-600 bg-gray-50",
    "Snow" := "text-blue-400 bg-blue-50"
  ]

  /** `getWeatherColor`: the palette's class for the four conditions and the
      default for any other string, so that only Clear, Rain and Snow stand
      out and every answer is one of the palette's classes. */
  function WeatherColor(condition: string): (c: string)
    ensures condition in Palette ==> c == Palette[condition]
    ensures c == DefaultColor <==> condition !in {"Clear", "Rain", "Snow"}
    ensures c in Palette.Values
  {
    if condition in Palette then Palette[condition]
    else
      assert Palette["Cloudy"] == DefaultColor;
      DefaultColor
  }

  /** An unknown condition is drawn like Cloudy, and the other three conditions
      are told apart. */
  lemma ColorsOfConditions(unknown: string)
    requires unknown !in Palette
    ensures WeatherColor(unknown) == WeatherColor("Cloudy")
    ensures WeatherColor("Clear") != WeatherColor("Rain")
    ensures WeatherColor("Clear") != WeatherColor("Snow")
    ensures WeatherColor("Rain") != WeatherColor("Snow")
  {
  }

  /** Every label of the dashboard's sample data has a palette entry, and only
      Cloudy shares its class with an unknown condition. */
  lemma LabelsHaveColors(c: Dashboard.Condition)
    ensures Dashboard.ConditionName(c) in Palette
    ensures WeatherColor(Dashboard.ConditionName(c)) == DefaultColor <==> c == Dashboard.Cloudy
  {
  }

  // ----- Probability breakdown -----------------------------------------------

  /** The rows of the breakdown: every (condition, probability) pair of the
      answer, largest probability first. */
  function DisplayOrder(probabilities: seq<Entry>): (rows: seq<Entry>)
    ensures SortedDesc(rows)
    ensures multiset(rows) == multiset(probabilities)
  {
    SortDesc(probabilities)
  }

  // ----- The forecast form ---------------------------------------------------

  /** The JSON body of a successful answer. */
  datatype ForecastResult = ForecastResult(time: string, prediction: string, probabilities: seq<Entry>)

  /** How the request ended: a 2xx answer, a non-2xx answer whose body carried
      `detail` ("" when it was missing or empty), an `Error` thrown by `fetch`
      or by the JSON parser, or a thrown value that is not an `Error`. */
  datatype Reply =
    | Delivered(body: ForecastResult)
    | NotOk(detail: string)
    | Thrown(message: string)
    | ThrownOther

  const ClientCity: string := "New York City"
  const GuardMessage: string := "Please select both date and time"
  const NotOkFallback: string := "Failed to get forecast"
  const FailureFallback: string := "Error fetching forecast. Please try again."

  /** The request the page sends: the fixed city and `date + "T" + time + ":00"`,
      from which the date and the time can be read back. */
  function RequestFor(date: string, time: string): (req: ForecastRequest)
    ensures req.city == ClientCity
    ensures |req.datetime| == |date| + |time| + 4
    ensures req.datetime[..|date|] == date && req.datetime[|date|] == 'T'
    ensures req.datetime[|date| + 1..|req.datetime| - 3] == time
    ensures req.datetime[|req.datetime| - 3..] == ":00"
  {
    var dt := date + "T" + time + ":00";
    assert dt[..|date|] == date;
    assert dt[|date| + 1..|dt| - 3] == time;
    ForecastRequest(ClientCity, dt)
  }

  /** The page's city passes the API's city guard, whatever the date and time. */
  lemma ClientCityAccepted(date: string, time: string)
    ensures IsSupportedCity(RequestFor(date, time).city)
  {
    CityExamples();
  }

  /** The message shown after a failed request: the answer's `detail` or a
      fallback for a non-2xx answer, the error's own message, or a generic
      fallback for a thrown non-error. Only a thrown error with an empty
      message leaves the message box empty. */
  function FailureMessage(reply: Reply): (msg: string)
    requires !reply.Delivered?
    ensures msg == [] <==> reply == Thrown([])
    ensures reply.NotOk? && reply.detail != [] ==> msg == reply.detail
  {
    match reply
    case NotOk(detail) => if detail == [] then NotOkFallback else detail
    case Thrown(message) => message
    case ThrownOther => FailureFallback
  }

  /** The component's state. */
  class ForecastPage {
    var date: string
    var time: string
    var result: Option<ForecastResult>
    var loading: bool
    var error: string

    /** The initial state: empty inputs, no result, not loading, no error. */
    constructor()
      ensures date == [] && time == [] && result == None && !loading && error == []
    {
      date := [];
      time := [];
      result := None;
      loading := false;
      error := [];
    }

    /** The date input's change handler. */
    method SetDate(d: string)
      modifies this
      ensures date == d
      ensures time == old(time) && result == old(result) && loading == old(loading) && error == old(error)
    {
      date := d;
    }

    /** The time input's change handler. */
    method SetTime(t: string)
      modifies this
      ensures time == t
      ensures date == old(date) && result == old(result) && loading == old(loading) && error == old(error)
    {
      time := t;
    }

    /** The part of `checkForecast` before the request: with a date or time
        missing it sets the guard message and sends nothing, leaving `loading`
        and `result` alone; otherwise it starts loading, clears the message and
        sends the request for the chosen date and time. */
    method StartCheck() returns (sent: Option<ForecastRequest>)
      modifies this
      ensures date == old(date) && time == old(time) && result == old(result)
      ensures date == [] || time == [] ==> sent == None && error == GuardMessage && loading == old(loading)
      ensures date != [] && time != [] ==> sent == Some(RequestFor(date, time)) && loading && error == []
    {
      if date == [] || time == [] {
        error := GuardMessage;
        return None;
      }
      loading := true;
      error := [];
      sent := Some(RequestFor(date, time));
    }

    /** The part of `checkForecast` after the request: a delivered answer
        becomes the result, any failure sets the message and keeps the previous
        result, and loading stops in every case. */
    method FinishCheck(reply: Reply)
      modifies this
      ensures !loading
      ensures date == old(date) && time == old(time)
      ensures reply.Delivered? ==> result == Some(reply.body) && error == old(error)
      ensures !reply.Delivered? ==> result == old(result) && error == FailureMessage(reply)
    {
      if reply.Delivered? {
        result := Some(reply.body);
      } else {
        error := FailureMessage(reply);
      }
      loading := false;
    }

    /** `checkForecast` as a whole, with `reply` standing for the outcome of the
        request when one is sent. */
    method CheckForecast(reply: Reply) returns (sent: Option<ForecastRequest>)
      modifies this
      ensures date == old(date) && time == old(time)
      ensures old(date) == [] || old(time) == [] ==>
        sent == None && error == GuardMessage && loading == old(loading) && result == old(result)
      ensures old(date) != [] && old(time) != [] ==>
        sent == Some(RequestFor(date, time)) && !loading
        && (reply.Delivered? ==> result == Some(reply.body) && error == [])
        && (!reply.Delivered? ==> result == old(result) && error == FailureMessage(reply))
    {
      sent := StartCheck();
      if sent.Some? {
        FinishCheck(reply);
      }
    }
  }
}
