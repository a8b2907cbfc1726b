/** What both forecast endpoints share: the request, the parsed target time,
    the city and datetime guards that run first, the foreign library calls
    and the shape of a response. */
module Requests {
  import opened Common

  /** The JSON body of `POST /api/v1/forecast`. */
  datatype ForecastRequest = ForecastRequest(city: string, datetime: string)

  /** The calendar fields the handlers read from the parsed target time, and its
      printed form (`str(target_time)`). */
  datatype TargetTime = TargetTime(text: string, month: int, dayOfYear: int, hour: int, weekday: int)

  predicate ValidTime(t: TargetTime)
  {
    1 <= t.month <= 12 && 1 <= t.dayOfYear <= 366 && 0 <= t.hour <= 23 && 0 <= t.weekday <= 6
  }

  type Timestamp = t: TargetTime | ValidTime(t) witness TargetTime("", 1, 1, 0, 0)

  /** What `pd.to_datetime` makes of the request's string: it raises, it
      returns `NaT` (for an empty string, "NaT" or "nan"), or it returns a time. */
  datatype Parsed = Unparseable | NotATime | Time(value: Timestamp)

  /** The library calls the handlers make: `pd.to_datetime`, numpy's sine and
      cosine, and Python's `round(x, 2)`. */
  datatype Library = Library(toDatetime: string -> Parsed, trig: Trig, round2: real -> real)

  const Aliases: seq<string> := ["new york", "nyc", "new york city"]

  const CityDetail: string := "Forecasting available for NYC only (Team T-Minus Rain)."
  const DatetimeDetail: string := "Invalid datetime format."

  /** `req.city.lower() in ['new york', 'nyc', 'new york city']`. */
  predicate IsSupportedCity(city: string)
  {
    Lower(city) in Aliases
  }

  /** The exceptions a handler can raise after validation; the web framework turns
      each into a 500 response. */
  datatype Fault =
    | KeyError(name: string)                       // a feature name missing from a feature map
    | FeatureCountMismatch(got: nat, expected: nat) // a scaler fitted on a different number of features
    | UnseenLabel(index: nat)                      // a class index the label encoder does not know
    | EmptyArgmax                                  // `np.argmax` of an empty vector
    | ZeroDivision                                 // a float division by a zero total
    | NaTTimetuple                                 // `timetuple()` of NaT raises ValueError

  datatype Response =
    | Answer(time: string, prediction: string, probabilities: seq<Entry>)
    | Refused(status: int, detail: string)
    | Crashed(fault: Fault)

  /** The outcome of the guards: a time, a `NaT` that the `try` lets through,
      or a refusal. */
  datatype Validation = Accepted(time: Timestamp) | AcceptedNaT | Rejected(status: int, detail: string)

  /** The two guards, city first and datetime second; a rejected city never
      reaches the parser, and only a raising parser is refused. */
  function Validate(req: ForecastRequest, toDatetime: string -> Parsed): (v: Validation)
    ensures v.Rejected? <==> !IsSupportedCity(req.city) || toDatetime(req.datetime).Unparseable?
    ensures v.Accepted? <==> IsSupportedCity(req.city) && toDatetime(req.datetime).Time?
    ensures v.AcceptedNaT? <==> IsSupportedCity(req.city) && toDatetime(req.datetime).NotATime?
    ensures v.Accepted? ==> v.time == toDatetime(req.datetime).value
    ensures !IsSupportedCity(req.city) ==> v == Rejected(400, CityDetail)
    ensures IsSupportedCity(req.city) && toDatetime(req.datetime).Unparseable? ==> v == Rejected(400, DatetimeDetail)
  {
    if !IsSupportedCity(req.city) then Rejected(400, CityDetail)
    else
      match toDatetime(req.datetime)
      case Unparseable => Rejected(400, DatetimeDetail)
      case NotATime => AcceptedNaT
      case Time(t) => Accepted(t)
  }

  /** The city guard ignores case: a name and its lower-cased form are treated alike. */
  lemma CityGuardIgnoresCase(city: string)
    ensures IsSupportedCity(city) <==> IsSupportedCity(Lower(city))
  {
    LowerIdempotent(city);
  }

  /** The aliases in any capitalisation are accepted; another city is not. */
  lemma CityExamples()
    ensures IsSupportedCity("NYC")
    ensures IsSupportedCity("New York City")
    ensures IsSupportedCity("new york")
    ensures !IsSupportedCity("Chicago")
  {
    assert Lower("NYC") == "nyc";
    assert Lower("New York City") == "new york city";
    assert Lower("new york") == "new york";
    assert |Lower("Chicago")| == 7;
  }
}
