/** The simplified forecast endpoint (backend/simple_main.py): the same two
    guards, a handful of synthetic signals, three class weights set from the
    season and adjusted by humidity, pressure and the hour, random jitter, two
    normalisation passes and the first maximal class. */
module HeuristicService {
  import opened Common
  import opened Seasons
  import opened Ranking
  import opened Requests

  /** The weights of the three classes, in the order the response lists them. */
  datatype Weights = Weights(clear: real, cloudy: real, rain: real)

  function Total(w: Weights): real
  {
    w.clear + w.cloudy + w.rain
  }

  predicate Positive(w: Weights)
  {
    w.clear > 0.0 && w.cloudy > 0.0 && w.rain > 0.0
  }

  predicate NonNegative(w: Weights)
  {
    w.clear >= 0.0 && w.cloudy >= 0.0 && w.rain >= 0.0
  }

  /** The random draws of one request, in the order the handler takes them:
      Gaussian noises for temperature and pressure, the uniform draw that gates
      rain and the exponential rain amount, the humidity noise, the exponential
      wind draw and the three Gaussian jitters of the weights. */
  datatype Draws = Draws(
    tempNoise: real, pressureNoise: real, rainGate: real, rainAmount: real,
    humidityNoise: real, windDraw: real,
    jitterClear: real, jitterCloudy: real, jitterRain: real)

  /** The synthetic weather signals of the target time. */
  datatype Signals = Signals(temp: real, pressure: real, rain: real, humidity: real, wind: real)

  /** The signal generators. Only humidity and pressure feed the weights. */
  function SignalsFor(t: Timestamp, trig: Trig, d: Draws): (s: Signals)
    ensures 20.0 <= s.humidity <= 95.0
    ensures !RainyMonth(t.month) ==> s.rain == 0.0
    ensures RainyMonth(t.month) && d.rainGate >= 0.3 ==> s.rain == 0.0
    ensures d.windDraw >= 0.0 ==> s.wind >= 3.0
  {
    Signals(
      10.0 + 20.0 * trig.turnSin((t.dayOfYear - 80) as real / 365.0) + d.tempNoise,
      1013.0 + 10.0 * trig.turnSin((t.dayOfYear - 200) as real / 365.0) + d.pressureNoise,
      if RainyMonth(t.month) && d.rainGate < 0.3 then d.rainAmount else 0.0,
      Clip(50.0 + 30.0 * trig.turnSin((t.dayOfYear - 120) as real / 365.0) + d.humidityNoise, 20.0, 95.0),
      3.0 + 2.0 * d.windDraw)
  }

  // ----- Weights before the jitter ------------------------------------------

  /** The base weights of each season. */
  function BaseWeights(s: Season): (w: Weights)
    ensures Total(w) == 1.0
    ensures w.clear >= 0.3 && w.cloudy >= 0.2 && w.rain >= 0.2
  {
    match s
    case Winter => Weights(0.5, 0.3, 0.2)
    case Spring => Weights(0.3, 0.4, 0.3)
    case Summer => Weights(0.6, 0.2, 0.2)
    case Fall => Weights(0.4, 0.3, 0.3)
  }

  /** The weights the season branch leaves: its season's base weights, or the
      initial (0.4, 0.3, 0.3) for a number that is not a month. */
  function SeasonBase(month: int): (w: Weights)
    ensures Total(w) == 1.0
    ensures w.clear >= 0.3 && w.cloudy >= 0.2 && w.rain >= 0.2
  {
    if 1 <= month <= 12 then BaseWeights(SeasonOf(month)) else Weights(0.4, 0.3, 0.3)
  }

  /** The daytime window of the hour adjustment: 06:00 to 18:59. */
  predicate Daytime(hour: int)
  {
    6 <= hour <= 18
  }

  /** Each adjustment as the amount it adds to each weight. */
  function Adjustment(humidity: real, pressure: real, hour: int): (a: Weights)
    ensures Total(a) == (if humidity > 80.0 then 0.1 else 0.0) + (if pressure < 1000.0 then 0.05 else 0.0)
                        + (if pressure > 1020.0 then 0.05 else 0.0) + 0.1
  {
    Weights(
      (if humidity > 80.0 then -0.1 else 0.0) + (if pressure < 1000.0 then -0.1 else 0.0)
        + (if pressure > 1020.0 then 0.1 else 0.0) + (if Daytime(hour) then 0.1 else 0.0),
      if Daytime(hour) then 0.0 else 0.1,
      (if humidity > 80.0 then 0.2 else 0.0) + (if pressure < 1000.0 then 0.15 else 0.0)
        + (if pressure > 1020.0 then -0.05 else 0.0))
  }

  /** The weights after the season, humidity, pressure and hour rules: the
      season's base plus every adjustment that applies. */
  function PriorWeights(month: int, humidity: real, pressure: real, hour: int): (w: Weights)
    ensures Positive(w)
    ensures 1.1 <= Total(w) <= 1.25
  {
    var b := SeasonBase(month);
    var a := Adjustment(humidity, pressure, hour);
    Weights(b.clear + a.clear, b.cloudy + a.cloudy, b.rain + a.rain)
  }

  /** The two pressure rules never both apply. */
  lemma PressureRulesExclusive(pressure: real)
    ensures !(pressure < 1000.0 && pressure > 1020.0)
  {
  }

  /** Only the hour's side of 06:00–18:59 matters: by day clear gets the 0.1
      that cloudy gets at night, and rain is the same either way. */
  lemma HourRuleShiftsOneClass(month: int, humidity: real, pressure: real, hour: int)
    ensures Daytime(hour) ==> PriorWeights(month, humidity, pressure, hour) == PriorWeights(month, humidity, pressure, 12)
    ensures !Daytime(hour) ==> PriorWeights(month, humidity, pressure, hour) == PriorWeights(month, humidity, pressure, 0)
    ensures PriorWeights(month, humidity, pressure, 12).clear == PriorWeights(month, humidity, pressure, 0).clear + 0.1
    ensures PriorWeights(month, humidity, pressure, 0).cloudy == PriorWeights(month, humidity, pressure, 12).cloudy + 0.1
    ensures PriorWeights(month, humidity, pressure, 12).rain == PriorWeights(month, humidity, pressure, 0).rain
  {
  }

  /** The weights after the random jitter: the total moves by the sum of the
      three draws, and zero draws leave the weights as they were. */
  function Jitter(w: Weights, d: Draws): (r: Weights)
    ensures Total(r) == Total(w) + (d.jitterClear + d.jitterCloudy + d.jitterRain)
    ensures d.jitterClear == 0.0 && d.jitterCloudy == 0.0 && d.jitterRain == 0.0 ==> r == w
  {
    Weights(w.clear + d.jitterClear, w.cloudy + d.jitterCloudy, w.rain + d.jitterRain)
  }

  // ----- Normalisation --------------------------------------------------------

  /** Each weight's share of the total. */
  function Shares(w: Weights, total: real): Weights
    requires total != 0.0
  {
    Weights(w.clear / total, w.cloudy / total, w.rain / total)
  }

  /** The shares of a total sum to one. */
  lemma SharesSumToOne(w: Weights)
    requires Total(w) != 0.0
    ensures Total(Shares(w, Total(w))) == 1.0
  {
    var t := Total(w);
    calc {
      Total(Shares(w, t));
      w.clear / t + w.cloudy / t + w.rain / t;
      (w.clear + w.cloudy + w.rain) / t;
      1.0;
    }
  }

  /** The first pass floors each share at zero; the second divides by the new
      total. A zero first total has no shares: the weights are Python floats,
      so the first division raises ZeroDivisionError. */
  function Normalise(w: Weights): (r: Option<Weights>)
    ensures r.None? <==> Total(w) == 0.0
    ensures r.Some? ==> NonNegative(r.value) && Total(r.value) == 1.0
  {
    if Total(w) == 0.0 then None
    else
      var s := Shares(w, Total(w));
      var f := Weights(MaxZero(s.clear), MaxZero(s.cloudy), MaxZero(s.rain));
      SharesSumToOne(w);
      assert Total(f) >= Total(s);
      SharesSumToOne(f);
      Some(Shares(f, Total(f)))
  }

  /** When no weight is negative, normalising is dividing by the total: the floor
      and the second pass change nothing. */
  lemma NormaliseOfNonNegative(w: Weights)
    requires NonNegative(w) && Total(w) > 0.0
    ensures Normalise(w) == Some(Shares(w, Total(w)))
  {
    var s := Shares(w, Total(w));
    SharesSumToOne(w);
    assert NonNegative(s);
    assert Weights(MaxZero(s.clear), MaxZero(s.cloudy), MaxZero(s.rain)) == s;
    assert Shares(s, Total(s)) == s;
  }

  /** Without jitter the distribution is the prior weights' shares; it is never
      undefined. */
  lemma UnjitteredDistribution(month: int, humidity: real, pressure: real, hour: int)
    ensures var w := PriorWeights(month, humidity, pressure, hour);
            Normalise(w) == Some(Shares(w, Total(w)))
  {
    NormaliseOfNonNegative(PriorWeights(month, humidity, pressure, hour));
  }

  // ----- The response ---------------------------------------------------------

  const ClassNames: seq<string> := ["Clear", "Cloudy", "Rain"]

  /** The probability table: each class's share as a percentage rounded to two
      decimals, in the order Clear, Cloudy, Rain. */
  function Table(p: Weights, round2: real -> real): (probs: seq<Entry>)
    ensures |probs| == 3
    ensures forall i :: 0 <= i < 3 ==> probs[i].name == ClassNames[i]
    ensures probs[0].value == round2(p.clear * 100.0)
    ensures probs[1].value == round2(p.cloudy * 100.0)
    ensures probs[2].value == round2(p.rain * 100.0)
  {
    [Entry("Clear", round2(p.clear * 100.0)), Entry("Cloudy", round2(p.cloudy * 100.0)), Entry("Rain", round2(p.rain * 100.0))]
  }

  /** `max(probs, key=probs.get)`: the first key, in table order, whose value is largest. */
  function PickMax(probs: seq<Entry>): (name: string)
    requires |probs| > 0
    ensures exists k :: 0 <= k < |probs| && name == probs[k].name &&
              (forall j :: 0 <= j < |probs| ==> probs[j].value <= probs[k].value) &&
              (forall j :: 0 <= j < k ==> probs[j].value < probs[k].value)
  {
    var k := ArgMax(Values(probs));
    probs[k].name
  }

  /** What the handler answers for a request, given the library and the draws. */
  function Outcome(req: ForecastRequest, lib: Library, d: Draws): (r: Response)
    ensures !IsSupportedCity(req.city) ==> r == Refused(400, CityDetail)
    ensures IsSupportedCity(req.city) && lib.toDatetime(req.datetime).Unparseable? ==> r == Refused(400, DatetimeDetail)
    ensures Validate(req, lib.toDatetime).AcceptedNaT? ==> r == Crashed(NaTTimetuple)
    ensures Validate(req, lib.toDatetime).Accepted? ==>
              var t := Validate(req, lib.toDatetime).time;
              var s := SignalsFor(t, lib.trig, d);
              var w := Jitter(PriorWeights(t.month, s.humidity, s.pressure, t.hour), d);
              (r.Crashed? <==> Total(w) == 0.0) &&
              (r.Answer? <==> Total(w) != 0.0) &&
              (r.Crashed? ==> r.fault == ZeroDivision) &&
              (r.Answer? ==> r.time == t.text && Normalise(w).Some? && r.probabilities == Table(Normalise(w).value, lib.round2))
    ensures r.Answer? ==>
              |r.probabilities| == 3 && (forall i :: 0 <= i < 3 ==> r.probabilities[i].name == ClassNames[i]) &&
              exists k :: 0 <= k < 3 && r.prediction == ClassNames[k] &&
                (forall j :: 0 <= j < 3 ==> r.probabilities[j].value <= r.probabilities[k].value) &&
                (forall j :: 0 <= j < k ==> r.probabilities[j].value < r.probabilities[k].value)
  {
    match Validate(req, lib.toDatetime)
    case Rejected(status, detail) => Refused(status, detail)
    case AcceptedNaT => Crashed(NaTTimetuple)
    case Accepted(t) =>
      var s := SignalsFor(t, lib.trig, d);
      match Normalise(Jitter(PriorWeights(t.month, s.humidity, s.pressure, t.hour), d))
      case None => Crashed(ZeroDivision)
      case Some(p) =>
        var probs := Table(p, lib.round2);
        Answer(t.text, PickMax(probs), probs)
  }

  /** The season branch and the humidity, pressure and hour rules, applied by
      reassigning the three weights in turn. */
  method AdjustWeights(month: int, humidity: real, pressure: real, hour: int)
    returns (clear: real, cloudy: real, rain: real)
    ensures Weights(clear, cloudy, rain) == PriorWeights(month, humidity, pressure, hour)
  {
    clear, cloudy, rain := 0.4, 0.3, 0.3;
    if month in [12, 1, 2] {
      clear, cloudy, rain := 0.5, 0.3, 0.2;
    } else if month in [3, 4, 5] {
      clear, cloudy, rain := 0.3, 0.4, 0.3;
    } else if month in [6, 7, 8] {
      clear, cloudy, rain := 0.6, 0.2, 0.2;
    } else if month in [9, 10, 11] {
      clear, cloudy, rain := 0.4, 0.3, 0.3;
    }
    if humidity > 80.0 {
      rain := rain + 0.2;
      clear := clear - 0.1;
    }
    if pressure < 1000.0 {
      rain := rain + 0.15;
      clear := clear - 0.1;
    }
    if pressure > 1020.0 {
      clear := clear + 0.1;
      rain := rain - 0.05;
    }
    if 6 <= hour <= 18 {
      clear := clear + 0.1;
    } else {
      cloudy := cloudy + 0.1;
    }
  }

  /** The two normalisation passes, dividing in place; `None` where the first
      total is zero. */
  method NormaliseInPlace(clear0: real, cloudy0: real, rain0: real) returns (r: Option<Weights>)
    ensures r == Normalise(Weights(clear0, cloudy0, rain0))
  {
    var clear, cloudy, rain := clear0, cloudy0, rain0;
    var total := clear + cloudy + rain;
    if total == 0.0 {
      return None;
    }
    clear := MaxZero(clear / total);
    cloudy := MaxZero(cloudy / total);
    rain := MaxZero(rain / total);
    total := clear + cloudy + rain;
    SharesSumToOne(Weights(clear0, cloudy0, rain0));
    assert total >= 1.0;
    clear := clear / total;
    cloudy := cloudy / total;
    rain := rain / total;
    r := Some(Weights(clear, cloudy, rain));
  }

  /** `forecast` of backend/simple_main.py. */
  method Forecast(req: ForecastRequest, lib: Library, d: Draws) returns (resp: Response)
    ensures resp == Outcome(req, lib, d)
  {
    var v := Validate(req, lib.toDatetime);
    if v.Rejected? {
      return Refused(v.status, v.detail);
    }
    if v.AcceptedNaT? {
      return Crashed(NaTTimetuple);
    }
    var t := v.time;
    var s := SignalsFor(t, lib.trig, d);
    var clear, cloudy, rain := AdjustWeights(t.month, s.humidity, s.pressure, t.hour);
    clear := clear + d.jitterClear;
    cloudy := cloudy + d.jitterCloudy;
    rain := rain + d.jitterRain;
    var p := NormaliseInPlace(clear, cloudy, rain);
    if p.None? {
      return Crashed(ZeroDivision);
    }
    var probs := Table(p.value, lib.round2);
    resp := Answer(t.text, PickMax(probs), probs);
  }
}
