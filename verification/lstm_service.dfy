/** The LSTM forecast endpoint of backend/main.py: loading of the model
    artefacts at startup, the request guards, the synthetic 720-step history
    window, the schema-ordered projection and standard scaling of the features,
    one call of the classifier and the decoding of its probability vector. */
module LstmService {
  import opened Common
  import opened Seasons
  import opened Ranking
  import opened Requests

  /** Length of the synthetic history window; step 0 is the oldest. */
  const Steps: nat := 720
  const Newest: nat := Steps - 1

  // ----- Step index arithmetic -------------------------------------------

  /** The wall-clock hour of step `i`: the target hour shifted by `i - 719` hours. */
  function StepHour(hour: int, i: int): (h: int)
    ensures 0 <= h < 24
    ensures (h - (hour + (i - Newest))) % 24 == 0
  {
    (hour + (i - Newest)) % 24
  }

  /** The day index of step `i` before wrapping. As written, it loses one day per
      hourly step, and one more for the steps that fall before midnight of the
      target day. */
  function UnwrappedDay(dayOfYear: int, hour: int, i: int): (d: int)
    ensures i <= Newest ==> d <= dayOfYear
  {
    (dayOfYear - (if hour + (i - Newest) < 0 then 1 else 0)) - (Newest - i)
  }

  /** The day index of step `i`: an unwrapped value of zero or less is taken
      modulo 365, with 0 read as 365. */
  function StepDay(dayOfYear: int, hour: int, i: int): (d: int)
    ensures d >= 1
    ensures UnwrappedDay(dayOfYear, hour, i) > 0 ==> d == UnwrappedDay(dayOfYear, hour, i)
    ensures UnwrappedDay(dayOfYear, hour, i) <= 0 ==>
              d <= 365 && (d - UnwrappedDay(dayOfYear, hour, i)) % 365 == 0
  {
    var raw := UnwrappedDay(dayOfYear, hour, i);
    if raw <= 0 then (if raw % 365 == 0 then 365 else raw % 365) else raw
  }

  /** Consecutive steps are consecutive hours of the clock. */
  lemma StepHourAdvances(hour: int, i: int)
    ensures StepHour(hour, i + 1) == (StepHour(hour, i) + 1) % 24
  {
    var x := hour + (i - Newest);
    assert StepHour(hour, i + 1) == (x + 1) % 24;
  }

  /** The newest step is the target hour and day itself. */
  lemma NewestStepIsTarget(t: Timestamp)
    ensures StepHour(t.hour, Newest) == t.hour
    ensures StepDay(t.dayOfYear, t.hour, Newest) == t.dayOfYear
  {
  }

  /** The unwrapped day goes up by one from each step to the next, and by two
      where the hour crosses midnight into the target day. */
  lemma DayDropsHourly(dayOfYear: int, hour: int, i: int)
    requires 0 <= i < Newest
    ensures UnwrappedDay(dayOfYear, hour, i + 1) - UnwrappedDay(dayOfYear, hour, i)
            == if i + 1 == Newest - hour then 2 else 1
  {
  }

  /** So the oldest step lies 720 day indices before the target day. */
  lemma OldestStepDay(t: Timestamp)
    ensures UnwrappedDay(t.dayOfYear, t.hour, 0) == t.dayOfYear - Steps
  {
  }

  // ----- Synthetic feature maps ------------------------------------------

  const SeqFeatureKeys: set<string> :=
    {"temp_c", "pressure_hpa", "rain_mmhr", "humidity", "wind_ms", "hour_sin", "hour_cos", "doy_sin", "doy_cos"}

  const TimeFeatureKeys: set<string> :=
    {"hour_sin", "hour_cos", "doy_sin", "doy_cos", "month", "dayofweek"}

  /** The random draws of one step: the Gaussian noises, the uniform draw that
      gates rain and the exponential rain amount. */
  datatype StepDraws = StepDraws(
    tempNoise: real, pressureNoise: real, rainGate: real, rainAmount: real,
    humidityNoise: real, windNoise: real)

  /** The name-keyed feature map of one step. Rain is gated by the month of the
      target time, not of the step. */
  function FeatureMap(month: int, hourI: int, dayI: int, trig: Trig, d: StepDraws): (fm: map<string, real>)
    ensures fm.Keys == SeqFeatureKeys
    ensures 20.0 <= fm["humidity"] <= 95.0
    ensures fm["wind_ms"] >= 0.0
    ensures !RainyMonth(month) ==> fm["rain_mmhr"] == 0.0
  {
    var hourTurn := hourI as real / 24.0;
    var dayTurn := dayI as real / 365.0;
    map[
      "temp_c" := 10.0 + 20.0 * trig.turnSin((dayI - 80) as real / 365.0) + d.tempNoise,
      "pressure_hpa" := 1013.0 + 10.0 * trig.turnSin((dayI - 200) as real / 365.0) + d.pressureNoise,
      "rain_mmhr" := if RainyMonth(month) && d.rainGate < 0.15 then d.rainAmount else 0.0,
      "humidity" := Clip(50.0 + 30.0 * trig.turnSin((dayI - 120) as real / 365.0) + d.humidityNoise, 20.0, 95.0),
      "wind_ms" := MaxZero(3.0 + d.windNoise),
      "hour_sin" := trig.turnSin(hourTurn),
      "hour_cos" := trig.turnCos(hourTurn),
      "doy_sin" := trig.turnSin(dayTurn),
      "doy_cos" := trig.turnCos(dayTurn)
    ]
  }

  /** The feature map of step `i` of the window for target time `t`. */
  function StepMap(t: Timestamp, trig: Trig, draws: nat -> StepDraws, i: nat): map<string, real>
  {
    FeatureMap(t.month, StepHour(t.hour, i), StepDay(t.dayOfYear, t.hour, i), trig, draws(i))
  }

  /** The time-context map of the target time itself. */
  function TimeFeatureMap(t: Timestamp, trig: Trig): (fm: map<string, real>)
    ensures fm.Keys == TimeFeatureKeys
    ensures fm["month"] == t.month as real && fm["dayofweek"] == t.weekday as real
  {
    var hourTurn := t.hour as real / 24.0;
    var dayTurn := t.dayOfYear as real / 365.0;
    map[
      "hour_sin" := trig.turnSin(hourTurn),
      "hour_cos" := trig.turnCos(hourTurn),
      "doy_sin" := trig.turnSin(dayTurn),
      "doy_cos" := trig.turnCos(dayTurn),
      "month" := t.month as real,
      "dayofweek" := t.weekday as real
    ]
  }

  // ----- Schema-ordered projection ---------------------------------------

  predicate KnownNames(names: seq<string>, keys: set<string>)
  {
    forall k :: 0 <= k < |names| ==> names[k] in keys
  }

  predicate Rectangular(rows: seq<seq<real>>)
  {
    forall i :: 0 <= i < |rows| ==> |rows[i]| == |rows[0]|
  }

  /** `[fm[name] for name in names]`: the row follows the schema's order and
      raises KeyError at the first name the map lacks. */
  function Project(fm: map<string, real>, names: seq<string>): (r: Result<seq<real>, Fault>)
    ensures r.Ok? <==> KnownNames(names, fm.Keys)
    ensures r.Ok? ==> |r.value| == |names| && forall k :: 0 <= k < |names| ==> r.value[k] == fm[names[k]]
    ensures r.Err? ==> exists k :: 0 <= k < |names| && r.error == KeyError(names[k]) && names[k] !in fm
                                   && forall j :: 0 <= j < k ==> names[j] in fm
  {
    if names == [] then Ok([])
    else if names[0] !in fm then Err(KeyError(names[0]))
    else
      match Project(fm, names[1..])
      case Err(e) =>
        assert exists k :: 0 < k < |names| && e == KeyError(names[k]) && names[k] !in fm
                           && forall j :: 0 <= j < k ==> names[j] in fm;
        Err(e)
      case Ok(rest) => Ok([fm[names[0]]] + rest)
  }

  /** The row depends only on the values stored under the schema's names, never on
      the map's other keys or its iteration order. */
  lemma {:induction false} ProjectionReadsOnlySchema(fm1: map<string, real>, fm2: map<string, real>, names: seq<string>)
    requires forall k :: 0 <= k < |names| ==> (names[k] in fm1 <==> names[k] in fm2)
    requires forall k :: 0 <= k < |names| && names[k] in fm1 ==> fm1[names[k]] == fm2[names[k]]
    ensures Project(fm1, names) == Project(fm2, names)
  {
    if names != [] {
      ProjectionReadsOnlySchema(fm1, fm2, names[1..]);
    }
  }

  // ----- The window --------------------------------------------------------

  /** The feature maps of all steps of the window for target time `t`. */
  function StepMaps(t: Timestamp, trig: Trig, draws: nat -> StepDraws): (maps: nat -> map<string, real>)
    ensures forall i: nat :: maps(i) == StepMap(t, trig, draws, i)
  {
    (i: nat) => StepMap(t, trig, draws, i)
  }

  /** The rows built from the first `n` feature maps, or the first exception raised. */
  function WindowPrefix(maps: nat -> map<string, real>, names: seq<string>, n: nat): (r: Result<seq<seq<real>>, Fault>)
    ensures r.Ok? ==> |r.value| == n
  {
    if n == 0 then Ok([])
    else
      match WindowPrefix(maps, names, n - 1)
      case Err(e) => Err(e)
      case Ok(rows) =>
        match Project(maps(n - 1), names)
        case Err(e) => Err(e)
        case Ok(row) => Ok(rows + [row])
  }

  /** What the first `n` steps produce when every step's map has the same keys:
      `n` rows, row `i` the projection of map `i`, or else the KeyError of the
      first name that is not a key. */
  lemma {:induction false} WindowPrefixRows(maps: nat -> map<string, real>, keys: set<string>, names: seq<string>, n: nat)
    requires forall i: nat :: maps(i).Keys == keys
    ensures var w := WindowPrefix(maps, names, n);
            && (w.Ok? <==> n == 0 || KnownNames(names, keys))
            && (w.Ok? ==> |w.value| == n)
            && (w.Ok? ==> forall i :: 0 <= i < n ==> Project(maps(i), names) == Ok(w.value[i]))
            && (w.Err? ==> exists k :: 0 <= k < |names| && w.error == KeyError(names[k]) && names[k] !in keys
                                       && forall j :: 0 <= j < k ==> names[j] in keys)
  {
    if n > 0 {
      WindowPrefixRows(maps, keys, names, n - 1);
      assert maps(n - 1).Keys == keys;
    }
  }

  /** The full 720-row window. */
  function Window(t: Timestamp, names: seq<string>, trig: Trig, draws: nat -> StepDraws)
    : (w: Result<seq<seq<real>>, Fault>)
    ensures w.Ok? <==> KnownNames(names, SeqFeatureKeys)
    ensures w.Ok? ==> |w.value| == Steps && Rectangular(w.value)
    ensures w.Ok? ==> forall i :: 0 <= i < Steps ==> |w.value[i]| == |names|
    ensures w.Err? ==> exists k :: 0 <= k < |names| && w.error == KeyError(names[k]) && names[k] !in SeqFeatureKeys
                                   && forall j :: 0 <= j < k ==> names[j] in SeqFeatureKeys
  {
    var maps := StepMaps(t, trig, draws);
    WindowPrefixRows(maps, SeqFeatureKeys, names, Steps);
    WindowPrefix(maps, names, Steps)
  }

  /** Entry `k` of row `i` is the value of the `k`-th schema name in step `i`'s map. */
  lemma WindowEntries(t: Timestamp, names: seq<string>, trig: Trig, draws: nat -> StepDraws)
    requires Window(t, names, trig, draws).Ok?
    ensures forall i, k :: 0 <= i < Steps && 0 <= k < |names| ==>
              Window(t, names, trig, draws).value[i][k] == StepMap(t, trig, draws, i)[names[k]]
  {
    WindowPrefixRows(StepMaps(t, trig, draws), SeqFeatureKeys, names, Steps);
  }

  /** Once a step has raised, so has every longer prefix, with the same exception. */
  lemma {:induction false} WindowFailureSticks(maps: nat -> map<string, real>, names: seq<string>, n: nat, m: nat)
    requires n <= m
    requires WindowPrefix(maps, names, n).Err?
    ensures WindowPrefix(maps, names, m) == WindowPrefix(maps, names, n)
    decreases m
  {
    if n < m {
      WindowFailureSticks(maps, names, n, m - 1);
    }
  }

  /** The hour and day index of step `i`, computed as the loop body does:
      the day is first computed unwrapped and reassigned when it is not positive. */
  method StepClock(t: Timestamp, i: nat) returns (hourI: int, dayI: int)
    ensures hourI == StepHour(t.hour, i) && 0 <= hourI < 24
    ensures dayI == StepDay(t.dayOfYear, t.hour, i) && dayI >= 1
  {
    var offsetHours := i - Newest;
    hourI := (t.hour + offsetHours) % 24;
    dayI := (t.dayOfYear - (if t.hour + offsetHours < 0 then 1 else 0)) - (Newest - i);
    if dayI <= 0 {
      dayI := if dayI % 365 == 0 then 365 else dayI % 365;
    }
  }

  /** Appending step `n`'s outcome to the first `n` rows gives the first `n + 1`. */
  lemma WindowExtends(maps: nat -> map<string, real>, names: seq<string>, n: nat, rows: seq<seq<real>>)
    requires WindowPrefix(maps, names, n) == Ok(rows)
    ensures WindowPrefix(maps, names, n + 1) ==
              match Project(maps(n), names)
              case Ok(row) => Ok(rows + [row])
              case Err(e) => Err(e)
  {
  }

  /** One pass of the loop body: step `i`'s clock, feature map and row,
      appended to the rows of the steps before it. */
  method AppendStep(t: Timestamp, names: seq<string>, trig: Trig, draws: nat -> StepDraws, i: nat,
                    rows: seq<seq<real>>, ghost maps: nat -> map<string, real>)
    returns (next: Result<seq<seq<real>>, Fault>)
    requires forall j: nat {:trigger StepMap(t, trig, draws, j)} :: maps(j) == StepMap(t, trig, draws, j)
    requires WindowPrefix(maps, names, i) == Ok(rows)
    ensures next == WindowPrefix(maps, names, i + 1)
  {
    var hourI, dayI := StepClock(t, i);
    var row := Project(FeatureMap(t.month, hourI, dayI, trig, draws(i)), names);
    assert maps(i) == StepMap(t, trig, draws, i);
    WindowExtends(maps, names, i, rows);
    if row.Err? {
      next := Err(row.error);
    } else {
      next := Ok(rows + [row.value]);
    }
  }

  /** The loop of backend/main.py: one row per step, appended oldest first;
      `maps` names the feature maps the steps build. */
  method CollectRows(t: Timestamp, names: seq<string>, trig: Trig, draws: nat -> StepDraws,
                     ghost maps: nat -> map<string, real>)
    returns (w: Result<seq<seq<real>>, Fault>)
    requires forall j: nat {:trigger StepMap(t, trig, draws, j)} :: maps(j) == StepMap(t, trig, draws, j)
    ensures w == WindowPrefix(maps, names, Steps)
  {
    var rows: seq<seq<real>> := [];
    var i := 0;
    while i < Steps
      invariant 0 <= i <= Steps
      invariant WindowPrefix(maps, names, i) == Ok(rows)
    {
      var next := AppendStep(t, names, trig, draws, i, rows, maps);
      if next.Err? {
        WindowFailureSticks(maps, names, i + 1, Steps);
        return next;
      }
      rows := next.value;
      i := i + 1;
    }
    w := Ok(rows);
  }

  /** The window as the service builds it. */
  method SynthesizeWindow(t: Timestamp, names: seq<string>, trig: Trig, draws: nat -> StepDraws)
    returns (w: Result<seq<seq<real>>, Fault>)
    ensures w == Window(t, names, trig, draws)
  {
    w := CollectRows(t, names, trig, draws, StepMaps(t, trig, draws));
  }

  /** When the target month is outside spring and fall, the rain column of the
      window is zero at every step. */
  lemma RainColumnDryOutsideRainyMonths(t: Timestamp, names: seq<string>, trig: Trig, draws: nat -> StepDraws, k: nat)
    requires !RainyMonth(t.month)
    requires k < |names| && names[k] == "rain_mmhr"
    requires Window(t, names, trig, draws).Ok?
    ensures forall i :: 0 <= i < Steps ==> Window(t, names, trig, draws).value[i][k] == 0.0
  {
    WindowEntries(t, names, trig, draws);
  }

  /** Every humidity entry of the window lies in [20, 95]. */
  lemma HumidityColumnClipped(t: Timestamp, names: seq<string>, trig: Trig, draws: nat -> StepDraws, k: nat)
    requires k < |names| && names[k] == "humidity"
    requires Window(t, names, trig, draws).Ok?
    ensures forall i :: 0 <= i < Steps ==> 20.0 <= Window(t, names, trig, draws).value[i][k] <= 95.0
  {
    WindowEntries(t, names, trig, draws);
  }

  // ----- Standard scaling --------------------------------------------------

  /** A fitted standard scaler: per-feature mean and scale. */
  datatype Scaler = Scaler(mean: seq<real>, scale: seq<real>)

  /** What fitting guarantees: one mean and one non-zero scale per feature, at
      least one feature. */
  predicate Fitted(s: Scaler)
  {
    |s.mean| == |s.scale| >= 1 && forall k :: 0 <= k < |s.scale| ==> s.scale[k] != 0.0
  }

  type FittedScaler = s: Scaler | Fitted(s) witness Scaler([0.0], [1.0])

  function Standardize(s: FittedScaler, row: seq<real>): (r: seq<real>)
    requires |row| == |s.mean|
    ensures |r| == |row|
  {
    seq(|row|, k requires 0 <= k < |row| => (row[k] - s.mean[k]) / s.scale[k])
  }

  /** `scaler.transform`: raises when the matrix width differs from the number of
      features the scaler was fitted on; otherwise keeps the shape. */
  function Transform(s: FittedScaler, rows: seq<seq<real>>): (r: Result<seq<seq<real>>, Fault>)
    requires |rows| > 0 && Rectangular(rows)
    ensures r.Ok? <==> |rows[0]| == |s.mean|
    ensures r.Err? ==> r.error == FeatureCountMismatch(|rows[0]|, |s.mean|)
    ensures r.Ok? ==> |r.value| == |rows| && forall i :: 0 <= i < |rows| ==> |r.value[i]| == |rows[i]|
  {
    if |rows[0]| != |s.mean| then Err(FeatureCountMismatch(|rows[0]|, |s.mean|))
    else Ok(seq(|rows|, i requires 0 <= i < |rows| => Standardize(s, rows[i])))
  }

  // ----- Artefacts and startup ---------------------------------------------

  /** The classifier: `model.predict([sequence_input, time_input])[0]`. */
  type Predictor = (seq<seq<real>>, seq<real>) -> seq<real>

  datatype ModelContext = ModelContext(
    predict: Predictor, scaler: FittedScaler, timeScaler: FittedScaler, classes: Classes,
    seqFeatures: seq<string>, timeFeatures: seq<string>)

  /** After startup the service either holds every artefact or none. */
  datatype Service = Ready(ctx: ModelContext) | Degraded

  /** The scaler bundle file: each entry is present or missing. */
  datatype Bundle = Bundle(
    scaler: Option<FittedScaler>, timeScaler: Option<FittedScaler>,
    seqFeatures: Option<seq<string>>, timeFeatures: Option<seq<string>>)

  /** The startup block: any failed load or missing bundle entry leaves the
      service without a model. The success line is printed inside the same
      `try`, so a print that raises (a console that cannot encode its emoji)
      also leaves the service without a model; `announced` says whether that
      print went through. */
  function Startup(model: Option<Predictor>, bundle: Option<Bundle>, encoder: Option<Classes>, announced: bool): (s: Service)
    ensures s.Ready? <==>
              announced && model.Some? && encoder.Some? && bundle.Some? &&
              bundle.value.scaler.Some? && bundle.value.timeScaler.Some? &&
              bundle.value.seqFeatures.Some? && bundle.value.timeFeatures.Some?
    ensures s.Ready? ==>
              s.ctx.predict == model.value && s.ctx.classes == encoder.value &&
              s.ctx.scaler == bundle.value.scaler.value && s.ctx.timeScaler == bundle.value.timeScaler.value &&
              s.ctx.seqFeatures == bundle.value.seqFeatures.value && s.ctx.timeFeatures == bundle.value.timeFeatures.value
  {
    match (model, bundle, encoder)
    case (Some(m), Some(Bundle(Some(sc), Some(ts), Some(sf), Some(tf))), Some(le)) =>
      if announced then Ready(ModelContext(m, sc, ts, le, sf, tf)) else Degraded
    case _ => Degraded
  }

  // ----- Model inputs ------------------------------------------------------

  datatype ModelInputs = ModelInputs(window: seq<seq<real>>, context: seq<real>)

  /** The scaled window and scaled time vector, or the first exception on the way:
      window projection, window scaling, time projection, time scaling. */
  function PrepareInputs(t: Timestamp, ctx: ModelContext, trig: Trig, draws: nat -> StepDraws)
    : (r: Result<ModelInputs, Fault>)
    ensures r.Ok? <==>
              KnownNames(ctx.seqFeatures, SeqFeatureKeys) && |ctx.seqFeatures| == |ctx.scaler.mean| &&
              KnownNames(ctx.timeFeatures, TimeFeatureKeys) && |ctx.timeFeatures| == |ctx.timeScaler.mean|
    ensures r.Ok? ==>
              |r.value.window| == Steps &&
              (forall i :: 0 <= i < Steps ==> |r.value.window[i]| == |ctx.seqFeatures|) &&
              |r.value.context| == |ctx.timeFeatures|
  {
    match Window(t, ctx.seqFeatures, trig, draws)
    case Err(e) => Err(e)
    case Ok(raw) =>
      match Transform(ctx.scaler, raw)
      case Err(e) => Err(e)
      case Ok(scaled) =>
        match Project(TimeFeatureMap(t, trig), ctx.timeFeatures)
        case Err(e) => Err(e)
        case Ok(timeRow) =>
          match Transform(ctx.timeScaler, [timeRow])
          case Err(e) => Err(e)
          case Ok(timeScaled) => Ok(ModelInputs(scaled, timeScaled[0]))
  }

  // ----- Decoding ----------------------------------------------------------

  datatype Decoded = Decoded(prediction: string, probabilities: seq<Entry>)

  /** The probability table (one entry per output index, named by the encoder,
      as a rounded percentage) and the class of the first maximal output. */
  function Decode(yhat: seq<real>, classes: Classes, round2: real -> real): (r: Result<Decoded, Fault>)
    ensures r.Ok? <==> 0 < |yhat| <= |classes|
    ensures |yhat| > |classes| ==> r == Err(UnseenLabel(|classes|))
    ensures |yhat| == 0 ==> r == Err(EmptyArgmax)
    ensures r.Ok? ==>
              |r.value.probabilities| == |yhat| &&
              forall i :: 0 <= i < |yhat| ==> r.value.probabilities[i] == Entry(classes[i], round2(yhat[i] * 100.0))
    ensures r.Ok? ==>
              exists k :: 0 <= k < |yhat| && r.value.prediction == classes[k] &&
                (forall j :: 0 <= j < |yhat| ==> yhat[j] <= yhat[k]) &&
                (forall j :: 0 <= j < k ==> yhat[j] < yhat[k])
  {
    if |yhat| > |classes| then Err(UnseenLabel(|classes|))
    else if |yhat| == 0 then Err(EmptyArgmax)
    else
      var probabilities := seq(|yhat|, i requires 0 <= i < |yhat| => Entry(classes[i], round2(yhat[i] * 100.0)));
      Ok(Decoded(classes[ArgMax(yhat)], probabilities))
  }

  /** The decoded table has one entry per class name, never two for the same name. */
  lemma DecodedNamesDistinct(yhat: seq<real>, classes: Classes, round2: real -> real)
    requires Decode(yhat, classes, round2).Ok?
    ensures var p := Decode(yhat, classes, round2).value.probabilities;
            forall i, j :: 0 <= i < j < |p| ==> p[i].name != p[j].name
  {
  }

  // ----- The handler -------------------------------------------------------

  const ModelDetail: string := "Model not loaded"

  /** The response dictionary: `str(target_time)`, the prediction and the
      table of a decoded output, or a crash with the decoding's exception. */
  function Respond(t: Timestamp, decoded: Result<Decoded, Fault>): (r: Response)
    ensures r.Answer? <==> decoded.Ok?
    ensures decoded.Err? ==> r == Crashed(decoded.error)
    ensures decoded.Ok? ==>
              r.time == t.text && r.prediction == decoded.value.prediction &&
              r.probabilities == decoded.value.probabilities
  {
    match decoded
    case Err(f) => Crashed(f)
    case Ok(d) => Answer(t.text, d.prediction, d.probabilities)
  }

  /** `forecast`: the guards in order (city, datetime, model loaded), then the
      calendar fields of the target time (which raise for `NaT`), the window,
      scaling, at most one classifier call, and decoding. `predictCalls`
      counts the classifier calls. */
  method Forecast(req: ForecastRequest, lib: Library, service: Service, draws: nat -> StepDraws)
    returns (resp: Response, predictCalls: nat)
    ensures predictCalls <= 1
    ensures !IsSupportedCity(req.city) ==> resp == Refused(400, CityDetail) && predictCalls == 0
    ensures IsSupportedCity(req.city) && lib.toDatetime(req.datetime).Unparseable? ==>
              resp == Refused(400, DatetimeDetail) && predictCalls == 0
    ensures !Validate(req, lib.toDatetime).Rejected? && service.Degraded? ==>
              resp == Refused(500, ModelDetail) && predictCalls == 0
    ensures Validate(req, lib.toDatetime).AcceptedNaT? && service.Ready? ==>
              resp == Crashed(NaTTimetuple) && predictCalls == 0
    ensures Validate(req, lib.toDatetime).Accepted? && service.Ready? ==>
              var t := Validate(req, lib.toDatetime).time;
              var ctx := service.ctx;
              match PrepareInputs(t, ctx, lib.trig, draws)
              case Err(f) => resp == Crashed(f) && predictCalls == 0
              case Ok(inputs) =>
                predictCalls == 1 &&
                resp == Respond(t, Decode(ctx.predict(inputs.window, inputs.context), ctx.classes, lib.round2))
  {
    var v := Validate(req, lib.toDatetime);
    if v.Rejected? {
      return Refused(v.status, v.detail), 0;
    }
    if service.Degraded? {
      return Refused(500, ModelDetail), 0;
    }
    if v.AcceptedNaT? {
      return Crashed(NaTTimetuple), 0;
    }
    var t, ctx := v.time, service.ctx;
    var raw := SynthesizeWindow(t, ctx.seqFeatures, lib.trig, draws);
    if raw.Err? {
      return Crashed(raw.error), 0;
    }
    var seqScaled := Transform(ctx.scaler, raw.value);
    if seqScaled.Err? {
      return Crashed(seqScaled.error), 0;
    }
    var timeRaw := Project(TimeFeatureMap(t, lib.trig), ctx.timeFeatures);
    if timeRaw.Err? {
      return Crashed(timeRaw.error), 0;
    }
    var timeScaled := Transform(ctx.timeScaler, [timeRaw.value]);
    if timeScaled.Err? {
      return Crashed(timeScaled.error), 0;
    }
    var yhat := ctx.predict(seqScaled.value, timeScaled.value[0]);
    predictCalls := 1;
    resp := Respond(t, Decode(yhat, ctx.classes, lib.round2));
  }
}
