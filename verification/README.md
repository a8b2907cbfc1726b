# Will It Rain On My Parade? — a Dafny model

T-Minus Rain forecasts the weather in New York City for a chosen date and
hour. This project models the parts of the system that decide something:

- **The LSTM forecast service** (`backend/main.py`). The module
  `LstmService` covers the following, in order:
  - the startup block that loads the model and its artefacts;
  - the guards of `forecast`: city, then datetime, then "model loaded";
  - the 720-step synthetic history window. Each step has its wrapped hour and
    day index and its name-keyed feature map, projected onto the schema's
    feature order;
  - the scaling of the window and of the time vector;
  - the single classifier call and the decoding of its output into a table
    and a first-maximum prediction.
- **The simplified forecast service** (`backend/simple_main.py`). The module
  `HeuristicService` covers:
  - the same two guards;
  - the synthetic signals;
  - the season base weights and the humidity, pressure and hour rules;
  - the random jitter and the two normalisation passes;
  - `max(probs, key=probs.get)`.
- **The Streamlit dashboard** (`app.py`). The module `Dashboard` covers:
  - the loop that generates the synthetic year of 2024, with its clipped
    humidity and its labelling rule (Clear, Cloudy, Rain or Snow from the
    rain chance and a uniform draw);
  - the probability breakdown, sorted largest first;
  - the seasonal message found by a loop with `break`.
- **The React page** (`src/App.tsx`). The module `WebClient` covers:
  - the seasonal context of the chosen date, with 0-based month indices;
  - the colour class of a condition;
  - the order of the breakdown;
  - the component state that `checkForecast` updates around its request:
    the date/time guard, the request string, the result, the loading flag
    and the error message.

Shared vocabulary lives in `Common`, `Seasons` (the four three-month groups
every part uses), `Ranking` (first-index arg-max and descending sort) and
`Requests` (the request, the city and datetime guards, the responses).

What the code cannot see is passed in as parameters:
- Random numbers: `Draws`, `DayDraws`, `StepDraws`, and per-step functions
  `nat -> ...`.
- sin and cos: `Trig`, measured in whole turns.
- Date parsing: `Library.toDatetime`, which raises (`Unparseable`), yields
  `NaT` (`NotATime`), or yields a `Timestamp` with month, day of year, hour
  and weekday. `pd.to_datetime` returns `NaT` without raising for an empty
  string, "NaT" or "nan"; the guard lets it through, and reading its calendar
  fields raises later (`Fault.NaTTimetuple`). In `backend/main.py` that
  happens after the "model loaded" guard; `backend/simple_main.py` has no
  such guard and raises straight after the datetime guard.
- Whether the startup success line could be printed: `announced` of
  `LstmService.Startup`. The line carries an emoji and is printed inside the
  loading `try`, so a console that cannot encode it leaves the service
  without a model.
- Rounding to two decimals: `Library.round2`.
- The Keras model: `Predictor`.
- The network reply seen by the page: `Reply`.

An exception the handler does not catch becomes `Response.Crashed(fault)`,
which FastAPI answers with status 500.

The history window's day index drops by one for every hourly step
(backend/main.py:77), so the oldest of the 720 steps lies 720 day indices
before the target day (`LstmService.DayDropsHourly`,
`LstmService.OldestStepDay`).

## Model

| member | source | states |
|---|---|---|
| Common.Clip | backend/main.py:90 | the clipped value lies in [lo, hi], equals the input when it is already inside, and otherwise is the bound it crossed |
| Common.MaxZero | backend/simple_main.py:112-114 | `max(0, x)` is non-negative, at least x, and x itself when x is non-negative |
| Common.Abs | app.py:50 | the absolute value is non-negative and is x or -x |
| Common.Lower | backend/main.py:53 | the result has the input's length and no capital letter left; each capital becomes its small letter and every other character is unchanged |
| Common.LowerIdempotent | backend/main.py:53 | lower-casing twice equals lower-casing once |
| Seasons.SeasonOf | backend/simple_main.py:71-86 | every month 1–12 belongs to the months of the season returned |
| Seasons.RainyMonth | backend/main.py:89 | a month is rainy exactly when it is one of 3, 4, 5, 9, 10, 11, the spring and fall groups |
| Seasons.SeasonsPartitionMonths | app.py:217-222 | each month 1–12 lies in exactly one season's months, and no other number lies in any |
| Ranking.ArgMax | backend/main.py:135 | `np.argmax` returns an index holding the maximum, with every earlier index strictly smaller (the first maximum) |
| Ranking.ConsSorted | app.py:208 | putting an entry at least as large as the head in front of a descending table keeps it descending |
| Ranking.Insert | app.py:208 | inserting into a descending table keeps it descending, adds exactly that entry, and puts it or the old head first |
| Ranking.SortDesc | app.py:208 | the sorted table is descending by value and a permutation of the input |
| Requests.Validate | backend/main.py:53-58 | the city guard runs first; a request is accepted exactly when the lower-cased city is an alias and the datetime parses; each rejection is a 400 with its own detail; a `NaT` parse is let through, not refused |
| Requests.CityGuardIgnoresCase | backend/main.py:53 | a city passes the guard exactly when its lower-cased form does |
| Requests.CityExamples | backend/simple_main.py:29-30 | "NYC", "New York City" and "new york" pass the guard, "Chicago" does not |
| LstmService.StepHour | backend/main.py:75-76 | the hour of step i is in 0–23 and congruent mod 24 to the target hour plus i − 719 |
| LstmService.UnwrappedDay | backend/main.py:77 | before wrapping, no step's day index exceeds the target day |
| LstmService.StepDay | backend/main.py:77-79 | the day index is at least 1; a positive unwrapped index is kept, and any other becomes the index in 1–365 congruent to it mod 365 |
| LstmService.StepHourAdvances | backend/main.py:75-76 | consecutive steps are consecutive clock hours |
| LstmService.NewestStepIsTarget | backend/main.py:75-79 | the newest step has the target's hour and day |
| LstmService.DayDropsHourly | backend/main.py:77 | the unwrapped day index rises by one per step, and by two across midnight of the target day |
| LstmService.OldestStepDay | backend/main.py:71-77 | the oldest step's unwrapped day index is the target day minus 720 |
| LstmService.FeatureMap | backend/main.py:87-104 | a step's map has exactly the nine feature keys, humidity in [20, 95], non-negative wind, and no rain outside spring and fall |
| LstmService.TimeFeatureMap | backend/main.py:113-125 | the time map has exactly the six time keys, with the target's month and weekday |
| LstmService.Project | backend/main.py:105 | the projected row exists exactly when every schema name is a key; entry k is the value of name k; otherwise a KeyError names a missing schema name |
| LstmService.ProjectionReadsOnlySchema | backend/main.py:105 | two maps that agree on the schema's names give the same row or the same error |
| LstmService.WindowPrefix | backend/main.py:72-105 | the rows of the first n steps, or the first exception: a successful prefix has n rows (row values and the first exception are stated by `WindowPrefixRows`) |
| LstmService.WindowPrefixRows | backend/main.py:73-105 | the first n steps give n rows exactly when the schema names are all keys (or n is 0), each row being that step's projection; otherwise the KeyError of an unknown name |
| LstmService.Window | backend/main.py:71-107 | the window exists exactly when every schema name is a feature key; it then has 720 rows, each as wide as the schema; otherwise a KeyError names an unknown schema name |
| LstmService.WindowEntries | backend/main.py:94-105 | entry k of row i is step i's feature value under schema name k |
| LstmService.WindowFailureSticks | backend/main.py:73-105 | once a step raises, every longer prefix raises the same exception |
| LstmService.StepClock | backend/main.py:75-79 | the loop's hour and day computations give the step's hour and day index |
| LstmService.WindowExtends | backend/main.py:105 | appending step n's row to the first n rows gives the first n + 1, and a failing step ends the window with its error |
| LstmService.AppendStep | backend/main.py:74-105 | one loop pass turns the first i rows into the first i + 1 |
| LstmService.CollectRows | backend/main.py:71-105 | the loop's rows are the window of all 720 steps, or the first exception |
| LstmService.SynthesizeWindow | backend/main.py:71-107 | the window built by the loop is the specified window |
| LstmService.RainColumnDryOutsideRainyMonths | backend/main.py:89 | for a target month outside spring and fall, every step's rain entry is 0 |
| LstmService.HumidityColumnClipped | backend/main.py:90 | every humidity entry of the window lies in [20, 95] |
| LstmService.Standardize | backend/main.py:110 | standardising keeps a row's width |
| LstmService.Transform | backend/main.py:110 | the scaler transforms exactly when the width matches the fitted features, keeping every shape; otherwise it raises a feature-count mismatch |
| LstmService.Startup | backend/main.py:26-41 | the service is ready exactly when the model, the encoder and all four bundle entries loaded and the success line was printed, and then holds exactly those artefacts, the loaded model included |
| LstmService.PrepareInputs | backend/main.py:105-131 | the inputs exist exactly when both schemas name known keys and match their scalers' widths; the window then has 720 rows as wide as the schema, and the time vector is as wide as its schema |
| LstmService.Decode | backend/main.py:133-135 | decoding succeeds exactly when the output is non-empty and no longer than the classes; otherwise an unseen label or an empty arg-max; entry i is class i with its rounded percentage; the prediction is the class of the first maximal output |
| LstmService.DecodedNamesDistinct | backend/main.py:134 | the decoded table never names a class twice |
| LstmService.Forecast | backend/main.py:52-141 | the guards in order (400 city, 400 datetime, 500 model not loaded) with no classifier call; a `NaT` time then crashes with no call; otherwise at most one call, and the answer or crash of the decoded output |
| LstmService.Respond | backend/main.py:134-141 | an answer exactly when decoding succeeded, carrying `str(target_time)`, the prediction and the table; a decoding exception becomes a crash |
| HeuristicService.SignalsFor | backend/simple_main.py:45-60 | humidity lies in [20, 95]; rain is 0 outside spring and fall or when the gate draw is at least 0.3; wind is at least 3 for a non-negative exponential draw |
| HeuristicService.BaseWeights | backend/simple_main.py:71-86 | each season's base weights sum to 1 with clear ≥ 0.3, cloudy ≥ 0.2, rain ≥ 0.2 |
| HeuristicService.SeasonBase | backend/simple_main.py:66-86 | the season branch leaves weights summing to 1 with the same minimums |
| HeuristicService.Adjustment | backend/simple_main.py:89-103 | the hour rule adds 0.1 in total, the humidity rule 0.1 more, and either pressure rule 0.05 more |
| HeuristicService.PriorWeights | backend/simple_main.py:66-103 | before jitter every weight is positive and the total lies in [1.1, 1.25] |
| HeuristicService.PressureRulesExclusive | backend/simple_main.py:92-97 | the low- and high-pressure rules never both apply |
| HeuristicService.HourRuleShiftsOneClass | backend/simple_main.py:100-103 | only the side of 06:00–18:59 matters; by day clear gains 0.1, by night cloudy does, and rain is unaffected |
| HeuristicService.Jitter | backend/simple_main.py:106-108 | the jitter moves the total by the sum of the three draws, and zero draws change nothing |
| HeuristicService.SharesSumToOne | backend/simple_main.py:111-114 | the shares of a non-zero total sum to 1 |
| HeuristicService.Normalise | backend/simple_main.py:110-120 | normalising fails exactly when the jittered total is 0; otherwise every probability is non-negative and they sum to 1 |
| HeuristicService.NormaliseOfNonNegative | backend/simple_main.py:110-120 | with no negative weight the two passes amount to dividing by the total |
| HeuristicService.UnjitteredDistribution | backend/simple_main.py:66-120 | without jitter the probabilities are the prior weights' shares and always defined |
| HeuristicService.PickMax | backend/simple_main.py:129 | the prediction names an entry of largest value with every earlier entry strictly smaller |
| HeuristicService.Outcome | backend/simple_main.py:28-135 | the two 400 guards; a `NaT` time crashes; for a time, a crash exactly when the jittered total is 0, and otherwise the table of the normalised jittered weights (non-negative, summing to 1, by `Normalise`) with a first-maximum prediction in class order |
| HeuristicService.AdjustWeights | backend/simple_main.py:65-103 | the in-place reassignments give the prior weights |
| HeuristicService.NormaliseInPlace | backend/simple_main.py:110-120 | the in-place divisions give the normalised weights, or fail on a zero total |
| HeuristicService.Forecast | backend/simple_main.py:28-135 | the handler's response is the specified outcome |
| Dashboard.SeasonRainChance | app.py:53-59 | the base rain chance is 0.4 exactly in spring, 0.25 exactly in summer, and 0.3 otherwise |
| Dashboard.RainChance | app.py:53-65 | the chance lies in [0.25, 0.75], is at least the season's, and equals it exactly when it is not humid and the pressure is not low |
| Dashboard.Label | app.py:67-76 | wet exactly below the chance, cloudy in the next 0.3, clear above; snow exactly when wet in a winter month below 35 degrees |
| Dashboard.NoSnowOutsideWinter | app.py:69-70 | no label outside December–February is snow |
| Dashboard.LabelBands | app.py:62-76 | a draw below 0.25 is always wet; a day whose chance is at least 0.7 is never clear for a draw below 1; a humid, low-pressure spring day has such a chance |
| Dashboard.MonthFrom | app.py:36 | the month found lies in 1–12, with the day between its first day and the next month's |
| Dashboard.MonthOf2024 | app.py:31-36 | `date.month` of a day of 2024 is the month whose first day is at or before it and whose successor starts after it |
| Dashboard.SampleOf | app.py:36-87 | a row carries its day and month, humidity in [20, 95], non-negative wind, the label of its own signals, and snow only in winter |
| Dashboard.SampleDay | app.py:35-76 | the loop body's reassignments give the specified row |
| Dashboard.CreateSampleData | app.py:26-89 | 366 rows, row j being the row of day j + 1 |
| Dashboard.SampleRowsInRange | app.py:44-87 | every row has humidity in [20, 95], non-negative wind, and snow only in winter |
| Dashboard.SampleRowsFollowCalendar | app.py:31-36 | months never decrease from row to row, starting in January and ending in December |
| Dashboard.MonthsAdvance | app.py:36 | a later day of 2024 falls in the same or a later month |
| Dashboard.ProbabilityBreakdown | app.py:203-208 | the breakdown is descending by value and a permutation of the percentage table, which holds each class once, in class order, at its probability times 100 |
| Dashboard.TableSeason | app.py:217-222 | the table's entries hold the months of winter, spring, summer and fall, in that order |
| Dashboard.Message | app.py:226 | the message is the emoji, " **", the season's name, " in NYC:** " and the description, in that order and nothing else |
| Dashboard.InfoOf | app.py:217-222 | a season's entry is in the table and holds that season's months |
| Dashboard.SeasonalMessage | app.py:224-227 | a month 1–12 gets the message of its own season's entry; any other number gets none |
| WebClient.ClientIndex | src/App.tsx:76-81 | a season's entry holds exactly the month indices one less than the season's months |
| WebClient.ContextOf | src/App.tsx:76-81 | a season's context is in the table, with month indices one less than the backend's months |
| WebClient.ClientSeasonsPartitionMonths | src/App.tsx:76-88 | each index 0–11 lies in exactly one entry, its season's, and no other number lies in any |
| WebClient.SeasonalContext | src/App.tsx:72-89 | no date gives nothing; a month index 0–11 gives the context of its own season; anything else gives nothing |
| WebClient.WeatherColor | src/App.tsx:17-25 | the four conditions get their palette class; the result is the default exactly when the condition is not Clear, Rain or Snow; every result is a palette class |
| WebClient.LabelsHaveColors | src/App.tsx:17-24 | every condition label of the dashboard's data has a palette class, and only Cloudy's equals the default |
| WebClient.ColorsOfConditions | src/App.tsx:17-25 | an unknown condition looks like Cloudy, and Clear, Rain and Snow get three different classes |
| WebClient.DisplayOrder | src/App.tsx:217-218 | the breakdown rows are descending by probability and a permutation of the answer's entries |
| WebClient.RequestFor | src/App.tsx:44-55 | the request names New York City; its datetime is the date, "T", the time and ":00", from which date and time read back |
| WebClient.ClientCityAccepted | src/App.tsx:53 | the page's city passes the API's city guard |
| WebClient.FailureMessage | src/App.tsx:58-66 | the message is empty exactly for a thrown error with an empty message; a non-empty detail is shown as it is |
| WebClient.ForecastPage.constructor | src/App.tsx:28-32 | empty inputs, no result, not loading, no error |
| WebClient.ForecastPage.SetDate | src/App.tsx:149 | only the date changes |
| WebClient.ForecastPage.SetTime | src/App.tsx:163 | only the time changes |
| WebClient.ForecastPage.StartCheck | src/App.tsx:34-44 | a missing date or time sets the guard message and sends nothing, leaving loading and the result alone; otherwise loading starts, the message clears and the request is sent |
| WebClient.ForecastPage.FinishCheck | src/App.tsx:58-69 | a delivered answer becomes the result; a failure sets the message and keeps the old result; loading stops either way |
| WebClient.ForecastPage.CheckForecast | src/App.tsx:34-70 | the guard path changes only the message; a sent request ends not loading, with the answer and a cleared message, or with the old result and the failure message |

## Left out

- Floating point. All arithmetic is on exact reals. Float rounding,
  `float32` casts and their accumulated error are not modelled. With exact
  reals, sums such as 0.3 + 0.4 + 0.3 are exactly 1.
- Rounding to two decimals (`round(x * 100, 2)`) is the parameter
  `Library.round2`. Rounding to one decimal of the sample rows (app.py:80-83)
  is not applied: `Sample` holds the unrounded values.
- sin, cos and the Gaussian, exponential and uniform draws are parameters.
  Their distributions, the seeding (`np.random.seed(42)`) and the order in
  which the generator is consumed are not modelled.
- `pd.to_datetime`, `timetuple().tm_yday` and `weekday()` are the parameter
  `Library.toDatetime`. Which strings raise and which give `NaT` is left to
  that parameter. The `ValueError` that `NaT`'s calendar fields raise is
  modelled, as `Crashed(NaTTimetuple)`. `new Date(date).getMonth()`, with its time-zone
  behaviour, is a parameter of `WebClient.SeasonalContext`, where `None`
  stands for an unparseable date.
- Keras, joblib and scikit-learn. `load_model`, `joblib.load` and
  `model.predict` are parameters. `StandardScaler.transform` is modelled
  concretely as (x − mean) / scale with a width check. The label encoder is
  a sequence of distinct class names. The Keras input-shape checks are not
  modelled.
- Common.Lower: only ASCII letters are lower-cased, where Python's
  `str.lower` also maps non-ASCII letters. So the city guard of the model
  refuses some cities the source accepts: "NEW YOR\u212A" (with the Kelvin
  sign) lower-cases to "new york" in Python, but `Requests.Validate` refuses
  it.
- Ranking.SortDesc: descending and a permutation, but the stability of
  Python's `sorted` and of JavaScript's `Array.prototype.sort` (equal
  values keep their order) is not stated.
- WebClient.WeatherColor: a JavaScript record lookup also finds inherited
  keys such as `constructor`. The model treats every string other than the
  four conditions as unknown.
- React batching and re-rendering, `fetch`, the JSON bodies and the
  `async` interleaving. `checkForecast` is split at its `await` into
  `StartCheck` and `FinishCheck`, and the network outcome is the parameter
  `Reply`. Nothing prevents a second check from starting while one is
  loading, apart from the button's `disabled` flag, which belongs to the
  rendering.
- The rendering itself. This covers the JSX, the icons (`weatherIcons`,
  app.py's `weather_icons`), `st.info`/`st.write`/`st.progress` and the
  charts. The seasonal message is modelled as the markdown string it shows.
- The web frameworks and servers: FastAPI, CORS, uvicorn, the `health`
  endpoints and Streamlit's widgets and caching. An uncaught exception is
  modelled as a 500 response.
- app.py's model training and its prediction features (app.py:93-176) are
  library calls. The breakdown takes the classifier's probabilities as
  input.
- The LSTM's numbers themselves. `Predictor` is any function from the two
  inputs to an output vector.
- `frontend/src/App.jsx` is not part of this model. It is a form that posts
  to the API and shows the reply.
