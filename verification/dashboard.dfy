/** The Streamlit dashboard (app.py): the synthetic year of daily weather that
    trains its classifier, with the rule that labels each day, the probability
    breakdown it shows for a forecast, and the seasonal message below it. */
module Dashboard {
  import opened Common
  import opened Seasons
  import opened Ranking

  datatype Condition = Clear | Cloudy | Rain | Snow

  /** The string stored in a row's `condition` column. */
  function ConditionName(c: Condition): string
  {
    match c
    case Clear => "Clear"
    case Cloudy => "Cloudy"
    case Rain => "Rain"
    case Snow => "Snow"
  }

  // ----- The labelling rule ---------------------------------------------------

  /** The season's share of rain before the humidity and pressure rules:
      more in spring, less in summer, 0.3 otherwise. */
  function SeasonRainChance(month: int): (p: real)
    ensures p == 0.4 <==> month in MonthsOf(Spring)
    ensures p == 0.25 <==> month in MonthsOf(Summer)
    ensures p == 0.3 <==> month !in MonthsOf(Spring) + MonthsOf(Summer)
  {
    if month in MonthsOf(Spring) then 0.4
    else if month in MonthsOf(Summer) then 0.25
    else 0.3
  }

  /** The chance of a wet day: the season's share, plus 0.2 when humid and 0.15
      when the pressure is low. */
  function RainChance(month: int, humidity: real, pressure: real): (p: real)
    ensures 0.25 <= p <= 0.75
    ensures p >= SeasonRainChance(month)
    ensures p == SeasonRainChance(month) <==> humidity <= 80.0 && pressure >= 1000.0
  {
    SeasonRainChance(month) + (if humidity > 80.0 then 0.2 else 0.0) + (if pressure < 1000.0 then 0.15 else 0.0)
  }

  /** Below the rain chance a day is wet (snow in a cold winter, rain otherwise),
      in the next 0.3 it is cloudy, and above that clear. */
  function Label(month: int, humidity: real, pressure: real, temp: real, rand: real): (c: Condition)
    ensures var p := RainChance(month, humidity, pressure);
            && (c in {Rain, Snow} <==> rand < p)
            && (c == Cloudy <==> p <= rand < p + 0.3)
            && (c == Clear <==> p + 0.3 <= rand)
            && (c == Snow <==> rand < p && month in MonthsOf(Winter) && temp < 35.0)
  {
    var p := RainChance(month, humidity, pressure);
    if rand < p then
      if month in MonthsOf(Winter) && temp < 35.0 then Snow else Rain
    else if rand < p + 0.3 then Cloudy
    else Clear
  }

  /** Snow is never a label outside December, January and February. */
  lemma NoSnowOutsideWinter(month: int, humidity: real, pressure: real, temp: real, rand: real)
    requires month !in MonthsOf(Winter)
    ensures Label(month, humidity, pressure, temp, rand) != Snow
  {
  }

  /** For a uniform draw in [0, 1): a draw below 0.25 is always wet, and a day
      whose rain chance is at least 0.7 (a humid, low-pressure spring day) is
      never clear, because the clear band starts at or above 1. */
  lemma LabelBands(month: int, humidity: real, pressure: real, temp: real, rand: real)
    ensures 0.0 <= rand < 0.25 ==> Label(month, humidity, pressure, temp, rand) in {Rain, Snow}
    ensures rand < 1.0 && RainChance(month, humidity, pressure) >= 0.7 ==> Label(month, humidity, pressure, temp, rand) != Clear
    ensures humidity > 80.0 && pressure < 1000.0 && month in MonthsOf(Spring) ==> RainChance(month, humidity, pressure) >= 0.7
  {
  }

  // ----- The sample year ------------------------------------------------------

  /** The first day of each month of 2024, as a day of the year, and the day
      after the year ends. */
  const MonthStarts2024: seq<int> := [1, 32, 61, 92, 122, 153, 183, 214, 245, 275, 306, 336, 367]

  /** The month, from `m` on, in which day `doy` of 2024 falls. */
  function MonthFrom(doy: int, m: int): (r: int)
    requires 1 <= m <= 12 && MonthStarts2024[m - 1] <= doy <= 366
    ensures m <= r <= 12
    ensures MonthStarts2024[r - 1] <= doy < MonthStarts2024[r]
    decreases 12 - m
  {
    if doy < MonthStarts2024[m] then m else MonthFrom(doy, m + 1)
  }

  /** `date.month` of day `doy` of 2024, a leap year. */
  function MonthOf2024(doy: int): (m: int)
    requires 1 <= doy <= 366
    ensures 1 <= m <= 12
    ensures MonthStarts2024[m - 1] <= doy < MonthStarts2024[m]
  {
    MonthFrom(doy, 1)
  }

  /** The random draws of one day: temperature, humidity and pressure noises,
      the Gaussian wind draw and the uniform draw of the label. */
  datatype DayDraws = DayDraws(tempNoise: real, humidityNoise: real, pressureNoise: real, windDraw: real, rand: real)

  /** One row of the sample table, before rounding to one decimal. */
  datatype Sample = Sample(
    temperature: real, humidity: real, pressure: real, windSpeed: real,
    month: int, dayOfYear: int, condition: Condition)

  /** The row for day `doy` of 2024. */
  function SampleOf(doy: int, trig: Trig, d: DayDraws): (s: Sample)
    requires 1 <= doy <= 366
    ensures s.dayOfYear == doy && s.month == MonthOf2024(doy)
    ensures 20.0 <= s.humidity <= 95.0
    ensures s.windSpeed >= 0.0
    ensures s.condition == Label(s.month, s.humidity, s.pressure, s.temperature, d.rand)
    ensures s.condition == Snow ==> s.month in MonthsOf(Winter)
  {
    var month := MonthOf2024(doy);
    var temp := 50.0 + 30.0 * trig.turnSin((doy - 80) as real / 365.0) + d.tempNoise;
    var humidity := Clip(60.0 + 20.0 * trig.turnSin((doy - 120) as real / 365.0) + d.humidityNoise, 20.0, 95.0);
    var pressure := 1013.0 + d.pressureNoise;
    Sample(temp, humidity, pressure, Abs(d.windDraw), month, doy, Label(month, humidity, pressure, temp, d.rand))
  }

  /** The body of the loop over the dates: the signals, then `rain_prob` set by
      the season branch and raised by the humidity and pressure rules, then the
      label. */
  method SampleDay(doy: int, trig: Trig, d: DayDraws) returns (s: Sample)
    requires 1 <= doy <= 366
    ensures s == SampleOf(doy, trig, d)
  {
    var month := MonthOf2024(doy);
    var temp := 50.0 + 30.0 * trig.turnSin((doy - 80) as real / 365.0) + d.tempNoise;
    var humidity := 60.0 + 20.0 * trig.turnSin((doy - 120) as real / 365.0) + d.humidityNoise;
    humidity := Clip(humidity, 20.0, 95.0);
    var pressure := 1013.0 + d.pressureNoise;
    var windSpeed := Abs(d.windDraw);
    var rainProb := 0.3;
    if month in [3, 4, 5] {
      rainProb := 0.4;
    } else if month in [6, 7, 8] {
      rainProb := 0.25;
    } else if month in [12, 1, 2] {
      rainProb := 0.3;
    }
    if humidity > 80.0 {
      rainProb := rainProb + 0.2;
    }
    if pressure < 1000.0 {
      rainProb := rainProb + 0.15;
    }
    var condition;
    if d.rand < rainProb {
      if month in [12, 1, 2] && temp < 35.0 {
        condition := Snow;
      } else {
        condition := Rain;
      }
    } else if d.rand < rainProb + 0.3 {
      condition := Cloudy;
    } else {
      condition := Clear;
    }
    s := Sample(temp, humidity, pressure, windSpeed, month, doy, condition);
  }

  /** `create_sample_data`: one row per day of 2024, appended in date order. */
  method CreateSampleData(trig: Trig, draws: nat -> DayDraws) returns (data: seq<Sample>)
    ensures |data| == 366
    ensures forall j :: 0 <= j < 366 ==> data[j] == SampleOf(j + 1, trig, draws(j))
  {
    data := [];
    var doy := 1;
    while doy <= 366
      invariant 1 <= doy <= 367
      invariant |data| == doy - 1
      invariant forall j :: 0 <= j < doy - 1 ==> data[j] == SampleOf(j + 1, trig, draws(j))
    {
      var s := SampleDay(doy, trig, draws(doy - 1));
      data := data + [s];
      doy := doy + 1;
    }
  }

  /** Every row of the sample year is in range and consistently labelled. */
  lemma SampleRowsInRange(trig: Trig, draws: nat -> DayDraws, data: seq<Sample>)
    requires |data| == 366
    requires forall j :: 0 <= j < 366 ==> data[j] == SampleOf(j + 1, trig, draws(j))
    ensures forall j :: 0 <= j < 366 ==> 20.0 <= data[j].humidity <= 95.0 && data[j].windSpeed >= 0.0
    ensures forall j :: 0 <= j < 366 ==> data[j].condition == Snow ==> data[j].month in MonthsOf(Winter)
  {
  }

  /** The rows of the sample year follow the calendar, from January to December. */
  lemma SampleRowsFollowCalendar(trig: Trig, draws: nat -> DayDraws, data: seq<Sample>)
    requires |data| == 366
    requires forall j :: 0 <= j < 366 ==> data[j] == SampleOf(j + 1, trig, draws(j))
    ensures forall j :: 0 <= j < 365 ==> data[j].month <= data[j + 1].month
    ensures data[0].month == 1 && data[365].month == 12
  {
    forall j | 0 <= j < 365
      ensures data[j].month <= data[j + 1].month
    {
      assert data[j] == SampleOf(j + 1, trig, draws(j));
      assert data[j + 1] == SampleOf(j + 2, trig, draws(j + 1));
      MonthsAdvance(j + 1, j + 2);
    }
    assert data[0] == SampleOf(1, trig, draws(0));
    assert data[365] == SampleOf(366, trig, draws(365));
  }

  /** Later days fall in the same or a later month. */
  lemma MonthsAdvance(d1: int, d2: int)
    requires 1 <= d1 <= d2 <= 366
    ensures MonthOf2024(d1) <= MonthOf2024(d2)
  {
    var m1, m2 := MonthOf2024(d1), MonthOf2024(d2);
    if m2 < m1 {
      MonthStartsIncrease(m2, m1 - 1);
      assert false;
    }
  }

  /** The month starts increase. */
  lemma MonthStartsIncrease(i: int, j: int)
    requires 0 <= i <= j < 13
    ensures MonthStarts2024[i] <= MonthStarts2024[j]
  {
  }

  // ----- The probability breakdown -------------------------------------------

  /** The classifier's probability of each class, as a percentage, in class order. */
  function PercentTable(classes: Classes, proba: seq<real>): (t: seq<Entry>)
    requires |proba| == |classes|
    ensures |t| == |classes|
    ensures forall i :: 0 <= i < |t| ==> t[i] == Entry(classes[i], proba[i] * 100.0)
  {
    seq(|classes|, i requires 0 <= i < |classes| => Entry(classes[i], proba[i] * 100.0))
  }

  /** The breakdown shown under a forecast: every class with its percentage,
      largest first. */
  method ProbabilityBreakdown(classes: Classes, proba: seq<real>) returns (sorted: seq<Entry>)
    requires |proba| == |classes|
    ensures SortedDesc(sorted)
    ensures multiset(sorted) == multiset(PercentTable(classes, proba))
  {
    var probData: seq<Entry> := [];
    var i := 0;
    while i < |classes|
      invariant 0 <= i <= |classes|
      invariant probData == PercentTable(classes, proba)[..i]
    {
      probData := probData + [Entry(classes[i], proba[i] * 100.0)];
      i := i + 1;
    }
    assert probData == PercentTable(classes, proba);
    sorted := SortDesc(probData);
  }

  // ----- The seasonal message ------------------------------------------------

  /** One entry of the season table: its months, name, emoji and description. */
  datatype SeasonInfo = SeasonInfo(months: seq<int>, name: string, emoji: string, description: string)

  const SeasonTable: seq<SeasonInfo> := [
    SeasonInfo([12, 1, 2], "Winter", "❄️", "Cold temperatures with possible snow and rain"),
    SeasonInfo([3, 4, 5], "Spring", "🌸", "Mild temperatures with frequent rain showers"),
    SeasonInfo([6, 7, 8], "Summer", "☀️", "Warm and humid with afternoon thunderstorms"),
    SeasonInfo([9, 10, 11], "Fall", "🍁", "Cool and crisp with occasional rain")
  ]

  /** The table's entries follow the seasons, in the order winter, spring, summer, fall. */
  function TableSeason(i: int): (s: Season)
    requires 0 <= i < 4
    ensures SeasonTable[i].months == MonthsOf(s)
  {
    [Winter, Spring, Summer, Fall][i]
  }

  /** The markdown line of the information box. */
  function Message(info: SeasonInfo): (msg: string)
    ensures |msg| == |info.emoji| + |info.name| + |info.description| + 14
    ensures msg[..|info.emoji|] == info.emoji
    ensures msg[|info.emoji|..|info.emoji| + 3] == " **"
    ensures msg[|info.emoji| + 3..|info.emoji| + 3 + |info.name|] == info.name
    ensures msg[|info.emoji| + 3 + |info.name|..|msg| - |info.description|] == " in NYC:** "
    ensures msg[|msg| - |info.description|..] == info.description
  {
    info.emoji + " **" + info.name + " in NYC:** " + info.description
  }

  /** The position of a season's entry in the table. */
  function SeasonIndex(s: Season): (i: int)
    ensures 0 <= i < |SeasonTable| && TableSeason(i) == s
  {
    match s
    case Winter => 0
    case Spring => 1
    case Summer => 2
    case Fall => 3
  }

  /** The entry of a season. */
  function InfoOf(s: Season): (info: SeasonInfo)
    ensures info in SeasonTable && info.months == MonthsOf(s)
  {
    SeasonTable[SeasonIndex(s)]
  }

  /** The loop over the season table that stops at the first entry holding the
      month: exactly the month's own season is shown, and nothing for a number
      that is not a month. */
  method SeasonalMessage(month: int) returns (msg: Option<string>)
    ensures 1 <= month <= 12 ==> msg == Some(Message(InfoOf(SeasonOf(month))))
    ensures !(1 <= month <= 12) ==> msg == None
  {
    SeasonsPartitionMonths(month);
    msg := None;
    var i := 0;
    while i < |SeasonTable|
      invariant 0 <= i <= |SeasonTable|
      invariant msg == None
      invariant 1 <= month <= 12 ==> i <= SeasonIndex(SeasonOf(month))
    {
      var info := SeasonTable[i];
      if month in info.months {
        assert TableSeason(i) == SeasonOf(month);
        msg := Some(Message(info));
        break;
      }
      i := i + 1;
    }
  }
}
