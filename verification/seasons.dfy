/** The four month groups that every part of the system uses for seasons:
    December–February, March–May, June–August and September–November. */
module Seasons {

  datatype Season = Winter | Spring | Summer | Fall

  /** The months (1–12) of a season, in the order the source lists them. */
  function MonthsOf(s: Season): seq<int>
  {
    match s
    case Winter => [12, 1, 2]
    case Spring => [3, 4, 5]
    case Summer => [6, 7, 8]
    case Fall => [9, 10, 11]
  }

  /** The season of a calendar month. */
  function SeasonOf(month: int): (s: Season)
    requires 1 <= month <= 12
    ensures month in MonthsOf(s)
  {
    if month in MonthsOf(Winter) then Winter
    else if month in MonthsOf(Spring) then Spring
    else if month in MonthsOf(Summer) then Summer
    else Fall
  }

  /** Every month 1–12 lies in exactly one season, and nothing else lies in any. */
  lemma SeasonsPartitionMonths(month: int)
    ensures 1 <= month <= 12 ==> forall s :: month in MonthsOf(s) <==> s == SeasonOf(month)
    ensures !(1 <= month <= 12) ==> forall s :: month !in MonthsOf(s)
  {
  }

  /** The months in which the signal generators allow rain: spring and fall. */
  predicate RainyMonth(month: int)
    ensures RainyMonth(month) <==> month in [3, 4, 5, 9, 10, 11]
  {
    month in MonthsOf(Spring) + MonthsOf(Fall)
  }
}
