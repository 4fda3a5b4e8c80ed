/** Season classifier (`get_season`): the calendar month alone decides the season,
    three months to each. Parsing the date string, or reading the clock when none is
    given, happens before this and is not modelled: the month is the input. */
module Seasons {

  /** A calendar month as `datetime.month` yields it. */
  type Month = m: int | 1 <= m <= 12 witness 1

  /** All twelve months. */
  const Year: set<Month> := {1, 2, 3, 4, 5, 6, 7, 8, 9, 10, 11, 12}

  datatype Season = Winter | Spring | Summer | Autumn

  /** The string get_season returns. */
  function Name(s: Season): (n: string)
    ensures n in ["winter", "spring", "summer", "autumn"]
    ensures n == "winter" <==> s == Winter
    ensures n == "spring" <==> s == Spring
    ensures n == "summer" <==> s == Summer
    ensures n == "autumn" <==> s == Autumn
  {
    match s
    case Winter => "winter"
    case Spring => "spring"
    case Summer => "summer"
    case Autumn => "autumn"
  }

  /** get_season on the month of the date. */
  function SeasonOf(month: Month): (s: Season)
    ensures s == Winter <==> month in {12, 1, 2}
    ensures s == Spring <==> month in {3, 4, 5}
    ensures s == Summer <==> month in {6, 7, 8}
    ensures s == Autumn <==> month in {9, 10, 11}
  {
    if month in [12, 1, 2] then Winter
    else if month in [3, 4, 5] then Spring
    else if month in [6, 7, 8] then Summer
    else Autumn
  }

  /** The months that get_season assigns to `s`. */
  function MonthsOf(s: Season): set<Month>
  {
    set m: Month | SeasonOf(m) == s
  }

  /** Every season gets exactly three months. */
  lemma ThreeMonthsEach(s: Season)
    ensures |MonthsOf(s)| == 3
  {
    match s
    case Winter => assert MonthsOf(s) == {12, 1, 2};
    case Spring => assert MonthsOf(s) == {3, 4, 5};
    case Summer => assert MonthsOf(s) == {6, 7, 8};
    case Autumn => assert MonthsOf(s) == {9, 10, 11};
  }

  /** The four seasons split the year: every month lies in exactly one of them. */
  lemma SeasonsPartitionYear()
    ensures MonthsOf(Winter) + MonthsOf(Spring) + MonthsOf(Summer) + MonthsOf(Autumn)
            == Year
    ensures forall s, t :: s != t ==> MonthsOf(s) !! MonthsOf(t)
  {
  }

  /** Distinct seasons have distinct names. */
  lemma NameInjective(s: Season, t: Season)
    requires Name(s) == Name(t)
    ensures s == t
  {
  }
}
