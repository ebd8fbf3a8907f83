/** A model of the seasonal gardening-advice resolver: two constant tables keyed by
    month number (seasons and monthly tips), two lookups that fall back to a default
    text when the month is not a key, and the assembly of one advice record for a
    date. The system clock is not modelled: "today" is passed in as a `Date`. */
module GardenAdvice {

  datatype Option<T> = None | Some(value: T)

  /** A calendar month of a valid date; a date's month is always 1..12. */
  type Month = m: int | 1 <= m <= 12 witness 1

  /** The years a date may carry (1 through 9999). */
  type Year = y: int | 1 <= y <= 9999 witness 1

  /** The injected "today": the only parts of a date the advice reads. */
  datatype Date = Date(year: Year, month: Month)

  /** The advice bundle: month name, season, tip and year. */
  datatype Advice = Advice(month: string, season: string, tip: string, year: Year)

  const Winter := "Winter"
  const Spring := "Spring"
  const Summer := "Summer"
  const Autumn := "Autumn"

  /** The text returned by the season lookup for a month that is not a key. */
  const UnknownSeason := "Unknown"

  /** The text returned by the tip lookup for a month that is not a key. */
  const NoTip := "No tip available for this month."

  /** The season of each month (northern hemisphere). */
  const Seasons: map<int, string> := map[
    12 := Winter, 1 := Winter, 2 := Winter,
    3 := Spring, 4 := Spring, 5 := Spring,
    6 := Summer, 7 := Summer, 8 := Summer,
    9 := Autumn, 10 := Autumn, 11 := Autumn
  ]

  /** One tip per month. */
  const MonthlyTips: map<int, string> := map[
    1 := "Protect sensitive plants from frost. Plan your spring garden layout.",
    2 := "Start seeds indoors for tomatoes, peppers. Prune dormant trees.",
    3 := "Plant cool-season crops: lettuce, spinach, peas. Prepare beds.",
    4 := "Sow carrots, beets, radishes. Plant perennials and shrubs.",
    5 := "Transplant seedlings outside. Mulch to retain moisture.",
    6 := "Harvest early crops. Water consistently during heat.",
    7 := "Deadhead flowers. Watch for pests in hot weather.",
    8 := "Harvest summer vegetables. Plant fall crops like kale.",
    9 := "Plant spring bulbs. Clean up garden debris.",
    10 := "Divide perennials. Protect plants before first frost.",
    11 := "Mulch beds for winter. Clean and store tools.",
    12 := "Plan next year's garden. Order seeds early."
  ]

  /** Full English month names, January first (what the "%B" date format yields). */
  const MonthNames: seq<string> := [
    "January", "February", "March", "April", "May", "June",
    "July", "August", "September", "October", "November", "December"
  ]

  /** The four season names the season table uses. */
  const SeasonNames: set<string> := {Winter, Spring, Summer, Autumn}

  predicate IsMonth(m: int) {
    1 <= m <= 12
  }

  /** The twelve month numbers. */
  const AllMonths: set<int> := {1, 2, 3, 4, 5, 6, 7, 8, 9, 10, 11, 12}

  /** The season lookup with its default, for any integer key. */
  function SeasonOf(m: int): (r: string)
    ensures r in SeasonNames || r == UnknownSeason
    ensures r == UnknownSeason <==> !IsMonth(m)
  {
    if m in Seasons then Seasons[m] else UnknownSeason
  }

  /** The season of the injected today's month. */
  function CurrentSeason(today: Date): (r: string)
    ensures r in SeasonNames
  {
    SeasonOf(today.month)
  }

  /** The tip lookup with its default; an absent month means today's month. */
  function MonthlyTip(month: Option<int>, today: Date): (r: string)
    ensures r in MonthlyTips.Values || r == NoTip
    ensures r == NoTip <==> month.Some? && !IsMonth(month.value)
  {
    var m := if month.None? then today.month else month.value;
    if m in MonthlyTips then MonthlyTips[m] else NoTip
  }

  /** The localized month name, fixed here to English. */
  function MonthName(m: Month): (r: string)
    ensures r in MonthNames
  {
    MonthNames[m - 1]
  }

  /** The advice bundle for the injected today. */
  function GardeningAdvice(today: Date): (r: Advice)
    ensures r.month in MonthNames
    ensures r.season in SeasonNames
    ensures r.tip in MonthlyTips.Values && r.tip != NoTip
    ensures r.year == today.year
  {
    Advice(MonthName(today.month), CurrentSeason(today), MonthlyTip(None, today), today.year)
  }

  // ----- Reference definitions -----

  /** The meteorological quarters computed arithmetically: December starts a
      three-month block, then each following block of three months is the next
      season. */
  function QuarterSeason(m: Month): (r: string)
    ensures r in SeasonNames
  {
    [Winter, Spring, Summer, Autumn][(m % 12) / 3]
  }

  /** All months a season name is given to. */
  function MonthsOf(season: string): (r: set<int>)
    ensures r <= AllMonths
  {
    set m | 1 <= m <= 12 && SeasonOf(m) == season
  }

  // ----- Properties -----

  /** Every month of the year has one of the four seasons, never the default. */
  lemma SeasonOfMonth(m: int)
    requires IsMonth(m)
    ensures SeasonOf(m) in SeasonNames
    ensures SeasonOf(m) != UnknownSeason
  {
  }

  /** Any other integer (0, 13, negatives) gets the default. */
  lemma SeasonOutsideMonths(m: int)
    requires !IsMonth(m)
    ensures SeasonOf(m) == UnknownSeason
  {
  }

  /** The season table agrees with the arithmetic quarters on every month. */
  lemma SeasonIsQuarter(m: Month)
    ensures SeasonOf(m) == QuarterSeason(m)
  {
  }

  /** Each season covers exactly its three months. */
  lemma SeasonQuarters()
    ensures MonthsOf(Winter) == {12, 1, 2}
    ensures MonthsOf(Spring) == {3, 4, 5}
    ensures MonthsOf(Summer) == {6, 7, 8}
    ensures MonthsOf(Autumn) == {9, 10, 11}
  {
  }

  /** A season is given to exactly three months. */
  lemma SeasonHasThreeMonths(season: string)
    requires season in SeasonNames
    ensures |MonthsOf(season)| == 3
  {
    SeasonQuarters();
  }

  /** An explicit month of the year gets its own table entry, a non-empty tip. */
  lemma TipOfMonth(m: int, today: Date)
    requires IsMonth(m)
    ensures m in MonthlyTips
    ensures MonthlyTip(Some(m), today) == MonthlyTips[m]
    ensures |MonthlyTip(Some(m), today)| > 0
    ensures MonthlyTip(Some(m), today) != NoTip
  {
  }

  /** An explicit month outside 1..12 gets the default tip. */
  lemma TipOutsideMonths(m: int, today: Date)
    requires !IsMonth(m)
    ensures MonthlyTip(Some(m), today) == NoTip
  {
  }

  /** Omitting the month is the same as passing today's month. */
  lemma TipDefaultsToToday(today: Date)
    ensures MonthlyTip(None, today) == MonthlyTip(Some(today.month), today)
  {
  }

  /** Both tables are keyed by exactly the twelve months. */
  lemma TablesCoverMonths()
    ensures Seasons.Keys == MonthlyTips.Keys == AllMonths
  {
  }

  /** Every month has exactly one season: the four seasons split the year. */
  lemma SeasonsPartitionYear()
    ensures MonthsOf(Winter) + MonthsOf(Spring) + MonthsOf(Summer) + MonthsOf(Autumn) == AllMonths
    ensures MonthsOf(Winter) * MonthsOf(Spring) == {} && MonthsOf(Winter) * MonthsOf(Summer) == {}
    ensures MonthsOf(Winter) * MonthsOf(Autumn) == {} && MonthsOf(Spring) * MonthsOf(Summer) == {}
    ensures MonthsOf(Spring) * MonthsOf(Autumn) == {} && MonthsOf(Summer) * MonthsOf(Autumn) == {}
  {
  }

  /** Month m is named by entry m - 1, and the entries run January through December. */
  lemma MonthNamesInOrder()
    ensures |MonthNames| == 12
    ensures forall m: Month :: MonthName(m) == MonthNames[m - 1]
    ensures MonthNames[0] == "January" && MonthNames[1] == "February" && MonthNames[2] == "March"
    ensures MonthNames[3] == "April" && MonthNames[4] == "May" && MonthNames[5] == "June"
    ensures MonthNames[6] == "July" && MonthNames[7] == "August" && MonthNames[8] == "September"
    ensures MonthNames[9] == "October" && MonthNames[10] == "November" && MonthNames[11] == "December"
  {
  }

  /** Distinct months have distinct names. */
  lemma MonthNamesDistinct(m: Month, n: Month)
    requires m != n
    ensures MonthName(m) != MonthName(n)
  {
  }

  /** Every field of the advice comes from the one injected date. */
  lemma AdviceFields(today: Date)
    ensures GardeningAdvice(today).month == MonthNames[today.month - 1]
    ensures GardeningAdvice(today).season == SeasonOf(today.month)
    ensures GardeningAdvice(today).tip == MonthlyTip(Some(today.month), today)
    ensures GardeningAdvice(today).tip == MonthlyTips[today.month]
    ensures GardeningAdvice(today).year == today.year
  {
  }

  /** The advice never carries either fallback text. */
  lemma AdviceHasNoFallback(today: Date)
    ensures GardeningAdvice(today).season in SeasonNames
    ensures GardeningAdvice(today).season != UnknownSeason
    ensures GardeningAdvice(today).tip != NoTip
    ensures |GardeningAdvice(today).tip| > 0
  {
  }

  /** Two dates in the same month get the same season and tip and month name;
      only the year can differ. */
  lemma AdviceDependsOnMonth(d: Date, e: Date)
    requires d.month == e.month
    ensures GardeningAdvice(d).month == GardeningAdvice(e).month
    ensures GardeningAdvice(d).season == GardeningAdvice(e).season
    ensures GardeningAdvice(d).tip == GardeningAdvice(e).tip
    ensures GardeningAdvice(d) == GardeningAdvice(e) <==> d.year == e.year
  {
  }
}
