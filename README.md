# Garden advice: a Dafny model

`garden_advice.py` answers three questions about a calendar month:

- which season it is in, from a fixed table of meteorological quarters for the northern hemisphere;
- which gardening tip goes with it, from a fixed table with one tip per month;
- what the advice bundle for today is: month name, season, tip and year.

Both lookups are dictionary lookups with a default. A month that is not a key gives `"Unknown"` for the season and `"No tip available for this month."` for the tip.

The model is the single module `GardenAdvice` in `garden_advice.dfy`. Every operation is a pure function:

- The system clock becomes an injected `Date`. Its `month` has type `Month` (1..12) and its `year` has type `Year` (1..9999), the ranges a calendar date can take.
- `Seasons` and `MonthlyTips` are `map<int, string>` constants with the source's exact entries.
- `SeasonOf` and `MonthlyTip` take any integer month, as the dictionary lookups do, so the default paths are part of the model.
- `MonthlyTip` takes an `Option<int>`. `None` stands for the omitted argument and falls back to today's month.
- The `"%B"` date format becomes a fixed table of English month names.

Two reference definitions stand beside the tables. `QuarterSeason` computes the season arithmetically from the month. `MonthsOf` gives the set of months that have a given season. The lemmas tie the tables to both.

The source's docstring (garden_advice.py:5) names southern-hemisphere support as future work; the model has no hemisphere offset.

## Model

| member | source | states |
|---|---|---|
| GardenAdvice.SeasonOf | garden_advice.py:37 | the season lookup gives one of the four season names or the default; it gives the default exactly when the month is outside 1..12 |
| GardenAdvice.CurrentSeason | garden_advice.py:34-37 | the season of today's month is always one of the four season names |
| GardenAdvice.MonthlyTip | garden_advice.py:40-47 | the tip is a table entry or the default; it is the default exactly when an explicit month outside 1..12 is given |
| GardenAdvice.MonthName | garden_advice.py:53 | a date's month name is one of the twelve English month names |
| GardenAdvice.GardeningAdvice | garden_advice.py:50-62 | the bundle has a month name, one of the four seasons, a tip from the table (never a default) and today's year |
| GardenAdvice.QuarterSeason | garden_advice.py:12-15 | the arithmetic quarter of a month is one of the four season names |
| GardenAdvice.MonthsOf | garden_advice.py:11-16 | helper for SeasonQuarters and SeasonsPartitionYear: the set of months the season table gives a season, always within the twelve months |
| GardenAdvice.SeasonOfMonth | garden_advice.py:11-16 | every month 1..12 has one of Winter, Spring, Summer, Autumn, never "Unknown" |
| GardenAdvice.SeasonOutsideMonths | garden_advice.py:37 | any integer outside 1..12 (0, 13, negatives) gets "Unknown" |
| GardenAdvice.SeasonIsQuarter | garden_advice.py:11-16 | the season table agrees on every month with the arithmetic quarters starting at December |
| GardenAdvice.SeasonQuarters | garden_advice.py:12-15 | Winter is {12, 1, 2}, Spring {3, 4, 5}, Summer {6, 7, 8}, Autumn {9, 10, 11} |
| GardenAdvice.SeasonHasThreeMonths | garden_advice.py:12-15 | each of the four seasons covers exactly three months |
| GardenAdvice.SeasonsPartitionYear | garden_advice.py:11-16 | the four seasons are pairwise disjoint and together cover the twelve months |
| GardenAdvice.TablesCoverMonths | garden_advice.py:11-32 | both tables are keyed by exactly the months 1..12 |
| GardenAdvice.TipOfMonth | garden_advice.py:19-32 | an explicit month 1..12 gets its own table entry, which is non-empty and not the default |
| GardenAdvice.TipOutsideMonths | garden_advice.py:47 | an explicit month outside 1..12 gets exactly "No tip available for this month." |
| GardenAdvice.TipDefaultsToToday | garden_advice.py:45-47 | omitting the month gives the same tip as passing today's month |
| GardenAdvice.MonthNamesInOrder | garden_advice.py:53 | month 1 is named "January", month 2 "February", and so on through month 12, "December" |
| GardenAdvice.MonthNamesDistinct | garden_advice.py:53 | different months have different names |
| GardenAdvice.AdviceFields | garden_advice.py:50-62 | for one date, the bundle's month is that month's name, its season and tip are the lookups of that month, and its year is the date's year |
| GardenAdvice.AdviceHasNoFallback | garden_advice.py:50-62 | the bundle for any date holds neither "Unknown" nor the no-tip text, and its tip is non-empty |
| GardenAdvice.AdviceDependsOnMonth | garden_advice.py:50-62 | two dates in the same month get the same month name, season and tip; their bundles are equal exactly when their years are equal |

## Left out

- The system clock (`datetime.date.today()`, lines 36, 46 and 52): "today" is a parameter. The source reads the clock three times, and the reads could fall on either side of midnight. The model uses one date for the whole bundle.
- The day of the date: the advice never reads it, so `Date` has only a year and a month.
- `strftime("%B")` depends on the locale: the model fixes the names to English.
- The `__main__` block (lines 66-69) only prints to the console.
- Dynamic typing: the lookups take integer months only. A Python key that hashes like an integer, such as `True` or `1.0`, is not modelled.
