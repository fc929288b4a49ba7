# Daily energy consumption tracker — verified model of its core

The dashboard (`p2.py`) lets a user describe a day's accommodation and
appliance use, computes the day's energy in kWh and its cost at 5 rupees
per kWh, and keeps the records for the session. From those records it
shows a weekly summary, cost projections, summary statistics and the ten
most recent records. This project models that logic in Dafny and proves
its properties. The forms, tabs, charts and styling are not modelled.

Modules (one file each):

- `Wrappers` (`wrappers.dfy`): `Option`.
- `Series` (`series.dfy`): sum, mean, maximum and minimum of a series of
  daily totals. These are the folds the dashboard applies to the
  `total_energy` column.
- `Calculator` (`calculator.dfy`): `calculate_daily_energy`.
  - It is an imperative method that accumulates the running total and
    appends each labelled line to the breakdown.
  - It is proved against `BreakdownOf`, a specification function.
  - The breakdown is a sequence of `(label, kWh)` pairs, so the insertion
    order of the source's dictionary is explicit.
  - An appliance is `NotUsed` or `Used(hours)`. The appliance hours are
    parameters instead of variables of the enclosing scope.
- `Records` (`records.dfy`): the record built on "Calculate" and the
  session state.
  - `Session` is a class holding the record list (`records`) and the
    day-name map (`weeklyData`).
  - Its invariant says two things. Every record is well formed: its
    breakdown is the calculator's, its total is the sum of the breakdown,
    its cost is 5 × the total, and an unused appliance stores 0 hours. And
    `weeklyData` holds, for each day name, the total of the newest record
    saved on that day.
- `Aggregator` (`aggregator.dfy`): the read-only views.
  - The weekly summary is a method with the source's two loops: group by
    day, then emit Monday..Sunday.
  - The projections and summary statistics are functions over the
    series of totals. They return `None` where the dashboard's guard
    hides them.
  - The recent-records view is a function.

All quantities are Dafny `real`s. Every constant in the source is an exact
decimal, and the hour inputs are multiples of 0.5 in [0, 24]. So the model
is exact where the source is subject to floating-point rounding.

Notes on the code's behaviour:

- The facility is a string. The guard only rejects the placeholder
  `"Select..."`. A facility string other than 1BHK, 2BHK and 3BHK would
  contribute no base load (there is no `else` branch), not fail.
- The guard does not check the Flat/Tenement choice. An accepted record
  may store the placeholder as its housing.
- A record stores each appliance's "Yes"/"No" selection as a boolean
  `used` flag (p2.py:191-193); the dashboard only ever compares it with
  "Yes" (p2.py:385), so the two carry the same information.
- The weekly summary is a list of seven rows, not a map. The dashboard
  only computes it when there is at least one record. The model defines it
  for every list, and for the empty list every row is zero.

## Model

| member | source | states |
|---|---|---|
| `Calculator.CalculateDailyEnergy` | p2.py:133-173 | the returned breakdown is the calculator's line list for the inputs, and the returned total equals the sum of the breakdown's values |
| `Calculator.AddAppliance` | p2.py:158-171 | one appliance block: the breakdown gains the appliance's line (name, 3 × hours/24) exactly when it was used, and the running total stays equal to the sum of the breakdown |
| `Calculator.Consumption` | p2.py:158-171 | an appliance run for h hours uses h/8 kWh (3 kWh per 24 hours), and for h in [0, 24] that is in [0, 3] |
| `Calculator.BaseEntriesByUnits` | p2.py:137-155 | 1BHK/2BHK/3BHK with n = 2/3/4 units contribute exactly "Lights (n units)" = n×0.4 then "Basic appliances" = n×0.8; any other facility contributes no line |
| `Calculator.TotalIsSumOfParts` | p2.py:133-173 | the total is the base load (1.2 kWh per unit, 0 for an unrecognised facility) plus each used appliance's consumption, unused ones adding 0 |
| `Calculator.LabelsInOrder` | p2.py:137-171 | the breakdown's labels are Lights, Basic appliances (recognised facility only), then Air Conditioner, Refrigerator, Washing Machine, each present only if that appliance was used |
| `Calculator.ApplianceLinePresence` | p2.py:158-171 | each appliance has a breakdown line if and only if it was marked used |
| `Calculator.LabelsDistinct` | p2.py:135-171 | no label occurs twice, so the ordered list carries the same information as the source's dictionary |
| `Calculator.EntryCount` | p2.py:137-171 | for a recognised facility the breakdown has 2 lines plus one per used appliance, hence 2 to 5 |
| `Calculator.TotalRange` | p2.py:118-173 | for a recognised facility and hours in [0, 24] the daily total lies in [2.4, 13.8] kWh |
| `Calculator.TotalNonNegative` | p2.py:118-173 | for any facility string and hours in [0, 24] the daily total lies in [0, 13.8] kWh |
| `Calculator.OneBhkNoAppliances` | p2.py:138-143 | 1BHK with no appliance gives lights 0.8 and basic appliances 1.6, total 2.4 kWh |
| `Calculator.TwoBhkAcAndFridge` | p2.py:144-166 | 2BHK with the AC on 8 h and the fridge 24 h gives four lines in order and a total of 7.6 kWh |
| `Series.Max` | p2.py:409 | the highest total is one of the totals and no total exceeds it |
| `Series.Min` | p2.py:412 | the lowest total is one of the totals and no total is below it |
| `Series.MeanBetween` | p2.py:246 | the mean of a non-empty series lies within any bounds that hold for all of its elements |
| `Series.MeanWithin` | p2.py:406-412 | the mean of a non-empty series lies between its minimum and its maximum |
| `Records.Stored` | p2.py:190-194 | a record stores an appliance as used exactly when it was used, with its hours, and with 0 hours when it was not |
| `Records.StoredRoundTrip` | p2.py:190-194 | the stored appliance reads back as the same usage, so storing loses nothing |
| `Records.BuiltIsWellFormed` | p2.py:181-198 | a record built from a form with hours in range satisfies the record invariant |
| `Records.WellFormedBounds` | p2.py:195-197 | a well-formed record's cost is 5 × its total, and its total is in [0, 13.8] kWh (at least 2.4 for a recognised facility) |
| `Records.BuildRecord` | p2.py:178-198 | the saved record copies the form's fields and holds the calculator's breakdown, a total equal to the sum of that breakdown, a cost of 5 × the total, and 0 hours for unused appliances |
| `Records.LatestTotalsNewestWins` | p2.py:202 | a day name is in the day map exactly when some record has that day, and its value is the total of the newest such record |
| `Records.Session.constructor` | p2.py:70-74 | a new session has no records and an empty day map |
| `Records.Session.Latest` | p2.py:209-210 | there is no latest record exactly when the list is empty; otherwise it is the last record appended |
| `Records.Session.Submit` | p2.py:176-206 | accepted exactly when the facility is not "Select..." and the name is non-empty; on rejection nothing changes; on acceptance exactly one record built from the form is appended, earlier records are unchanged, it becomes the latest, and the day map's entry for its day is overwritten with its total while other days keep theirs; the invariant is preserved |
| `Records.Session.Clear` | p2.py:349-351 | empties both the record list and the day map, after which there is no latest record |
| `Aggregator.GroupByDay` | p2.py:233-238 | a day is a key exactly when it has records, and its list is that day's totals in saving order |
| `Aggregator.WeeklySummary` | p2.py:233-249 | exactly 7 rows, Monday..Sunday; each row's count is the number of that day's records, its average is the mean of their totals, and a day without records reports 0 and 0 |
| `Aggregator.WeeklyRowsShape` | p2.py:241-249 | the weekly rows are the seven weekdays in order with the count and mean of each, and their counts add up to the number of records whose day is a weekday name |
| `Aggregator.RecordCountIsCountWithin` | p2.py:233-238 | grouping by day loses and duplicates nothing: over distinct day names the group sizes add up to the number of records on those days |
| `Aggregator.DayAverageWithin` | p2.py:246 | a day's average lies between the smallest and the largest total saved for that day |
| `Aggregator.Projections` | p2.py:329-337 | present exactly when there is at least one record; the daily figure is the mean total, monthly = 30 × daily, yearly = 365 × daily, each cost is 5 × its energy, and the daily figure lies between the lowest and highest total |
| `Aggregator.SummaryStatistics` | p2.py:396-412 | present exactly when there are more than one record; gives the count, the mean, and a highest and lowest total that occur among the totals and bound all of them, with lowest ≤ mean ≤ highest |
| `Aggregator.RecordViews` | p2.py:329-337 | over the saved records, the projections are present exactly when there is a record, the summary statistics exactly when there are more than one, and the statistics' count is the number of records (p2.py:396-403) |
| `Aggregator.Recent` | p2.py:370 | at most 10 records, all of them when there are fewer; the k-th is the k-th newest, so the newest comes first |

## Left out

- Page configuration, CSS, the sidebar, tabs, columns, metrics, expanders and messages (p2.py:9-67, 77-131, 211-227, 251-264, 371-394, 416-421). These are presentation only.
- The Plotly charts (p2.py:266-278, 292-326). They are calls into a charting library with no logic of their own.
- The pandas group-by averages per day name (p2.py:304) and per facility (p2.py:318-319). They are library calls. The per-day average is the weekly-summary mean without the zero-filled days and without the fixed weekday order.
- The CSV export (p2.py:355-363). It is serialisation through pandas and a download widget.
- Deriving the day name and date string from the chosen date (`strftime`, p2.py:96-99, 182). `date` and `day` are opaque strings of the form.
- Floating-point rounding. All quantities are exact reals.
- The page rerun after "Clear" (p2.py:352) and the session lifecycle. The session state is one owned `Session` object.
- Records.Session.Submit: the [0, 24] range of the hour fields is a precondition. The number-input widgets (p2.py:120, 125, 130) enforce it, and the submit code does not check it. The age widget's range (p2.py:82) is not modelled; age is stored as given.
