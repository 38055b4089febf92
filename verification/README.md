# Presence analyzer: a verified model of the statistics core

Presence analyzer is a small Flask application. It reads a CSV file of office
presence records, one line per user and day with an arrival and a departure
time. It serves per-user statistics as JSON. This project models in Dafny the
logic behind those statistics:

- the time helpers `seconds_since_midnight`, `interval` and `mean`;
- `group_by_weekday`;
- the `memorize(period)` cache;
- the row loop of `get_data`;
- the computations of the four JSON views:
  - the users list;
  - the mean presence per weekday;
  - the total presence per weekday;
  - the mean start and end time per weekday.

Modules, one per file:

| module | file | models |
|---|---|---|
| `Results` | results.dfy | `Option` and `Result`, the outcome types |
| `Clock` | clock.dfy | `datetime.time`, `seconds_since_midnight`, `interval`, the hour/minute/second split of `time.gmtime` |
| `Calendar` | calendar.dfy | `datetime.date`, `date.toordinal()`, `date.weekday()`, `calendar.day_abbr` |
| `Stats` | stats.dfy | `sum` and `mean` over integer lists |
| `Records` | records.dfy | the table `user id -> date -> (start, end)`; the order a Python 2 dict yields its keys |
| `Grouping` | grouping.dfy | `group_by_weekday` |
| `Memo` | memo.dfy | `memorize(period)` as a state machine with an explicit clock |
| `Loader` | loader.dfy | the row loop of `get_data`, and a corrected loop |
| `Decimal` | decimal.dfy | `str()` of an integer, for the users' names |
| `Views` | views.dfy | the four JSON views |
| `Samples` | samples.dfy | user 10's three records from the sample data, and what each view answers for them |

Python 2 dicts yield their keys in an order the program does not control.
Both `group_by_weekday` and `presence_start_end` append to lists in that
order. The model therefore takes the order as an explicit sequence that lists
each key once (`Records.Enumerates`). A view uses one fixed but unspecified
such order (`Records.IterationOrder`). The lemmas show that each weekday's
list differs between two orders only by a permutation. The sums, means and
lengths the views report are therefore the same for every order.

The views return `Response.NotFound` for a user id that is not in the table.
This is the `abort(404)` of src/presence_analyzer/views.py:54-56, 74-76 and
95-97. The test suite expects a body `"NO_USER_DATA"` with status 200 instead
(src/presence_analyzer/tests.py:115-117, 142-144, 189-191). The model follows
the code, not the tests.

## Model

| member | source | states |
|---|---|---|
| Clock.SecondsSinceMidnight | src/presence_analyzer/utils.py:118-122 | the seconds of a valid time of day lie in 0..86399 |
| Clock.SecondsInjective | src/presence_analyzer/utils.py:118-122 | two times of day have the same seconds since midnight exactly when they are equal |
| Clock.SecondsMonotonic | src/presence_analyzer/utils.py:118-122 | one time is before another (hour, then minute, then second) exactly when its seconds are smaller |
| Clock.Interval | src/presence_analyzer/utils.py:125-129 | the interval lies strictly between -86400 and 86400; it is negative exactly when the end is before the start, positive exactly when the start is before the end, and zero exactly when they are equal |
| Clock.IntervalAntisymmetric | src/presence_analyzer/utils.py:125-129 | swapping start and end negates the interval |
| Clock.IntervalAdditive | src/presence_analyzer/utils.py:125-129 | the interval from a to c is the interval from a to b plus the one from b to c |
| Clock.GmTime | src/presence_analyzer/views.py:109-121 | the hour/minute/second triple of a number of seconds is a valid time whose seconds since midnight are that number modulo one day |
| Clock.GmTimeOfSeconds | src/presence_analyzer/views.py:109-121 | splitting the seconds of a time of day gives back that time |
| Clock.SecondsOfGmTime | src/presence_analyzer/views.py:109-121 | for 0 <= s < 86400 the split triple counts back to s |
| Clock.ClockExamples | src/presence_analyzer/tests.py:309-325 | 22:33:11 is 81191 s; 11:22:33 to 08:11:31 is -11462 s; 09:39:05 to 17:59:52 is 30047 s |
| Calendar.Ordinal | src/presence_analyzer/utils.py:114 | `date.toordinal()`, behind `weekday()`, is at least 1 and numbers the dates of a year after all the days of the earlier years, within 365 days (366 in a leap year) |
| Calendar.Weekday | src/presence_analyzer/utils.py:114 | `date.weekday()` lies in 0..6 |
| Calendar.OrdinalOfNextDay | src/presence_analyzer/utils.py:114 | the day after a date has the next ordinal, across month and year ends and leap days |
| Calendar.WeekdayOfNextDay | src/presence_analyzer/utils.py:114 | consecutive dates have consecutive weekdays, Sunday followed by Monday |
| Calendar.SampleWeekdays | src/presence_analyzer/tests.py:277-307 | 2013-09-10, -11 and -12 are weekdays 1, 2 and 3; 0001-01-01 is a Monday |
| Stats.Sum | src/presence_analyzer/utils.py:136 | `sum` of a list of non-negative values is non-negative; Stats.SumAppend and Stats.SumPermutation relate it to concatenation and reordering |
| Stats.Mean | src/presence_analyzer/utils.py:132-136 | the mean of an empty list is 0; otherwise the mean times the length is the sum |
| Stats.SumAppend | src/presence_analyzer/utils.py:136 | the sum of a concatenation is the sum of the sums |
| Stats.SumPermutation | src/presence_analyzer/utils.py:136 | lists with the same elements have the same sum |
| Stats.SumBounds | src/presence_analyzer/utils.py:136 | the sum of n values within lo..hi lies within n*lo..n*hi |
| Stats.MeanWithin | src/presence_analyzer/utils.py:132-136 | the mean of a non-empty list of values within lo..hi lies within lo..hi |
| Stats.MeanBetweenExtremes | src/presence_analyzer/utils.py:132-136 | the mean of a non-empty list lies between its minimum and maximum |
| Stats.MeanPermutation | src/presence_analyzer/utils.py:132-136 | lists with the same elements have the same mean |
| Stats.MeanSingleton | src/presence_analyzer/utils.py:132-136 | the mean of a one-element list is that element |
| Stats.MeanExamples | src/presence_analyzer/tests.py:327-334 | mean([]) = 0, mean([1, 2, 3]) = 2, mean([-1, -2, -3]) = -2 |
| Records.IterationOrder | src/presence_analyzer/utils.py:111 | the order a loop over the dict visits its keys lists every key exactly once |
| Records.EnumerationsPermute | src/presence_analyzer/utils.py:111 | two iteration orders of the same keys are permutations of each other |
| Records.EnumerationSize | src/presence_analyzer/utils.py:111 | an iteration order is as long as the number of keys |
| Grouping.DatesOn | src/presence_analyzer/utils.py:111-114 | the dates visited for weekday w are exactly the visited dates whose weekday is w |
| Grouping.GroupByWeekday | src/presence_analyzer/utils.py:106-115 | there are exactly seven lists; list w holds the intervals of the dates on weekday w, in visiting order |
| Grouping.PickedPlacement | src/presence_analyzer/utils.py:110-114 | every record's value (interval, start or end) is in the list of its date's weekday, and every value in list w is the value of a visited date on weekday w |
| Grouping.BucketsCoverAllDates | src/presence_analyzer/utils.py:110-115 | the seven lengths add up to the number of visited dates, and the seven sums add up to the sum of all intervals |
| Grouping.BucketSizes | src/presence_analyzer/utils.py:110-115 | list w is as long as the number of the user's dates on weekday w; all lengths add up to the number of records |
| Grouping.EmptyBucket | src/presence_analyzer/utils.py:110-115 | list w is empty exactly when no date of the user falls on weekday w |
| Grouping.PickedPermutation | src/presence_analyzer/utils.py:111 | visiting the same dates in another order only permutes each weekday's list |
| Grouping.BucketsIndependentOfOrder | src/presence_analyzer/utils.py:111 | any two iteration orders give each weekday a list with the same elements |
| Grouping.OneDateBucket | src/presence_analyzer/utils.py:110-115 | a weekday with a single date gets a list holding just that date's interval |
| Grouping.NoDateBucket | src/presence_analyzer/utils.py:110-115 | a weekday without dates gets an empty list |
| Memo.Get | src/presence_analyzer/utils.py:50-61 | with a fresh stamp the call leaves the state alone and serves the cached value, or raises KeyError when no value is stored; otherwise a returning loader's value is stored with stamp now + period and returned, and a raising loader leaves the state unchanged; the loader runs exactly when the stamp is not fresh |
| Memo.GetKeepsWellFormed | src/presence_analyzer/utils.py:53-54 | from a state whose live stamp always has a value, a call never hits a missing `CACHE` entry and keeps that property |
| Memo.HooksKeepWellFormed | src/presence_analyzer/tests.py:354-358 | the test's resetting of the stamp to 0 and replacing of the value keep states well formed |
| Memo.ServedUntilExpiry | src/presence_analyzer/utils.py:53-61 | after a load at now, a call at any t < now + period returns the loaded value from the cache, with no reload |
| Memo.ExpiredReloads | src/presence_analyzer/utils.py:53-61 | a stamp at or before the clock makes the next call run the loader |
| Memo.FailedLoadChangesNothing | src/presence_analyzer/utils.py:58-60 | a raising loader leaves value and stamp unchanged and the call returns nothing |
| Memo.RunWhileFresh | src/presence_analyzer/utils.py:53-54 | calls before the stamp are all served from the cache, with no load and no change |
| Memo.SingleLoadPerPeriod | src/presence_analyzer/utils.py:53-61 | a burst of calls within one period of a stale first call loads exactly once, and every later call gets the loaded value |
| Memo.ResetForcesReload | src/presence_analyzer/tests.py:336-358 | load; a replaced value is served while the stamp is live; resetting the stamp to 0 reloads |
| Loader.Assign | src/presence_analyzer/utils.py:93-99 | the conversions before the failing cell take this line's values, and the failing one and those after it keep the earlier line's values |
| Loader.Store | src/presence_analyzer/utils.py:101 | `setdefault(u, {})[d] = p` makes (u, d) map to p, leaves every other (user, date) as it was, and adds u to the users |
| Loader.Step | src/presence_analyzer/utils.py:88-101 | a line not of four cells changes nothing; a four-cell line raises exactly when a loop variable is still unassigned, and otherwise writes the record built from the loop variables, adds its user to the table's users and changes no other (user, date) record and no other user |
| Loader.RunLinesOutcome | src/presence_analyzer/utils.py:85-103 | without four-cell lines the table is empty; otherwise the loop raises exactly when the first four-cell line does not convert in full, and after that every loop variable is bound and its record stored |
| Loader.RunLines | src/presence_analyzer/utils.py:88-101 | every user in the table built so far, and the current user id variable, is an id some four-cell line converted to |
| Loader.GetData | src/presence_analyzer/utils.py:85-103 | `get_data` raises exactly when the first four-cell line has a cell that does not convert; without four-cell lines the table is empty; every user in the table is the converted user id of some four-cell line |
| Loader.OtherWidthsIgnored | src/presence_analyzer/utils.py:89-91 | removing header, footer and other lines not of four cells does not change the outcome |
| Loader.UnparsableUserIdChangesNothing | src/presence_analyzer/utils.py:93-101 | a four-cell line whose user id does not convert rewrites the previous record and leaves the table unchanged |
| Loader.StaleValuesStored | src/presence_analyzer/utils.py:93-101 | a line whose start time does not convert is stored under its own date with the previous line's times; the corrected loop skips it |
| Loader.LatestCompleteLineWins | src/presence_analyzer/utils.py:101 | in the corrected loop (user, date) has a record exactly when a fully converted line names it, and the record is that of the last such line |
| Loader.CleanInputAgrees | src/presence_analyzer/utils.py:85-103 | when every four-cell line converts, the loop as written and the corrected loop build the same table |
| Decimal.NatToString | src/presence_analyzer/views.py:42 | `str()` of a natural number is a non-empty string of decimal digits without a leading zero; it starts with '0' exactly when the number is 0, and then it is "0" |
| Decimal.IntToString | src/presence_analyzer/views.py:42 | `str(i)` of any integer is a decimal string that `int()` reads back as i |
| Decimal.IntToStringInjective | src/presence_analyzer/views.py:42 | two integers have the same decimal string exactly when they are equal |
| Decimal.DecimalExamples | src/presence_analyzer/tests.py:60-65 | `str(10)` is "10" and `str(-7)` is "-7" |
| Views.UsersView | src/presence_analyzer/views.py:36-44 | one entry per user of the table, each id once, each named "User " followed by its decimal id, with pairwise distinct names |
| Views.WeekdayBucketsAgree | src/presence_analyzer/views.py:58-62 | every iteration order gives each weekday the same sum and mean as the one the view uses, and each list is as long as the user's number of dates on that weekday |
| Views.MeanTimeWeekday | src/presence_analyzer/views.py:49-64 | an unknown user gives not-found; otherwise seven pairs, Monday first, pair w being (day_abbr[w], mean of weekday w's intervals) for every iteration order, 0 for a weekday without dates |
| Views.PresenceWeekday | src/presence_analyzer/views.py:69-85 | an unknown user gives not-found; otherwise eight rows, the header ("Weekday", "Presence (s)") then (day_abbr[w], sum of weekday w's intervals) for every iteration order, 0 for a weekday without dates |
| Views.WeekTotalsCoverAllDates | src/presence_analyzer/views.py:78-85 | the seven totals add up to the sum of the intervals of all the user's dates |
| Views.MeanIsTotalPerDate | src/presence_analyzer/views.py:58-82 | each weekday's mean is its total divided by its number of dates; without dates both are 0 |
| Views.CollectStartEnd | src/presence_analyzer/views.py:99-107 | seven start/end list pairs; pair w holds the starts and the ends, in seconds, of the visited dates on weekday w, in visiting order |
| Views.StartEndListLengths | src/presence_analyzer/views.py:99-107 | for each weekday the start and end lists are equally long, as long as the user's number of dates on it |
| Views.MeanClock | src/presence_analyzer/views.py:109-121 | the triple of a mean of times of day is a valid time whose seconds are the floor of the mean; it lies between the earliest and latest time, and an empty list gives midnight |
| Views.DayMeans | src/presence_analyzer/views.py:109-121 | a weekday's start and end triples count the floors of the mean start and mean end; empty lists give midnight for both |
| Views.WeekMeans | src/presence_analyzer/views.py:108-121 | keys exactly 0..6; each weekday's triples count the floors of its mean start and end; a weekday with empty lists gets midnight |
| Views.PresenceStartEnd | src/presence_analyzer/views.py:90-123 | an unknown user gives not-found; otherwise keys exactly 0..6, each weekday's triples counting the floors of the mean start and end of its dates for every iteration order, midnight for a weekday without dates |
| Views.CollectedWithinDay | src/presence_analyzer/views.py:102-107 | every collected start and end lies in 0..86399 |
| Views.StartEndAgree | src/presence_analyzer/views.py:101-107 | every iteration order gives each weekday the same mean start and mean end; a weekday without dates gets empty lists |
| Views.SingleDateWeekday | src/presence_analyzer/views.py:58-121 | a weekday with a single date shows that date's interval as mean and as total, and its own start and end as the mean start and end |
| Views.SingleDateBucket | src/presence_analyzer/views.py:58-62 | a weekday with a single date has a list holding just its interval, whose sum and mean are that interval |
| Views.SingleDateStartEnd | src/presence_analyzer/views.py:99-121 | a weekday with a single date gets that date's start and end as its triples |
| Views.EmptyWeekday | src/presence_analyzer/views.py:58-121 | a weekday without dates shows mean 0, total 0, and midnight start and end |
| Samples.SampleGroupByWeekday | src/presence_analyzer/tests.py:277-307 | user 10's records group into [[], [30047], [24465], [23705], [], [], []] in every dict order |
| Samples.SampleMeanTimeWeekday | src/presence_analyzer/tests.py:92-113 | the mean view for user 10 is Mon 0, Tue 30047, Wed 24465, Thu 23705, then 0 for Fri to Sun |
| Samples.SamplePresenceWeekday | src/presence_analyzer/tests.py:119-140 | the total view for user 10 is the header row followed by the same seven figures |
| Samples.SamplePresenceStartEnd | src/presence_analyzer/tests.py:146-187 | the start/end view for user 10 gives 09:39:05-17:59:52, 09:19:52-16:07:37 and 10:48:46-17:23:51 on weekdays 1 to 3 and midnight elsewhere |
| Samples.SampleUsers | src/presence_analyzer/tests.py:56-65 | a table with users 10 and 11 lists two users, one of them {user_id: 10, name: "User 10"} |

## Left out

- The `threading.Lock` and the second freshness test under it (src/presence_analyzer/utils.py:48, 55-57) are left out: they only matter for concurrent calls. Calls are modelled one at a time, and then the second test gives the same answer as the first.
- The clock `time.time()` becomes the `now` parameter of `Memo.Get`. The loader becomes a function parameter that returns a value or an error.
- Memo.Get: `now` and `now + period` are exact reals, while `time.time()` returns a float and the stamp is a float sum. Float rounding is not modelled; at present-day clock values the rounding of `now + 600` is below a microsecond.
- The `CACHE` and `TIMESTAMPS` dicts are modelled for the single cache key `get_data`, the only decorated function.
- Opening the file, CSV splitting, `int()` and `strptime` are left out (src/presence_analyzer/utils.py:86-97). Each line arrives as its number of cells plus the outcome of each of the four conversions.
- The `log.debug` calls are left out; they have no effect on the results.
- `jsonify` and the JSON encoding are left out (src/presence_analyzer/utils.py:25-38). This includes the conversion of integer dict keys into strings, which the tests see. The views return Dafny values.
- The `mainpage` redirect and `render_html` (src/presence_analyzer/views.py:26-31, 126-138) are routing and templating, with no statistics logic.
- cron.py, config.py, main.py and static/js/base.js hold no statistics logic. They do downloading, configuration, app wiring and front-end code.
- The `/api/v2/users` view and the standard-deviation statistics that tests.py exercises have no source in utils.py or views.py. utils.py and views.py define no such view and no such functions.
- Stats.Mean: computed with exact reals, not IEEE doubles. The float rounding of `float(sum(items)) / len(items)` is not modelled.
- Stats.Mean: takes integer lists only. Lists of floats, which the test of `mean` also passes, are not modelled.
- Views.MeanClock: floors the mean. `time.gmtime` truncates toward zero, which is the same for the non-negative means it receives. Negative or non-finite floats are not modelled.
- Views.PresenceStartEnd: returns the triple as a `TimeOfDay` value rather than a three-element list. Views.MeanTimeWeekday and Views.PresenceWeekday return pairs and rows rather than JSON lists.
- Calendar.Weekday: covers years 1 to 9999, the range `datetime.date` accepts.
- `calendar.day_abbr` is taken in the default C locale ("Mon" to "Sun"). Other locales are not modelled.
- Views.MeanTimeWeekday, Views.PresenceWeekday and Views.PresenceStartEnd answer `NotFound` for an unknown user, as the code's `abort(404)` does. The test suite's expectation of a "NO_USER_DATA" body with status 200 is not modelled.
- The order of the users list follows the dict's key order, which is unspecified. Views.UsersView states which entries it holds, not their order. Samples.SampleUsers therefore shows that user 10 is listed, not that it comes first.

## Findings

| source | as written | input that shows it | evidently intended | confidence | as-written member | corrected member |
|---|---|---|---|---|---|---|
| src/presence_analyzer/utils.py:93-101 | the `except` only logs, and the record is written after it anyway, from the loop variables; a line whose conversion fails partway is stored with this line's earlier fields and the previous line's values for the rest (or `get_data` raises if no earlier line set them) | two four-cell lines for user 10: 2013-09-10 09:00:00-17:00:00, then 2013-09-11 with an unparsable start time; the table gets 2013-09-11 with 09:00:00-17:00:00 | skip a line whose cells do not all convert, so only fully converted lines are stored and the last one for each (user, date) wins | not executed | Loader.StaleValuesStored | Loader.LatestCompleteLineWins |
