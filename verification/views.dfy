/**
  The computations behind the JSON views: the users list, the per-weekday
  mean and total presence, and the per-weekday mean start and end times.
  A view receives the table `get_data` returned; the dict iteration order it
  sees is `IterationOrder`, and the results are shown not to depend on it.
*/
module Views {
  import opened Clock
  import opened Calendar
  import opened Stats
  import opened Records
  import opened Grouping
  import opened Decimal

  /** A view's answer: its JSON body, or `abort(404)` for a user id not in the table. */
  datatype Response<T> = Ok(body: T) | NotFound

  /** One entry of the users list: `{'user_id': i, 'name': 'User <i>'}`. */
  datatype User = User(userId: int, name: string)

  /** The users list: one entry per user id of the table, named after the id. */
  ghost function UsersView(data: Table): (r: seq<User>)
    ensures |r| == |data|
    ensures forall i :: 0 <= i < |r| ==> r[i].userId in data && r[i].name == "User " + IntToString(r[i].userId)
    ensures forall u :: u in data ==> exists i :: 0 <= i < |r| && r[i].userId == u
    ensures forall i, j :: 0 <= i < j < |r| ==> r[i].userId != r[j].userId && r[i].name != r[j].name
  {
    var ids := IterationOrder(data.Keys);
    var users := seq(|ids|, i requires 0 <= i < |ids| => User(ids[i], "User " + IntToString(ids[i])));
    UserEntries(users, ids, data.Keys);
    users
  }

  lemma UserEntries(users: seq<User>, ids: seq<int>, keys: set<int>)
    requires Enumerates(ids, keys) && |users| == |ids|
    requires forall i :: 0 <= i < |users| ==> users[i] == User(ids[i], "User " + IntToString(ids[i]))
    ensures |users| == |keys|
    ensures forall u :: u in keys ==> exists i :: 0 <= i < |users| && users[i].userId == u
    ensures forall i, j :: 0 <= i < j < |users| ==> users[i].userId != users[j].userId && users[i].name != users[j].name
  {
    EnumerationSize(ids, keys);
    forall u | u in keys
      ensures exists i :: 0 <= i < |users| && users[i].userId == u
    {
      var i :| 0 <= i < |ids| && ids[i] == u;
      assert users[i].userId == u;
    }
    forall i, j | 0 <= i < j < |users|
      ensures users[i].name != users[j].name
    {
      IntToStringInjective(ids[i], ids[j]);
      assert users[i].name[5..] == IntToString(ids[i]);
      assert users[j].name[5..] == IntToString(ids[j]);
    }
  }

  /** The weekday lists of a known user, in the iteration order the view sees. */
  ghost function WeekdayBuckets(items: UserDays): (buckets: seq<seq<int>>)
    ensures |buckets| == 7
  {
    var order := IterationOrder(items.Keys);
    EnumerationWithin(items, order);
    GroupByWeekday(items, order)
  }

  /**
    Any iteration order gives each weekday the same values as the one the view
    sees, so the same sum and the same mean; a weekday without dates has an
    empty list.
  */
  lemma WeekdayBucketsAgree(items: UserDays)
    ensures forall w, order :: 0 <= w < 7 && Enumerates(order, items.Keys) ==>
      Sum(GroupByWeekday(items, order)[w]) == Sum(WeekdayBuckets(items)[w])
      && Mean(GroupByWeekday(items, order)[w]) == Mean(WeekdayBuckets(items)[w])
    ensures forall w :: 0 <= w < 7 ==> |WeekdayBuckets(items)[w]| == |DaysOn(items, w)|
  {
    var chosen := IterationOrder(items.Keys);
    forall w, order | 0 <= w < 7 && Enumerates(order, items.Keys)
      ensures Sum(GroupByWeekday(items, order)[w]) == Sum(WeekdayBuckets(items)[w])
      ensures Mean(GroupByWeekday(items, order)[w]) == Mean(WeekdayBuckets(items)[w])
    {
      BucketsIndependentOfOrder(items, order, chosen);
      SumPermutation(GroupByWeekday(items, order)[w], WeekdayBuckets(items)[w]);
      MeanPermutation(GroupByWeekday(items, order)[w], WeekdayBuckets(items)[w]);
    }
    BucketSizes(items, chosen);
  }

  /**
    `mean_time_weekday_view`: for each weekday, Monday first, its abbreviated
    name and the mean of its intervals (0 for a weekday without dates).
  */
  ghost function MeanTimeWeekday(data: Table, userId: int): (r: Response<seq<(string, real)>>)
    ensures r.NotFound? <==> userId !in data
    ensures r.Ok? ==> |r.body| == 7 && forall w :: 0 <= w < 7 ==> r.body[w].0 == DayAbbr[w]
    ensures r.Ok? ==> forall w, order :: 0 <= w < 7 && Enumerates(order, data[userId].Keys) ==>
      r.body[w].1 == Mean(GroupByWeekday(data[userId], order)[w])
    ensures r.Ok? ==> forall w :: 0 <= w < 7 && DaysOn(data[userId], w) == {} ==> r.body[w].1 == 0.0
  {
    if userId !in data then NotFound
    else
      var buckets := WeekdayBuckets(data[userId]);
      WeekdayBucketsAgree(data[userId]);
      Ok(seq(7, w requires 0 <= w < 7 => (DayAbbr[w], Mean(buckets[w]))))
  }

  /** A row of the total-presence chart: the header row, or a weekday and its total in seconds. */
  datatype TotalRow = Header(title: string, caption: string) | DayTotal(day: string, seconds: int)

  /**
    `presence_weekday_view`: a header row followed by one row per weekday,
    Monday first, with the sum of its intervals (0 for a weekday without dates).
  */
  ghost function PresenceWeekday(data: Table, userId: int): (r: Response<seq<TotalRow>>)
    ensures r.NotFound? <==> userId !in data
    ensures r.Ok? ==> |r.body| == 8 && r.body[0] == Header("Weekday", "Presence (s)")
    ensures r.Ok? ==> forall w, order :: 0 <= w < 7 && Enumerates(order, data[userId].Keys) ==>
      r.body[w + 1] == DayTotal(DayAbbr[w], Sum(GroupByWeekday(data[userId], order)[w]))
    ensures r.Ok? ==> forall w :: 0 <= w < 7 && DaysOn(data[userId], w) == {} ==> r.body[w + 1] == DayTotal(DayAbbr[w], 0)
  {
    if userId !in data then NotFound
    else
      var buckets := WeekdayBuckets(data[userId]);
      WeekdayBucketsAgree(data[userId]);
      Ok([Header("Weekday", "Presence (s)")] + seq(7, w requires 0 <= w < 7 => DayTotal(DayAbbr[w], Sum(buckets[w]))))
  }

  /** The seven totals add up to the user's whole presence: the sum of the intervals of all dates. */
  lemma WeekTotalsCoverAllDates(data: Table, userId: int, order: seq<CalendarDate>)
    requires userId in data && Enumerates(order, data[userId].Keys)
    ensures Within(order, data[userId])
    ensures var b := PresenceWeekday(data, userId).body;
      b[1].seconds + b[2].seconds + b[3].seconds + b[4].seconds + b[5].seconds + b[6].seconds + b[7].seconds
        == Sum(Column(data[userId], order, Duration))
  {
    var items := data[userId];
    EnumerationWithin(items, order);
    BucketsCoverAllDates(items, order);
    TotalSumOfSeven(GroupByWeekday(items, order));
  }

  /**
    A weekday's mean is its total divided by its number of dates; a weekday
    without dates has mean 0 and total 0.
  */
  lemma MeanIsTotalPerDate(data: Table, userId: int, w: int)
    requires userId in data && 0 <= w < 7
    ensures |DaysOn(data[userId], w)| > 0 ==>
      MeanTimeWeekday(data, userId).body[w].1
        == PresenceWeekday(data, userId).body[w + 1].seconds as real / |DaysOn(data[userId], w)| as real
    ensures |DaysOn(data[userId], w)| == 0 ==>
      MeanTimeWeekday(data, userId).body[w].1 == 0.0 && PresenceWeekday(data, userId).body[w + 1].seconds == 0
  {
    var b := WeekdayBuckets(data[userId])[w];
    WeekdayBucketsAgree(data[userId]);
    assert |b| == |DaysOn(data[userId], w)|;
    assert MeanTimeWeekday(data, userId).body[w].1 == Mean(b);
    assert PresenceWeekday(data, userId).body[w + 1].seconds == Sum(b);
  }

  /** The start and end lists `presence_start_end` collects for one weekday. */
  datatype StartEnd = StartEnd(starts: seq<int>, ends: seq<int>)

  /**
    The first loop of `presence_start_end`: seven pairs of empty lists, and for
    each visited date its start and end in seconds appended to its weekday's pair.
  */
  function CollectStartEnd(items: UserDays, order: seq<CalendarDate>): (r: seq<StartEnd>)
    requires Within(order, items)
    ensures |r| == 7
    ensures forall w :: 0 <= w < 7 ==>
      r[w].starts == Picked(items, order, w, Arrival) && r[w].ends == Picked(items, order, w, Departure)
    decreases |order|
  {
    if |order| == 0 then seq(7, _ => StartEnd([], []))
    else
      var init := order[..|order| - 1];
      var d := order[|order| - 1];
      var prev := CollectStartEnd(items, init);
      var wd := Weekday(d);
      var next := prev[wd := StartEnd(
        prev[wd].starts + [SecondsSinceMidnight(items[d].start)],
        prev[wd].ends + [SecondsSinceMidnight(items[d].end)])];
      StartEndSnoc(items, init, d, prev, next);
      assert order == init + [d];
      next
  }

  /** Visiting one more date extends only the pair of lists of its weekday. */
  lemma StartEndSnoc(items: UserDays, init: seq<CalendarDate>, d: CalendarDate, prev: seq<StartEnd>, next: seq<StartEnd>)
    requires Within(init, items) && d in items && |prev| == 7
    requires forall w :: 0 <= w < 7 ==>
      prev[w].starts == Picked(items, init, w, Arrival) && prev[w].ends == Picked(items, init, w, Departure)
    requires next == prev[Weekday(d) := StartEnd(
        prev[Weekday(d)].starts + [SecondsSinceMidnight(items[d].start)],
        prev[Weekday(d)].ends + [SecondsSinceMidnight(items[d].end)])]
    ensures Within(init + [d], items)
    ensures forall w :: 0 <= w < 7 ==>
      next[w].starts == Picked(items, init + [d], w, Arrival) && next[w].ends == Picked(items, init + [d], w, Departure)
  {
    PickedSnoc(items, init, d, Arrival);
    PickedSnoc(items, init, d, Departure);
  }

  /** For each weekday the start and end lists are as long as the user's number of dates on it. */
  lemma StartEndListLengths(items: UserDays, order: seq<CalendarDate>)
    requires Enumerates(order, items.Keys)
    ensures Within(order, items)
    ensures forall w :: 0 <= w < 7 ==>
      |CollectStartEnd(items, order)[w].starts| == |CollectStartEnd(items, order)[w].ends| == |DaysOn(items, w)|
  {
    EnumerationWithin(items, order);
    forall w | 0 <= w < 7
      ensures |CollectStartEnd(items, order)[w].starts| == |DaysOn(items, w)|
    {
      DatesOnEnumerates(items, order, w);
    }
  }

  /** One day's `{'start': [h, m, s], 'end': [h, m, s]}`. */
  datatype DayTimes = DayTimes(start: TimeOfDay, end: TimeOfDay)

  /**
    `time.gmtime(mean(xs))` for times of day in seconds, as hour, minute and
    second: the mean is floored (for these non-negative means the same as
    truncating it) and split.
  */
  function MeanClock(xs: seq<int>): (t: TimeOfDay)
    requires forall i :: 0 <= i < |xs| ==> 0 <= xs[i] < SecondsPerDay
    ensures SecondsSinceMidnight(t) == Mean(xs).Floor
    ensures |xs| == 0 ==> t == Midnight
    ensures |xs| > 0 ==> Min(xs) <= SecondsSinceMidnight(t) <= Max(xs)
  {
    MeanOfDaySeconds(xs);
    var secs := Mean(xs).Floor;
    SecondsOfGmTime(secs);
    GmTime(secs)
  }

  /** A mean of times of day is a time of day between the earliest and the latest. */
  lemma MeanOfDaySeconds(xs: seq<int>)
    requires forall i :: 0 <= i < |xs| ==> 0 <= xs[i] < SecondsPerDay
    ensures 0.0 <= Mean(xs) < SecondsPerDay as real
    ensures |xs| > 0 ==> Min(xs) as real <= Mean(xs) <= Max(xs) as real
  {
    if |xs| > 0 {
      MeanWithin(xs, 0, SecondsPerDay - 1);
      MeanBetweenExtremes(xs);
    }
  }

  /** The arrival or departure seconds of a list of dates all lie within one day. */
  lemma PickedWithinDay(items: UserDays, order: seq<CalendarDate>, w: int, m: Measure)
    requires Within(order, items) && m != Duration
    ensures forall i :: 0 <= i < |Picked(items, order, w, m)| ==> 0 <= Picked(items, order, w, m)[i] < SecondsPerDay
  {
  }

  /** The mean start and end of one weekday's lists. */
  function DayMeans(se: StartEnd): (t: DayTimes)
    requires DaySeconds(se)
    ensures SecondsSinceMidnight(t.start) == Mean(se.starts).Floor
    ensures SecondsSinceMidnight(t.end) == Mean(se.ends).Floor
    ensures se == StartEnd([], []) ==> t == DayTimes(Midnight, Midnight)
  {
    DayTimes(MeanClock(se.starts), MeanClock(se.ends))
  }

  /**
    `presence_start_end`: for each weekday 0..6 the mean start and mean end
    time of the user's dates on it, as hour/minute/second triples; midnight
    for a weekday without dates.
  */
  ghost function PresenceStartEnd(data: Table, userId: int): (r: Response<map<int, DayTimes>>)
    ensures r.NotFound? <==> userId !in data
    ensures r.Ok? ==> forall w :: w in r.body <==> 0 <= w < 7
    ensures r.Ok? ==> forall w :: 0 <= w < 7 && DaysOn(data[userId], w) == {} ==>
      r.body[w] == DayTimes(Midnight, Midnight)
    ensures r.Ok? ==> forall w, order :: 0 <= w < 7 && Enumerates(order, data[userId].Keys) ==>
      && SecondsSinceMidnight(r.body[w].start) == Mean(CollectStartEnd(data[userId], order)[w].starts).Floor
      && SecondsSinceMidnight(r.body[w].end) == Mean(CollectStartEnd(data[userId], order)[w].ends).Floor
  {
    if userId !in data then NotFound
    else
      var items := data[userId];
      var chosen := IterationOrder(items.Keys);
      EnumerationWithin(items, chosen);
      StartEndAgree(items, chosen);
      CollectedWithinDay(items, chosen);
      Ok(WeekMeans(CollectStartEnd(items, chosen)))
  }

  /** A pair of lists of times of day in seconds. */
  predicate DaySeconds(se: StartEnd) {
    && (forall i :: 0 <= i < |se.starts| ==> 0 <= se.starts[i] < SecondsPerDay)
    && (forall i :: 0 <= i < |se.ends| ==> 0 <= se.ends[i] < SecondsPerDay)
  }

  /** The second loop of `presence_start_end`: weekday `w` maps to the mean start and end of the `w`-th pair. */
  function WeekMeans(lists: seq<StartEnd>): (r: map<int, DayTimes>)
    requires |lists| == 7 && forall w :: 0 <= w < 7 ==> DaySeconds(lists[w])
    ensures forall w :: w in r <==> 0 <= w < 7
    ensures forall w :: 0 <= w < 7 ==>
      && SecondsSinceMidnight(r[w].start) == Mean(lists[w].starts).Floor
      && SecondsSinceMidnight(r[w].end) == Mean(lists[w].ends).Floor
    ensures forall w :: 0 <= w < 7 && lists[w] == StartEnd([], []) ==> r[w] == DayTimes(Midnight, Midnight)
  {
    map w | 0 <= w < 7 :: DayMeans(lists[w])
  }

  /** Every collected start and end is a time of day in seconds. */
  lemma CollectedWithinDay(items: UserDays, order: seq<CalendarDate>)
    requires Within(order, items)
    ensures forall w :: 0 <= w < 7 ==> DaySeconds(CollectStartEnd(items, order)[w])
  {
    forall w | 0 <= w < 7
      ensures DaySeconds(CollectStartEnd(items, order)[w])
    {
      PickedWithinDay(items, order, w, Arrival);
      PickedWithinDay(items, order, w, Departure);
    }
  }

  /** Any iteration order gives the same start and end means, and empty lists for a weekday without dates. */
  lemma StartEndAgree(items: UserDays, chosen: seq<CalendarDate>)
    requires Enumerates(chosen, items.Keys)
    ensures Within(chosen, items)
    ensures forall w, order :: 0 <= w < 7 && Enumerates(order, items.Keys) ==>
      && Mean(CollectStartEnd(items, order)[w].starts) == Mean(CollectStartEnd(items, chosen)[w].starts)
      && Mean(CollectStartEnd(items, order)[w].ends) == Mean(CollectStartEnd(items, chosen)[w].ends)
    ensures forall w :: 0 <= w < 7 && DaysOn(items, w) == {} ==>
      CollectStartEnd(items, chosen)[w] == StartEnd([], [])
  {
    EnumerationWithin(items, chosen);
    forall w, order | 0 <= w < 7 && Enumerates(order, items.Keys)
      ensures Mean(CollectStartEnd(items, order)[w].starts) == Mean(CollectStartEnd(items, chosen)[w].starts)
      ensures Mean(CollectStartEnd(items, order)[w].ends) == Mean(CollectStartEnd(items, chosen)[w].ends)
    {
      EnumerationWithin(items, order);
      EnumerationsPermute(order, chosen, items.Keys);
      PickedPermutation(items, order, chosen, w, Arrival);
      PickedPermutation(items, order, chosen, w, Departure);
      MeanPermutation(Picked(items, order, w, Arrival), Picked(items, chosen, w, Arrival));
      MeanPermutation(Picked(items, order, w, Departure), Picked(items, chosen, w, Departure));
    }
    StartEndListLengths(items, chosen);
  }

  /**
    A weekday with a single date shows that date's own figures: its interval
    as mean and as total, and its own start and end as the mean start and end.
  */
  lemma SingleDateWeekday(data: Table, userId: int, w: int, d: CalendarDate)
    requires userId in data && 0 <= w < 7
    requires DaysOn(data[userId], w) == {d}
    ensures d in data[userId]
    ensures var p := data[userId][d];
      && MeanTimeWeekday(data, userId).body[w] == (DayAbbr[w], Interval(p.start, p.end) as real)
      && PresenceWeekday(data, userId).body[w + 1] == DayTotal(DayAbbr[w], Interval(p.start, p.end))
      && PresenceStartEnd(data, userId).body[w] == DayTimes(p.start, p.end)
  {
    assert d in DaysOn(data[userId], w);
    SingleDateBucket(data[userId], w, d);
    var b := WeekdayBuckets(data[userId])[w];
    assert MeanTimeWeekday(data, userId).body[w] == (DayAbbr[w], Mean(b));
    assert PresenceWeekday(data, userId).body[w + 1] == DayTotal(DayAbbr[w], Sum(b));
    SingleDateStartEnd(data, userId, w, d);
  }

  /** The weekday list of a weekday with a single date holds just that date's interval. */
  lemma SingleDateBucket(items: UserDays, w: int, d: CalendarDate)
    requires 0 <= w < 7 && DaysOn(items, w) == {d}
    ensures d in items
    ensures WeekdayBuckets(items)[w] == [Interval(items[d].start, items[d].end)]
    ensures Mean(WeekdayBuckets(items)[w]) == Interval(items[d].start, items[d].end) as real
    ensures Sum(WeekdayBuckets(items)[w]) == Interval(items[d].start, items[d].end)
  {
    assert d in DaysOn(items, w);
    var chosen := IterationOrder(items.Keys);
    EnumerationWithin(items, chosen);
    SingleDateOn(items, chosen, w, d);
    assert GroupByWeekday(items, chosen)[w] == Picked(items, chosen, w, Duration);
    MeanSingleton(Interval(items[d].start, items[d].end));
    assert [Interval(items[d].start, items[d].end)][1..] == [];
  }

  /** The mean start and end of a weekday with a single date are that date's start and end. */
  lemma SingleDateStartEnd(data: Table, userId: int, w: int, d: CalendarDate)
    requires userId in data && 0 <= w < 7
    requires DaysOn(data[userId], w) == {d}
    ensures d in data[userId]
    ensures PresenceStartEnd(data, userId).body[w] == DayTimes(data[userId][d].start, data[userId][d].end)
  {
    var items := data[userId];
    assert d in DaysOn(items, w);
    var p := items[d];
    var chosen := IterationOrder(items.Keys);
    EnumerationWithin(items, chosen);
    SingleDateOn(items, chosen, w, d);
    var lists := CollectStartEnd(items, chosen);
    assert lists[w].starts == [SecondsSinceMidnight(p.start)];
    assert lists[w].ends == [SecondsSinceMidnight(p.end)];
    MeanSingleton(SecondsSinceMidnight(p.start));
    MeanSingleton(SecondsSinceMidnight(p.end));
    CollectedWithinDay(items, chosen);
    var r := WeekMeans(lists)[w];
    assert PresenceStartEnd(data, userId).body[w] == r;
    SecondsInjective(r.start, p.start);
    SecondsInjective(r.end, p.end);
  }

  /** A weekday without dates shows mean 0, total 0, and midnight as mean start and end. */
  lemma EmptyWeekday(data: Table, userId: int, w: int)
    requires userId in data && 0 <= w < 7
    requires DaysOn(data[userId], w) == {}
    ensures MeanTimeWeekday(data, userId).body[w] == (DayAbbr[w], 0.0)
    ensures PresenceWeekday(data, userId).body[w + 1] == DayTotal(DayAbbr[w], 0)
    ensures PresenceStartEnd(data, userId).body[w] == DayTimes(Midnight, Midnight)
  {
  }
}
