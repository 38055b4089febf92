/**
  The three records of user 10 in the sample data file (a Tuesday, a
  Wednesday and a Thursday of September 2013) and what each view answers
  for them.
*/
module Samples {
  import opened Clock
  import opened Calendar
  import opened Records
  import opened Grouping
  import opened Views
  import opened Decimal

  const Tuesday: CalendarDate := Date(2013, 9, 10)
  const Wednesday: CalendarDate := Date(2013, 9, 11)
  const Thursday: CalendarDate := Date(2013, 9, 12)

  const User10: UserDays := map[
    Tuesday := Presence(Time(9, 39, 5), Time(17, 59, 52)),
    Thursday := Presence(Time(10, 48, 46), Time(17, 23, 51)),
    Wednesday := Presence(Time(9, 19, 52), Time(16, 7, 37))]

  /** Weekdays 1, 2 and 3 hold one date each; the other four hold none. */
  lemma SampleDaysOn()
    ensures DaysOn(User10, 0) == {}
    ensures DaysOn(User10, 1) == {Tuesday}
    ensures DaysOn(User10, 2) == {Wednesday}
    ensures DaysOn(User10, 3) == {Thursday}
    ensures DaysOn(User10, 4) == {}
    ensures DaysOn(User10, 5) == {}
    ensures DaysOn(User10, 6) == {}
  {
    SampleWeekdays();
    assert User10.Keys == {Tuesday, Wednesday, Thursday};
  }

  /** The three sample records, looked up. */
  lemma SampleRecords()
    ensures User10[Tuesday] == Presence(Time(9, 39, 5), Time(17, 59, 52))
    ensures User10[Wednesday] == Presence(Time(9, 19, 52), Time(16, 7, 37))
    ensures User10[Thursday] == Presence(Time(10, 48, 46), Time(17, 23, 51))
  {
  }

  /** The intervals of the three sample records. */
  lemma SampleIntervals()
    ensures Interval(User10[Tuesday].start, User10[Tuesday].end) == 30047
    ensures Interval(User10[Wednesday].start, User10[Wednesday].end) == 24465
    ensures Interval(User10[Thursday].start, User10[Thursday].end) == 23705
    ensures Interval(User10[Tuesday].start, User10[Tuesday].end) as real == 30047.0
    ensures Interval(User10[Wednesday].start, User10[Wednesday].end) as real == 24465.0
    ensures Interval(User10[Thursday].start, User10[Thursday].end) as real == 23705.0
  {
  }

  /** `group_by_weekday` on the sample records, whatever the dict order. */
  lemma SampleGroupByWeekday(order: seq<CalendarDate>)
    requires Enumerates(order, User10.Keys)
    ensures Within(order, User10)
    ensures GroupByWeekday(User10, order) == [[], [30047], [24465], [23705], [], [], []]
  {
    SampleDaysOn();
    SampleIntervals();
    NoDateBucket(User10, order, 0);
    OneDateBucket(User10, order, 1, Tuesday);
    OneDateBucket(User10, order, 2, Wednesday);
    OneDateBucket(User10, order, 3, Thursday);
    NoDateBucket(User10, order, 4);
    NoDateBucket(User10, order, 5);
    NoDateBucket(User10, order, 6);
    SampleBuckets(GroupByWeekday(User10, order));
  }

  lemma SampleBuckets(b: seq<seq<int>>)
    requires |b| == 7 && b[0] == [] && b[4] == [] && b[5] == [] && b[6] == []
    requires b[1] == [30047] && b[2] == [24465] && b[3] == [23705]
    ensures b == [[], [30047], [24465], [23705], [], [], []]
  {
  }

  /** `mean_time_weekday_view` for a table holding user 10's sample records. */
  lemma SampleMeanTimeWeekday(data: Table)
    requires 10 in data && data[10] == User10
    ensures MeanTimeWeekday(data, 10) == Ok([("Mon", 0.0), ("Tue", 30047.0), ("Wed", 24465.0),
      ("Thu", 23705.0), ("Fri", 0.0), ("Sat", 0.0), ("Sun", 0.0)])
  {
    SampleDaysOn();
    SampleIntervals();
    SingleDateWeekday(data, 10, 1, Tuesday);
    SingleDateWeekday(data, 10, 2, Wednesday);
    SingleDateWeekday(data, 10, 3, Thursday);
    EmptyWeekday(data, 10, 0);
    EmptyWeekday(data, 10, 4);
    EmptyWeekday(data, 10, 5);
    EmptyWeekday(data, 10, 6);
    SampleMeans(MeanTimeWeekday(data, 10).body);
  }

  lemma SampleMeans(b: seq<(string, real)>)
    requires |b| == 7 && b[0] == ("Mon", 0.0) && b[4] == ("Fri", 0.0) && b[5] == ("Sat", 0.0) && b[6] == ("Sun", 0.0)
    requires b[1] == ("Tue", 30047.0) && b[2] == ("Wed", 24465.0) && b[3] == ("Thu", 23705.0)
    ensures b == [("Mon", 0.0), ("Tue", 30047.0), ("Wed", 24465.0), ("Thu", 23705.0), ("Fri", 0.0), ("Sat", 0.0), ("Sun", 0.0)]
  {
  }

  /** `presence_weekday_view` for a table holding user 10's sample records. */
  lemma SamplePresenceWeekday(data: Table)
    requires 10 in data && data[10] == User10
    ensures PresenceWeekday(data, 10) == Ok([Header("Weekday", "Presence (s)"), DayTotal("Mon", 0),
      DayTotal("Tue", 30047), DayTotal("Wed", 24465), DayTotal("Thu", 23705),
      DayTotal("Fri", 0), DayTotal("Sat", 0), DayTotal("Sun", 0)])
  {
    SampleDaysOn();
    SampleIntervals();
    SingleDateWeekday(data, 10, 1, Tuesday);
    SingleDateWeekday(data, 10, 2, Wednesday);
    SingleDateWeekday(data, 10, 3, Thursday);
    EmptyWeekday(data, 10, 0);
    EmptyWeekday(data, 10, 4);
    EmptyWeekday(data, 10, 5);
    EmptyWeekday(data, 10, 6);
    SampleTotals(PresenceWeekday(data, 10).body);
  }

  lemma SampleTotals(b: seq<TotalRow>)
    requires |b| == 8 && b[0] == Header("Weekday", "Presence (s)")
    requires b[1] == DayTotal("Mon", 0) && b[5] == DayTotal("Fri", 0) && b[6] == DayTotal("Sat", 0) && b[7] == DayTotal("Sun", 0)
    requires b[2] == DayTotal("Tue", 30047) && b[3] == DayTotal("Wed", 24465) && b[4] == DayTotal("Thu", 23705)
    ensures b == [Header("Weekday", "Presence (s)"), DayTotal("Mon", 0),
      DayTotal("Tue", 30047), DayTotal("Wed", 24465), DayTotal("Thu", 23705),
      DayTotal("Fri", 0), DayTotal("Sat", 0), DayTotal("Sun", 0)]
  {
  }

  /** `presence_start_end` for a table holding user 10's sample records. */
  lemma SamplePresenceStartEnd(data: Table)
    requires 10 in data && data[10] == User10
    ensures PresenceStartEnd(data, 10) == Ok(SampleStartEnd())
  {
    var b := PresenceStartEnd(data, 10).body;
    assert forall w :: w in b <==> 0 <= w < 7;
    SampleDay(data, 0, Tuesday);
    SampleDay(data, 1, Tuesday);
    SampleDay(data, 2, Wednesday);
    SampleDay(data, 3, Thursday);
    SampleDay(data, 4, Tuesday);
    SampleDay(data, 5, Tuesday);
    SampleDay(data, 6, Tuesday);
    SampleMeanTimes(b);
  }

  /** One weekday of `presence_start_end` for the sample records. */
  lemma SampleDay(data: Table, w: int, d: CalendarDate)
    requires 10 in data && data[10] == User10 && 0 <= w < 7
    requires (w, d) in {(1, Tuesday), (2, Wednesday), (3, Thursday)} || w in {0, 4, 5, 6}
    ensures PresenceStartEnd(data, 10).Ok?
    ensures PresenceStartEnd(data, 10).body[w] == ExpectedDay(w)
  {
    SampleDaysOn();
    SampleRecords();
    if w in {0, 4, 5, 6} {
      EmptyWeekday(data, 10, w);
    } else {
      SingleDateStartEnd(data, 10, w, d);
    }
  }

  /** The expected answer of `presence_start_end` for user 10: midnight on the weekdays without records. */
  function SampleStartEnd(): map<int, DayTimes> {
    map w | 0 <= w < 7 :: ExpectedDay(w)
  }

  function ExpectedDay(w: int): DayTimes {
    if w == 1 then DayTimes(Time(9, 39, 5), Time(17, 59, 52))
    else if w == 2 then DayTimes(Time(9, 19, 52), Time(16, 7, 37))
    else if w == 3 then DayTimes(Time(10, 48, 46), Time(17, 23, 51))
    else DayTimes(Midnight, Midnight)
  }

  lemma SampleMeanTimes(b: map<int, DayTimes>)
    requires forall w :: w in b <==> 0 <= w < 7
    requires b[0] == ExpectedDay(0) && b[1] == ExpectedDay(1) && b[2] == ExpectedDay(2) && b[3] == ExpectedDay(3)
    requires b[4] == ExpectedDay(4) && b[5] == ExpectedDay(5) && b[6] == ExpectedDay(6)
    ensures b == SampleStartEnd()
  {
  }

  /** The users list of a table with users 10 and 11 has two entries, one of them user 10's. */
  lemma SampleUsers(data: Table)
    requires data.Keys == {10, 11}
    ensures |UsersView(data)| == 2
    ensures User(10, "User 10") in UsersView(data)
  {
    DecimalExamples();
    var r := UsersView(data);
    var i :| 0 <= i < |r| && r[i].userId == 10;
    assert r[i] == User(10, "User 10");
  }
}
