/**
  `group_by_weekday`: one user's records sorted into seven lists of intervals,
  indexed by `date.weekday()`, in the order the loop visits the dates.
*/
module Grouping {
  import opened Clock
  import opened Calendar
  import opened Stats
  import opened Records

  /** The number a per-weekday list collects from a day's record. */
  datatype Measure = Duration | Arrival | Departure

  function Measured(p: Presence, m: Measure): int {
    match m
    case Duration => Interval(p.start, p.end)
    case Arrival => SecondsSinceMidnight(p.start)
    case Departure => SecondsSinceMidnight(p.end)
  }

  /** Every date of `order` has a record in `items`. */
  predicate Within(order: seq<CalendarDate>, items: UserDays) {
    forall d :: d in order ==> d in items
  }

  /** The dates of `order` that fall on weekday `w`, in the order given. */
  function DatesOn(order: seq<CalendarDate>, w: int): (r: seq<CalendarDate>)
    ensures forall d :: d in r <==> d in order && Weekday(d) == w
    ensures |r| <= |order|
  {
    if |order| == 0 then []
    else (if Weekday(order[0]) == w then [order[0]] else []) + DatesOn(order[1..], w)
  }

  /** The measure `m` of the record of each date of `dates`, in that order. */
  function Column(items: UserDays, dates: seq<CalendarDate>, m: Measure): seq<int>
    requires Within(dates, items)
  {
    seq(|dates|, i requires 0 <= i < |dates| => Measured(items[dates[i]], m))
  }

  /** The measure `m` of the records of the dates of `order` on weekday `w`, in that order. */
  function Picked(items: UserDays, order: seq<CalendarDate>, w: int, m: Measure): seq<int>
    requires Within(order, items)
  {
    Column(items, DatesOn(order, w), m)
  }

  /** The dates of `items` that fall on weekday `w`. */
  ghost function DaysOn(items: UserDays, w: int): set<CalendarDate> {
    set d | d in items && Weekday(d) == w
  }

  /**
    The loop of `group_by_weekday`: start from seven empty lists and append
    each visited date's interval to the list of its weekday.
  */
  function GroupByWeekday(items: UserDays, order: seq<CalendarDate>): (buckets: seq<seq<int>>)
    requires Within(order, items)
    ensures |buckets| == 7
    ensures forall w :: 0 <= w < 7 ==> buckets[w] == Picked(items, order, w, Duration)
    decreases |order|
  {
    if |order| == 0 then [[], [], [], [], [], [], []]
    else
      var init := order[..|order| - 1];
      var d := order[|order| - 1];
      var prev := GroupByWeekday(items, init);
      var wd := Weekday(d);
      assert order == init + [d];
      PickedSnoc(items, init, d, Duration);
      prev[wd := prev[wd] + [Interval(items[d].start, items[d].end)]]
  }

  lemma {:induction false} DatesOnAppend(a: seq<CalendarDate>, b: seq<CalendarDate>, w: int)
    ensures DatesOn(a + b, w) == DatesOn(a, w) + DatesOn(b, w)
  {
    if |a| > 0 {
      assert (a + b)[1..] == a[1..] + b;
      DatesOnAppend(a[1..], b, w);
    } else {
      assert a + b == b;
    }
  }

  lemma ColumnAppend(items: UserDays, a: seq<CalendarDate>, b: seq<CalendarDate>, m: Measure)
    requires Within(a, items) && Within(b, items)
    ensures Within(a + b, items)
    ensures Column(items, a + b, m) == Column(items, a, m) + Column(items, b, m)
  {
    var l, r, lr := Column(items, a, m), Column(items, b, m), Column(items, a + b, m);
    forall i | 0 <= i < |lr|
      ensures lr[i] == (l + r)[i]
    {
      if i < |a| {
        assert (a + b)[i] == a[i];
      } else {
        assert (a + b)[i] == b[i - |a|];
      }
    }
  }

  lemma PickedAppend(items: UserDays, a: seq<CalendarDate>, b: seq<CalendarDate>, w: int, m: Measure)
    requires Within(a, items) && Within(b, items)
    ensures Within(a + b, items)
    ensures Picked(items, a + b, w, m) == Picked(items, a, w, m) + Picked(items, b, w, m)
  {
    DatesOnAppend(a, b, w);
    ColumnAppend(items, DatesOn(a, w), DatesOn(b, w), m);
  }

  /** Visiting one more date extends only the list of that date's weekday. */
  lemma PickedSnoc(items: UserDays, init: seq<CalendarDate>, d: CalendarDate, m: Measure)
    requires Within(init, items) && d in items
    ensures Within(init + [d], items)
    ensures forall w ::
      Picked(items, init + [d], w, m) == Picked(items, init, w, m) + (if Weekday(d) == w then [Measured(items[d], m)] else [])
  {
    forall w
      ensures Picked(items, init + [d], w, m)
        == Picked(items, init, w, m) + (if Weekday(d) == w then [Measured(items[d], m)] else [])
    {
      PickedAppend(items, init, [d], w, m);
      assert [d][1..] == [];
    }
  }

  /**
    Every visited date's value lands in the list of its weekday, and every
    entry of list `w` is the value of a visited date on weekday `w`.
  */
  lemma PickedPlacement(items: UserDays, order: seq<CalendarDate>, m: Measure)
    requires Within(order, items)
    ensures forall i :: 0 <= i < |order| ==> Measured(items[order[i]], m) in Picked(items, order, Weekday(order[i]), m)
    ensures forall w, k :: 0 <= k < |Picked(items, order, w, m)| ==>
      var d := DatesOn(order, w)[k]; d in order && Weekday(d) == w && Picked(items, order, w, m)[k] == Measured(items[d], m)
  {
    forall i | 0 <= i < |order|
      ensures Measured(items[order[i]], m) in Picked(items, order, Weekday(order[i]), m)
    {
      var d := order[i];
      var dates := DatesOn(order, Weekday(d));
      assert d in dates;
      var k :| 0 <= k < |dates| && dates[k] == d;
      assert Picked(items, order, Weekday(d), m)[k] == Measured(items[d], m);
    }
  }

  /** Total length of a list of lists. */
  function TotalLength(bs: seq<seq<int>>): int {
    if |bs| == 0 then 0 else |bs[0]| + TotalLength(bs[1..])
  }

  /** Sum of the sums of a list of lists. */
  function TotalSum(bs: seq<seq<int>>): int {
    if |bs| == 0 then 0 else Sum(bs[0]) + TotalSum(bs[1..])
  }

  lemma {:induction false} TotalsOfEmptyLists(bs: seq<seq<int>>)
    requires forall k :: 0 <= k < |bs| ==> bs[k] == []
    ensures TotalLength(bs) == 0 && TotalSum(bs) == 0
  {
    if |bs| > 0 {
      TotalsOfEmptyLists(bs[1..]);
    }
  }

  /** Appending `x` to one list adds one to the total length and `x` to the total sum. */
  lemma {:induction false} TotalsAfterAppend(bs: seq<seq<int>>, k: int, x: int)
    requires 0 <= k < |bs|
    ensures TotalLength(bs[k := bs[k] + [x]]) == TotalLength(bs) + 1
    ensures TotalSum(bs[k := bs[k] + [x]]) == TotalSum(bs) + x
  {
    SumAppend(bs[k], [x]);
    assert Sum([x]) == x by {
      assert [x][1..] == [];
    }
    if k > 0 {
      TotalsAfterAppend(bs[1..], k - 1, x);
      assert bs[k := bs[k] + [x]][1..] == bs[1..][k - 1 := bs[k] + [x]];
    } else {
      assert bs[k := bs[k] + [x]][1..] == bs[1..];
    }
  }

  /**
    The seven lists together hold exactly one value per visited date: their
    lengths add up to the number of dates and their sums to the sum of all
    intervals.
  */
  lemma {:induction false} BucketsCoverAllDates(items: UserDays, order: seq<CalendarDate>)
    requires Within(order, items)
    ensures TotalLength(GroupByWeekday(items, order)) == |order|
    ensures TotalSum(GroupByWeekday(items, order)) == Sum(Column(items, order, Duration))
    decreases |order|
  {
    if |order| == 0 {
      TotalsOfEmptyLists(GroupByWeekday(items, order));
    } else {
      var init := order[..|order| - 1];
      var d := order[|order| - 1];
      BucketsCoverAllDates(items, init);
      GroupByWeekdaySnoc(items, order);
      TotalsAfterAppend(GroupByWeekday(items, init), Weekday(d), Interval(items[d].start, items[d].end));
      ColumnSumSnoc(items, order);
    }
  }

  /** Visiting one more date appends its interval to the list of its weekday. */
  lemma GroupByWeekdaySnoc(items: UserDays, order: seq<CalendarDate>)
    requires Within(order, items) && |order| > 0
    ensures var d := order[|order| - 1];
      var prev := GroupByWeekday(items, order[..|order| - 1]);
      GroupByWeekday(items, order) == prev[Weekday(d) := prev[Weekday(d)] + [Interval(items[d].start, items[d].end)]]
  {
  }

  /** Visiting one more date adds its interval to the sum of the visited intervals. */
  lemma ColumnSumSnoc(items: UserDays, order: seq<CalendarDate>)
    requires Within(order, items) && |order| > 0
    ensures var d := order[|order| - 1];
      Sum(Column(items, order, Duration)) ==
      Sum(Column(items, order[..|order| - 1], Duration)) + Interval(items[d].start, items[d].end)
  {
    var init, d := order[..|order| - 1], order[|order| - 1];
    var x := Interval(items[d].start, items[d].end);
    assert order == init + [d];
    ColumnAppend(items, init, [d], Duration);
    assert Column(items, [d], Duration) == [x];
    SumAppend(Column(items, init, Duration), [x]);
    assert Sum([x]) == x by {
      assert [x][1..] == [];
    }
  }

  /** When `order` lists the keys of `items` once each, so does the filtered list for the keys on weekday `w`. */
  lemma {:induction false} DatesOnDistinct(order: seq<CalendarDate>, w: int)
    requires Distinct(order)
    ensures Distinct(DatesOn(order, w))
  {
    if |order| > 0 {
      assert Distinct(order[1..]);
      DatesOnDistinct(order[1..], w);
      assert order[0] !in order[1..];
    }
  }

  lemma DatesOnEnumerates(items: UserDays, order: seq<CalendarDate>, w: int)
    requires Enumerates(order, items.Keys)
    ensures Enumerates(DatesOn(order, w), DaysOn(items, w))
    ensures |DatesOn(order, w)| == |DaysOn(items, w)|
  {
    DatesOnDistinct(order, w);
    var dates := DatesOn(order, w);
    forall i | 0 <= i < |dates|
      ensures dates[i] in DaysOn(items, w)
    {
      assert dates[i] in dates;
    }
    EnumerationSize(DatesOn(order, w), DaysOn(items, w));
  }

  /** List `w` has one entry per date of the user on weekday `w`; in all, one per date. */
  lemma BucketSizes(items: UserDays, order: seq<CalendarDate>)
    requires Enumerates(order, items.Keys)
    ensures forall w :: 0 <= w < 7 ==> |GroupByWeekday(items, order)[w]| == |DaysOn(items, w)|
    ensures TotalLength(GroupByWeekday(items, order)) == |items|
  {
    forall w | 0 <= w < 7
      ensures |GroupByWeekday(items, order)[w]| == |DaysOn(items, w)|
    {
      DatesOnEnumerates(items, order, w);
    }
    BucketsCoverAllDates(items, order);
    EnumerationSize(order, items.Keys);
  }

  /** A weekday's list is empty exactly when the user has no date on that weekday. */
  lemma EmptyBucket(items: UserDays, order: seq<CalendarDate>, w: int)
    requires Enumerates(order, items.Keys)
    requires 0 <= w < 7
    ensures GroupByWeekday(items, order)[w] == [] <==> forall d :: d in items ==> Weekday(d) != w
  {
    DatesOnEnumerates(items, order, w);
    if GroupByWeekday(items, order)[w] == [] {
      assert DatesOn(order, w) == [];
    } else {
      assert order[0] in items;
      var d := DatesOn(order, w)[0];
      assert d in items && Weekday(d) == w;
    }
  }

  /** Reordering the visited dates only reorders each weekday's values. */
  lemma {:induction false} PickedPermutation(items: UserDays, a: seq<CalendarDate>, b: seq<CalendarDate>, w: int, m: Measure)
    requires Within(a, items) && Within(b, items)
    requires multiset(a) == multiset(b)
    ensures multiset(Picked(items, a, w, m)) == multiset(Picked(items, b, w, m))
    decreases |a|
  {
    if |a| == 0 {
      assert |b| == |multiset(b)| == 0;
    } else {
      var x := a[0];
      var j := MatchFirst(a, b);
      var front, back := b[..j], b[j + 1..];
      assert Within(front, items) && Within(back, items) && Within(a[1..], items);
      PickedPermutation(items, a[1..], front + back, w, m);
      var pa, pb := Picked(items, a, w, m), Picked(items, b, w, m);
      var px, pt := Picked(items, [x], w, m), Picked(items, a[1..], w, m);
      var pf, pk := Picked(items, front, w, m), Picked(items, back, w, m);
      PickedAppend(items, [x], a[1..], w, m);
      assert pa == px + pt;
      PickedAppend(items, front, back, w, m);
      assert multiset(pt) == multiset(pf) + multiset(pk);
      PickedAppend(items, front, [x], w, m);
      PickedAppend(items, front + [x], back, w, m);
      assert pb == pf + px + pk;
      assert multiset(pa) == multiset(px) + multiset(pt);
      assert multiset(pb) == multiset(pf) + multiset(px) + multiset(pk);
    }
  }

  /**
    The weekday lists do not depend on the dict's iteration order beyond the
    order within each list: any two orders give the same values per weekday.
  */
  lemma BucketsIndependentOfOrder(items: UserDays, a: seq<CalendarDate>, b: seq<CalendarDate>)
    requires Enumerates(a, items.Keys) && Enumerates(b, items.Keys)
    ensures forall w :: 0 <= w < 7 ==>
      multiset(GroupByWeekday(items, a)[w]) == multiset(GroupByWeekday(items, b)[w])
  {
    EnumerationsPermute(a, b, items.Keys);
    forall w | 0 <= w < 7
      ensures multiset(GroupByWeekday(items, a)[w]) == multiset(GroupByWeekday(items, b)[w])
    {
      PickedPermutation(items, a, b, w, Duration);
    }
  }

  /** An iteration order of the keys only visits dates that have a record. */
  lemma EnumerationWithin(items: UserDays, order: seq<CalendarDate>)
    requires Enumerates(order, items.Keys)
    ensures Within(order, items)
  {
    forall d | d in order
      ensures d in items
    {
      var i :| 0 <= i < |order| && order[i] == d;
    }
  }

  /** When the user has a single date on weekday `w`, that weekday's dates are just that one. */
  lemma SingleDateOn(items: UserDays, order: seq<CalendarDate>, w: int, d: CalendarDate)
    requires Enumerates(order, items.Keys)
    requires DaysOn(items, w) == {d}
    ensures DatesOn(order, w) == [d]
  {
    DatesOnEnumerates(items, order, w);
    var dates := DatesOn(order, w);
    assert |dates| == 1;
    assert dates[0] in DaysOn(items, w);
  }

  /** A weekday with a single date collects that date's interval alone. */
  lemma OneDateBucket(items: UserDays, order: seq<CalendarDate>, w: int, d: CalendarDate)
    requires Enumerates(order, items.Keys) && 0 <= w < 7
    requires DaysOn(items, w) == {d}
    ensures d in items && Within(order, items)
    ensures GroupByWeekday(items, order)[w] == [Interval(items[d].start, items[d].end)]
  {
    assert d in DaysOn(items, w);
    EnumerationWithin(items, order);
    SingleDateOn(items, order, w, d);
  }

  /** A weekday without dates collects nothing. */
  lemma NoDateBucket(items: UserDays, order: seq<CalendarDate>, w: int)
    requires Enumerates(order, items.Keys) && 0 <= w < 7
    requires DaysOn(items, w) == {}
    ensures Within(order, items)
    ensures GroupByWeekday(items, order)[w] == []
  {
    EnumerationWithin(items, order);
    EmptyBucket(items, order, w);
    forall d | d in items
      ensures Weekday(d) != w
    {
      assert d !in DaysOn(items, w);
    }
  }

  /** Sum of the sums of seven lists, written out. */
  lemma TotalSumOfSeven(bs: seq<seq<int>>)
    requires |bs| == 7
    ensures TotalSum(bs) == Sum(bs[0]) + Sum(bs[1]) + Sum(bs[2]) + Sum(bs[3]) + Sum(bs[4]) + Sum(bs[5]) + Sum(bs[6])
  {
    assert bs[1..][1..][1..][1..][1..][1..][1..] == [];
    assert TotalSum(bs[6..]) == Sum(bs[6]);
    assert TotalSum(bs[5..]) == Sum(bs[5]) + TotalSum(bs[6..]) by { assert bs[5..][1..] == bs[6..]; }
    assert TotalSum(bs[4..]) == Sum(bs[4]) + TotalSum(bs[5..]) by { assert bs[4..][1..] == bs[5..]; }
    assert TotalSum(bs[3..]) == Sum(bs[3]) + TotalSum(bs[4..]) by { assert bs[3..][1..] == bs[4..]; }
    assert TotalSum(bs[2..]) == Sum(bs[2]) + TotalSum(bs[3..]) by { assert bs[2..][1..] == bs[3..]; }
    assert TotalSum(bs[1..]) == Sum(bs[1]) + TotalSum(bs[2..]) by { assert bs[1..][1..] == bs[2..]; }
  }
}
