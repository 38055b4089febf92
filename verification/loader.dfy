/**
  The row loop of `get_data`. Reading the file, splitting it into cells and
  the `int()`/`strptime` conversions are abstracted: each line arrives as its
  number of cells plus the outcome of converting each of its first four cells.
*/
module Loader {
  import opened Results
  import opened Clock
  import opened Calendar
  import opened Records

  /**
    One CSV line: `width` cells, and for a four-cell line the outcome of
    `int(row[0])`, `strptime(row[1], '%Y-%m-%d')`, `strptime(row[2], '%H:%M:%S')`
    and `strptime(row[3], '%H:%M:%S')`.
  */
  datatype Line = Line(
    width: nat,
    userId: Option<int>,
    date: Option<CalendarDate>,
    start: Option<TimeOfDay>,
    end: Option<TimeOfDay>)

  /** Index of the first conversion that raises; 4 when none does. */
  function FailedAt(line: Line): (k: nat)
    ensures k <= 4
  {
    if line.userId.None? then 0
    else if line.date.None? then 1
    else if line.start.None? then 2
    else if line.end.None? then 3
    else 4
  }

  /** A four-cell line all of whose cells convert. */
  predicate Complete(line: Line) {
    line.width == 4 && FailedAt(line) == 4
  }

  /** The record a complete line describes. */
  function RecordOf(line: Line): Presence
    requires Complete(line)
  {
    Presence(line.start.value, line.end.value)
  }

  /**
    The loop variables `user_id`, `date`, `start` and `end`. They are `None`
    until first assigned and keep their value from one line to the next.
  */
  datatype Locals = Locals(userId: Option<int>, date: Option<CalendarDate>, start: Option<TimeOfDay>, end: Option<TimeOfDay>)

  const Unassigned: Locals := Locals(None, None, None, None)

  predicate Bound(v: Locals) {
    v.userId.Some? && v.date.Some? && v.start.Some? && v.end.Some?
  }

  /** Reading a variable that was never assigned raises UnboundLocalError, which nothing catches. */
  datatype LoadError = UnboundLocal

  /** The state between two lines: the table built so far and the loop variables. */
  datatype Loop = Loop(data: Table, vars: Locals)

  /**
    The `try` block: the conversions run in order and the first one that raises
    stops it. Variables before the failing cell take this line's values; the
    failing one and those after it keep the values of an earlier line.
  */
  function Assign(vars: Locals, line: Line): (v: Locals)
    ensures v.userId == if FailedAt(line) > 0 then line.userId else vars.userId
    ensures v.date == if FailedAt(line) > 1 then line.date else vars.date
    ensures v.start == if FailedAt(line) > 2 then line.start else vars.start
    ensures v.end == if FailedAt(line) > 3 then line.end else vars.end
  {
    match (line.userId, line.date, line.start, line.end)
    case (None, _, _, _) => vars
    case (Some(_), None, _, _) => vars.(userId := line.userId)
    case (Some(_), Some(_), None, _) => vars.(userId := line.userId, date := line.date)
    case (Some(_), Some(_), Some(_), None) => vars.(userId := line.userId, date := line.date, start := line.start)
    case (Some(_), Some(_), Some(_), Some(_)) => Locals(line.userId, line.date, line.start, line.end)
  }

  /** The record of user `u` on date `d`, if any. */
  function Lookup(t: Table, u: int, d: CalendarDate): Option<Presence> {
    if u in t && d in t[u] then Some(t[u][d]) else None
  }

  /** `data.setdefault(u, {})[d] = p`. */
  function Store(t: Table, u: int, d: CalendarDate, p: Presence): (r: Table)
    ensures Lookup(r, u, d) == Some(p)
    ensures forall u', d' :: (u' != u || d' != d) ==> Lookup(r, u', d') == Lookup(t, u', d')
    ensures r.Keys == t.Keys + {u}
  {
    t[u := (if u in t then t[u] else map[])[d := p]]
  }

  /**
    One pass of the loop body. A line of another width is skipped. A four-cell
    line runs the `try` block, whose exception is only logged, and then stores
    a record built from the loop variables, raising if one was never assigned.
  */
  function Step(st: Loop, line: Line): (r: Result<Loop, LoadError>)
    ensures line.width != 4 ==> r == Success(st)
    ensures line.width == 4 ==> (r.Success? <==> Bound(Assign(st.vars, line)))
    ensures line.width == 4 && r.Success? ==>
      var v := Assign(st.vars, line);
      && r.value.vars == v
      && r.value.data.Keys == st.data.Keys + {v.userId.value}
      && Lookup(r.value.data, v.userId.value, v.date.value) == Some(Presence(v.start.value, v.end.value))
      && forall u, d :: (u != v.userId.value || d != v.date.value) ==> Lookup(r.value.data, u, d) == Lookup(st.data, u, d)
  {
    if line.width != 4 then Success(st)
    else
      var v := Assign(st.vars, line);
      if Bound(v) then
        Success(Loop(Store(st.data, v.userId.value, v.date.value, Presence(v.start.value, v.end.value)), v))
      else
        Failure(UnboundLocal)
  }

  /** The user ids that the four-cell lines convert to. */
  function ConvertedUserIds(lines: seq<Line>): set<int> {
    set l | l in lines && l.width == 4 && l.userId.Some? :: l.userId.value
  }

  lemma ConvertedUserIdsSnoc(init: seq<Line>, l: Line)
    ensures ConvertedUserIds(init + [l]) ==
      ConvertedUserIds(init) + if l.width == 4 && l.userId.Some? then {l.userId.value} else {}
  {
    assert forall x :: x in init + [l] <==> x in init || x == l;
  }

  /**
    The loop over all lines, in order, from an empty table and unassigned
    variables. Every user in the table, and the user id variable, holds an id
    that some four-cell line converted to.
  */
  function RunLines(lines: seq<Line>): (r: Result<Loop, LoadError>)
    ensures r.Success? ==> r.value.data.Keys <= ConvertedUserIds(lines)
    ensures r.Success? && r.value.vars.userId.Some? ==> r.value.vars.userId.value in ConvertedUserIds(lines)
    decreases |lines|
  {
    if |lines| == 0 then Success(Loop(map[], Unassigned))
    else
      var init, l := lines[..|lines| - 1], lines[|lines| - 1];
      assert lines == init + [l];
      ConvertedUserIdsSnoc(init, l);
      match RunLines(init)
      case Failure(e) => Failure(e)
      case Success(st) => Step(st, l)
  }

  /**
    `get_data` without the cache: the table, or the exception that escaped the
    loop. It raises exactly when the first four-cell line has a cell that does
    not convert; without four-cell lines the table is empty.
  */
  function GetData(lines: seq<Line>): (r: Result<Table, LoadError>)
    ensures r.Failure? <==> FirstFourCell(lines).Some? && !Complete(FirstFourCell(lines).value)
    ensures FirstFourCell(lines).None? ==> r == Success(map[])
    ensures r.Success? ==> r.value.Keys <= ConvertedUserIds(lines)
  {
    RunLinesOutcome(lines);
    match RunLines(lines)
    case Success(st) => Success(st.data)
    case Failure(e) => Failure(e)
  }

  /** The first line of exactly four cells, if any. */
  function FirstFourCell(lines: seq<Line>): (r: Option<Line>)
    ensures r.Some? ==> r.value in lines && r.value.width == 4
    ensures r.None? <==> forall i :: 0 <= i < |lines| ==> lines[i].width != 4
  {
    if |lines| == 0 then None
    else if lines[0].width == 4 then Some(lines[0])
    else FirstFourCell(lines[1..])
  }

  lemma {:induction false} FirstFourCellSnoc(init: seq<Line>, l: Line)
    ensures FirstFourCell(init + [l]) ==
      if FirstFourCell(init).Some? then FirstFourCell(init) else if l.width == 4 then Some(l) else None
  {
    if |init| > 0 {
      assert (init + [l])[1..] == init[1..] + [l];
      FirstFourCellSnoc(init[1..], l);
    } else {
      assert init + [l] == [l];
    }
  }

  /** The variables' current values are stored in the table. */
  predicate Recorded(st: Loop) {
    Bound(st.vars) ==>
      Lookup(st.data, st.vars.userId.value, st.vars.date.value) == Some(Presence(st.vars.start.value, st.vars.end.value))
  }

  /**
    Whether `get_data` raises is decided by the first four-cell line: it raises
    exactly when that line has a cell that does not convert. Without any
    four-cell line the table is empty; once the variables are all bound no
    later line can raise.
  */
  lemma {:induction false} RunLinesOutcome(lines: seq<Line>)
    ensures FirstFourCell(lines).None? ==> RunLines(lines) == Success(Loop(map[], Unassigned))
    ensures FirstFourCell(lines).Some? ==>
      (RunLines(lines).Success? <==> Complete(FirstFourCell(lines).value))
    ensures RunLines(lines).Success? && FirstFourCell(lines).Some? ==>
      Bound(RunLines(lines).value.vars) && Recorded(RunLines(lines).value)
    decreases |lines|
  {
    if |lines| > 0 {
      var init, l := lines[..|lines| - 1], lines[|lines| - 1];
      assert lines == init + [l];
      RunLinesOutcome(init);
      FirstFourCellSnoc(init, l);
    }
  }

  /** Lines of another width than four can be removed without changing the outcome. */
  function FourCellLines(lines: seq<Line>): (r: seq<Line>)
    ensures forall l :: l in r <==> l in lines && l.width == 4
  {
    if |lines| == 0 then []
    else (if lines[0].width == 4 then [lines[0]] else []) + FourCellLines(lines[1..])
  }

  lemma {:induction false} FourCellLinesSnoc(init: seq<Line>, l: Line)
    ensures FourCellLines(init + [l]) == FourCellLines(init) + (if l.width == 4 then [l] else [])
  {
    if |init| > 0 {
      assert (init + [l])[1..] == init[1..] + [l];
      FourCellLinesSnoc(init[1..], l);
    } else {
      assert init + [l] == [l];
    }
  }

  /** Header, footer and other lines whose width is not four change nothing. */
  lemma {:induction false} OtherWidthsIgnored(lines: seq<Line>)
    ensures RunLines(lines) == RunLines(FourCellLines(lines))
    decreases |lines|
  {
    if |lines| > 0 {
      var init, l := lines[..|lines| - 1], lines[|lines| - 1];
      assert lines == init + [l];
      OtherWidthsIgnored(init);
      FourCellLinesSnoc(init, l);
      if l.width == 4 {
        var f := FourCellLines(init) + [l];
        assert f[..|f| - 1] == FourCellLines(init);
        assert FourCellLines(lines) == f;
      } else {
        assert FourCellLines(lines) == FourCellLines(init);
        assert RunLines(lines) == RunLines(init);
      }
    }
  }

  /**
    A line whose user id does not convert stores the record the previous line
    stored, again: the table is left exactly as it was.
  */
  lemma UnparsableUserIdChangesNothing(st: Loop, line: Line)
    requires Recorded(st) && Bound(st.vars)
    requires line.width == 4 && line.userId.None?
    ensures Step(st, line) == Success(st)
  {
    var u, d := st.vars.userId.value, st.vars.date.value;
    var t := st.data;
    var r := Step(st, line).value.data;
    assert u in t && d in t[u];
    assert r == t[u := t[u][d := t[u][d]]];
    assert t[u][d := t[u][d]] == t[u];
    assert r == t;
  }

  /** `line` is a complete line for user `u` on date `d`. */
  predicate Writes(line: Line, u: int, d: CalendarDate) {
    Complete(line) && line.userId.value == u && line.date.value == d
  }

  /** The loop as evidently intended: only a line all of whose cells convert is stored. */
  function StepAtomic(t: Table, line: Line): Table {
    if Complete(line) then Store(t, line.userId.value, line.date.value, RecordOf(line)) else t
  }

  /** `get_data` with each line converted in full before anything is stored; it cannot raise. */
  function GetDataAtomic(lines: seq<Line>): Table
    decreases |lines|
  {
    if |lines| == 0 then map[]
    else StepAtomic(GetDataAtomic(lines[..|lines| - 1]), lines[|lines| - 1])
  }

  /**
    With lines stored only when complete, the table holds a record for user
    `u` on date `d` exactly when some complete line names them, and the record
    is the one of the last such line.
  */
  lemma {:induction false} LatestCompleteLineWins(lines: seq<Line>, u: int, d: CalendarDate)
    ensures Lookup(GetDataAtomic(lines), u, d).None? <==> forall i :: 0 <= i < |lines| ==> !Writes(lines[i], u, d)
    ensures Lookup(GetDataAtomic(lines), u, d).Some? ==>
      exists i :: 0 <= i < |lines| && Writes(lines[i], u, d)
        && RecordOf(lines[i]) == Lookup(GetDataAtomic(lines), u, d).value
        && forall j :: i < j < |lines| ==> !Writes(lines[j], u, d)
    decreases |lines|
  {
    if |lines| > 0 {
      var n := |lines| - 1;
      var init, l := lines[..n], lines[n];
      LatestCompleteLineWins(init, u, d);
      var before := Lookup(GetDataAtomic(init), u, d);
      var after := Lookup(GetDataAtomic(lines), u, d);
      if Writes(l, u, d) {
        assert after == Some(RecordOf(l));
        assert Writes(lines[n], u, d);
      } else {
        assert after == before;
        assert forall i :: 0 <= i < n ==> lines[i] == init[i];
        if before.Some? {
          var i :| 0 <= i < n && Writes(init[i], u, d) && RecordOf(init[i]) == before.value
            && forall j :: i < j < n ==> !Writes(init[j], u, d);
          assert Writes(lines[i], u, d) && RecordOf(lines[i]) == after.value;
          assert forall j :: i < j < |lines| ==> !Writes(lines[j], u, d);
        }
      }
    }
  }

  /** Every four-cell line converts in full. */
  predicate Clean(lines: seq<Line>) {
    forall i :: 0 <= i < |lines| && lines[i].width == 4 ==> Complete(lines[i])
  }

  /** When no conversion fails the loop as written and the corrected loop build the same table. */
  lemma {:induction false} CleanInputAgrees(lines: seq<Line>)
    requires Clean(lines)
    ensures GetData(lines) == Success(GetDataAtomic(lines))
    decreases |lines|
  {
    if |lines| > 0 {
      var n := |lines| - 1;
      var init, l := lines[..n], lines[n];
      assert Clean(init) by {
        assert forall i :: 0 <= i < n ==> init[i] == lines[i];
      }
      CleanInputAgrees(init);
      assert lines[n] == l;
    }
  }

  /**
    A line whose start time does not convert is still stored, under its own
    user id and date, with the start and end times of the line before it.
  */
  lemma StaleValuesStored()
    ensures
      var d1: CalendarDate, d2: CalendarDate := Date(2013, 9, 10), Date(2013, 9, 11);
      var p := Presence(Time(9, 0, 0), Time(17, 0, 0));
      var lines := [
        Line(4, Some(10), Some(d1), Some(Time(9, 0, 0)), Some(Time(17, 0, 0))),
        Line(4, Some(10), Some(d2), None, Some(Time(18, 0, 0)))];
      && GetData(lines) == Success(map[10 := map[d1 := p, d2 := p]])
      && GetDataAtomic(lines) == map[10 := map[d1 := p]]
  {
    var d1: CalendarDate, d2: CalendarDate := Date(2013, 9, 10), Date(2013, 9, 11);
    var p := Presence(Time(9, 0, 0), Time(17, 0, 0));
    var good := Line(4, Some(10), Some(d1), Some(Time(9, 0, 0)), Some(Time(17, 0, 0)));
    var bad := Line(4, Some(10), Some(d2), None, Some(Time(18, 0, 0)));
    var lines := [good, bad];
    assert lines[..1] == [good];
    assert [good][..0] == [];
    var t1 := map[10 := map[d1 := p]];
    assert RunLines([good]) == Success(Loop(t1, Locals(Some(10), Some(d1), Some(p.start), Some(p.end))));
    assert GetDataAtomic([good]) == t1;
    var v := Assign(Locals(Some(10), Some(d1), Some(p.start), Some(p.end)), bad);
    assert v == Locals(Some(10), Some(d2), Some(p.start), Some(p.end));
    assert t1[10][d2 := p] == map[d1 := p, d2 := p];
    assert RunLines(lines).value.data == map[10 := map[d1 := p, d2 := p]];
    assert GetDataAtomic(lines) == StepAtomic(t1, bad) == t1;
  }
}
