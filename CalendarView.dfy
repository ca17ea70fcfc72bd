/**
 * The log calendar (components/CalendarView.tsx): the day, month and range
 * filters over the log list, the newest-first ordering, the day/month
 * stepper, and the AI insight with its cycling loading message.
 *
 * A day is 86400000 ms.
 *
 * Time is in milliseconds since the epoch. Local time is the instant plus a
 * fixed offset `tz` (no daylight-saving changes), and calendar dates come
 * from the days-since-epoch of local time by the civil-calendar formulas
 * of the proleptic Gregorian calendar that `Date` uses.
 */
module CalendarView {
  import opened Types

  /** The local calendar day (days since 1970-01-01) of instant `t`. */
  function LocalDay(t: int, tz: int): int
  {
    (t + tz) / 86400000
  }

  /** Milliseconds since local midnight. */
  function TimeOfDay(t: int, tz: int): (r: int)
    ensures 0 <= r < 86400000
  {
    (t + tz) % 86400000
  }

  datatype CivilDate = CivilDate(year: int, month: int, day: int)

  /** Days since 1970-01-01 of a date; a day beyond the month's end runs on into the next, as in `Date`. */
  function DaysFromCivil(c: CivilDate): int
  {
    var y := if c.month <= 2 then c.year - 1 else c.year;
    var era := y / 400;
    var yoe := y - era * 400;
    var mp := (c.month + 9) % 12;
    var doy := (153 * mp + 2) / 5 + c.day - 1;
    var doe := yoe * 365 + yoe / 4 - yoe / 100 + doy;
    era * 146097 + doe - 719468
  }

  /** The date of a day number; `month` is 1-based. */
  function CivilFromDays(n: int): CivilDate
  {
    var z := n + 719468;
    var era := z / 146097;
    var doe := z - era * 146097;
    var yoe := (doe - doe / 1460 + doe / 36524 - doe / 146096) / 365;
    var doy := doe - (365 * yoe + yoe / 4 - yoe / 100);
    var mp := (5 * doy + 2) / 153;
    var d := doy - (153 * mp + 2) / 5 + 1;
    var m := if mp < 10 then mp + 3 else mp - 9;
    CivilDate(if m <= 2 then yoe + era * 400 + 1 else yoe + era * 400, m, d)
  }

  /** `t.toISOString().split('T')[0]`: the date of `t` in UTC. */
  function UtcDate(t: int): CivilDate
  {
    CivilFromDays(LocalDay(t, 0))
  }

  /**
   * Day numbers of fixed dates: the epoch is day 0, 2024-02-29 exists as
   * day 19782 (2024 is a leap year), and 2023-03-01 directly follows
   * 2023-02-28 (2023 is not). The divisions each formula performs are
   * spelled out.
   */
  lemma DayNumbers()
    ensures DaysFromCivil(CivilDate(1970, 1, 1)) == 0
    ensures DaysFromCivil(CivilDate(2024, 2, 29)) == 19782
    ensures DaysFromCivil(CivilDate(2023, 2, 28)) == 19416
    ensures DaysFromCivil(CivilDate(2023, 3, 1)) == 19417
  {
    assert 1969 / 400 == 4 && 10 % 12 == 10 && 1532 / 5 == 306 && 369 / 4 == 92 && 369 / 100 == 3;
    assert 2023 / 400 == 5 && 11 % 12 == 11 && 1685 / 5 == 337 && 23 / 4 == 5 && 23 / 100 == 0;
    assert 2022 / 400 == 5 && 22 / 4 == 5 && 22 / 100 == 0;
    assert 12 % 12 == 0 && 2 / 5 == 0;
  }

  /** Back from the day number to the leap day. */
  lemma DateOfLeapDay()
    ensures CivilFromDays(19782) == CivilDate(2024, 2, 29)
  {
    assert 739250 / 146097 == 5;
    assert 8765 / 1460 == 6 && 8765 / 36524 == 0 && 8765 / 146096 == 0;
    assert 8759 / 365 == 23 && 23 / 4 == 5 && 23 / 100 == 0;
    assert 1827 / 153 == 11 && 1685 / 5 == 337;
  }

  datatype ViewType = DayView | MonthView | RangeView

  /**
   * What the filter depends on: the view, the selected instant, the two
   * `<input type="date">` values (`None` when a value does not parse) and
   * the offset.
   */
  datatype Period = Period(view: ViewType, selected: int, start: Option<CivilDate>, end: Option<CivilDate>, tz: int)

  /** `toDateString()` equality: the same local calendar day. */
  predicate SameDay(t: int, u: int, tz: int)
  {
    LocalDay(t, tz) == LocalDay(u, tz)
  }

  /** Equal `getMonth()` and `getFullYear()`. */
  predicate SameMonth(t: int, u: int, tz: int)
  {
    var a, b := CivilFromDays(LocalDay(t, tz)), CivilFromDays(LocalDay(u, tz));
    a.year == b.year && a.month == b.month
  }

  /** A day is inside its month. */
  lemma DayWithinMonth(t: int, u: int, tz: int)
    requires SameDay(t, u, tz)
    ensures SameMonth(t, u, tz)
  {
  }

  /**
   * The range test as written: `new Date("YYYY-MM-DD")` is midnight UTC,
   * and `setHours` then moves to the start (or end) of the LOCAL day
   * containing that instant.
   */
  predicate InRangeAsWritten(t: int, start: Option<CivilDate>, end: Option<CivilDate>, tz: int)
  {
    start.Some? && end.Some? &&
    var lo := LocalDay(DaysFromCivil(start.value) * 86400000, tz) * 86400000 - tz;
    var hi := (LocalDay(DaysFromCivil(end.value) * 86400000, tz) + 1) * 86400000 - 1 - tz;
    lo <= t <= hi
  }

  /** The range test as intended: the log's local date lies between the two dates, both included. */
  predicate InRange(t: int, start: Option<CivilDate>, end: Option<CivilDate>, tz: int)
  {
    start.Some? && end.Some? && DaysFromCivil(start.value) <= LocalDay(t, tz) <= DaysFromCivil(end.value)
  }

  lemma LocalDayOfMidnight(n: int, tz: int)
    requires -86400000 < tz < 86400000
    ensures LocalDay(n * 86400000, tz) == if tz < 0 then n - 1 else n
  {
  }

  lemma LocalBounds(t: int, tz: int, l: int)
    ensures l * 86400000 - tz <= t <==> l <= LocalDay(t, tz)
    ensures t <= (l + 1) * 86400000 - 1 - tz <==> LocalDay(t, tz) <= l
  {
  }

  /**
   * For offsets at or east of UTC the range test keeps exactly the logs
   * whose local date lies in the range; west of UTC it keeps the logs of
   * the range moved one day earlier.
   */
  lemma RangeAsWrittenShift(t: int, s: CivilDate, e: CivilDate, tz: int)
    requires -86400000 < tz < 86400000
    ensures 0 <= tz ==> (InRangeAsWritten(t, Some(s), Some(e), tz) <==> InRange(t, Some(s), Some(e), tz))
    ensures tz < 0 ==> (InRangeAsWritten(t, Some(s), Some(e), tz) <==>
                          DaysFromCivil(s) - 1 <= LocalDay(t, tz) <= DaysFromCivil(e) - 1)
  {
    LocalDayOfMidnight(DaysFromCivil(s), tz);
    LocalDayOfMidnight(DaysFromCivil(e), tz);
    LocalBounds(t, tz, LocalDay(DaysFromCivil(s) * 86400000, tz));
    LocalBounds(t, tz, LocalDay(DaysFromCivil(e) * 86400000, tz));
  }

  /**
   * At UTC-5, a range of the single day 2024-03-11 drops a log made at noon
   * local time on that day.
   */
  lemma RangeDropsLastDay()
    ensures var day := CivilDate(2024, 3, 11);
      var tz := -5 * 3600000;
      var noon := DaysFromCivil(day) * 86400000 + 12 * 3600000 - tz;
      InRange(noon, Some(day), Some(day), tz) && !InRangeAsWritten(noon, Some(day), Some(day), tz)
  {
    RangeAsWrittenShift(DaysFromCivil(CivilDate(2024, 3, 11)) * 86400000 + 12 * 3600000 + 5 * 3600000,
                        CivilDate(2024, 3, 11), CivilDate(2024, 3, 11), -5 * 3600000);
  }

  predicate InPeriod(t: int, p: Period)
  {
    match p.view
    case DayView => SameDay(t, p.selected, p.tz)
    case MonthView => SameMonth(t, p.selected, p.tz)
    case RangeView => InRange(t, p.start, p.end, p.tz)
  }

  /** `logs.filter(...)`, in list order. */
  function KeepIn(logs: seq<HealthLog>, p: Period): (r: seq<HealthLog>)
    ensures |r| <= |logs|
  {
    if |logs| == 0 then []
    else (if InPeriod(logs[0].timestamp, p) then [logs[0]] else []) + KeepIn(logs[1..], p)
  }

  /** The filter keeps exactly the logs of the period. */
  lemma {:induction false} KeepInSpec(logs: seq<HealthLog>, p: Period)
    ensures forall l :: l in KeepIn(logs, p) <==> l in logs && InPeriod(l.timestamp, p)
  {
    if |logs| > 0 {
      KeepInSpec(logs[1..], p);
      assert logs == [logs[0]] + logs[1..];
    }
  }

  /**
   * The filter keeps list order and multiplicity: it distributes over
   * concatenation and keeps a single log exactly when it is in the period.
   */
  lemma KeepInAppend(a: seq<HealthLog>, b: seq<HealthLog>, p: Period)
    ensures KeepIn(a + b, p) == KeepIn(a, p) + KeepIn(b, p)
    ensures forall x :: KeepIn([x], p) == if InPeriod(x.timestamp, p) then [x] else []
  {
    KeepInConcat(a, b, p);
    forall x ensures KeepIn([x], p) == if InPeriod(x.timestamp, p) then [x] else [] {
      assert [x][1..] == [];
    }
  }

  lemma {:induction false} KeepInConcat(a: seq<HealthLog>, b: seq<HealthLog>, p: Period)
    ensures KeepIn(a + b, p) == KeepIn(a, p) + KeepIn(b, p)
  {
    if |a| > 0 {
      var rest := a[1..];
      var head := if InPeriod(a[0].timestamp, p) then [a[0]] else [];
      assert (a + b)[0] == a[0];
      assert (a + b)[1..] == rest + b;
      KeepInConcat(rest, b, p);
      assert KeepIn(a + b, p) == head + KeepIn(rest + b, p);
    } else {
      assert a + b == b;
    }
  }

  /** Each log of the period is kept as often as it occurs, every other log not at all. */
  lemma {:induction false} KeepInCount(logs: seq<HealthLog>, p: Period)
    ensures forall l :: multiset(KeepIn(logs, p))[l] == if InPeriod(l.timestamp, p) then multiset(logs)[l] else 0
  {
    if |logs| > 0 {
      KeepInCount(logs[1..], p);
      assert logs == [logs[0]] + logs[1..];
    }
  }

  predicate NewestFirst(s: seq<HealthLog>)
  {
    forall i, j :: 0 <= i < j < |s| ==> s[i].timestamp >= s[j].timestamp
  }

  /** Insert `l` after every entry at least as new, keeping equal timestamps in list order. */
  function InsertNewestFirst(s: seq<HealthLog>, l: HealthLog): (r: seq<HealthLog>)
    ensures multiset(r) == multiset(s) + multiset{l}
    ensures forall x :: x in r <==> x in s || x == l
    ensures |r| == |s| + 1
  {
    if |s| == 0 then [l]
    else if s[0].timestamp < l.timestamp then [l] + s
    else
      assert s == [s[0]] + s[1..];
      [s[0]] + InsertNewestFirst(s[1..], l)
  }

  lemma {:induction false} InsertNewestFirstSorted(s: seq<HealthLog>, l: HealthLog)
    requires NewestFirst(s)
    ensures NewestFirst(InsertNewestFirst(s, l))
  {
    var r := InsertNewestFirst(s, l);
    if |s| > 0 && s[0].timestamp >= l.timestamp {
      var rest := InsertNewestFirst(s[1..], l);
      InsertNewestFirstSorted(s[1..], l);
      assert r == [s[0]] + rest;
      forall i, j | 0 <= i < j < |r| ensures r[i].timestamp >= r[j].timestamp {
        if i == 0 {
          assert r[j] == rest[j - 1];
          assert rest[j - 1] in rest;
        } else {
          assert r[i] == rest[i - 1] && r[j] == rest[j - 1];
        }
      }
    }
  }

  /** `.sort((a, b) => b.timestamp - a.timestamp)`, a stable sort. */
  function SortNewestFirst(s: seq<HealthLog>): (r: seq<HealthLog>)
    ensures multiset(r) == multiset(s)
    ensures |r| == |s|
  {
    if |s| == 0 then []
    else
      assert s == s[..|s| - 1] + [s[|s| - 1]];
      InsertNewestFirst(SortNewestFirst(s[..|s| - 1]), s[|s| - 1])
  }

  lemma {:induction false} SortNewestFirstSorted(s: seq<HealthLog>)
    ensures NewestFirst(SortNewestFirst(s))
  {
    if |s| > 0 {
      SortNewestFirstSorted(s[..|s| - 1]);
      InsertNewestFirstSorted(SortNewestFirst(s[..|s| - 1]), s[|s| - 1]);
    }
  }

  /** `filteredLogs`. */
  function FilteredLogs(logs: seq<HealthLog>, p: Period): seq<HealthLog>
  {
    SortNewestFirst(KeepIn(logs, p))
  }

  /**
   * The calendar shows exactly the logs of the period, each as often as
   * in the list, newest first: in the day view those of the selected local
   * day, in the month view those of its month and year, in the range view
   * those whose local date lies between the two dates inclusive.
   */
  lemma FilteredLogsSpec(logs: seq<HealthLog>, p: Period)
    ensures NewestFirst(FilteredLogs(logs, p))
    ensures multiset(FilteredLogs(logs, p)) == multiset(KeepIn(logs, p))
    ensures forall l :: multiset(FilteredLogs(logs, p))[l] == if InPeriod(l.timestamp, p) then multiset(logs)[l] else 0
    ensures forall l :: l in FilteredLogs(logs, p) <==> l in logs && InPeriod(l.timestamp, p)
    ensures p.view == DayView ==>
              forall l :: l in FilteredLogs(logs, p) <==> l in logs && SameDay(l.timestamp, p.selected, p.tz)
    ensures p.view == RangeView ==>
              forall l :: l in FilteredLogs(logs, p) <==>
                l in logs && p.start.Some? && p.end.Some? &&
                DaysFromCivil(p.start.value) <= LocalDay(l.timestamp, p.tz) <= DaysFromCivil(p.end.value)
  {
    SortNewestFirstSorted(KeepIn(logs, p));
    KeepInSpec(logs, p);
    KeepInCount(logs, p);
    var r := FilteredLogs(logs, p);
    forall l ensures l in r <==> l in KeepIn(logs, p) {
      assert l in r <==> l in multiset(r);
    }
  }
  /** Every log of the day view reappears in the month view of the same instant, at least as often. */
  lemma DayLogsInMonthView(logs: seq<HealthLog>, p: Period)
    requires p.view == DayView
    ensures forall l :: l in FilteredLogs(logs, p) ==> l in FilteredLogs(logs, p.(view := MonthView))
    ensures forall l :: multiset(FilteredLogs(logs, p))[l] <= multiset(FilteredLogs(logs, p.(view := MonthView)))[l]
  {
    FilteredLogsSpec(logs, p);
    FilteredLogsSpec(logs, p.(view := MonthView));
    forall l: HealthLog | SameDay(l.timestamp, p.selected, p.tz) {
      DayWithinMonth(l.timestamp, p.selected, p.tz);
    }
  }


  /** `changeDay` in the day view: the same local time, `offset` days later (no DST). */
  function ShiftDays(t: int, offset: int): int
  {
    t + offset * 86400000
  }

  /** `changeDay` otherwise: `setMonth(getMonth() + offset)` on the local date, the time of day kept. */
  function ShiftMonths(t: int, offset: int, tz: int): int
  {
    DaysFromCivil(AddMonths(CivilFromDays(LocalDay(t, tz)), offset)) * 86400000 + TimeOfDay(t, tz) - tz
  }

  /** `setMonth(getMonth() + offset)` on a date: the year carries, the day of the month is kept as it is. */
  function AddMonths(c: CivilDate, offset: int): (r: CivilDate)
    ensures 1 <= r.month <= 12 && r.day == c.day
    ensures r.year * 12 + r.month == c.year * 12 + c.month + offset
  {
    var index := c.month - 1 + offset;
    CivilDate(c.year + index / 12, index % 12 + 1, c.day)
  }

  lemma TimeOfDayKept(n: int, r: int, tz: int)
    requires 0 <= r < 86400000
    ensures TimeOfDay(n * 86400000 + r - tz, tz) == r
  {
  }

  /**
   * Stepping by days moves the selected local day by exactly `offset` and
   * keeps the time of day; stepping by months keeps the time of day too.
   */
  lemma ShiftSpec(t: int, offset: int, tz: int)
    ensures LocalDay(ShiftDays(t, offset), tz) == LocalDay(t, tz) + offset
    ensures TimeOfDay(ShiftDays(t, offset), tz) == TimeOfDay(t, tz)
    ensures TimeOfDay(ShiftMonths(t, offset, tz), tz) == TimeOfDay(t, tz)
  {
    TimeOfDayKept(DaysFromCivil(AddMonths(CivilFromDays(LocalDay(t, tz)), offset)), TimeOfDay(t, tz), tz);
    TimeOfDayKept(LocalDay(t, tz) + offset, TimeOfDay(t, tz), tz);
  }

  /** Day 19753 is 2024-01-31. */
  lemma DateOfJanuaryEnd()
    ensures CivilFromDays(19753) == CivilDate(2024, 1, 31)
  {
    assert 739221 / 146097 == 5;
    assert 8736 / 1460 == 5 && 8736 / 36524 == 0 && 8736 / 146096 == 0;
    assert 8731 / 365 == 23 && 23 / 4 == 5 && 23 / 100 == 0;
    assert 1682 / 153 == 10 && 1532 / 5 == 306;
  }

  /** Day 19784 is 2024-03-02. */
  lemma DateOfMarchSecond()
    ensures CivilFromDays(19784) == CivilDate(2024, 3, 2)
  {
    assert 739252 / 146097 == 5;
    assert 8767 / 1460 == 6 && 8767 / 36524 == 0 && 8767 / 146096 == 0;
    assert 8761 / 365 == 24 && 24 / 4 == 6 && 24 / 100 == 0;
    assert 7 / 153 == 0 && 2 / 5 == 0;
  }

  /**
   * One month on from 2024-01-31 (day 19753) is "2024-02-31", which is day
   * 19784, 2024-03-02: `setMonth` rolls the day past the end of February
   * over into March.
   */
  lemma MonthStepOverflows()
    ensures AddMonths(CivilDate(2024, 1, 31), 1) == CivilDate(2024, 2, 31)
    ensures DaysFromCivil(CivilDate(2024, 2, 31)) == DaysFromCivil(CivilDate(2024, 3, 2)) == 19784
  {
    assert 1 / 12 == 0 && 1 % 12 == 1;
    assert 2023 / 400 == 5 && 11 % 12 == 11 && 1685 / 5 == 337 && 23 / 4 == 5 && 23 / 100 == 0;
    assert 2024 / 400 == 5 && 12 % 12 == 0 && 2 / 5 == 0 && 24 / 4 == 6 && 24 / 100 == 0;
  }

  const LOADING_STEP_COUNT := 5

  function NextLoadingStep(step: int): int
  {
    (step + 1) % LOADING_STEP_COUNT
  }

  function LoadingStepAfter(step: int, ticks: nat): int
  {
    if ticks == 0 then step else NextLoadingStep(LoadingStepAfter(step, ticks - 1))
  }

  /** The loading message cycles: after k ticks from step s it is at (s + k) mod 5. */
  lemma {:induction false} LoadingCycle(step: int, ticks: nat)
    requires 0 <= step < LOADING_STEP_COUNT
    ensures LoadingStepAfter(step, ticks) == (step + ticks) % LOADING_STEP_COUNT
    ensures 0 <= LoadingStepAfter(step, ticks) < LOADING_STEP_COUNT
  {
    if ticks > 0 {
      LoadingCycle(step, ticks - 1);
    }
  }

  const INSIGHT_FAILED := "Metabolic scan failed. Let's keep logging and try again later!"

  /** The logs an insight request summarises: `filteredLogs.slice(0, 50)`. */
  function InsightLogs(filtered: seq<HealthLog>): (r: seq<HealthLog>)
    ensures |r| == Min(50, |filtered|) && r == filtered[..|r|]
  {
    Take(filtered, 50)
  }

  /** The calendar's whole state, for stating what a handler leaves alone. */
  datatype CalendarFields = CalendarFields(
    logs: seq<HealthLog>,
    viewType: ViewType,
    selected: int,
    startDate: Option<CivilDate>,
    endDate: Option<CivilDate>,
    isGenerating: bool,
    loadingStep: int,
    insight: Option<string>,
    requests: seq<seq<HealthLog>>)

  class Calendar {
    const tz: int
    var logs: seq<HealthLog>
    var viewType: ViewType
    var selected: int
    var startDate: Option<CivilDate>
    var endDate: Option<CivilDate>
    var isGenerating: bool
    var loadingStep: int
    var insight: Option<string>
    /** Every insight request sent, in order. */
    var requests: seq<seq<HealthLog>>

    /** The loading message index is always a valid index, and 0 when idle. */
    ghost predicate Valid()
      reads this
    {
      0 <= loadingStep < LOADING_STEP_COUNT && (!isGenerating ==> loadingStep == 0)
    }

    function Fields(): CalendarFields
      reads this
    {
      CalendarFields(logs, viewType, selected, startDate, endDate, isGenerating, loadingStep, insight, requests)
    }

    function CurrentPeriod(): Period
      reads this
    {
      Period(viewType, selected, startDate, endDate, tz)
    }

    function Filtered(): seq<HealthLog>
      reads this
    {
      FilteredLogs(logs, CurrentPeriod())
    }

    /**
     * The first render: the day view of now, with today's UTC date as both
     * range ends (`toISOString` prints the UTC date, whatever the zone).
     */
    constructor (logs: seq<HealthLog>, now: int, tz: int)
      ensures Valid()
      ensures this.logs == logs && this.tz == tz && viewType == DayView && selected == now
      ensures startDate == Some(UtcDate(now)) && endDate == Some(UtcDate(now))
      ensures !isGenerating && insight.None? && requests == []
    {
      this.tz := tz;
      this.logs := logs;
      var today := UtcDate(now);
      viewType, selected, startDate, endDate := DayView, now, Some(today), Some(today);
      isGenerating, loadingStep, insight, requests := false, 0, None, [];
    }

    /** A view tab: the view changes and the insight is dismissed. */
    method SetViewType(v: ViewType)
      requires Valid()
      modifies this
      ensures Valid()
      ensures Fields() == old(Fields()).(viewType := v, insight := None)
    {
      viewType := v;
      insight := None;
    }

    /** The range inputs: the date changes and the insight is dismissed. */
    method SetRange(start: Option<CivilDate>, end: Option<CivilDate>)
      requires Valid()
      modifies this
      ensures Valid()
      ensures Fields() == old(Fields()).(startDate := start, endDate := end, insight := None)
    {
      startDate, endDate := start, end;
      insight := None;
    }

    /** `changeDay`: by days in the day view, by months otherwise; the insight is dismissed. */
    method ChangeDay(offset: int)
      requires Valid()
      modifies this
      ensures Valid()
      ensures Fields() == old(Fields()).(
                selected := if old(viewType) == DayView then ShiftDays(old(selected), offset)
                            else ShiftMonths(old(selected), offset, tz),
                insight := None)
    {
      if viewType == DayView {
        selected := selected + offset * 86400000;
      } else {
        selected := ShiftMonths(selected, offset, tz);
      }
      insight := None;
    }

    /**
     * `generateAIInsight` up to its request: nothing when the period has no
     * logs; otherwise generating, no insight, and a request for the first
     * 50 shown logs. The button is disabled while generating.
     */
    method StartInsight()
      requires Valid() && !isGenerating
      modifies this
      ensures Valid()
      ensures old(Filtered()) == [] ==> Fields() == old(Fields())
      ensures old(Filtered()) != [] ==>
                Fields() == old(Fields()).(isGenerating := true, insight := None,
                                           requests := old(requests) + [InsightLogs(old(Filtered()))])
    {
      var shown := Filtered();
      if shown == [] {
        return;
      }
      var request := InsightLogs(shown);
      isGenerating := true;
      insight := None;
      requests := requests + [request];
    }

    /** The interval tick while generating: the next loading message. */
    method Tick()
      requires Valid() && isGenerating
      modifies this
      ensures Valid()
      ensures Fields() == old(Fields()).(loadingStep := NextLoadingStep(old(loadingStep)))
    {
      loadingStep := (loadingStep + 1) % LOADING_STEP_COUNT;
    }

    /**
     * The request's outcome (`None` for a failure): the insight or the
     * failure message is shown, generation ends and the loading step is
     * reset to 0.
     */
    method FinishInsight(outcome: Option<string>)
      requires Valid() && isGenerating
      modifies this
      ensures Valid()
      ensures Fields() == old(Fields()).(insight := Some(if outcome.Some? then outcome.value else INSIGHT_FAILED),
                                         isGenerating := false, loadingStep := 0)
    {
      insight := Some(if outcome.Some? then outcome.value else INSIGHT_FAILED);
      isGenerating := false;
      loadingStep := 0;
    }

    /** "Close Insight". */
    method CloseInsight()
      requires Valid()
      modifies this
      ensures Valid()
      ensures Fields() == old(Fields()).(insight := None)
    {
      insight := None;
    }
  }
}
