/**
 * The patient dashboard's derived figures (components/Dashboard.tsx): the
 * average glucose reading, the reminder adherence rate, the insulin total,
 * the glucose chart and the pending reminders. Log values go through
 * JavaScript's `Number`, modelled by `NumberOf`; a NaN is `None`.
 */
module Dashboard {
  import opened Types

  /** `logs.filter(l => l.type === t)`. */
  function OfType(logs: seq<HealthLog>, t: LogType): (r: seq<HealthLog>)
    ensures |r| <= |logs|
    ensures forall l :: l in r <==> l in logs && l.logType == t
  {
    if |logs| == 0 then []
    else (if logs[0].logType == t then [logs[0]] else []) + OfType(logs[1..], t)
  }

  /** Filtering distributes over concatenation, so it keeps the list order. */
  lemma {:induction false} OfTypeAppend(a: seq<HealthLog>, b: seq<HealthLog>, t: LogType)
    ensures OfType(a + b, t) == OfType(a, t) + OfType(b, t)
  {
    if |a| > 0 {
      assert (a + b)[1..] == a[1..] + b;
      OfTypeAppend(a[1..], b, t);
    } else {
      assert a + b == b;
    }
  }

  /** `Math.round(p / q)` for a positive divisor: the nearest integer, halves rounded up. */
  function RoundDiv(p: int, q: int): (r: int)
    requires q > 0
    ensures q * (2 * r - 1) <= 2 * p < q * (2 * r + 1)
  {
    var d := 2 * q;
    var x := 2 * p + q;
    assert x == d * (x / d) + x % d;
    x / d
  }

  /** `reduce((acc, l) => acc + Number(l.value), 0)`: one NaN makes the sum NaN. */
  function SumValues(logs: seq<HealthLog>): Option<int>
  {
    if |logs| == 0 then Some(0)
    else
      var head := NumberOf(logs[0].value);
      var rest := SumValues(logs[1..]);
      if head.Some? && rest.Some? then Some(head.value + rest.value) else None
  }

  /** What the average card shows: '--', a rounded mean, or NaN. */
  datatype Average = NoReadings | Mean(m: int) | NotANumber

  function AvgGlucose(logs: seq<HealthLog>): (r: Average)
    ensures r.NoReadings? <==> (forall l :: l in logs ==> l.logType != GLUCOSE)
  {
    var glucose := OfType(logs, GLUCOSE);
    if |glucose| == 0 then
      assert forall l :: l in logs ==> l.logType != GLUCOSE;
      NoReadings
    else
      assert glucose[0] in logs && glucose[0].logType == GLUCOSE;
      var total := SumValues(glucose);
      if total.Some? then Mean(RoundDiv(total.value, |glucose|)) else NotANumber
  }

  predicate ReadingsWithin(logs: seq<HealthLog>, lo: int, hi: int)
  {
    forall l :: l in logs ==> NumberOf(l.value).Some? && lo <= NumberOf(l.value).value <= hi
  }

  lemma {:induction false} SumWithin(logs: seq<HealthLog>, lo: int, hi: int)
    requires ReadingsWithin(logs, lo, hi)
    ensures SumValues(logs).Some?
    ensures |logs| * lo <= SumValues(logs).value <= |logs| * hi
  {
    if |logs| > 0 {
      assert logs[0] in logs;
      var rest := logs[1..];
      assert ReadingsWithin(rest, lo, hi) by {
        forall l | l in rest ensures l in logs { }
      }
      SumWithin(rest, lo, hi);
      MulStep(|rest|, lo);
      MulStep(|rest|, hi);
    }
  }

  lemma MulStep(n: int, x: int)
    ensures (n + 1) * x == n * x + x
  {
  }

  lemma MulCancel(n: int, a: int, b: int)
    requires n > 0 && n * a <= n * b
    ensures a <= b
  {
    assert n * a - n * b == n * (a - b);
  }

  lemma RoundedMeanWithin(total: int, n: int, lo: int, hi: int)
    requires n > 0 && n * lo <= total <= n * hi
    ensures lo <= RoundDiv(total, n) <= hi
  {
    var m := RoundDiv(total, n);
    var below, above := n * (2 * m - 1), n * (2 * m + 1);
    assert below <= 2 * total < above;
    var top, bottom := n * (2 * hi), n * (2 * lo);
    assert top == 2 * (n * hi) && bottom == 2 * (n * lo);
    assert below <= top;
    MulCancel(n, 2 * m - 1, 2 * hi);
    assert bottom <= above;
    MulCancel(n, 2 * lo, 2 * m + 1);
  }

  /**
   * When every glucose reading is a number in [lo, hi], the card shows a
   * mean, and that mean lies in [lo, hi]; in particular equal readings
   * average to themselves.
   */
  lemma AvgGlucoseWithin(logs: seq<HealthLog>, lo: int, hi: int)
    requires exists l :: l in logs && l.logType == GLUCOSE
    requires ReadingsWithin(OfType(logs, GLUCOSE), lo, hi)
    ensures AvgGlucose(logs).Mean?
    ensures lo <= AvgGlucose(logs).m <= hi
  {
    var glucose := OfType(logs, GLUCOSE);
    SumWithin(glucose, lo, hi);
    var l :| l in logs && l.logType == GLUCOSE;
    assert l in glucose;
    RoundedMeanWithin(SumValues(glucose).value, |glucose|, lo, hi);
  }

  /** A glucose reading that is not a number makes the average NaN. */
  lemma AvgGlucoseNaN(logs: seq<HealthLog>, l: HealthLog)
    requires l in logs && l.logType == GLUCOSE && NumberOf(l.value).None?
    ensures AvgGlucose(logs) == NotANumber
  {
    SumNaN(OfType(logs, GLUCOSE), l);
  }

  lemma {:induction false} SumNaN(logs: seq<HealthLog>, l: HealthLog)
    requires l in logs && NumberOf(l.value).None?
    ensures SumValues(logs).None?
  {
    if logs[0] != l {
      assert l in logs[1..];
      SumNaN(logs[1..], l);
    }
  }

  function CountCompleted(rs: seq<Reminder>): (n: nat)
    ensures n <= |rs|
  {
    if |rs| == 0 then 0 else (if rs[0].completed then 1 else 0) + CountCompleted(rs[1..])
  }

  /** `Math.round(completed / total * 100)`, or 100 with no reminders. */
  function AdherenceRate(rs: seq<Reminder>): int
  {
    if |rs| == 0 then 100 else RoundDiv(100 * CountCompleted(rs), |rs|)
  }

  /**
   * The adherence rate is a percentage: it lies in [0, 100], is 100 when
   * every reminder is completed (or there are none) and 0 when none is.
   */
  lemma AdherenceRateBounds(rs: seq<Reminder>)
    ensures 0 <= AdherenceRate(rs) <= 100
    ensures CountCompleted(rs) == |rs| ==> AdherenceRate(rs) == 100
    ensures |rs| > 0 && CountCompleted(rs) == 0 ==> AdherenceRate(rs) == 0
  {
    if |rs| > 0 {
      var c := CountCompleted(rs);
      RoundedMeanWithin(100 * c, |rs|, 0, 100);
      if c == |rs| {
        RoundedMeanWithin(100 * c, |rs|, 100, 100);
      }
      if c == 0 {
        RoundedMeanWithin(100 * c, |rs|, 0, 0);
      }
    }
  }

  /** `Number(l.value || 0)`: a falsy value counts as 0. */
  function InsulinAmount(l: HealthLog): Option<int>
  {
    if ValueTruthy(l.value) then NumberOf(l.value) else Some(0)
  }

  function SumInsulin(logs: seq<HealthLog>): Option<int>
  {
    if |logs| == 0 then Some(0)
    else
      var head := InsulinAmount(logs[0]);
      var rest := SumInsulin(logs[1..]);
      if head.Some? && rest.Some? then Some(head.value + rest.value) else None
  }

  function TotalInsulin(logs: seq<HealthLog>): Option<int>
  {
    SumInsulin(OfType(logs, INSULIN))
  }

  /**
   * The insulin total counts each INSULIN log once and nothing else: a new
   * log of another type leaves it unchanged, a new INSULIN log adds its
   * amount (0 when its value is empty).
   */
  lemma TotalInsulinPrepend(l: HealthLog, logs: seq<HealthLog>)
    ensures l.logType != INSULIN ==> TotalInsulin([l] + logs) == TotalInsulin(logs)
    ensures l.logType == INSULIN && InsulinAmount(l).Some? && TotalInsulin(logs).Some? ==>
              TotalInsulin([l] + logs) == Some(InsulinAmount(l).value + TotalInsulin(logs).value)
    ensures l.logType == INSULIN && l.value == TextValue("") ==> TotalInsulin([l] + logs) == TotalInsulin(logs)
  {
    assert ([l] + logs)[0] == l && ([l] + logs)[1..] == logs;
    var ins := OfType(logs, INSULIN);
    assert OfType([l] + logs, INSULIN) == (if l.logType == INSULIN then [l] else []) + ins;
    if l.logType == INSULIN {
      assert ([l] + ins)[1..] == ins;
    } else {
      assert [] + ins == ins;
    }
  }

  /** A chart point: the reading's time and `Number(l.value)`. */
  datatype ChartPoint = ChartPoint(timestamp: int, value: Option<int>)

  function Reverse<T>(s: seq<T>): (r: seq<T>)
    ensures |r| == |s|
    ensures forall i :: 0 <= i < |s| ==> r[i] == s[|s| - 1 - i]
  {
    if |s| == 0 then [] else Reverse(s[1..]) + [s[0]]
  }

  /** `s.slice(-n)`: the last n elements, or all of them. */
  function LastN<T>(s: seq<T>, n: nat): (r: seq<T>)
    ensures |r| == Min(n, |s|)
    ensures r == s[|s| - |r|..]
  {
    if n <= |s| then s[|s| - n..] else s
  }

  function Points(logs: seq<HealthLog>): (r: seq<ChartPoint>)
    ensures |r| == |logs|
    ensures forall i :: 0 <= i < |logs| ==> r[i] == ChartPoint(logs[i].timestamp, NumberOf(logs[i].value))
  {
    if |logs| == 0 then [] else [ChartPoint(logs[0].timestamp, NumberOf(logs[0].value))] + Points(logs[1..])
  }

  /** `[...logs].filter(GLUCOSE).reverse().slice(-10).map(...)`. */
  function ChartData(logs: seq<HealthLog>): seq<ChartPoint>
  {
    Points(LastN(Reverse(OfType(logs, GLUCOSE)), 10))
  }

  /**
   * The chart shows the first ten glucose readings of the list (the newest,
   * since the list is kept newest first), oldest of them first.
   */
  lemma ChartDataRecentGlucose(logs: seq<HealthLog>)
    ensures ChartData(logs) == Points(Reverse(Take(OfType(logs, GLUCOSE), 10)))
    ensures |ChartData(logs)| <= 10
  {
    var g := OfType(logs, GLUCOSE);
    var a := LastN(Reverse(g), 10);
    var b := Reverse(Take(g, 10));
    assert |a| == |b|;
    forall i | 0 <= i < |a|
      ensures a[i] == b[i]
    {
      assert a[i] == Reverse(g)[|g| - |a| + i];
    }
    assert a == b;
  }

  /** `reminders.filter(r => !r.completed)`. */
  function PendingReminders(rs: seq<Reminder>): (r: seq<Reminder>)
    ensures |r| == |rs| - CountCompleted(rs)
    ensures forall x :: x in r <==> x in rs && !x.completed
  {
    if |rs| == 0 then []
    else (if rs[0].completed then [] else [rs[0]]) + PendingReminders(rs[1..])
  }

  /**
   * The pending list keeps list order and multiplicity: it distributes over
   * concatenation and keeps a single reminder exactly when it is not completed.
   */
  lemma PendingRemindersAppend(a: seq<Reminder>, b: seq<Reminder>)
    ensures PendingReminders(a + b) == PendingReminders(a) + PendingReminders(b)
    ensures forall x :: PendingReminders([x]) == if x.completed then [] else [x]
  {
    PendingRemindersConcat(a, b);
    forall x ensures PendingReminders([x]) == if x.completed then [] else [x] {
      assert [x][1..] == [];
    }
  }

  lemma {:induction false} PendingRemindersConcat(a: seq<Reminder>, b: seq<Reminder>)
    ensures PendingReminders(a + b) == PendingReminders(a) + PendingReminders(b)
  {
    if |a| > 0 {
      var rest := a[1..];
      var head := if a[0].completed then [] else [a[0]];
      assert (a + b)[0] == a[0];
      assert (a + b)[1..] == rest + b;
      PendingRemindersConcat(rest, b);
      assert PendingReminders(a + b) == head + PendingReminders(rest + b);
    } else {
      assert a + b == b;
    }
  }

  /** Each pending reminder appears as often as in the list, each completed one not at all. */
  lemma {:induction false} PendingRemindersCount(rs: seq<Reminder>)
    ensures forall x :: multiset(PendingReminders(rs))[x] == if x.completed then 0 else multiset(rs)[x]
  {
    if |rs| > 0 {
      PendingRemindersCount(rs[1..]);
      assert rs == [rs[0]] + rs[1..];
    }
  }

  /** The health timeline: `logs.slice(0, 5)`. */
  function Timeline(logs: seq<HealthLog>): (r: seq<HealthLog>)
    ensures |r| == Min(5, |logs|) && r == logs[..|r|]
  {
    Take(logs, 5)
  }
}
