/**
 * The caregiver's view of a patient (components/CaregiverDashboard.tsx):
 * the latest glucose reading, its classification, the glucose chart (the
 * same expression as the patient dashboard's) and the monitoring feed.
 */
module CaregiverDashboard {
  import opened Types
  import Dashboard

  /** `patientLogs.find(l => l.type === GLUCOSE)`. */
  function LatestGlucose(logs: seq<HealthLog>): (r: Option<HealthLog>)
    ensures r.None? <==> (forall l :: l in logs ==> l.logType != GLUCOSE)
    ensures r.Some? ==> exists k :: 0 <= k < |logs| && logs[k] == r.value && r.value.logType == GLUCOSE &&
                          forall j :: 0 <= j < k ==> logs[j].logType != GLUCOSE
  {
    if |logs| == 0 then None
    else if logs[0].logType == GLUCOSE then Some(logs[0])
    else
      var r := LatestGlucose(logs[1..]);
      assert forall l :: l in logs ==> l == logs[0] || l in logs[1..];
      if r.Some? then
        var k :| 0 <= k < |logs[1..]| && logs[1..][k] == r.value && r.value.logType == GLUCOSE &&
                 forall j :: 0 <= j < k ==> logs[1..][j].logType != GLUCOSE;
        assert logs[k + 1] == r.value;
        assert forall j :: 1 <= j < k + 1 ==> logs[j] == logs[1..][j - 1];
        r
      else r
  }

  /** The latest reading is the head of the glucose filter. */
  lemma {:induction false} LatestIsFirstFiltered(logs: seq<HealthLog>)
    ensures var g := Dashboard.OfType(logs, GLUCOSE);
      LatestGlucose(logs) == if |g| == 0 then None else Some(g[0])
  {
    if |logs| > 0 && logs[0].logType != GLUCOSE {
      LatestIsFirstFiltered(logs[1..]);
      assert Dashboard.OfType(logs, GLUCOSE) == Dashboard.OfType(logs[1..], GLUCOSE);
    }
  }

  datatype Status = Unknown | High | Low | Normal

  /** The thresholds: a NaN reading compares false both ways and is `normal`. */
  function Classify(value: Option<int>): Status
  {
    if value.Some? && value.value > 180 then High
    else if value.Some? && value.value < 70 then Low
    else Normal
  }

  function GlucoseStatus(logs: seq<HealthLog>): (r: Status)
    ensures r == Unknown <==> (forall l :: l in logs ==> l.logType != GLUCOSE)
  {
    var latest := LatestGlucose(logs);
    if latest.None? then Unknown else Classify(NumberOf(latest.value.value))
  }

  /**
   * With a reading v: `high` iff v > 180, `low` iff v < 70, `normal`
   * otherwise, so both 70 and 180 are normal.
   */
  lemma StatusThresholds(logs: seq<HealthLog>)
    requires LatestGlucose(logs).Some?
    ensures var v := NumberOf(LatestGlucose(logs).value.value);
      (GlucoseStatus(logs) == High <==> v.Some? && v.value > 180) &&
      (GlucoseStatus(logs) == Low <==> v.Some? && v.value < 70) &&
      (GlucoseStatus(logs) == Normal <==> v.None? || 70 <= v.value <= 180)
  {
  }

  /** The status depends only on the first glucose reading: readings after it do not matter. */
  lemma StatusIgnoresOlderReadings(logs: seq<HealthLog>, older: seq<HealthLog>)
    requires exists l :: l in logs && l.logType == GLUCOSE
    ensures GlucoseStatus(logs + older) == GlucoseStatus(logs)
  {
    LatestIsFirstFiltered(logs);
    LatestIsFirstFiltered(logs + older);
    Dashboard.OfTypeAppend(logs, older, GLUCOSE);
    var l :| l in logs && l.logType == GLUCOSE;
    assert l in Dashboard.OfType(logs, GLUCOSE);
  }

  /** The monitoring feed: `patientLogs.slice(0, 4)`. */
  function Feed(logs: seq<HealthLog>): (r: seq<HealthLog>)
    ensures |r| == Min(4, |logs|) && r == logs[..|r|]
  {
    Take(logs, 4)
  }
}
