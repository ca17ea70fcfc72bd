/**
 * The storage service (services/dataService.ts): a key-value store whose
 * keys hold the health logs, the reminders, the care team, the signed-in
 * user and the users known on this device. Each key is a Slot: absent,
 * holding text that does not parse ("corrupt"), or holding a parsed value.
 * Random ids and `Date.now()` are parameters of the operations.
 */
module DataService {
  import opened Types

  datatype Slot<T> = Absent | Corrupt | Stored(value: T)

  /** What a read that falls back on parse failure returns. */
  function ReadOr<T>(slot: Slot<T>, fallback: T): (r: T)
    ensures slot.Stored? ==> r == slot.value
    ensures !slot.Stored? ==> r == fallback
  {
    if slot.Stored? then slot.value else fallback
  }

  // ---------------------------------------------------------------------
  // Users

  /** `users.find(u => u.phone === phone) || null`. */
  function FindByPhone(users: seq<User>, phone: string): (r: Option<User>)
    ensures r.Some? ==> r.value in users && r.value.phone == phone
    ensures r.Some? ==> exists k :: 0 <= k < |users| && users[k] == r.value &&
                          forall j :: 0 <= j < k ==> users[j].phone != phone
    ensures r.None? <==> forall j :: 0 <= j < |users| ==> users[j].phone != phone
  {
    if |users| == 0 then None
    else if users[0].phone == phone then Some(users[0])
    else
      var r := FindByPhone(users[1..], phone);
      assert r.Some? ==> exists k :: 0 <= k < |users| && users[k] == r.value && forall j :: 0 <= j < k ==> users[j].phone != phone by {
        if r.Some? {
          var k' :| 0 <= k' < |users| - 1 && users[1..][k'] == r.value && forall j :: 0 <= j < k' ==> users[1..][j].phone != phone;
          assert forall j :: 0 <= j < k' + 1 ==> users[j].phone != phone by {
            forall j | 0 <= j < k' + 1 ensures users[j].phone != phone {
              if j > 0 { assert users[j] == users[1..][j - 1]; }
            }
          }
        }
      }
      assert r.None? ==> forall j :: 0 <= j < |users| ==> users[j].phone != phone by {
        if r.None? {
          forall j | 0 <= j < |users| ensures users[j].phone != phone {
            if j > 0 { assert users[j] == users[1..][j - 1]; }
          }
        }
      }
      r
  }

  predicate SameAccount(a: User, b: User) { a.id == b.id || a.phone == b.phone }

  /** `allUsers.findIndex(u => u.id === user.id || u.phone === user.phone)`. */
  function AccountIndex(users: seq<User>, u: User): (r: int)
    ensures -1 <= r < |users|
    ensures r >= 0 ==> SameAccount(users[r], u) && forall j :: 0 <= j < r ==> !SameAccount(users[j], u)
    ensures r == -1 <==> forall j :: 0 <= j < |users| ==> !SameAccount(users[j], u)
  {
    if |users| == 0 then -1
    else if SameAccount(users[0], u) then 0
    else
      var k := AccountIndex(users[1..], u);
      assert forall j :: 1 <= j < |users| ==> users[j] == users[1..][j - 1];
      if k == -1 then -1 else k + 1
  }

  /** Replace the first user of the same account, or append. */
  function UpsertUser(users: seq<User>, u: User): seq<User>
  {
    var k := AccountIndex(users, u);
    if k >= 0 then users[k := u] else users + [u]
  }

  /** The known-user list grows by at most one, holds `u`, and loses only the entry `u` replaced. */
  lemma UpsertUserSpec(users: seq<User>, u: User)
    ensures var r := UpsertUser(users, u);
      u in r &&
      (|r| == |users| <==> exists j :: 0 <= j < |users| && SameAccount(users[j], u)) &&
      (|r| == |users| || |r| == |users| + 1) &&
      (forall j :: 0 <= j < |users| && j != AccountIndex(users, u) ==> r[j] == users[j])
  {
    var k := AccountIndex(users, u);
    var r := UpsertUser(users, u);
    if k >= 0 { assert r[k] == u; } else { assert r[|users|] == u; }
  }

  /** Upserting the same user twice is the same as once. */
  lemma UpsertUserIdempotent(users: seq<User>, u: User)
    ensures UpsertUser(UpsertUser(users, u), u) == UpsertUser(users, u)
  {
    var k := AccountIndex(users, u);
    var r := UpsertUser(users, u);
    if k >= 0 {
      assert AccountIndex(r, u) == k by {
        assert SameAccount(r[k], u);
        assert forall j :: 0 <= j < k ==> r[j] == users[j];
      }
    } else {
      assert SameAccount(r[|users|], u);
      assert forall j :: 0 <= j < |users| ==> r[j] == users[j];
      assert AccountIndex(r, u) == |users|;
    }
  }

  // ---------------------------------------------------------------------
  // Logs

  /** The processing purposes `saveLog` attaches to a new log. */
  function Purposes(t: LogType, aiConsent: bool): (r: seq<ProcessingPurpose>)
    ensures |r| > 0 && r[0] == HEALTH_MONITORING
    ensures ADHERENCE_TRACKING in r <==> (t == MEDICINE || t == INSULIN)
    ensures AI_INSIGHTS in r <==> aiConsent
    ensures DOCTOR_REVIEW !in r
    ensures forall i, j :: 0 <= i < j < |r| ==> r[i] != r[j]
  {
    [HEALTH_MONITORING]
      + (if t == MEDICINE || t == INSULIN then [ADHERENCE_TRACKING] else [])
      + (if aiConsent then [AI_INSIGHTS] else [])
  }

  function AiConsent(user: Option<User>): bool
  {
    user.Some? && user.value.consents.Some? && user.value.consents.value.aiAnalysis
  }

  function ConsentVersion(user: Option<User>): string
  {
    var v := if user.Some? && user.value.consents.Some? then user.value.consents.value.version else "";
    OrElse(v, "v1.0-DPDP")
  }

  /** The record `saveLog` builds from the caller's draft. */
  function NewLog(draft: LogDraft, user: Option<User>, id: string, now: int): (r: HealthLog)
    ensures r.id == id && r.timestamp == now
    ensures r.logType == draft.logType && r.value == draft.value
    ensures r.unit == draft.unit && r.notes == draft.notes
    ensures r.metadata.Some?
    ensures r.metadata.value.purpose == Purposes(draft.logType, AiConsent(user))
    ensures r.metadata.value.consentVersion == ConsentVersion(user)
    ensures draft.metadata.None? || !Truthy(draft.metadata.value.source) ==> r.metadata.value.source == "MANUAL_ENTRY"
    ensures draft.metadata.Some? && Truthy(draft.metadata.value.source) ==> r.metadata.value.source == draft.metadata.value.source
  {
    var src := if draft.metadata.Some? then draft.metadata.value.source else "";
    HealthLog(id, now, draft.logType, draft.value, draft.unit, draft.notes,
              Some(Metadata(OrElse(src, "MANUAL_ENTRY"), ConsentVersion(user), Purposes(draft.logType, AiConsent(user)))))
  }

  function SystemLog(id: string, timestamp: int, t: LogType, v: int, unit: string, notes: string,
                     purpose: seq<ProcessingPurpose>): HealthLog
  {
    HealthLog(id, timestamp, t, NumberValue(v), Some(unit), Some(notes), Some(Metadata("SYSTEM", "v1.0-DPDP", purpose)))
  }

  /** `getMockData`: four sample logs of the last two hours, oldest first. */
  function MockLogs(now: int): (r: seq<HealthLog>)
    ensures |r| == 4
    ensures forall i, j :: 0 <= i < j < |r| ==> r[i].timestamp < r[j].timestamp && r[i].id != r[j].id
    ensures forall i :: 0 <= i < |r| ==> now - 7200000 <= r[i].timestamp < now && r[i].metadata.Some? && r[i].metadata.value.source == "SYSTEM"
    ensures r[0].logType == GLUCOSE && r[3].logType == GLUCOSE && r[2].logType == INSULIN && r[1].logType == MEAL
  {
    [ SystemLog("1", now - 7200000, GLUCOSE, 110, "mg/dL", "Pre-lunch", [HEALTH_MONITORING]),
      SystemLog("2", now - 5400000, MEAL, 45, "g", "Turkey Sandwich", [HEALTH_MONITORING]),
      SystemLog("3", now - 3600000, INSULIN, 4, "U", "Rapid acting", [HEALTH_MONITORING, ADHERENCE_TRACKING]),
      SystemLog("4", now - 1800000, GLUCOSE, 145, "mg/dL", "Post-lunch check", [HEALTH_MONITORING]) ]
  }

  // ---------------------------------------------------------------------
  // Reminders: time order

  /**
   * The collation `saveReminder` sorts with: `before(a, b)` stands for
   * `a.localeCompare(b) < 0`. The browser's locale collation is not
   * modelled; the sort and its lemmas take it as a parameter and hold for
   * every strict order.
   */
  type Collation = (string, string) -> bool

  /** `before` is a strict order: irreflexive and transitive. */
  ghost predicate StrictOrder(before: Collation)
  {
    (forall a :: !before(a, a)) &&
    (forall a, b, c :: before(a, b) && before(b, c) ==> before(a, c))
  }

  /**
   * A comparator that the ECMAScript specification of `Array.prototype.sort`
   * calls consistent: a strict order whose incomparability is transitive
   * too, so that every stable sort produces the same result.
   */
  ghost predicate Consistent(before: Collation)
  {
    StrictOrder(before) &&
    (forall a, b, c :: before(a, c) ==> before(a, b) || before(b, c))
  }

  /** Code-point lexicographic order, one collation that meets the requirement. */
  predicate StrLt(a: string, b: string)
    decreases |a|
  {
    if |a| == 0 then |b| > 0
    else if |b| == 0 then false
    else a[0] < b[0] || (a[0] == b[0] && StrLt(a[1..], b[1..]))
  }

  lemma {:induction false} StrLtIrreflexive(a: string)
    ensures !StrLt(a, a)
    decreases |a|
  {
    if |a| > 0 { StrLtIrreflexive(a[1..]); }
  }

  lemma {:induction false} StrLtTransitive(a: string, b: string, c: string)
    requires StrLt(a, b) && StrLt(b, c)
    ensures StrLt(a, c)
    decreases |a|
  {
    if |a| > 0 && |b| > 0 && |c| > 0 && a[0] == b[0] && b[0] == c[0] {
      StrLtTransitive(a[1..], b[1..], c[1..]);
    }
  }

  lemma {:induction false} StrLtTotal(a: string, b: string)
    ensures a == b || StrLt(a, b) || StrLt(b, a)
    decreases |a|
  {
    if |a| > 0 && |b| > 0 && a[0] == b[0] {
      StrLtTotal(a[1..], b[1..]);
      if a[1..] == b[1..] { assert a == [a[0]] + a[1..] && b == [b[0]] + b[1..]; }
    }
  }

  /** The code-point order is a consistent comparator, so the sort lemmas apply to it. */
  lemma CodePointConsistent()
    ensures Consistent(StrLt)
  {
    forall a ensures !StrLt(a, a) { StrLtIrreflexive(a); }
    forall a, b, c | StrLt(a, b) && StrLt(b, c) ensures StrLt(a, c) { StrLtTransitive(a, b, c); }
    forall a, b, c | StrLt(a, c) ensures StrLt(a, b) || StrLt(b, c) {
      StrLtTotal(a, b);
      StrLtTotal(b, c);
      if StrLt(b, a) && StrLt(c, b) {
        StrLtTransitive(c, b, a);
        StrLtTransitive(a, c, a);
        StrLtIrreflexive(a);
      }
    }
  }

  /** Not later than: `b` is not before `a`. */
  predicate TimeLe(before: Collation, a: Reminder, b: Reminder) { !before(b.time, a.time) }

  predicate SortedByTime(before: Collation, s: seq<Reminder>)
  {
    forall i, j :: 0 <= i < j < |s| ==> TimeLe(before, s[i], s[j])
  }

  /** Insert `r` before the first entry strictly later than it (after its equals). */
  function InsertByTime(before: Collation, s: seq<Reminder>, r: Reminder): (t: seq<Reminder>)
    ensures multiset(t) == multiset(s) + multiset{r}
    ensures |t| == |s| + 1
  {
    if |s| == 0 then [r]
    else if before(r.time, s[0].time) then [r] + s
    else
      assert s == [s[0]] + s[1..];
      [s[0]] + InsertByTime(before, s[1..], r)
  }

  /** A list sorted by time stays sorted with an entry not later than all of it in front. */
  lemma SortedCons(before: Collation, x: Reminder, s: seq<Reminder>)
    requires SortedByTime(before, s)
    requires forall j :: 0 <= j < |s| ==> TimeLe(before, x, s[j])
    ensures SortedByTime(before, [x] + s)
  {
    var t := [x] + s;
    forall i, j | 0 <= i < j < |t| ensures TimeLe(before, t[i], t[j]) {
      assert t[j] == s[j - 1];
      if i > 0 { assert t[i] == s[i - 1]; }
    }
  }

  /** A lower bound of a list and of the inserted entry bounds the result. */
  lemma {:induction false} InsertByTimeBound(before: Collation, x: Reminder, s: seq<Reminder>, r: Reminder)
    requires forall j :: 0 <= j < |s| ==> TimeLe(before, x, s[j])
    requires TimeLe(before, x, r)
    ensures forall j :: 0 <= j < |InsertByTime(before, s, r)| ==> TimeLe(before, x, InsertByTime(before, s, r)[j])
  {
    if |s| > 0 && !before(r.time, s[0].time) {
      var rest := s[1..];
      assert forall j :: 0 <= j < |rest| ==> rest[j] == s[j + 1];
      InsertByTimeBound(before, x, rest, r);
    }
  }

  /** Inserting into a list sorted by a strict order keeps it sorted. */
  lemma {:induction false} InsertByTimeSorted(before: Collation, s: seq<Reminder>, r: Reminder)
    requires StrictOrder(before)
    requires SortedByTime(before, s)
    ensures SortedByTime(before, InsertByTime(before, s, r))
  {
    if |s| == 0 {
    } else if before(r.time, s[0].time) {
      forall j | 0 <= j < |s| ensures TimeLe(before, r, s[j]) {
        // nothing in `s` is before its first entry, so by transitivity nothing is before `r`
        assert !before(s[j].time, s[0].time);
      }
      SortedCons(before, r, s);
    } else {
      var rest := s[1..];
      assert forall j :: 0 <= j < |rest| ==> rest[j] == s[j + 1];
      InsertByTimeSorted(before, rest, r);
      InsertByTimeBound(before, s[0], rest, r);
      SortedCons(before, s[0], InsertByTime(before, rest, r));
    }
  }

  /** Stable sort by time: `[...s].sort((a, b) => a.time.localeCompare(b.time))`, with `before` for the collation. */
  function SortByTime(before: Collation, s: seq<Reminder>): (t: seq<Reminder>)
    ensures multiset(t) == multiset(s)
    ensures |t| == |s|
  {
    if |s| == 0 then []
    else
      assert s == s[..|s| - 1] + [s[|s| - 1]];
      InsertByTime(before, SortByTime(before, s[..|s| - 1]), s[|s| - 1])
  }

  lemma {:induction false} SortByTimeSorted(before: Collation, s: seq<Reminder>)
    requires StrictOrder(before)
    ensures SortedByTime(before, SortByTime(before, s))
  {
    if |s| > 0 {
      SortByTimeSorted(before, s[..|s| - 1]);
      InsertByTimeSorted(before, SortByTime(before, s[..|s| - 1]), s[|s| - 1]);
    }
  }

  /** An entry not earlier than everything goes at the end. */
  lemma {:induction false} InsertByTimeLast(before: Collation, s: seq<Reminder>, r: Reminder)
    requires forall i :: 0 <= i < |s| ==> TimeLe(before, s[i], r)
    ensures InsertByTime(before, s, r) == s + [r]
  {
    if |s| > 0 {
      InsertByTimeLast(before, s[1..], r);
      assert [s[0]] + (s[1..] + [r]) == s + [r];
    }
  }

  /** Sorting an already sorted list changes nothing: among equal times the list order is kept. */
  lemma {:induction false} SortByTimeOfSorted(before: Collation, s: seq<Reminder>)
    requires SortedByTime(before, s)
    ensures SortByTime(before, s) == s
  {
    if |s| > 0 {
      var init := s[..|s| - 1];
      assert SortedByTime(before, init);
      SortByTimeOfSorted(before, init);
      InsertByTimeLast(before, init, s[|s| - 1]);
      assert init + [s[|s| - 1]] == s;
    }
  }

  /** What `saveReminder` stores: the old list with the new one appended, sorted by time. */
  function RemindersAfterSave(before: Collation, stored: seq<Reminder>, r: Reminder): seq<Reminder>
  {
    SortByTime(before, stored + [r])
  }

  /**
   * The list `saveReminder` stores is sorted, holds exactly the old entries
   * and the new one, and, when the old list was sorted, is the old list with
   * the new entry inserted after every entry not later than it.
   */
  lemma RemindersAfterSaveSpec(before: Collation, stored: seq<Reminder>, r: Reminder)
    requires StrictOrder(before)
    ensures var t := RemindersAfterSave(before, stored, r);
      SortedByTime(before, t) &&
      multiset(t) == multiset(stored) + multiset{r} &&
      (SortedByTime(before, stored) ==> t == InsertByTime(before, stored, r))
  {
    assert (stored + [r])[..|stored|] == stored;
    SortByTimeSorted(before, stored + [r]);
    if SortedByTime(before, stored) { SortByTimeOfSorted(before, stored); }
  }

  // ---------------------------------------------------------------------
  // Reminders and doctors: per-id edits

  /** `reminders.map(r => r.id === id ? { ...r, completed: !r.completed } : r)`. */
  function ToggleById(rs: seq<Reminder>, id: string): (t: seq<Reminder>)
    ensures |t| == |rs|
    ensures forall i :: 0 <= i < |rs| ==>
              if rs[i].id == id then t[i] == rs[i].(completed := !rs[i].completed) else t[i] == rs[i]
  {
    if |rs| == 0 then []
    else
      var head := if rs[0].id == id then rs[0].(completed := !rs[0].completed) else rs[0];
      var tail := ToggleById(rs[1..], id);
      assert forall i :: 1 <= i < |rs| ==> rs[i] == rs[1..][i - 1];
      [head] + tail
  }

  /** Toggling the same id twice restores the list. */
  lemma ToggleTwice(rs: seq<Reminder>, id: string)
    ensures ToggleById(ToggleById(rs, id), id) == rs
  {
    var t := ToggleById(ToggleById(rs, id), id);
    assert forall i :: 0 <= i < |rs| ==> t[i] == rs[i];
  }

  /** `reminders.filter(r => r.id !== id)`. */
  function RemoveReminder(rs: seq<Reminder>, id: string): (t: seq<Reminder>)
    ensures forall x :: x in t <==> x in rs && x.id != id
    ensures |t| <= |rs|
    ensures (forall i :: 0 <= i < |rs| ==> rs[i].id != id) ==> t == rs
  {
    if |rs| == 0 then []
    else
      var tail := RemoveReminder(rs[1..], id);
      assert forall x :: x in rs <==> x == rs[0] || x in rs[1..];
      if rs[0].id == id then tail else [rs[0]] + tail
  }

  /**
   * The filter keeps order and multiplicity: it distributes over
   * concatenation and keeps a single entry exactly when its id differs,
   * which together fix the result entry by entry.
   */
  lemma {:induction false} RemoveReminderAppend(a: seq<Reminder>, b: seq<Reminder>, id: string)
    ensures RemoveReminder(a + b, id) == RemoveReminder(a, id) + RemoveReminder(b, id)
    ensures forall x :: RemoveReminder([x], id) == if x.id != id then [x] else []
  {
    if |a| > 0 {
      var rest := a[1..];
      assert (a + b)[0] == a[0];
      assert (a + b)[1..] == rest + b;
      RemoveReminderAppend(rest, b, id);
      if a[0].id == id {
        assert RemoveReminder(a + b, id) == RemoveReminder(rest + b, id);
      } else {
        assert RemoveReminder(a + b, id) == [a[0]] + RemoveReminder(rest + b, id);
      }
    } else {
      assert a + b == b;
    }
  }

  /** Each kept entry occurs as often as before, each removed one not at all. */
  lemma {:induction false} RemoveReminderCount(rs: seq<Reminder>, id: string)
    ensures forall x :: multiset(RemoveReminder(rs, id))[x] == if x.id != id then multiset(rs)[x] else 0
  {
    if |rs| > 0 {
      RemoveReminderCount(rs[1..], id);
      assert rs == [rs[0]] + rs[1..];
    }
  }

  /** `doctors.map(d => d.id === id ? { ...d, accessGranted: access } : d)`. */
  function SetAccess(ds: seq<Doctor>, id: string, access: bool): (t: seq<Doctor>)
    ensures |t| == |ds|
    ensures forall i :: 0 <= i < |ds| ==>
              if ds[i].id == id then t[i] == ds[i].(accessGranted := access) else t[i] == ds[i]
  {
    if |ds| == 0 then []
    else
      var head := if ds[0].id == id then ds[0].(accessGranted := access) else ds[0];
      assert forall i :: 1 <= i < |ds| ==> ds[i] == ds[1..][i - 1];
      [head] + SetAccess(ds[1..], id, access)
  }

  /** `doctors.map(d => d.id === id ? { ...d, lastShared: now } : d)`. */
  function SetLastShared(ds: seq<Doctor>, id: string, now: int): (t: seq<Doctor>)
    ensures |t| == |ds|
    ensures forall i :: 0 <= i < |ds| ==>
              if ds[i].id == id then t[i] == ds[i].(lastShared := Some(now)) else t[i] == ds[i]
  {
    if |ds| == 0 then []
    else
      var head := if ds[0].id == id then ds[0].(lastShared := Some(now)) else ds[0];
      assert forall i :: 1 <= i < |ds| ==> ds[i] == ds[1..][i - 1];
      [head] + SetLastShared(ds[1..], id, now)
  }

  /** `doctors.filter(d => d.id !== id)`. */
  function RemoveDoctor(ds: seq<Doctor>, id: string): (t: seq<Doctor>)
    ensures forall x :: x in t <==> x in ds && x.id != id
    ensures |t| <= |ds|
    ensures (forall i :: 0 <= i < |ds| ==> ds[i].id != id) ==> t == ds
  {
    if |ds| == 0 then []
    else
      var tail := RemoveDoctor(ds[1..], id);
      assert forall x :: x in ds <==> x == ds[0] || x in ds[1..];
      if ds[0].id == id then tail else [ds[0]] + tail
  }

  /** As for reminders: the doctor filter keeps order and multiplicity. */
  lemma {:induction false} RemoveDoctorAppend(a: seq<Doctor>, b: seq<Doctor>, id: string)
    ensures RemoveDoctor(a + b, id) == RemoveDoctor(a, id) + RemoveDoctor(b, id)
    ensures forall x :: RemoveDoctor([x], id) == if x.id != id then [x] else []
  {
    if |a| > 0 {
      var rest := a[1..];
      assert (a + b)[0] == a[0];
      assert (a + b)[1..] == rest + b;
      RemoveDoctorAppend(rest, b, id);
      if a[0].id == id {
        assert RemoveDoctor(a + b, id) == RemoveDoctor(rest + b, id);
      } else {
        assert RemoveDoctor(a + b, id) == [a[0]] + RemoveDoctor(rest + b, id);
      }
    } else {
      assert a + b == b;
    }
  }

  lemma {:induction false} RemoveDoctorCount(ds: seq<Doctor>, id: string)
    ensures forall x :: multiset(RemoveDoctor(ds, id))[x] == if x.id != id then multiset(ds)[x] else 0
  {
    if |ds| > 0 {
      RemoveDoctorCount(ds[1..], id);
      assert ds == [ds[0]] + ds[1..];
    }
  }

  // ---------------------------------------------------------------------
  // The store

  class LocalStore {
    var logsSlot: Slot<seq<HealthLog>>        // 'dialog_health_logs'
    var remindersSlot: Slot<seq<Reminder>>    // 'dialog_reminders'
    var doctorsSlot: Slot<seq<Doctor>>        // 'dialog_doctors'
    var userSlot: Slot<User>                  // 'dialog_current_user'
    var knownUsersSlot: Slot<seq<User>>       // 'dialog_known_users'
    var onboarded: bool                       // 'dialog_onboarded' is set

    constructor ()
      ensures logsSlot == Absent && remindersSlot == Absent && doctorsSlot == Absent
      ensures userSlot == Absent && knownUsersSlot == Absent && !onboarded
    {
      logsSlot, remindersSlot, doctorsSlot := Absent, Absent, Absent;
      userSlot, knownUsersSlot, onboarded := Absent, Absent, false;
    }

    /** `getCurrentUser`: null when the key is absent or does not parse. */
    function GetCurrentUser(): (r: Option<User>)
      reads this
      ensures r.None? <==> !userSlot.Stored?
      ensures r.Some? ==> r.value == userSlot.value
    {
      if userSlot.Stored? then Some(userSlot.value) else None
    }

    /** `getUserByPhone`: the first known user with that phone, or null. */
    function GetUserByPhone(phone: string): (r: Option<User>)
      reads this
      ensures !knownUsersSlot.Stored? ==> r.None?
      ensures knownUsersSlot.Stored? ==> r == FindByPhone(knownUsersSlot.value, phone)
    {
      if knownUsersSlot.Stored? then FindByPhone(knownUsersSlot.value, phone) else None
    }

    /** `getLogs`: the stored list, or the four mock logs when absent or unparsable. */
    function GetLogs(now: int): (r: seq<HealthLog>)
      reads this
      ensures !logsSlot.Stored? ==> r == MockLogs(now) && |r| == 4
      ensures logsSlot.Stored? ==> r == logsSlot.value
    {
      ReadOr(logsSlot, MockLogs(now))
    }

    function GetReminders(): (r: seq<Reminder>)
      reads this
      ensures !remindersSlot.Stored? ==> r == []
      ensures remindersSlot.Stored? ==> r == remindersSlot.value
    {
      ReadOr(remindersSlot, [])
    }

    function GetDoctors(): (r: seq<Doctor>)
      reads this
      ensures !doctorsSlot.Stored? ==> r == []
      ensures doctorsSlot.Stored? ==> r == doctorsSlot.value
    {
      ReadOr(doctorsSlot, [])
    }

    /**
     * `setCurrentUser`. With a user: store it as the current user, then upsert
     * it into the known users. The known-user list is parsed outside the
     * `try`, so unparsable text there throws after the current user was
     * written; `ok` is false in that case and the known users are unchanged.
     * With null: only the current-user key is removed.
     */
    method SetCurrentUser(u: Option<User>) returns (ok: bool)
      modifies this
      ensures u.Some? ==> userSlot == Stored(u.value)
      ensures u.None? ==> userSlot == Absent && knownUsersSlot == old(knownUsersSlot) && ok
      ensures u.Some? && old(knownUsersSlot) == Corrupt ==> !ok && knownUsersSlot == Corrupt
      ensures u.Some? && old(knownUsersSlot) != Corrupt ==>
                ok && knownUsersSlot == Stored(UpsertUser(ReadOr(old(knownUsersSlot), []), u.value))
      ensures logsSlot == old(logsSlot) && remindersSlot == old(remindersSlot)
      ensures doctorsSlot == old(doctorsSlot) && onboarded == old(onboarded)
    {
      if u.Some? {
        userSlot := Stored(u.value);
        if knownUsersSlot == Corrupt {
          ok := false;
          return;
        }
        var allUsers := ReadOr(knownUsersSlot, []);
        var index := AccountIndex(allUsers, u.value);
        if index > -1 {
          allUsers := allUsers[index := u.value];
        } else {
          allUsers := allUsers + [u.value];
        }
        knownUsersSlot := Stored(allUsers);
        ok := true;
      } else {
        userSlot := Absent;
        ok := true;
      }
    }

    /** `saveLog`: the new log goes first, every earlier log follows in order. */
    method SaveLog(draft: LogDraft, id: string, now: int) returns (r: HealthLog)
      modifies this
      ensures r == NewLog(draft, old(GetCurrentUser()), id, now)
      ensures logsSlot == Stored([r] + old(GetLogs(now)))
      ensures remindersSlot == old(remindersSlot) && doctorsSlot == old(doctorsSlot)
      ensures userSlot == old(userSlot) && knownUsersSlot == old(knownUsersSlot) && onboarded == old(onboarded)
    {
      var logs := GetLogs(now);
      var currentUser := GetCurrentUser();
      r := NewLog(draft, currentUser, id, now);
      logsSlot := Stored([r] + logs);
    }

    /**
     * `saveReminder`: one new, not completed reminder; the stored list is
     * sorted by time under the collation `before`.
     */
    method SaveReminder(draft: ReminderDraft, id: string, before: Collation) returns (r: Reminder)
      modifies this
      ensures r == Reminder(id, draft.time, draft.labelText, draft.kind, false, draft.repeat)
      ensures remindersSlot == Stored(RemindersAfterSave(before, old(GetReminders()), r))
      ensures logsSlot == old(logsSlot) && doctorsSlot == old(doctorsSlot)
      ensures userSlot == old(userSlot) && knownUsersSlot == old(knownUsersSlot) && onboarded == old(onboarded)
    {
      var reminders := GetReminders();
      r := Reminder(id, draft.time, draft.labelText, draft.kind, false, draft.repeat);
      remindersSlot := Stored(RemindersAfterSave(before, reminders, r));
    }

    method ToggleReminder(id: string)
      modifies this
      ensures remindersSlot == Stored(ToggleById(old(GetReminders()), id))
      ensures logsSlot == old(logsSlot) && doctorsSlot == old(doctorsSlot)
      ensures userSlot == old(userSlot) && knownUsersSlot == old(knownUsersSlot) && onboarded == old(onboarded)
    {
      remindersSlot := Stored(ToggleById(GetReminders(), id));
    }

    method DeleteReminder(id: string)
      modifies this
      ensures remindersSlot == Stored(RemoveReminder(old(GetReminders()), id))
      ensures logsSlot == old(logsSlot) && doctorsSlot == old(doctorsSlot)
      ensures userSlot == old(userSlot) && knownUsersSlot == old(knownUsersSlot) && onboarded == old(onboarded)
    {
      remindersSlot := Stored(RemoveReminder(GetReminders(), id));
    }

    /** `saveDoctor`: appends one doctor, with access granted. */
    method SaveDoctor(draft: DoctorDraft, id: string) returns (d: Doctor)
      modifies this
      ensures d == Doctor(id, draft.name, draft.email, draft.specialization, true, None)
      ensures doctorsSlot == Stored(old(GetDoctors()) + [d])
      ensures logsSlot == old(logsSlot) && remindersSlot == old(remindersSlot)
      ensures userSlot == old(userSlot) && knownUsersSlot == old(knownUsersSlot) && onboarded == old(onboarded)
    {
      d := Doctor(id, draft.name, draft.email, draft.specialization, true, None);
      doctorsSlot := Stored(GetDoctors() + [d]);
    }

    method UpdateDoctorAccess(id: string, access: bool)
      modifies this
      ensures doctorsSlot == Stored(SetAccess(old(GetDoctors()), id, access))
      ensures logsSlot == old(logsSlot) && remindersSlot == old(remindersSlot)
      ensures userSlot == old(userSlot) && knownUsersSlot == old(knownUsersSlot) && onboarded == old(onboarded)
    {
      doctorsSlot := Stored(SetAccess(GetDoctors(), id, access));
    }

    method DeleteDoctor(id: string)
      modifies this
      ensures doctorsSlot == Stored(RemoveDoctor(old(GetDoctors()), id))
      ensures logsSlot == old(logsSlot) && remindersSlot == old(remindersSlot)
      ensures userSlot == old(userSlot) && knownUsersSlot == old(knownUsersSlot) && onboarded == old(onboarded)
    {
      doctorsSlot := Stored(RemoveDoctor(GetDoctors(), id));
    }

    method UpdateLastShared(id: string, now: int)
      modifies this
      ensures doctorsSlot == Stored(SetLastShared(old(GetDoctors()), id, now))
      ensures logsSlot == old(logsSlot) && remindersSlot == old(remindersSlot)
      ensures userSlot == old(userSlot) && knownUsersSlot == old(knownUsersSlot) && onboarded == old(onboarded)
    {
      doctorsSlot := Stored(SetLastShared(GetDoctors(), id, now));
    }
  }
}
