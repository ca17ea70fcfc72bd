# DiaLog — a verified model of the health tracker's core

DiaLog is a browser app for people managing diabetes, built with React and
TypeScript. A patient logs glucose, meals, insulin, exercise, mood and
medicine by voice (a live AI session that calls `logData` and `setReminder`
tools), through a manual form, or by scanning a prescription or a lab
report. Everything is kept in `localStorage`. The patient dashboard shows
averages, adherence and a glucose chart. A calendar filters the logs by
day, month or date range and asks the AI for an insight. A care-team
screen shares reports with doctors after explicit consent. Sign-in is a
phone number and a six-digit code, then a role and a profile. Caregivers,
doctors and admins get their own screens.

This project models that core in Dafny, one module per source file:

| module | source | form |
|---|---|---|
| `Types` | types.ts | datatypes; the JavaScript conversions the components use (`String`, `Number`, `toUpperCase`, truthiness) |
| `DataService` | services/dataService.ts | `LocalStore`, a class with one field per storage key; pure list transforms |
| `VoiceLogger` | components/VoiceLogger.tsx | `LiveSession`, a class over the hook's state; `onmessage` as a function `ApplyMessage` that the method is proved against |
| `Dashboard`, `CaregiverDashboard` | components/Dashboard.tsx, components/CaregiverDashboard.tsx | pure functions and lemmas |
| `ManualEntry`, `ReportScanner`, `PrescriptionScanner`, `Auth`, `DoctorsView`, `Onboarding` | the components of the same names | a class per component's state, with pure functions for the transforms its handlers use |
| `App` | App.tsx | `Shell`, a class over the shell's state; pure role routing and bell count |
| `CalendarView` | components/CalendarView.tsx | pure filter, sort and calendar arithmetic; `Calendar`, a class over the view's state |

Some conventions hold throughout:

- Storage keys are `Slot`s: `Absent`, `Corrupt` (text that `JSON.parse`
  rejects) or `Stored(value)`. Every read treats the first two cases as
  the source does.
- A handler that calls into another module receives the store as a
  parameter and declares `modifies this, store`.
- Callbacks such as `onAddLog`, `onComplete` and `onAuthComplete` are
  recorded in a sequence field (`emitted`, `completed`, `requests`), or
  counted.
- AI replies, microphone permission, file reads and timers are
  parameters or explicit event methods.
- Times are integers: milliseconds for `Date.now()` and abstract ticks for
  the audio clock.
- The model follows the code in these places:
  - no set of already-seen tool-call ids is kept;
  - reminder times are not checked against `HH:mm`;
  - no failure tool response is ever queued;
  - an interruption does not clear the output accumulator, so `AfterTurn`
    still offers the text spoken before it to the transcript at the next
    `turnComplete` (what the queued updaters then record is under
    "## Findings");
  - `stopSession` releases the session, capture processor and input
    context with no required order, and leaves the output context open;
  - the mute flag the message handler reads is the one captured when the
    session started;
  - onboarding is decided once, at start-up. Signing in later does not
    show it.
- Two confirmation dialogs of the care-team screen are never rendered.
  `setConfirmingRevoke` and `setConfirmingDelete` are called
  (components/DoctorsView.tsx:62, 75), but no markup reads them. Revoking
  and deleting are therefore unreachable from the screen. The model still
  has both executions (`ExecuteToggleAccess`, `ExecuteDelete`).
- The caregiver's glucose chart (components/CaregiverDashboard.tsx:39-48)
  is the same expression as the patient dashboard's. Both use
  `Dashboard.ChartData`.

## Model

A few lemmas check the date and number formulas on single fixed inputs
(`CalendarView.DayNumbers`, `CalendarView.DateOfLeapDay`,
`CalendarView.DateOfJanuaryEnd`, `CalendarView.DateOfMarchSecond`,
`CalendarView.MonthStepOverflows`, `PrescriptionScanner.SixMonthBoundary`,
`Types.ParseUpperLower`). They are sample checks, not general properties.

Every handler states its whole new state. Most component classes have a
snapshot of their state (`Fields()`, or `State()` in the voice logger),
and a handler's new state is the old snapshot with the changed fields
replaced. The report scanner and the app shell, which have fewer fields,
name each one. Handlers that write to storage also name every key they
leave alone.

| member | source | states |
|---|---|---|
| Types.OrElse | services/dataService.ts:78 | `a \|\| b` on strings: the first when it is non-empty, and the second exactly when the first is empty |
| Types.NumberOf | components/Dashboard.tsx:25 | `Number(v)` of a `string \| number` value: numbers are kept; a string parses exactly when it is all digits |
| Types.NumberOfStringified | components/VoiceLogger.tsx:321 | `Number(String(n))` gives back `n` for a natural number |
| Types.NatToStringRoundTrip | components/VoiceLogger.tsx:321 | the digits `String(n)` prints read back as `n` |
| Types.IntToString | components/VoiceLogger.tsx:321 | `String(n)` is non-empty, all digits for n ≥ 0 and a minus sign followed by digits otherwise |
| Types.UpperIsUpper | components/VoiceLogger.tsx:317 | `toUpperCase` leaves no lower-case letter and is idempotent |
| Types.ParseLogTypeName | types.ts:2-9 | each log type's enum string reads back as that type |
| Types.ParseUpperLower | components/VoiceLogger.tsx:317 | lower-casing and then upper-casing a type name gives back the type |
| DataService.ReadOr | services/dataService.ts:10-18 | a stored key gives its value; an absent or unparsable one gives the fallback |
| DataService.FindByPhone | services/dataService.ts:20-29 | `find`: the first user with that phone, and none exactly when no user has it |
| DataService.AccountIndex | services/dataService.ts:37 | `findIndex`: the first user with the same id or phone, or -1 exactly when there is none |
| DataService.UpsertUserSpec | services/dataService.ts:37-43 | the known users grow by at most one and include the user; only the matched entry is replaced |
| DataService.UpsertUserIdempotent | services/dataService.ts:31-48 | saving the same user twice leaves the known users as saving once |
| DataService.Purposes | services/dataService.ts:65-71 | HEALTH_MONITORING first; ADHERENCE_TRACKING iff medicine or insulin; AI_INSIGHTS iff AI consent; never DOCTOR_REVIEW; no duplicates |
| DataService.NewLog | services/dataService.ts:73-82 | the draft's fields with the new id and time; source `MANUAL_ENTRY` unless the draft names one; the user's consent version |
| DataService.MockLogs | services/dataService.ts:162-170 | four sample logs with distinct ids, in increasing time order within the last two hours, with source SYSTEM |
| DataService.CodePointConsistent | services/dataService.ts:105 | code-point order is a consistent comparator (irreflexive, transitive, incomparability transitive), one collation the sort lemmas apply to |
| DataService.StrLtTransitive | services/dataService.ts:105 | code-point order is transitive |
| DataService.StrLtTotal | services/dataService.ts:105 | and total: distinct strings are ordered one way |
| DataService.InsertByTimeSorted | services/dataService.ts:105 | for every strict-order collation, inserting into a time-sorted list keeps it sorted |
| DataService.SortByTime | services/dataService.ts:105 | the sort, for any collation, is a permutation of its input |
| DataService.SortByTimeSorted | services/dataService.ts:105 | and, for a strict-order collation, its result is sorted by time |
| DataService.SortByTimeOfSorted | services/dataService.ts:105 | a list already sorted is left as it is (stability) |
| DataService.InsertByTimeLast | services/dataService.ts:105 | an entry not earlier than every other goes last |
| DataService.RemindersAfterSaveSpec | services/dataService.ts:98-108 | for a strict-order collation, the saved list is sorted, holds exactly the old reminders and the new one, and is the old list with the new one inserted when the old one was sorted |
| DataService.ToggleById | services/dataService.ts:110-114 | the matching reminders flip `completed`, everything else unchanged |
| DataService.ToggleTwice | services/dataService.ts:110-114 | toggling the same id twice restores the list |
| DataService.RemoveReminder | services/dataService.ts:116-120 | keeps exactly the reminders with another id; no match keeps the list |
| DataService.RemoveReminderAppend | services/dataService.ts:116-120 | the filter distributes over concatenation and keeps one reminder exactly when its id differs, so it keeps list order |
| DataService.RemoveReminderCount | services/dataService.ts:116-120 | each kept reminder occurs as often as before, each removed one not at all |
| DataService.SetAccess | services/dataService.ts:144-148 | only doctors with the id change, and only their access |
| DataService.SetLastShared | services/dataService.ts:156-160 | only doctors with the id change, and only their last-shared time |
| DataService.RemoveDoctor | services/dataService.ts:150-154 | keeps exactly the doctors with another id |
| DataService.RemoveDoctorAppend | services/dataService.ts:150-154 | the filter distributes over concatenation and keeps one doctor exactly when its id differs, so it keeps list order |
| DataService.RemoveDoctorCount | services/dataService.ts:150-154 | each kept doctor occurs as often as before, each removed one not at all |
| DataService.LocalStore.constructor | services/dataService.ts:4-8 | every key starts absent |
| DataService.LocalStore.GetCurrentUser | services/dataService.ts:10-18 | null exactly when the key is absent or unparsable |
| DataService.LocalStore.GetUserByPhone | services/dataService.ts:20-29 | null on an absent or unparsable list, else the first match |
| DataService.LocalStore.GetLogs | services/dataService.ts:50-58 | the stored list, or the four mock logs |
| DataService.LocalStore.GetReminders | services/dataService.ts:88-96 | the stored list, or empty |
| DataService.LocalStore.GetDoctors | services/dataService.ts:122-130 | the stored list, or empty |
| DataService.LocalStore.SetCurrentUser | services/dataService.ts:31-48 | stores the user, then upserts it; an unparsable known-user list throws after the first write, and `ok` reports it; null only removes the key |
| DataService.LocalStore.SaveLog | services/dataService.ts:60-86 | the new log goes first, ahead of the old list; no other key changes |
| DataService.LocalStore.SaveReminder | services/dataService.ts:98-108 | a new, not completed reminder; the stored list is `RemindersAfterSave` under the given collation: sorted, a permutation of the old plus the new (by RemindersAfterSaveSpec); nothing else changes |
| DataService.LocalStore.ToggleReminder | services/dataService.ts:110-114 | the stored list is the toggled list |
| DataService.LocalStore.DeleteReminder | services/dataService.ts:116-120 | the stored list is `RemoveReminder` of the old one: that id gone, the rest in order and multiplicity (RemoveReminderAppend, RemoveReminderCount) |
| DataService.LocalStore.SaveDoctor | services/dataService.ts:132-142 | one doctor with access is appended |
| DataService.LocalStore.UpdateDoctorAccess | services/dataService.ts:144-148 | the stored list has that doctor's access set |
| DataService.LocalStore.DeleteDoctor | services/dataService.ts:150-154 | the stored list is `RemoveDoctor` of the old one: that doctor gone, the rest in order and multiplicity (RemoveDoctorAppend, RemoveDoctorCount) |
| DataService.LocalStore.UpdateLastShared | services/dataService.ts:156-160 | the stored list has that doctor's last-shared time set to now |
| VoiceLogger.ScheduleChunkSpec | components/VoiceLogger.tsx:272-285 | a chunk starts at max(cursor, clock), never before a still-playing chunk ends, gets a fresh source, and the cursor moves to its end |
| VoiceLogger.BackToBack | components/VoiceLogger.tsx:275-284 | a chunk arriving before the previous one ends starts exactly at that end |
| VoiceLogger.TurnCompleteSpec | components/VoiceLogger.tsx:300-312 | with each entry's text taken before the accumulators are emptied: a user entry iff input text, then an AI entry iff output text; both accumulators and the thinking flag cleared |
| VoiceLogger.TurnLosesAiText | components/VoiceLogger.tsx:300-308 | as written, a turn with both user and AI text records the AI entry with empty text, however React schedules the updaters |
| VoiceLogger.FirstThrow | components/VoiceLogger.tsx:315-317 | the calls before it do not throw, and the call at it does |
| VoiceLogger.AfterToolsEffects | components/VoiceLogger.tsx:314-360 | the handled calls append, in order, exactly their payloads, reminders, entries and responses |
| VoiceLogger.AfterToolsFrame | components/VoiceLogger.tsx:314-360 | handling calls leaves the connection, buffers, playback and speech state as they were |
| VoiceLogger.AfterToolsOutbox | components/VoiceLogger.tsx:314-360 | the responses are queued in call order |
| VoiceLogger.AfterToolsLogs | components/VoiceLogger.tsx:316-323 | the `onLogCreated` payloads are emitted in call order |
| VoiceLogger.AfterToolsReminders | components/VoiceLogger.tsx:336-345 | the reminders are saved in call order, each with one refresh |
| VoiceLogger.AfterToolsTranscript | components/VoiceLogger.tsx:324-353 | the transcript entries are appended in call order |
| VoiceLogger.ToolCounts | components/VoiceLogger.tsx:314-360 | one payload per `logData`, one reminder per `setReminder`, one entry and one response per handled call, with the call's id and the fixed result |
| VoiceLogger.PayloadShape | components/VoiceLogger.tsx:317-323 | each `onLogCreated` payload has an upper-cased string type and a stringified value |
| VoiceLogger.ReminderShape | components/VoiceLogger.tsx:337-342 | each saved reminder has an upper-cased type and `repeat: false` |
| VoiceLogger.UnknownToolIgnored | components/VoiceLogger.tsx:315-358 | a call with any other name has no effect |
| VoiceLogger.HandledCalls | components/VoiceLogger.tsx:314-317 | the calls the loop gets through throw nothing |
| VoiceLogger.ApplyMessageParts | components/VoiceLogger.tsx:271-371 | the connection and speech state never change; playback depends only on audio and interruption; tool effects only append |
| VoiceLogger.TranscriptionDeltas | components/VoiceLogger.tsx:288-298 | deltas are appended to their accumulators; an output delta raises the thinking flag |
| VoiceLogger.ApplyMessageInvariants | components/VoiceLogger.tsx:271-371 | the transcript, responses and callback records only grow; the playback invariant is kept |
| VoiceLogger.AudioSpec | components/VoiceLogger.tsx:272-286 | exactly one chunk when playing audio; when muted or without audio nothing is scheduled and the cursor stays |
| VoiceLogger.MuteAffectsOnlyPlayback | components/VoiceLogger.tsx:273 | muting changes nothing but playback |
| VoiceLogger.InterruptSpec | components/VoiceLogger.tsx:362-370 | every source stopped, the set emptied, the cursor 0, thinking and partial output cleared, the output accumulator kept |
| VoiceLogger.InterruptedOutputStillFinalised | components/VoiceLogger.tsx:300-370 | an interruption does not empty the output accumulator, so the next `turnComplete` of the corrected turn records that text as the last AI entry |
| VoiceLogger.LogDataScenario | components/VoiceLogger.tsx:316-335 | a `logData` call creates one log, one entry and one "Success." response with its id |
| VoiceLogger.SetReminderScenario | components/VoiceLogger.tsx:336-357 | a `setReminder` call saves one reminder, refreshes once and queues "Reminder active." |
| VoiceLogger.ThrowingCallAborts | components/VoiceLogger.tsx:317 | a non-string `type` stops the handler: later calls and `interrupted` are not acted on |
| VoiceLogger.FirstThrowAt | components/VoiceLogger.tsx:315-359 | the loop's exit index is the first throwing call |
| VoiceLogger.LiveSession.constructor | components/VoiceLogger.tsx:90-121 | the hook's initial state |
| VoiceLogger.LiveSession.DispatchToolCalls | components/VoiceLogger.tsx:314-360 | the loop's state is that of the calls before the first throwing one, and it reports whether one threw |
| VoiceLogger.LiveSession.PlayChunk | components/VoiceLogger.tsx:272-286 | the state after the audio step |
| VoiceLogger.LiveSession.AccumulateTranscriptions | components/VoiceLogger.tsx:288-298 | the state after the transcription step |
| VoiceLogger.LiveSession.CompleteTurn | components/VoiceLogger.tsx:300-312 | the state after turn completion |
| VoiceLogger.LiveSession.Interrupt | components/VoiceLogger.tsx:362-370 | the state after an interruption |
| VoiceLogger.LiveSession.OnMessage | components/VoiceLogger.tsx:271-371 | the new state is `ApplyMessage` of the old one; the invariant is kept |
| VoiceLogger.LiveSession.OnSourceEnded | components/VoiceLogger.tsx:280-282 | the source leaves the playing set |
| VoiceLogger.LiveSession.SetMuted | components/VoiceLogger.tsx:91 | only the live mute flag changes |
| VoiceLogger.LiveSession.StartSession | components/VoiceLogger.tsx:220-387 | a no-op while active; otherwise the error is cleared, a refusal or failure sets "Mic required for voice.", and the current mute flag is captured |
| VoiceLogger.LiveSession.OnOpen | components/VoiceLogger.tsx:251-270 | the capture processor is attached and the session is active |
| VoiceLogger.LiveSession.StopSession | components/VoiceLogger.tsx:389-406 | the session, processor and input context released; inactive; partial displays and level cleared; the rest unchanged |
| VoiceLogger.LiveSession.OnError | components/VoiceLogger.tsx:372-376 | the error text is set, then the session is stopped |
| VoiceLogger.LiveSession.OnClose | components/VoiceLogger.tsx:377-379 | the session becomes inactive |
| VoiceLogger.LiveSession.StopTTS | components/VoiceLogger.tsx:158-166 | a held speech source is stopped and released; without one nothing changes |
| VoiceLogger.LiveSession.PlaySpeech | components/VoiceLogger.tsx:168-218 | the slot speaking only stops; another slot stops any source and then holds a fresh one, or clears without audio; nothing else changes |
| VoiceLogger.LiveSession.OnSpeechEnded | components/VoiceLogger.tsx:203-208 | the slot clears only if the ended source is still the held one |
| Dashboard.OfType | components/Dashboard.tsx:23 | keeps exactly the logs of the type |
| Dashboard.OfTypeAppend | components/Dashboard.tsx:23 | filtering distributes over concatenation |
| Dashboard.RoundDiv | components/Dashboard.tsx:25 | `Math.round(p / q)`: the nearest integer, halves up |
| Dashboard.AvgGlucose | components/Dashboard.tsx:23-26 | '--' exactly when there is no glucose log |
| Dashboard.SumWithin | components/Dashboard.tsx:25 | readings in [lo, hi] sum to a number between n·lo and n·hi |
| Dashboard.RoundedMeanWithin | components/Dashboard.tsx:25 | a rounded mean stays within the bounds |
| Dashboard.AvgGlucoseWithin | components/Dashboard.tsx:23-26 | numeric readings in [lo, hi] give a mean in [lo, hi] |
| Dashboard.AvgGlucoseNaN | components/Dashboard.tsx:25 | one non-numeric glucose reading makes the average NaN |
| Dashboard.SumNaN | components/Dashboard.tsx:25 | one non-numeric value makes the sum NaN |
| Dashboard.CountCompleted | components/Dashboard.tsx:28 | at most the number of reminders |
| Dashboard.AdherenceRateBounds | components/Dashboard.tsx:28-30 | the rate is in [0, 100]; 100 when all (or none exist) are completed; 0 when none are |
| Dashboard.TotalInsulinPrepend | components/Dashboard.tsx:32-33 | only INSULIN logs count, each once; an empty value counts 0 |
| Dashboard.Reverse | components/Dashboard.tsx:41 | `reverse()`, element by element |
| Dashboard.LastN | components/Dashboard.tsx:42 | `slice(-n)`: the last n elements |
| Dashboard.Points | components/Dashboard.tsx:43-46 | one point per log, its time and `Number(value)` |
| Dashboard.ChartDataRecentGlucose | components/Dashboard.tsx:38-47 | the chart shows the first ten glucose readings of the list, oldest of them first |
| Dashboard.PendingReminders | components/Dashboard.tsx:49 | exactly the reminders not completed, as many as the uncompleted count |
| Dashboard.PendingRemindersAppend | components/Dashboard.tsx:49 | the filter distributes over concatenation and keeps one reminder exactly when it is not completed, so list order is kept |
| Dashboard.PendingRemindersCount | components/Dashboard.tsx:49 | each pending reminder occurs as often as in the list, each completed one not at all |
| Dashboard.Timeline | components/Dashboard.tsx:170 | the first five logs |
| CaregiverDashboard.LatestGlucose | components/CaregiverDashboard.tsx:27-29 | the first glucose log, and none exactly when there is none |
| CaregiverDashboard.LatestIsFirstFiltered | components/CaregiverDashboard.tsx:27-29 | it is the head of the glucose filter |
| CaregiverDashboard.GlucoseStatus | components/CaregiverDashboard.tsx:31-37 | unknown exactly when there is no glucose log |
| CaregiverDashboard.StatusThresholds | components/CaregiverDashboard.tsx:33-36 | high iff > 180, low iff < 70, otherwise normal (NaN is normal) |
| CaregiverDashboard.StatusIgnoresOlderReadings | components/CaregiverDashboard.tsx:27-37 | readings after the first glucose log do not change the status |
| CaregiverDashboard.Feed | components/CaregiverDashboard.tsx:149 | the first four logs |
| ManualEntry.ValidIffSubmits | components/ManualEntry.tsx:84-86 | the button is enabled exactly when a submission emits a log |
| ManualEntry.SubmittedDraftShape | components/ManualEntry.tsx:49-65 | medicine is "name (dosage)" with the frequency as unit; other types pass type, value, unit, notes unchanged |
| ManualEntry.UnitForKeeps | components/ManualEntry.tsx:76-82 | EXERCISE and MOOD keep the unit; the other types set a fixed non-empty one |
| ManualEntry.Form.constructor | components/ManualEntry.tsx:32-42 | the form's initial fields |
| ManualEntry.Form.Edit | components/ManualEntry.tsx:33-40 | the inputs set their fields; the type is untouched |
| ManualEntry.Form.HandleSubmit | components/ManualEntry.tsx:46-74 | a rejected submission changes nothing; an accepted one emits its draft, sets success and clears the text fields except the unit |
| ManualEntry.Form.HandleTypeChange | components/ManualEntry.tsx:76-82 | the type and the unit it implies |
| ManualEntry.Form.SuccessTimeout | components/ManualEntry.tsx:73 | success is cleared |
| ReportScanner.AllSelected | components/ReportScanner.tsx:121 | every extracted entry starts selected |
| ReportScanner.Toggled | components/ReportScanner.tsx:133-137 | only the entry at the index flips |
| ReportScanner.ToggleInvolution | components/ReportScanner.tsx:133-137 | toggling twice restores the list |
| ReportScanner.ToggleCommutes | components/ReportScanner.tsx:133-137 | toggles of two entries commute |
| ReportScanner.SavedDraftsSpec | components/ReportScanner.tsx:139-154 | one draft per selected entry, each the import of a selected entry with source REPORT_AI_SCAN |
| ReportScanner.SavedDraftsAppend | components/ReportScanner.tsx:139-154 | the drafts distribute over concatenation and one entry gives its draft exactly when selected, so drafts come in list order |
| ReportScanner.ImportEnabledIffEmits | components/ReportScanner.tsx:363 | the import button is enabled exactly when importing emits something |
| ReportScanner.FreshScanImportsAll | components/ReportScanner.tsx:121 | right after a scan every entry would be imported |
| ReportScanner.CountAllSelected | components/ReportScanner.tsx:121 | all entries count as selected after a scan |
| ReportScanner.Scanner.constructor | components/ReportScanner.tsx:43-46 | the initial state |
| ReportScanner.Scanner.HandleFileChange | components/ReportScanner.tsx:49-60 | a file replaces the image and clears entries and error; no file changes nothing |
| ReportScanner.Scanner.HandleScan | components/ReportScanner.tsx:62-131 | no image: nothing; a result selects all and sets the no-data error when empty; a failure sets the failure error and keeps the entries |
| ReportScanner.Scanner.ToggleLogSelection | components/ReportScanner.tsx:133-137 | the toggled list |
| ReportScanner.Scanner.Rescan | components/ReportScanner.tsx:356 | entries and image cleared |
| ReportScanner.Scanner.HandleSaveAll | components/ReportScanner.tsx:139-156 | the selected entries are emitted in order, then the scanner closes |
| PrescriptionScanner.WithField | components/PrescriptionScanner.tsx:227 | one field replaced, every other kept |
| PrescriptionScanner.PrescriptionAge | components/PrescriptionScanner.tsx:248-256 | old iff more than six calendar months before now; an unparsable date never; old stays old |
| PrescriptionScanner.SixMonthBoundary | components/PrescriptionScanner.tsx:253-254 | six months is not old, seven is, across a year boundary |
| PrescriptionScanner.SaveDraftShape | components/PrescriptionScanner.tsx:233-243 | a MEDICINE log "med (dosage)" with the frequency as unit, tagged VOICE_DICTATION iff dictation is active |
| PrescriptionScanner.AgeFallback | components/PrescriptionScanner.tsx:237 | "Age N/A" replaces a missing or empty age |
| PrescriptionScanner.ResultAfterSpec | components/PrescriptionScanner.tsx:195-202 | other calls change nothing; otherwise the result is the last `updatePrescription`'s arguments |
| PrescriptionScanner.Scanner.constructor | components/PrescriptionScanner.tsx:46-52 | the initial state |
| PrescriptionScanner.Scanner.HandleResultChange | components/PrescriptionScanner.tsx:225-228 | nothing without a result, else one field replaced |
| PrescriptionScanner.Scanner.HandleSave | components/PrescriptionScanner.tsx:230-246 | nothing without a result, else one draft emitted and the scanner closed |
| PrescriptionScanner.Scanner.StartVoiceSession | components/PrescriptionScanner.tsx:134-216 | a no-op while active; otherwise error and transcript cleared, a failure sets the voice error |
| PrescriptionScanner.Scanner.OnVoiceOpen | components/PrescriptionScanner.tsx:176-190 | the processor is attached, dictation active |
| PrescriptionScanner.Scanner.StopVoiceSession | components/PrescriptionScanner.tsx:218-223 | all handles released, dictation inactive |
| PrescriptionScanner.Scanner.OnVoiceMessage | components/PrescriptionScanner.tsx:191-203 | input text appended after a space; each `updatePrescription` replaces the result and stops dictation |
| PrescriptionScanner.Scanner.OnVoiceError | components/PrescriptionScanner.tsx:204-207 | dictation is stopped |
| PrescriptionScanner.Scanner.OnVoiceClose | components/PrescriptionScanner.tsx:208 | dictation inactive, handles not released |
| Auth.LastChar | components/Auth.tsx:89 | `slice(-1)`: the last character, or "" |
| Auth.OtpAfterSpec | components/Auth.tsx:86-90 | non-digit input is ignored; otherwise the box holds the last digit typed and the others are unchanged |
| Auth.TypeDigits | components/Auth.tsx:86-90 | typing keeps the length of the code |
| Auth.TypeDigitsSpec | components/Auth.tsx:86-90 | typed boxes hold their digit, the others are unchanged |
| Auth.TypingCompletes | components/Auth.tsx:86-104 | one digit per box completes the code |
| Auth.ToggleConsentSpec | components/Auth.tsx:245-259 | a toggle flips its own switch only, keeps timestamp and version, and is its own inverse |
| Auth.NewUserSpec | components/Auth.tsx:129-143 | identity and role from the form; a specialization only for doctors, a linked patient only for caregivers, goals only for patients; consents renewed now |
| Auth.AuthFlow.constructor | components/Auth.tsx:41-62 | the initial state and consents |
| Auth.AuthFlow.Begin | components/Auth.tsx:187 | on to the notice |
| Auth.AuthFlow.Toggle | components/Auth.tsx:245-259 | one consent flips |
| Auth.AuthFlow.AcceptNotice | components/Auth.tsx:269-271 | on to the phone page only with health logging consented |
| Auth.AuthFlow.Back | components/Auth.tsx:283 | back to the landing page |
| Auth.AuthFlow.SetLang | components/Auth.tsx:170-175 | only the language changes; `NewUserSpec` then puts it in the new account |
| Auth.AuthFlow.SetPhone | components/Auth.tsx:43 | only the phone changes |
| Auth.AuthFlow.HandlePhoneSubmit | components/Auth.tsx:72-84 | fewer than ten characters is an error and stays; otherwise on to the code |
| Auth.AuthFlow.HandleOtpChange | components/Auth.tsx:86-95 | the boxes are `OtpAfter` of the old ones |
| Auth.AuthFlow.HandleOtpVerify | components/Auth.tsx:103-121 | an incomplete code is an error; a known phone signs that user in (current user stored, known users upserted with it); an unknown one goes to the role choice |
| Auth.AuthFlow.ChooseRole | components/Auth.tsx:345-348 | the role is set and the profile opens |
| Auth.AuthFlow.EditProfile | components/Auth.tsx:46-47 | name and e-mail set |
| Auth.AuthFlow.HandleProfileSubmit | components/Auth.tsx:123-148 | nothing unless name, e-mail and role are set; else the new account is stored as current user and upserted into the known users, and reported, unless the known-user list is unparsable (then the list stays so and nothing is reported) |
| DoctorsView.ReportLogs | components/DoctorsView.tsx:105 | the first thirty logs |
| DoctorsView.RevokeThenGrant | components/DoctorsView.tsx:60-72 | a grant after a revoke restores a list where the doctor had access |
| DoctorsView.CareTeam.constructor | components/DoctorsView.tsx:30-47 | the stored doctors and an empty, closed form |
| DoctorsView.CareTeam.EditForm | components/DoctorsView.tsx:42-44 | the form fields set |
| DoctorsView.CareTeam.OpenAddModal | components/DoctorsView.tsx:148 | only the form opens |
| DoctorsView.CareTeam.CloseAddModal | components/DoctorsView.tsx:324 | only the form closes; its fields stay |
| DoctorsView.CareTeam.HandleAddDoctor | components/DoctorsView.tsx:50-58 | nothing without name and e-mail; else one doctor with access appended to the screen list and to the stored one, the form closed and cleared; lists in agreement stay so |
| DoctorsView.CareTeam.ExecuteToggleAccess | components/DoctorsView.tsx:68-72 | access set to the opposite in the screen list and in the stored one, confirmation closed |
| DoctorsView.CareTeam.HandleToggleAccess | components/DoctorsView.tsx:60-66 | a doctor with access only opens the revoke confirmation; one without is granted at once in both lists |
| DoctorsView.CareTeam.HandleDelete | components/DoctorsView.tsx:74-76 | only the delete confirmation opens |
| DoctorsView.CareTeam.ExecuteDelete | components/DoctorsView.tsx:78-82 | both lists become `RemoveDoctor` of themselves: the doctor gone, the rest in order and multiplicity; confirmation closed |
| DoctorsView.CareTeam.TriggerShareConfirmation | components/DoctorsView.tsx:84-88 | a fresh dialog without consent or report |
| DoctorsView.CareTeam.CancelShare | components/DoctorsView.tsx:273 | only the share dialog closes (the same button after a share, at line 305) |
| DoctorsView.CareTeam.SetConsent | components/DoctorsView.tsx:38 | the consent box |
| DoctorsView.CareTeam.HandleShareReport | components/DoctorsView.tsx:98-138 | nothing without a doctor and consent; else a request for 30 logs; on success the report is kept and that doctor's last-shared time set, in the store to the first clock reading and on screen to the second; the lists stay in agreement only when the readings are equal; no other field or key changes |
| DoctorsView.CareTeam.RecordShare | components/DoctorsView.tsx:118-128 | the success path: report kept, last-shared set on that doctor in both lists, success shown; nothing else changes |
| DoctorsView.SharedTimesDisagree | components/DoctorsView.tsx:124 | two different clock readings on a listed doctor give different lists, so the screen and the store part after such a share |
| DoctorsView.CareTeam.ShareSuccessTimeout | components/DoctorsView.tsx:129-132 | success and dialog cleared |
| App.RouteSpec | App.tsx:87-147 | no user gets sign-in; admin, doctor, caregiver each get one screen; only patients get tabs |
| App.BellCountSpec | App.tsx:124-127 | patients only; the count of uncompleted reminders; completing one lowers it by one |
| App.Shell.constructor | App.tsx:34-38 | the initial state |
| App.Shell.Mount | App.tsx:42-55 | the stored user if any, the stored lists, and onboarding when due |
| App.Shell.OnAuthComplete | App.tsx:87-89 | the user is signed in; onboarding not re-evaluated |
| App.Shell.SelectTab | App.tsx:37 | the tab changes |
| App.Shell.HandleAddLog | App.tsx:57-60 | the saved log goes first on screen and in the store; a synced list stays synced; no other key changes |
| App.Shell.HandleRefreshData | App.tsx:62-65 | both lists read back |
| App.Shell.HandleToggleReminder | App.tsx:67-70 | stored toggled, then read back |
| App.Shell.HandleDeleteReminder | App.tsx:72-75 | stored `RemoveReminder` (order and multiplicity kept, by RemoveReminderAppend and RemoveReminderCount), then read back; other keys unchanged |
| App.Shell.CompleteOnboarding | App.tsx:77-80 | the flag is stored and the overlay closes; onboarding is no longer due |
| App.Shell.HandleLogout | App.tsx:82-85 | the user key removed and the page state reloaded: signed out |
| CalendarView.TimeOfDay | components/CalendarView.tsx:63 | the time of day lies within one day |
| CalendarView.DayNumbers | components/CalendarView.tsx:63-65 | the epoch is day 0; 2024-02-29 exists; 2023-03-01 follows 2023-02-28 |
| CalendarView.DateOfLeapDay | components/CalendarView.tsx:65 | day 19782 is 2024-02-29 |
| CalendarView.DayWithinMonth | components/CalendarView.tsx:64-65 | the same local day is the same month |
| CalendarView.LocalDayOfMidnight | components/CalendarView.tsx:67 | UTC midnight's local day is that day east of UTC, the day before west of it |
| CalendarView.LocalBounds | components/CalendarView.tsx:67-69 | the start and end of a local day bound exactly the instants of that day |
| CalendarView.RangeAsWrittenShift | components/CalendarView.tsx:66-70 | east of UTC the test is the intended one; west of it the range moves one day earlier |
| CalendarView.RangeDropsLastDay | components/CalendarView.tsx:66-70 | at UTC-5 a log at noon on a one-day range is dropped |
| CalendarView.KeepInSpec | components/CalendarView.tsx:62-71 | the filter keeps exactly the logs of the period |
| CalendarView.KeepInAppend | components/CalendarView.tsx:62-71 | the filter distributes over concatenation and keeps one log exactly when it is in the period, so list order is kept |
| CalendarView.KeepInCount | components/CalendarView.tsx:62-71 | each log of the period is kept as often as it occurs, every other log not at all |
| CalendarView.InsertNewestFirst | components/CalendarView.tsx:72 | insertion adds exactly one element |
| CalendarView.InsertNewestFirstSorted | components/CalendarView.tsx:72 | insertion keeps newest-first order |
| CalendarView.SortNewestFirst | components/CalendarView.tsx:72 | the sort is a permutation |
| CalendarView.SortNewestFirstSorted | components/CalendarView.tsx:72 | and is newest first |
| CalendarView.FilteredLogsSpec | components/CalendarView.tsx:61-73 | exactly the period's logs, each as often as in the list, newest first; day view the same local day; range view local dates inclusive |
| CalendarView.DayLogsInMonthView | components/CalendarView.tsx:61-73 | every log of the day view is also in the month view of the same instant, at least as often |
| CalendarView.AddMonths | components/CalendarView.tsx:106 | `setMonth(getMonth() + k)` moves the month count by k, keeps the day and carries the year |
| CalendarView.ShiftSpec | components/CalendarView.tsx:103-106 | a day step moves the local day by exactly the offset; both steps keep the time of day |
| CalendarView.DateOfJanuaryEnd | components/CalendarView.tsx:106 | day 19753 is 2024-01-31 |
| CalendarView.DateOfMarchSecond | components/CalendarView.tsx:106 | day 19784 is 2024-03-02 |
| CalendarView.MonthStepOverflows | components/CalendarView.tsx:106 | one month after 2024-01-31 is "2024-02-31", the same day as 2024-03-02 |
| CalendarView.LoadingCycle | components/CalendarView.tsx:49-59 | after k ticks from step s the message is (s + k) mod 5 |
| CalendarView.InsightLogs | components/CalendarView.tsx:81 | the first fifty shown logs |
| CalendarView.Calendar.constructor | components/CalendarView.tsx:40-47 | the day view of now, the UTC date of now as both range ends, idle |
| CalendarView.Calendar.SetViewType | components/CalendarView.tsx:115-117 | view changed, insight dismissed |
| CalendarView.Calendar.SetRange | components/CalendarView.tsx:135-140 | range changed, insight dismissed |
| CalendarView.Calendar.ChangeDay | components/CalendarView.tsx:103-109 | by days in the day view, by months otherwise; insight dismissed |
| CalendarView.Calendar.StartInsight | components/CalendarView.tsx:75-81 | nothing on an empty period; else generating, no insight, a request for the first fifty shown logs |
| CalendarView.Calendar.Tick | components/CalendarView.tsx:52-54 | the next loading message, modulo 5 |
| CalendarView.Calendar.FinishInsight | components/CalendarView.tsx:94-100 | the insight or the failure text; generation ends; loading step 0 |
| CalendarView.Calendar.CloseInsight | components/CalendarView.tsx:181 | insight dismissed |
| Onboarding.PressesFromStart | components/Onboarding.tsx:49-55 | from the first slide, three presses reach the last one; every later press stays there and completes once |
| Onboarding.Dots | components/Onboarding.tsx:77-84 | dot i is active exactly when i is the step |
| Onboarding.OneDotActive | components/Onboarding.tsx:77-84 | exactly one dot is active within range |
| Onboarding.LabelSpec | components/Onboarding.tsx:91 | "Start Monitoring" exactly on the last slide, the one whose press completes |
| Onboarding.Stepper.constructor | components/Onboarding.tsx:20 | the first slide |
| Onboarding.Stepper.CurrentDots | components/Onboarding.tsx:77-84 | four dots, one active, at the step |
| Onboarding.Stepper.NextStep | components/Onboarding.tsx:49-55 | below the last slide, one on; on it, `onComplete` with the step unchanged; always within [0, 3] |

## Left out

- Audio and devices: microphone capture, audio contexts, decoding, the
  RMS level meter and the visualiser. An audio chunk is an abstract
  duration, and the audio clock is an integer tick.
- AI and network calls (`live.connect`, `generateContent`, tool-response
  sending, the vision scans). Their outcomes are parameters, and outbound
  messages are recorded in sequences.
- CalendarView.Calendar.FinishInsight: a successful response is a
  string. A response whose `text` is undefined sets the insight to
  `undefined` in the source, so no insight is shown. The model has no
  such outcome.
- Asynchrony: the `await` on decoding and the `sessionPromise.then`
  deferrals. Messages are handled one at a time, and a queued response
  counts as sent. React state updates take effect at once, except for the
  transcript updaters of `turnComplete` (`TurnEntriesAsWritten`).
- Timers (`setTimeout`, `setInterval`) are explicit tick methods
  (`Tick`, `SuccessTimeout`, `ShareSuccessTimeout`) or take effect at
  once (the phone and OTP delays).
- Ids from `Math.random` and times from `Date.now()` are parameters.
- Floating point and `Number()`:
  - log values are integers;
  - a string parses only when it consists of digits, so decimals, signs
    and whitespace are not modelled;
  - `Math.round` is half-up on exact ratios.
- Dates:
  - local time is a fixed offset, with no daylight-saving changes;
  - `Date` string parsing of the range inputs and of prescription dates
    is a parameter;
  - locale formatting (`toLocaleTimeString` etc.) is not modelled.
- DataService.StrLt: the reminder sort takes its collation as a
  parameter, because `localeCompare` depends on the browser's locale
  data. The sort lemmas hold for every strict order. Code-point order
  (`StrLt`) is only an example: it puts "12:00" before "1:30", where a
  locale collation with numeric ordering would not, and it orders case
  differently.
- Types.Upper and Types.Lower map the ASCII letters only. JavaScript's
  `toUpperCase` and `toLowerCase` map all of Unicode.
- Auth.AuthFlow.HandlePhoneSubmit: the ten-character check counts
  characters. `phone.length` counts UTF-16 code units, so the two differ
  for characters outside the Basic Multilingual Plane.
- VoiceLogger.TurnEntriesAsWritten: whether React runs the first
  transcript updater at once depends on whether the component already
  has an update pending. This is a parameter. Every updater is taken to
  read the clock at the same `now`.
- DoctorsView.CareTeam.HandleShareReport: the share flow reads the clock
  twice and takes both readings as parameters. The lists agree after a
  share only when the two readings are equal.
- CalendarView.Calendar.constructor: the three `new Date()` readings of
  the first render are one `now`.
- CalendarView.DaysFromCivil: a day number for each date is proved only
  for the fixed dates named in the lemmas. There is no general round trip
  with `CivilFromDays`.
- CalendarView.SortNewestFirst: sortedness and permutation are proved;
  stability among equal timestamps is not stated.
- VoiceLogger.ReminderFor: a missing `time` or `label` argument of a
  `setReminder` call becomes the text "undefined", and a number becomes
  its digits. In the source `time` keeps its missing or numeric value.
  When reminders are already stored, `saveReminder` sorts with
  `a.time.localeCompare(b.time)`, which throws a TypeError whenever the
  comparator gets that reminder as `a` (services/dataService.ts:105).
  The exception leaves the message handler, so the reminder list is not
  refreshed and the `[SYSTEM] Reminder set …` entry, the "Reminder
  active." response and the later calls of the message are lost. The
  model does not capture this throw: it depends on the stored list and
  on the order in which the engine's sort calls the comparator.
- JSON serialisation and `localStorage` internals: a key is Absent,
  Corrupt or Stored.
- `PrescriptionScanner` `handleFileChange` and `handleScan` (image
  upload and AI extraction) are outside this model.
- `DoctorsView` `handleCopyReport`, the mailto link and the summary text
  itself. The summary is a parameter.
- Screens with no logic of their own: SettingsModal (reload, download,
  `localStorage.clear`), AdminDashboard, DoctorDashboard and
  InformationPortal (static data and text), and constants.tsx (prompts).
- Rendering, styling, icons, focus management (`otpRefs`,
  `handleOtpKeyDown`) and translations.

## Findings

| source | as written | input that shows it | evidently intended | confidence | as-written member | corrected member |
|---|---|---|---|---|---|---|
| components/VoiceLogger.tsx:300-308 | both transcript entries are added by updaters that read the accumulators when React runs them, and the accumulators are emptied right after the updaters are queued; only an updater run at once, when no update is pending, sees the text | a turn with input "hi" and output "hello": the AI entry is recorded with text "", and the user entry too when an update was pending | record both texts as they stood at `turnComplete` | medium (depends on React's eager-update rule); not executed | VoiceLogger.TurnLosesAiText | VoiceLogger.TurnCompleteSpec |
| components/CalendarView.tsx:66-70 | `new Date("YYYY-MM-DD")` parses as midnight UTC; `setHours` then snaps to the local day containing that instant | offset UTC-5, range 2024-03-11 to 2024-03-11, a log at local noon on 2024-03-11: it is dropped, and logs of 2024-03-10 are kept instead | keep the logs whose local date lies between the two dates, both included | not executed | CalendarView.RangeDropsLastDay | CalendarView.FilteredLogsSpec |

For the transcript, `VoiceLogger.TurnEntriesAsWritten` gives the entries
as written. The model's `AfterTurn`, which `ApplyMessage` and
`LiveSession.CompleteTurn` use, captures both texts before emptying the
accumulators.

The as-written calendar test is `CalendarView.InRangeAsWritten`.
`CalendarView.RangeAsWrittenShift` proves that, for every offset west of
UTC, it keeps the range moved one day earlier. The corrected test
`CalendarView.InRange` is the one `FilteredLogs` and the `Calendar` class
use.
