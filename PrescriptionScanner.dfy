/**
 * The prescription importer (components/PrescriptionScanner.tsx): the
 * extracted prescription, its field edits, the age check on its date, the
 * medicine log it saves, and the dictation session whose `updatePrescription`
 * tool call fills the form. The extraction and the live connection are
 * parameters; the audio pipeline is left out.
 */
module PrescriptionScanner {
  import opened Types

  /** The keys of `PrescriptionResult`. */
  datatype Field =
    Medication | Dosage | Frequency | Instructions | DoctorName | PatientName | PatientAge | PrescriptionDate

  /**
   * A prescription as the extraction or the tool call delivers it: only some
   * keys are required by either schema, so any key may be absent.
   */
  type Prescription = map<Field, string>

  /** A field interpolated into a template string: an absent key prints "undefined". */
  function Text(p: Prescription, f: Field): string
  {
    if f in p then p[f] else "undefined"
  }

  /** `handleResultChange`'s update, `{ ...result, [field]: value }`. */
  function WithField(p: Prescription, f: Field, v: string): (r: Prescription)
    ensures f in r && r[f] == v
    ensures forall g :: g != f ==> (g in r <==> g in p) && (g in p ==> r[g] == p[g])
  {
    p[f := v]
  }

  /** A calendar month as `Date` reports it: full year and month index. */
  datatype YearMonth = YearMonth(year: int, month: int)

  function MonthsBetween(earlier: YearMonth, later: YearMonth): int
  {
    (later.year - earlier.year) * 12 + (later.month - earlier.month)
  }

  /** `isPrescriptionOld`; `None` is a date string `Date` cannot parse. */
  predicate IsPrescriptionOld(date: Option<YearMonth>, now: YearMonth)
  {
    date.Some? && MonthsBetween(date.value, now) > 6
  }

  function MonthNumber(d: YearMonth): int
  {
    d.year * 12 + d.month
  }

  /**
   * A prescription is old exactly when it was issued more than six calendar
   * months before now; an unparsable date never is; and once old it stays
   * old as time moves on.
   */
  lemma PrescriptionAge(date: Option<YearMonth>, now: YearMonth, later: YearMonth)
    ensures IsPrescriptionOld(date, now) <==> date.Some? && MonthNumber(now) - MonthNumber(date.value) > 6
    ensures date.None? ==> !IsPrescriptionOld(date, now)
    ensures IsPrescriptionOld(date, now) && MonthNumber(now) <= MonthNumber(later) ==> IsPrescriptionOld(date, later)
  {
    if date.Some? {
      var d := date.value;
      assert MonthsBetween(d, now) == MonthNumber(now) - MonthNumber(d);
      assert MonthsBetween(d, later) == MonthNumber(later) - MonthNumber(d);
    }
  }

  /** Six months exactly is not old, seven months is, across a year boundary too. */
  lemma SixMonthBoundary()
    ensures !IsPrescriptionOld(Some(YearMonth(2024, 6)), YearMonth(2024, 12))
    ensures IsPrescriptionOld(Some(YearMonth(2024, 6)), YearMonth(2025, 1))
  {
  }

  const ORIGIN_VOICE := "VOICE_DICTATION"
  const ORIGIN_OCR := "OCR_SCAN"

  /** `result.patientAge || 'Age N/A'`. */
  function AgeText(p: Prescription): string
  {
    if PatientAge in p && p[PatientAge] != "" then p[PatientAge] else "Age N/A"
  }

  function SaveNotes(p: Prescription): string
  {
    "Prescribed by: Dr. " + Text(p, DoctorName) + "\nPatient: " + Text(p, PatientName) +
    " (" + AgeText(p) + ")\nPrescription Date: " + Text(p, PrescriptionDate) +
    "\n\nInstructions: " + Text(p, Instructions)
  }

  /** The draft `handleSave` passes to `onAddLog`; `unit` is the frequency, absent when it is. */
  function SaveDraft(p: Prescription, voiceActive: bool): LogDraft
  {
    LogDraft(MEDICINE,
             TextValue(Text(p, Medication) + " (" + Text(p, Dosage) + ")"),
             if Frequency in p then Some(p[Frequency]) else None,
             Some(SaveNotes(p)),
             Some(Metadata(if voiceActive then ORIGIN_VOICE else ORIGIN_OCR, "v1.0-DPDP", [ADHERENCE_TRACKING])))
  }

  /**
   * A saved prescription is a MEDICINE log whose value is
   * "<medication> (<dosage>)" and whose unit is the frequency; it is tagged
   * VOICE_DICTATION exactly when dictation is active and OCR_SCAN otherwise.
   */
  lemma SaveDraftShape(p: Prescription, voiceActive: bool)
    requires Medication in p && Dosage in p && Frequency in p
    ensures var d := SaveDraft(p, voiceActive);
      d.logType == MEDICINE &&
      d.value == TextValue(p[Medication] + " (" + p[Dosage] + ")") &&
      d.unit == Some(p[Frequency]) &&
      d.metadata.Some? && d.metadata.value.purpose == [ADHERENCE_TRACKING] &&
      (d.metadata.value.source == ORIGIN_VOICE <==> voiceActive) &&
      (d.metadata.value.source == ORIGIN_OCR <==> !voiceActive)
  {
  }

  /**
   * The notes show "Age N/A" in place of a missing or empty age, and a
   * stated age verbatim: an age of "" and no age at all give the same notes.
   */
  lemma AgeFallback(p: Prescription)
    ensures AgeText(p) == "Age N/A" <==> PatientAge !in p || p[PatientAge] in {"", "Age N/A"}
    ensures SaveNotes(p - {PatientAge}) == SaveNotes(p[PatientAge := ""])
  {
    var q, r := p - {PatientAge}, p[PatientAge := ""];
    assert forall f :: f != PatientAge ==> Text(q, f) == Text(r, f);
  }

  /** A call in a dictation message; only `updatePrescription` is acted on. */
  datatype VoiceCall = VoiceCall(name: string, args: Prescription)

  const UPDATE_PRESCRIPTION := "updatePrescription"

  /** The result after a message's calls: the arguments of the last `updatePrescription`. */
  function ResultAfter(result: Option<Prescription>, calls: seq<VoiceCall>): Option<Prescription>
  {
    if |calls| == 0 then result
    else
      var last := calls[|calls| - 1];
      if last.name == UPDATE_PRESCRIPTION then Some(last.args) else ResultAfter(result, calls[..|calls| - 1])
  }

  predicate AnyUpdate(calls: seq<VoiceCall>)
  {
    exists i :: 0 <= i < |calls| && calls[i].name == UPDATE_PRESCRIPTION
  }

  /**
   * Calls with another name change nothing; with at least one
   * `updatePrescription` the result is the arguments of the last of them.
   */
  lemma {:induction false} ResultAfterSpec(result: Option<Prescription>, calls: seq<VoiceCall>)
    ensures !AnyUpdate(calls) ==> ResultAfter(result, calls) == result
    ensures AnyUpdate(calls) ==>
              exists k :: 0 <= k < |calls| && calls[k].name == UPDATE_PRESCRIPTION &&
                ResultAfter(result, calls) == Some(calls[k].args) &&
                forall j :: k < j < |calls| ==> calls[j].name != UPDATE_PRESCRIPTION
  {
    if |calls| > 0 {
      var init := calls[..|calls| - 1];
      ResultAfterSpec(result, init);
      assert forall j :: 0 <= j < |init| ==> init[j] == calls[j];
      if calls[|calls| - 1].name != UPDATE_PRESCRIPTION && AnyUpdate(calls) {
        var i :| 0 <= i < |calls| && calls[i].name == UPDATE_PRESCRIPTION;
        assert init[i].name == UPDATE_PRESCRIPTION;
      }
    }
  }

  /** One call more: the prefix has an update iff the shorter one has or the new call is one. */
  lemma UpdateStep(calls: seq<VoiceCall>, i: nat, result: Option<Prescription>)
    requires i < |calls|
    ensures AnyUpdate(calls[..i + 1]) <==> AnyUpdate(calls[..i]) || calls[i].name == UPDATE_PRESCRIPTION
    ensures ResultAfter(result, calls[..i + 1]) ==
              if calls[i].name == UPDATE_PRESCRIPTION then Some(calls[i].args) else ResultAfter(result, calls[..i])
  {
    var p := calls[..i + 1];
    assert p[..i] == calls[..i];
    assert forall j :: 0 <= j < i ==> p[j] == calls[j];
    if AnyUpdate(p) && calls[i].name != UPDATE_PRESCRIPTION {
      var k :| 0 <= k < |p| && p[k].name == UPDATE_PRESCRIPTION;
      assert calls[..i][k].name == UPDATE_PRESCRIPTION;
    }
  }

  /** How `startVoiceSession`'s awaited steps end. */
  datatype VoiceStart = MicDenied | ConnectFailed | Connected

  const VOICE_ERROR := "Microphone access denied or session failed."

  /** The scanner's whole state, for stating what a handler leaves alone. */
  datatype ScannerFields = ScannerFields(
    result: Option<Prescription>,
    error: Option<string>,
    voiceActive: bool,
    partialTranscript: string,
    hasSession: bool,
    hasProcessor: bool,
    hasContext: bool,
    emitted: seq<LogDraft>,
    closed: bool)

  class Scanner {
    var result: Option<Prescription>
    var error: Option<string>
    var voiceActive: bool
    var partialTranscript: string
    var hasSession: bool
    var hasProcessor: bool
    var hasContext: bool
    /** Every draft handed to `onAddLog`, in order. */
    var emitted: seq<LogDraft>
    var closed: bool

    function Fields(): ScannerFields
      reads this
    {
      ScannerFields(result, error, voiceActive, partialTranscript, hasSession, hasProcessor, hasContext, emitted, closed)
    }

    constructor ()
      ensures result.None? && error.None? && !voiceActive && partialTranscript == ""
      ensures !hasSession && !hasProcessor && !hasContext && emitted == [] && !closed
    {
      result, error, voiceActive, partialTranscript := None, None, false, "";
      hasSession, hasProcessor, hasContext := false, false, false;
      emitted, closed := [], false;
    }

    /** `handleResultChange`: nothing without a result, else one field replaced. */
    method HandleResultChange(f: Field, v: string)
      modifies this
      ensures Fields() ==
                old(Fields()).(result := if old(result).None? then None else Some(WithField(old(result).value, f, v)))
    {
      if result.None? {
        return;
      }
      result := Some(result.value[f := v]);
    }

    /** `handleSave`: nothing without a result, else one draft emitted and the scanner closed. */
    method HandleSave()
      modifies this
      ensures old(result).None? ==> Fields() == old(Fields())
      ensures old(result).Some? ==>
                Fields() == old(Fields()).(emitted := old(emitted) + [SaveDraft(old(result).value, old(voiceActive))],
                                           closed := true)
    {
      if result.None? {
        return;
      }
      emitted := emitted + [SaveDraft(result.value, voiceActive)];
      closed := true;
    }

    /**
     * `startVoiceSession`: nothing while dictation is active; otherwise it
     * clears the error and the transcript, and a failed step sets the voice
     * error. The session turns active only in `OnVoiceOpen`.
     */
    method StartVoiceSession(outcome: VoiceStart)
      modifies this
      ensures old(voiceActive) ==> Fields() == old(Fields())
      ensures !old(voiceActive) ==>
                Fields() == old(Fields()).(
                  error := if outcome == Connected then None else Some(VOICE_ERROR),
                  partialTranscript := "",
                  hasContext := outcome != MicDenied || old(hasContext),
                  hasSession := outcome == Connected || old(hasSession))
    {
      if voiceActive {
        return;
      }
      error := None;
      partialTranscript := "";
      if outcome == MicDenied {
        error := Some(VOICE_ERROR);
        return;
      }
      hasContext := true;
      if outcome == ConnectFailed {
        error := Some(VOICE_ERROR);
        return;
      }
      hasSession := true;
    }

    /** `onopen`: the capture processor is attached and dictation is active. */
    method OnVoiceOpen()
      modifies this
      ensures Fields() == old(Fields()).(hasProcessor := true, voiceActive := true)
    {
      hasProcessor := true;
      voiceActive := true;
    }

    /** `stopVoiceSession`: every handle released, dictation inactive. */
    method StopVoiceSession()
      modifies this
      ensures Fields() == old(Fields()).(hasSession := false, hasProcessor := false, hasContext := false, voiceActive := false)
    {
      hasSession, hasProcessor, hasContext := false, false, false;
      voiceActive := false;
    }

    /**
     * `onmessage`: an input transcription is appended after a space; each
     * `updatePrescription` call replaces the result and stops dictation.
     */
    method OnVoiceMessage(transcription: Option<string>, calls: Option<seq<VoiceCall>>)
      modifies this
      ensures partialTranscript ==
                old(partialTranscript) + (if transcription.Some? then " " + transcription.value else "")
      ensures calls.None? || !AnyUpdate(calls.value) ==>
                result == old(result) && voiceActive == old(voiceActive) &&
                hasSession == old(hasSession) && hasProcessor == old(hasProcessor) && hasContext == old(hasContext)
      ensures calls.Some? ==> result == ResultAfter(old(result), calls.value)
      ensures calls.Some? && AnyUpdate(calls.value) ==> !voiceActive && !hasSession && !hasProcessor && !hasContext
      ensures error == old(error) && emitted == old(emitted) && closed == old(closed)
    {
      if transcription.Some? {
        partialTranscript := partialTranscript + " " + transcription.value;
      }
      if calls.None? {
        return;
      }
      var cs := calls.value;
      var i := 0;
      while i < |cs|
        invariant 0 <= i <= |cs|
        invariant result == ResultAfter(old(result), cs[..i])
        invariant !AnyUpdate(cs[..i]) ==>
                    voiceActive == old(voiceActive) && hasSession == old(hasSession) &&
                    hasProcessor == old(hasProcessor) && hasContext == old(hasContext)
        invariant AnyUpdate(cs[..i]) ==> !voiceActive && !hasSession && !hasProcessor && !hasContext
        invariant partialTranscript ==
                    old(partialTranscript) + (if transcription.Some? then " " + transcription.value else "")
        invariant error == old(error) && emitted == old(emitted) && closed == old(closed)
      {
        UpdateStep(cs, i, old(result));
        if cs[i].name == UPDATE_PRESCRIPTION {
          result := Some(cs[i].args);
          StopVoiceSession();
        }
        i := i + 1;
      }
      assert cs[..i] == cs;
      ResultAfterSpec(old(result), cs);
    }

    /** `onerror`: dictation is stopped. */
    method OnVoiceError()
      modifies this
      ensures Fields() == old(Fields()).(hasSession := false, hasProcessor := false, hasContext := false, voiceActive := false)
    {
      StopVoiceSession();
    }

    /** `onclose`: dictation is inactive; the handles are not released. */
    method OnVoiceClose()
      modifies this
      ensures Fields() == old(Fields()).(voiceActive := false)
    {
      voiceActive := false;
    }
  }
}
