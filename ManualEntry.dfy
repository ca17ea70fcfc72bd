/**
 * The manual entry form (components/ManualEntry.tsx): its fields, the
 * submit handler that hands a log draft to `onAddLog`, the type switch that
 * picks a default unit, and the validity flag that enables the button.
 */
module ManualEntry {
  import opened Types

  /** The form's text fields and selected type. */
  datatype FormFields = FormFields(
    kind: LogType,
    value: string,
    unit: string,
    notes: string,
    medName: string,
    dosage: string,
    frequency: string)

  /** `isFormValid`. */
  predicate IsFormValid(f: FormFields)
  {
    if f.kind == MEDICINE then |f.medName| > 0 && |f.dosage| > 0 else |f.value| > 0
  }

  /** The draft `handleSubmit` passes to `onAddLog`, or None when it returns early. */
  function SubmittedDraft(f: FormFields): Option<LogDraft>
  {
    if f.kind == MEDICINE then
      if !Truthy(f.medName) || !Truthy(f.dosage) then None
      else Some(LogDraft(MEDICINE, TextValue(f.medName + " (" + f.dosage + ")"), Some(f.frequency), Some(f.notes), None))
    else
      if !Truthy(f.value) then None
      else Some(LogDraft(f.kind, TextValue(f.value), Some(f.unit), Some(f.notes), None))
  }

  /** The button is enabled exactly when submitting would emit a log. */
  lemma ValidIffSubmits(f: FormFields)
    ensures IsFormValid(f) <==> SubmittedDraft(f).Some?
  {
  }

  /**
   * What a submission emits: a medicine entry is "<name> (<dosage>)" with
   * the frequency as its unit; any other entry carries the form's type,
   * value, unit and notes unchanged.
   */
  lemma SubmittedDraftShape(f: FormFields)
    requires SubmittedDraft(f).Some?
    ensures var d := SubmittedDraft(f).value;
      d.logType == f.kind && d.notes == Some(f.notes) && d.metadata.None? &&
      (f.kind == MEDICINE ==>
         f.medName != "" && f.dosage != "" &&
         d.value == TextValue(f.medName + " (" + f.dosage + ")") && d.unit == Some(f.frequency)) &&
      (f.kind != MEDICINE ==> f.value != "" && d.value == TextValue(f.value) && d.unit == Some(f.unit))
  {
  }

  /** `handleTypeChange`'s unit choice; EXERCISE and MOOD keep the current unit. */
  function UnitFor(t: LogType, current: string): string
  {
    match t
    case GLUCOSE => "mg/dL"
    case MEAL => "g"
    case INSULIN => "U"
    case MEDICINE => "dose"
    case EXERCISE => current
    case MOOD => current
  }

  /** The unit after a type change depends on the previous unit only for EXERCISE and MOOD. */
  lemma UnitForKeeps(t: LogType, a: string, b: string)
    ensures (t == EXERCISE || t == MOOD) ==> UnitFor(t, a) == a
    ensures (t != EXERCISE && t != MOOD) ==> UnitFor(t, a) == UnitFor(t, b) && UnitFor(t, a) != ""
  {
  }

  function Cleared(f: FormFields): FormFields
  {
    f.(value := "", notes := "", medName := "", dosage := "", frequency := "")
  }

  class Form {
    var kind: LogType
    var value: string
    var unit: string
    var notes: string
    var medName: string
    var dosage: string
    var frequency: string
    var success: bool
    /** Every draft handed to `onAddLog`, in order. */
    var emitted: seq<LogDraft>

    function Fields(): FormFields
      reads this
    {
      FormFields(kind, value, unit, notes, medName, dosage, frequency)
    }

    constructor ()
      ensures Fields() == FormFields(GLUCOSE, "", "mg/dL", "", "", "", "")
      ensures !success && emitted == []
    {
      kind, value, unit, notes := GLUCOSE, "", "mg/dL", "";
      medName, dosage, frequency := "", "", "";
      success, emitted := false, [];
    }

    /** The inputs' `onChange` setters; the type changes only through `HandleTypeChange`. */
    method Edit(f: FormFields)
      modifies this
      ensures Fields() == f.(kind := old(kind)) && success == old(success) && emitted == old(emitted)
    {
      value, unit, notes := f.value, f.unit, f.notes;
      medName, dosage, frequency := f.medName, f.dosage, f.frequency;
    }

    /**
     * `handleSubmit`. A rejected submission changes nothing; an accepted one
     * emits its draft, raises the success flag and clears every text field
     * except the unit, keeping the type.
     */
    method HandleSubmit()
      modifies this
      ensures SubmittedDraft(old(Fields())).None? ==>
                Fields() == old(Fields()) && success == old(success) && emitted == old(emitted)
      ensures SubmittedDraft(old(Fields())).Some? ==>
                emitted == old(emitted) + [SubmittedDraft(old(Fields())).value] &&
                success && Fields() == Cleared(old(Fields()))
    {
      if kind == MEDICINE {
        if medName == "" || dosage == "" {
          return;
        }
        emitted := emitted + [LogDraft(MEDICINE, TextValue(medName + " (" + dosage + ")"), Some(frequency), Some(notes), None)];
      } else {
        if value == "" {
          return;
        }
        emitted := emitted + [LogDraft(kind, TextValue(value), Some(unit), Some(notes), None)];
      }
      success := true;
      value := "";
      notes := "";
      medName := "";
      dosage := "";
      frequency := "";
    }

    /** `handleTypeChange`. */
    method HandleTypeChange(newType: LogType)
      modifies this
      ensures Fields() == old(Fields()).(kind := newType, unit := UnitFor(newType, old(unit)))
      ensures success == old(success) && emitted == old(emitted)
    {
      kind := newType;
      if newType == GLUCOSE {
        unit := "mg/dL";
      } else if newType == MEAL {
        unit := "g";
      } else if newType == INSULIN {
        unit := "U";
      } else if newType == MEDICINE {
        unit := "dose";
      }
    }

    /** The 3-second timer after a submission. */
    method SuccessTimeout()
      modifies this
      ensures !success && Fields() == old(Fields()) && emitted == old(emitted)
    {
      success := false;
    }
  }
}
