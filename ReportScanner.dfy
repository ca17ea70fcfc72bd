/**
 * The lab-report importer (components/ReportScanner.tsx): entries the
 * extraction returns start selected, the user toggles them, and "Import
 * Selected" hands one draft per selected entry to `onAddLog`. The
 * extraction call itself is a parameter of `HandleScan`.
 */
module ReportScanner {
  import opened Types

  /** One metric the extraction returned; `notes` is not a required field of its schema. */
  datatype ScanEntry = ScanEntry(kind: LogType, value: string, unit: string, notes: Option<string>)

  /** `ExtractedLog`: an entry with its check box. */
  datatype ExtractedLog = ExtractedLog(entry: ScanEntry, selected: bool)

  datatype ScanOutcome = Extracted(entries: seq<ScanEntry>) | ScanFailed

  const NO_DATA_ERROR := "No clear health data points were identified in this document."
  const SCAN_FAILED_ERROR := "AI analysis failed. Please ensure the document is clear and contains medical data."

  /** `data.map(log => ({ ...log, selected: true }))`. */
  function AllSelected(entries: seq<ScanEntry>): (r: seq<ExtractedLog>)
    ensures |r| == |entries|
    ensures forall i :: 0 <= i < |entries| ==> r[i] == ExtractedLog(entries[i], true)
  {
    if |entries| == 0 then [] else [ExtractedLog(entries[0], true)] + AllSelected(entries[1..])
  }

  /** `toggleLogSelection(i)`: an index outside the list changes nothing. */
  function Toggled(logs: seq<ExtractedLog>, index: int): (r: seq<ExtractedLog>)
    ensures |r| == |logs|
    ensures forall i :: 0 <= i < |logs| && i != index ==> r[i] == logs[i]
    ensures 0 <= index < |logs| ==> r[index] == logs[index].(selected := !logs[index].selected)
  {
    if 0 <= index < |logs| then logs[index := logs[index].(selected := !logs[index].selected)] else logs
  }

  /** Toggling the same entry twice restores the list. */
  lemma ToggleInvolution(logs: seq<ExtractedLog>, index: int)
    ensures Toggled(Toggled(logs, index), index) == logs
  {
    var r := Toggled(Toggled(logs, index), index);
    assert forall i :: 0 <= i < |logs| ==> r[i] == logs[i];
  }

  /** Toggles of different entries commute. */
  lemma ToggleCommutes(logs: seq<ExtractedLog>, i: int, j: int)
    ensures Toggled(Toggled(logs, i), j) == Toggled(Toggled(logs, j), i)
  {
    var a := Toggled(Toggled(logs, i), j);
    var b := Toggled(Toggled(logs, j), i);
    assert forall k :: 0 <= k < |logs| ==> a[k] == b[k];
  }

  /** The draft imported for one entry. */
  function ImportDraft(e: ScanEntry): LogDraft
  {
    LogDraft(e.kind, TextValue(e.value), Some(e.unit), e.notes, Some(Metadata("REPORT_AI_SCAN", "", [])))
  }

  /** The drafts `handleSaveAll` emits, in list order. */
  function SavedDrafts(logs: seq<ExtractedLog>): seq<LogDraft>
  {
    if |logs| == 0 then []
    else SavedDrafts(logs[..|logs| - 1])
           + (if logs[|logs| - 1].selected then [ImportDraft(logs[|logs| - 1].entry)] else [])
  }

  function CountSelected(logs: seq<ExtractedLog>): nat
  {
    if |logs| == 0 then 0 else CountSelected(logs[..|logs| - 1]) + (if logs[|logs| - 1].selected then 1 else 0)
  }

  /**
   * One draft per selected entry and none for the others: every draft is
   * the import of a selected entry, with source REPORT_AI_SCAN, and every
   * selected entry is imported.
   */
  lemma {:induction false} SavedDraftsSpec(logs: seq<ExtractedLog>)
    ensures |SavedDrafts(logs)| == CountSelected(logs)
    ensures forall d :: d in SavedDrafts(logs) ==>
              d.metadata == Some(Metadata("REPORT_AI_SCAN", "", [])) &&
              exists i :: 0 <= i < |logs| && logs[i].selected && d == ImportDraft(logs[i].entry)
    ensures forall i :: 0 <= i < |logs| && logs[i].selected ==> ImportDraft(logs[i].entry) in SavedDrafts(logs)
  {
    if |logs| > 0 {
      var init := logs[..|logs| - 1];
      SavedDraftsSpec(init);
      assert forall i :: 0 <= i < |init| ==> init[i] == logs[i];
    }
  }

  /**
   * The drafts come in list order: the import distributes over
   * concatenation, and a single entry gives its draft exactly when it is
   * selected.
   */
  lemma SavedDraftsAppend(a: seq<ExtractedLog>, b: seq<ExtractedLog>)
    ensures SavedDrafts(a + b) == SavedDrafts(a) + SavedDrafts(b)
    ensures forall x :: SavedDrafts([x]) == if x.selected then [ImportDraft(x.entry)] else []
  {
    SavedDraftsConcat(a, b);
    forall x ensures SavedDrafts([x]) == if x.selected then [ImportDraft(x.entry)] else [] {
      assert [x][..0] == [];
    }
  }

  lemma {:induction false} SavedDraftsConcat(a: seq<ExtractedLog>, b: seq<ExtractedLog>)
    ensures SavedDrafts(a + b) == SavedDrafts(a) + SavedDrafts(b)
    decreases |b|
  {
    if |b| > 0 {
      var init := b[..|b| - 1];
      var last := b[|b| - 1];
      var tail := if last.selected then [ImportDraft(last.entry)] else [];
      assert (a + b)[..|a + b| - 1] == a + init;
      assert (a + b)[|a + b| - 1] == last;
      SavedDraftsConcat(a, init);
      assert SavedDrafts(a + b) == SavedDrafts(a + init) + tail;
    } else {
      assert a + b == a;
    }
  }

  /** `extractedLogs.some(l => l.selected)`: the import button is enabled. */
  predicate ImportEnabled(logs: seq<ExtractedLog>)
  {
    exists i :: 0 <= i < |logs| && logs[i].selected
  }

  /** The import button is enabled exactly when importing would emit something. */
  lemma ImportEnabledIffEmits(logs: seq<ExtractedLog>)
    ensures ImportEnabled(logs) <==> |SavedDrafts(logs)| > 0
  {
    SavedDraftsSpec(logs);
    if ImportEnabled(logs) {
      var i :| 0 <= i < |logs| && logs[i].selected;
      assert ImportDraft(logs[i].entry) in SavedDrafts(logs);
    }
  }

  /** Right after a scan every entry is selected, so all of them would be imported. */
  lemma FreshScanImportsAll(entries: seq<ScanEntry>)
    ensures |SavedDrafts(AllSelected(entries))| == |entries|
    ensures |entries| > 0 ==> ImportEnabled(AllSelected(entries))
  {
    SavedDraftsSpec(AllSelected(entries));
    CountAllSelected(entries);
  }

  lemma {:induction false} CountAllSelected(entries: seq<ScanEntry>)
    ensures CountSelected(AllSelected(entries)) == |entries|
  {
    if |entries| > 0 {
      var init := entries[..|entries| - 1];
      CountAllSelected(init);
      assert AllSelected(entries)[..|entries| - 1] == AllSelected(init);
    }
  }

  class Scanner {
    var image: Option<string>
    var scanning: bool
    var extracted: seq<ExtractedLog>
    var error: Option<string>
    /** Every draft handed to `onAddLog`, in order. */
    var emitted: seq<LogDraft>
    var closed: bool

    constructor ()
      ensures image.None? && !scanning && extracted == [] && error.None? && emitted == [] && !closed
    {
      image, scanning, extracted, error, emitted, closed := None, false, [], None, [], false;
    }

    /** `handleFileChange` once the reader has loaded the file; no file changes nothing. */
    method HandleFileChange(file: Option<string>)
      modifies this
      ensures file.None? ==> image == old(image) && extracted == old(extracted) && error == old(error)
      ensures file.Some? ==> image == file && extracted == [] && error.None?
      ensures scanning == old(scanning) && emitted == old(emitted) && closed == old(closed)
    {
      if file.Some? {
        image := file;
        extracted := [];
        error := None;
      }
    }

    /**
     * `handleScan`, with the extraction's outcome as a parameter. Without an
     * image it does nothing. A result selects every entry and, when empty,
     * sets the no-data error; a failure sets the failure error and keeps
     * the previous entries.
     */
    method HandleScan(outcome: ScanOutcome)
      modifies this
      ensures old(image).None? ==>
                extracted == old(extracted) && error == old(error) && scanning == old(scanning)
      ensures old(image).Some? && outcome.Extracted? ==>
                extracted == AllSelected(outcome.entries) &&
                error == (if |outcome.entries| == 0 then Some(NO_DATA_ERROR) else None) && !scanning
      ensures old(image).Some? && outcome.ScanFailed? ==>
                extracted == old(extracted) && error == Some(SCAN_FAILED_ERROR) && !scanning
      ensures image == old(image) && emitted == old(emitted) && closed == old(closed)
    {
      if image.None? {
        return;
      }
      scanning := true;
      error := None;
      if outcome.Extracted? {
        extracted := AllSelected(outcome.entries);
        if |outcome.entries| == 0 {
          error := Some(NO_DATA_ERROR);
        }
      } else {
        error := Some(SCAN_FAILED_ERROR);
      }
      scanning := false;
    }

    method ToggleLogSelection(index: int)
      modifies this
      ensures extracted == Toggled(old(extracted), index)
      ensures image == old(image) && error == old(error) && emitted == old(emitted) && closed == old(closed)
      ensures scanning == old(scanning)
    {
      extracted := Toggled(extracted, index);
    }

    /** "Rescan": drops the entries and the image. */
    method Rescan()
      modifies this
      ensures extracted == [] && image.None?
      ensures error == old(error) && emitted == old(emitted) && closed == old(closed) && scanning == old(scanning)
    {
      extracted := [];
      image := None;
    }

    /** `handleSaveAll`: emits each selected entry in order, then closes. */
    method HandleSaveAll()
      modifies this
      ensures emitted == old(emitted) + SavedDrafts(old(extracted))
      ensures closed
      ensures extracted == old(extracted) && image == old(image) && error == old(error) && scanning == old(scanning)
    {
      var i := 0;
      while i < |extracted|
        invariant 0 <= i <= |extracted|
        invariant extracted == old(extracted) && image == old(image) && error == old(error) && scanning == old(scanning)
        invariant emitted == old(emitted) + SavedDrafts(extracted[..i])
      {
        assert extracted[..i + 1][..i] == extracted[..i];
        if extracted[i].selected {
          emitted := emitted + [ImportDraft(extracted[i].entry)];
        }
        i := i + 1;
      }
      assert extracted[..i] == extracted;
      closed := true;
    }
  }
}
