/**
 * The care-team screen (components/DoctorsView.tsx): its in-memory doctor
 * list is edited alongside the stored one, access is granted at once and
 * revoked only through a confirmation, and a report is shared after an
 * explicit consent. The summary text the AI produces is a parameter; the
 * e-mail link and the clipboard are left out.
 */
module DoctorsView {
  import opened Types
  import DataService

  /** The logs a share request sends for summarising: `logs.slice(0, 30)`. */
  function ReportLogs(logs: seq<HealthLog>): (r: seq<HealthLog>)
    ensures |r| == Min(30, |logs|) && r == logs[..|r|]
  {
    Take(logs, 30)
  }

  /** A report request: the doctor it is for and the logs it summarises. */
  datatype ShareRequest = ShareRequest(doctor: Doctor, logs: seq<HealthLog>)

  /**
   * Access can be revoked and granted back: a grant after a revoke of the
   * same id restores a list in which that doctor had access.
   */
  lemma {:induction false} RevokeThenGrant(ds: seq<Doctor>, id: string)
    requires forall i :: 0 <= i < |ds| && ds[i].id == id ==> ds[i].accessGranted
    ensures DataService.SetAccess(DataService.SetAccess(ds, id, false), id, true) == ds
  {
    var r := DataService.SetAccess(DataService.SetAccess(ds, id, false), id, true);
    assert forall i :: 0 <= i < |ds| ==> r[i] == ds[i];
  }

  /**
   * Two different clock readings put on the same listed doctor give two
   * different lists, so a share leaves the screen and the store apart
   * whenever the two readings differ.
   */
  lemma SharedTimesDisagree(ds: seq<Doctor>, id: string, storedAt: int, shownAt: int)
    requires storedAt != shownAt
    requires exists i :: 0 <= i < |ds| && ds[i].id == id
    ensures DataService.SetLastShared(ds, id, storedAt) != DataService.SetLastShared(ds, id, shownAt)
  {
    var i :| 0 <= i < |ds| && ds[i].id == id;
    assert DataService.SetLastShared(ds, id, storedAt)[i].lastShared == Some(storedAt);
    assert DataService.SetLastShared(ds, id, shownAt)[i].lastShared == Some(shownAt);
  }

  /** The whole state of the view, for stating what a handler leaves alone. */
  datatype TeamFields = TeamFields(
    doctors: seq<Doctor>,
    showAddModal: bool,
    confirmingShare: Option<Doctor>,
    confirmingDelete: Option<Doctor>,
    confirmingRevoke: Option<Doctor>,
    isSharing: Option<string>,
    sharingSuccess: Option<string>,
    hasConsented: bool,
    lastReport: Option<string>,
    name: string,
    email: string,
    specialization: string,
    requests: seq<ShareRequest>)

  class CareTeam {
    var doctors: seq<Doctor>
    var showAddModal: bool
    var confirmingShare: Option<Doctor>
    var confirmingDelete: Option<Doctor>
    var confirmingRevoke: Option<Doctor>
    var isSharing: Option<string>
    var sharingSuccess: Option<string>
    var hasConsented: bool
    var lastReport: Option<string>
    var name: string
    var email: string
    var specialization: string
    /** Every report request sent, in order. */
    var requests: seq<ShareRequest>

    function Fields(): TeamFields
      reads this
    {
      TeamFields(doctors, showAddModal, confirmingShare, confirmingDelete, confirmingRevoke, isSharing,
                 sharingSuccess, hasConsented, lastReport, name, email, specialization, requests)
    }

    /** The list on screen agrees with the stored one. */
    predicate Synced(store: DataService.LocalStore)
      reads this, store
    {
      doctors == store.GetDoctors()
    }

    /** The first render: the stored doctors and an empty, closed form. */
    constructor (store: DataService.LocalStore)
      ensures Synced(store)
      ensures !showAddModal && confirmingShare.None? && confirmingDelete.None? && confirmingRevoke.None?
      ensures isSharing.None? && sharingSuccess.None? && !hasConsented && lastReport.None?
      ensures name == "" && email == "" && specialization == "Endocrinologist" && requests == []
    {
      doctors := store.GetDoctors();
      showAddModal, confirmingShare, confirmingDelete, confirmingRevoke := false, None, None, None;
      isSharing, sharingSuccess, hasConsented, lastReport := None, None, false, None;
      name, email, specialization := "", "", "Endocrinologist";
      requests := [];
    }

    method EditForm(n: string, e: string, s: string)
      modifies this
      ensures Fields() == old(Fields()).(name := n, email := e, specialization := s)
    {
      name, email, specialization := n, e, s;
    }

    /** The "add doctor" button opens the form. */
    method OpenAddModal()
      modifies this
      ensures Fields() == old(Fields()).(showAddModal := true)
    {
      showAddModal := true;
    }

    /** The form's close button; what was typed stays. */
    method CloseAddModal()
      modifies this
      ensures Fields() == old(Fields()).(showAddModal := false)
    {
      showAddModal := false;
    }

    /**
     * `handleAddDoctor`: nothing without a name and an e-mail; otherwise
     * exactly one doctor, with access, is appended to both lists, the form
     * is closed and its name and e-mail cleared.
     */
    method HandleAddDoctor(store: DataService.LocalStore, id: string)
      modifies this, store
      ensures old(Synced(store)) ==> Synced(store)
      ensures old(name) == "" || old(email) == "" ==>
                Fields() == old(Fields()) && store.doctorsSlot == old(store.doctorsSlot)
      ensures old(name) != "" && old(email) != "" ==>
                var d := Doctor(id, old(name), old(email), old(specialization), true, None);
                Fields() == old(Fields()).(doctors := old(doctors) + [d], showAddModal := false, name := "", email := "") &&
                store.doctorsSlot == DataService.Stored(old(store.GetDoctors()) + [d])
      ensures store.logsSlot == old(store.logsSlot) && store.remindersSlot == old(store.remindersSlot)
      ensures store.userSlot == old(store.userSlot) && store.knownUsersSlot == old(store.knownUsersSlot)
      ensures store.onboarded == old(store.onboarded)
    {
      if name == "" || email == "" {
        return;
      }
      var newDoc := store.SaveDoctor(DoctorDraft(name, email, specialization), id);
      doctors := doctors + [newDoc];
      showAddModal := false;
      name := "";
      email := "";
    }

    /** `executeToggleAccess`: sets access to `!currentAccess` on the matching id in both lists. */
    method ExecuteToggleAccess(store: DataService.LocalStore, id: string, currentAccess: bool)
      modifies this, store
      ensures old(Synced(store)) ==> Synced(store)
      ensures Fields() == old(Fields()).(doctors := DataService.SetAccess(old(doctors), id, !currentAccess),
                                         confirmingRevoke := None)
      ensures store.doctorsSlot == DataService.Stored(DataService.SetAccess(old(store.GetDoctors()), id, !currentAccess))
      ensures store.logsSlot == old(store.logsSlot) && store.remindersSlot == old(store.remindersSlot)
      ensures store.userSlot == old(store.userSlot) && store.knownUsersSlot == old(store.knownUsersSlot)
      ensures store.onboarded == old(store.onboarded)
    {
      store.UpdateDoctorAccess(id, !currentAccess);
      doctors := DataService.SetAccess(doctors, id, !currentAccess);
      confirmingRevoke := None;
    }

    /**
     * `handleToggleAccess`: for a doctor with access it only opens the
     * revoke confirmation; for one without, it grants access at once.
     */
    method HandleToggleAccess(store: DataService.LocalStore, doctor: Doctor)
      modifies this, store
      ensures old(Synced(store)) ==> Synced(store)
      ensures doctor.accessGranted ==>
                Fields() == old(Fields()).(confirmingRevoke := Some(doctor)) &&
                store.doctorsSlot == old(store.doctorsSlot)
      ensures !doctor.accessGranted ==>
                Fields() == old(Fields()).(doctors := DataService.SetAccess(old(doctors), doctor.id, true),
                                           confirmingRevoke := None) &&
                store.doctorsSlot == DataService.Stored(DataService.SetAccess(old(store.GetDoctors()), doctor.id, true))
      ensures store.logsSlot == old(store.logsSlot) && store.remindersSlot == old(store.remindersSlot)
      ensures store.userSlot == old(store.userSlot) && store.knownUsersSlot == old(store.knownUsersSlot)
      ensures store.onboarded == old(store.onboarded)
    {
      if doctor.accessGranted {
        confirmingRevoke := Some(doctor);
      } else {
        ExecuteToggleAccess(store, doctor.id, false);
      }
    }

    /** `handleDelete`: only opens the delete confirmation. */
    method HandleDelete(doctor: Doctor)
      modifies this
      ensures Fields() == old(Fields()).(confirmingDelete := Some(doctor))
    {
      confirmingDelete := Some(doctor);
    }

    /** `executeDelete`: the matching id leaves both lists, and the confirmation closes. */
    method ExecuteDelete(store: DataService.LocalStore, id: string)
      modifies this, store
      ensures old(Synced(store)) ==> Synced(store)
      ensures Fields() == old(Fields()).(doctors := DataService.RemoveDoctor(old(doctors), id), confirmingDelete := None)
      ensures store.doctorsSlot == DataService.Stored(DataService.RemoveDoctor(old(store.GetDoctors()), id))
      ensures store.logsSlot == old(store.logsSlot) && store.remindersSlot == old(store.remindersSlot)
      ensures store.userSlot == old(store.userSlot) && store.knownUsersSlot == old(store.knownUsersSlot)
      ensures store.onboarded == old(store.onboarded)
    {
      store.DeleteDoctor(id);
      doctors := DataService.RemoveDoctor(doctors, id);
      confirmingDelete := None;
    }

    /** `triggerShareConfirmation`: a fresh dialog, without consent or report. */
    method TriggerShareConfirmation(doctor: Doctor)
      modifies this
      ensures Fields() == old(Fields()).(confirmingShare := Some(doctor), hasConsented := false, lastReport := None)
    {
      hasConsented := false;
      lastReport := None;
      confirmingShare := Some(doctor);
    }

    /** The share dialog's "Cancel" and, after a share, "Dismiss": the dialog closes. */
    method CancelShare()
      modifies this
      ensures Fields() == old(Fields()).(confirmingShare := None)
    {
      confirmingShare := None;
    }

    /** The consent check box. */
    method SetConsent(checked: bool)
      modifies this
      ensures Fields() == old(Fields()).(hasConsented := checked)
    {
      hasConsented := checked;
    }

    /**
     * `handleShareReport`, with the generated summary as a parameter (`None`
     * when generation fails). Nothing happens without a pending doctor and
     * consent. Otherwise a request for the first 30 logs is sent; on success
     * the report is kept and `lastShared` is set on that doctor only, in
     * both lists. Either way the spinner stops. The two lists read the
     * clock separately: `storedAt` is the stored time, `shownAt` the one on
     * screen, so they agree afterwards only when the two readings do.
     */
    method HandleShareReport(store: DataService.LocalStore, logs: seq<HealthLog>, report: Option<string>,
                             storedAt: int, shownAt: int)
      modifies this, store
      ensures old(Synced(store)) && (report.None? || storedAt == shownAt) ==> Synced(store)
      ensures old(confirmingShare).None? || !old(hasConsented) ==>
                Fields() == old(Fields()) && store.doctorsSlot == old(store.doctorsSlot)
      ensures old(confirmingShare).Some? && old(hasConsented) && report.None? ==>
                var d := old(confirmingShare).value;
                Fields() == old(Fields()).(requests := old(requests) + [ShareRequest(d, ReportLogs(logs))],
                                           isSharing := None) &&
                store.doctorsSlot == old(store.doctorsSlot)
      ensures old(confirmingShare).Some? && old(hasConsented) && report.Some? ==>
                var d := old(confirmingShare).value;
                Fields() == old(Fields()).(requests := old(requests) + [ShareRequest(d, ReportLogs(logs))],
                                           isSharing := None,
                                           doctors := DataService.SetLastShared(old(doctors), d.id, shownAt),
                                           lastReport := report,
                                           sharingSuccess := Some(d.id)) &&
                store.doctorsSlot == DataService.Stored(DataService.SetLastShared(old(store.GetDoctors()), d.id, storedAt))
      ensures store.logsSlot == old(store.logsSlot) && store.remindersSlot == old(store.remindersSlot)
      ensures store.userSlot == old(store.userSlot) && store.knownUsersSlot == old(store.knownUsersSlot)
      ensures store.onboarded == old(store.onboarded)
    {
      if confirmingShare.None? || !hasConsented {
        return;
      }
      var doctor := confirmingShare.value;
      isSharing := Some(doctor.id);
      requests := requests + [ShareRequest(doctor, ReportLogs(logs))];
      if report.Some? {
        RecordShare(store, doctor.id, report.value, storedAt, shownAt);
      }
      isSharing := None;
    }

    /** The success path of `handleShareReport`: the report is kept and `lastShared` is set in both lists. */
    method RecordShare(store: DataService.LocalStore, id: string, report: string, storedAt: int, shownAt: int)
      modifies this, store
      ensures old(Synced(store)) && storedAt == shownAt ==> Synced(store)
      ensures Fields() == old(Fields()).(doctors := DataService.SetLastShared(old(doctors), id, shownAt),
                                         lastReport := Some(report),
                                         sharingSuccess := Some(id))
      ensures store.doctorsSlot == DataService.Stored(DataService.SetLastShared(old(store.GetDoctors()), id, storedAt))
      ensures store.logsSlot == old(store.logsSlot) && store.remindersSlot == old(store.remindersSlot)
      ensures store.userSlot == old(store.userSlot) && store.knownUsersSlot == old(store.knownUsersSlot)
      ensures store.onboarded == old(store.onboarded)
    {
      lastReport := Some(report);
      store.UpdateLastShared(id, storedAt);
      doctors := DataService.SetLastShared(doctors, id, shownAt);
      sharingSuccess := Some(id);
    }

    /** The 3-second timer after a successful share: the dialog closes. */
    method ShareSuccessTimeout()
      modifies this
      ensures Fields() == old(Fields()).(sharingSuccess := None, confirmingShare := None)
    {
      sharingSuccess := None;
      confirmingShare := None;
    }
  }
}
