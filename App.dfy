/**
 * The application shell (App.tsx): what it loads on start, which screen a
 * user's role routes to, when onboarding is shown, how a new log enters
 * the list on screen, and the reminder count on the bell.
 */
module App {
  import opened Types
  import DataService
  import Dashboard

  datatype Tab = DashboardTab | VoiceTab | ManualTab | CalendarTab | DoctorsTab

  /** What the shell renders. */
  datatype Screen = AuthScreen | AdminScreen | DoctorScreen | CaregiverScreen | PatientScreen(tab: Tab)

  /** The role routing: no user signs in; then admin, doctor and caregiver, in that order; everyone else gets the tabs. */
  function Route(user: Option<User>, tab: Tab): Screen
  {
    if user.None? then AuthScreen
    else if user.value.role == ADMIN then AdminScreen
    else if user.value.role == DOCTOR then DoctorScreen
    else if user.value.role == CAREGIVER then CaregiverScreen
    else PatientScreen(tab)
  }

  /**
   * Without a user only sign-in is shown; each role has exactly one screen;
   * only a patient gets the tabbed views, and only for a patient does the
   * selected tab matter.
   */
  lemma RouteSpec(user: Option<User>, tab: Tab, other: Tab)
    ensures Route(user, tab) == AuthScreen <==> user.None?
    ensures Route(user, tab).PatientScreen? <==> user.Some? && user.value.role == PATIENT
    ensures Route(user, tab).PatientScreen? ==> Route(user, tab).tab == tab
    ensures user.Some? && user.value.role != PATIENT ==> Route(user, tab) == Route(user, other)
    ensures user.Some? ==>
              (Route(user, tab) == AdminScreen <==> user.value.role == ADMIN) &&
              (Route(user, tab) == DoctorScreen <==> user.value.role == DOCTOR) &&
              (Route(user, tab) == CaregiverScreen <==> user.value.role == CAREGIVER)
  {
  }

  /** The start-up check: no onboarded flag and a stored patient. */
  predicate OnboardingDue(onboarded: bool, user: Option<User>)
  {
    !onboarded && user.Some? && user.value.role == PATIENT
  }

  /** The bell: the number of not-completed reminders, shown to patients only. */
  function BellCount(user: Option<User>, reminders: seq<Reminder>): Option<nat>
  {
    if Route(user, DashboardTab).PatientScreen? then Some(|Dashboard.PendingReminders(reminders)|) else None
  }

  /**
   * A patient's bell counts the reminders not yet completed; completing one
   * lowers the count by one; nobody else has a bell.
   */
  lemma BellCountSpec(user: Option<User>, reminders: seq<Reminder>)
    ensures BellCount(user, reminders).Some? <==> user.Some? && user.value.role == PATIENT
    ensures BellCount(user, reminders).Some? ==>
              BellCount(user, reminders).value == |reminders| - Dashboard.CountCompleted(reminders)
    ensures BellCount(user, reminders).Some? && |reminders| > 0 && !reminders[0].completed ==>
              BellCount(user, [reminders[0].(completed := true)] + reminders[1..]).value ==
                BellCount(user, reminders).value - 1
  {
    if |reminders| > 0 {
      var done := [reminders[0].(completed := true)] + reminders[1..];
      assert done[1..] == reminders[1..];
    }
  }

  class Shell {
    var currentUser: Option<User>
    var logs: seq<HealthLog>
    var reminders: seq<Reminder>
    var activeTab: Tab
    var showOnboarding: bool

    /** The initial state before the start-up effect runs. */
    constructor ()
      ensures currentUser.None? && logs == [] && reminders == [] && activeTab == DashboardTab && !showOnboarding
    {
      currentUser, logs, reminders, activeTab, showOnboarding := None, [], [], DashboardTab, false;
    }

    function Screen(): Screen
      reads this
    {
      Route(currentUser, activeTab)
    }

    /**
     * The start-up effect: the stored user, logs and reminders; onboarding
     * when due. The user and the overlay are only ever set, never cleared.
     */
    method Mount(store: DataService.LocalStore, now: int)
      modifies this
      ensures currentUser == if store.GetCurrentUser().Some? then store.GetCurrentUser() else old(currentUser)
      ensures logs == store.GetLogs(now) && reminders == store.GetReminders()
      ensures showOnboarding == (OnboardingDue(store.onboarded, store.GetCurrentUser()) || old(showOnboarding))
      ensures activeTab == old(activeTab)
    {
      var user := store.GetCurrentUser();
      if user.Some? {
        currentUser := user;
      }
      logs := store.GetLogs(now);
      reminders := store.GetReminders();
      if !store.onboarded && user.Some? && user.value.role == PATIENT {
        showOnboarding := true;
      }
    }

    /** `onAuthComplete`: the user is signed in; onboarding is not re-evaluated. */
    method OnAuthComplete(u: User)
      modifies this
      ensures currentUser == Some(u)
      ensures logs == old(logs) && reminders == old(reminders) && showOnboarding == old(showOnboarding)
      ensures activeTab == old(activeTab)
    {
      currentUser := Some(u);
    }

    method SelectTab(t: Tab)
      modifies this
      ensures activeTab == t
      ensures currentUser == old(currentUser) && logs == old(logs) && reminders == old(reminders)
      ensures showOnboarding == old(showOnboarding)
    {
      activeTab := t;
    }

    /**
     * `handleAddLog`: the saved log goes first in the list on screen, ahead
     * of every log already shown; when that list was the stored one, it
     * still is.
     */
    method HandleAddLog(store: DataService.LocalStore, draft: LogDraft, id: string, now: int)
      returns (newLog: HealthLog)
      modifies this, store
      ensures newLog == DataService.NewLog(draft, old(store.GetCurrentUser()), id, now)
      ensures logs == [newLog] + old(logs)
      ensures old(store.logsSlot) == DataService.Stored(old(logs)) ==> store.logsSlot == DataService.Stored(logs)
      ensures currentUser == old(currentUser) && reminders == old(reminders)
      ensures showOnboarding == old(showOnboarding) && activeTab == old(activeTab)
      ensures store.logsSlot == DataService.Stored([newLog] + old(store.GetLogs(now)))
      ensures store.remindersSlot == old(store.remindersSlot) && store.userSlot == old(store.userSlot)
      ensures store.doctorsSlot == old(store.doctorsSlot) && store.knownUsersSlot == old(store.knownUsersSlot)
      ensures store.onboarded == old(store.onboarded)
    {
      newLog := store.SaveLog(draft, id, now);
      logs := [newLog] + logs;
    }

    /** `handleRefreshData`: both lists are read back from storage. */
    method HandleRefreshData(store: DataService.LocalStore, now: int)
      modifies this
      ensures logs == store.GetLogs(now) && reminders == store.GetReminders()
      ensures currentUser == old(currentUser) && showOnboarding == old(showOnboarding) && activeTab == old(activeTab)
    {
      logs := store.GetLogs(now);
      reminders := store.GetReminders();
    }

    /** `handleToggleReminder`: stored, then read back. */
    method HandleToggleReminder(store: DataService.LocalStore, id: string)
      modifies this, store
      ensures reminders == DataService.ToggleById(old(store.GetReminders()), id)
      ensures store.GetReminders() == reminders
      ensures currentUser == old(currentUser) && logs == old(logs) && showOnboarding == old(showOnboarding)
      ensures activeTab == old(activeTab)
      ensures store.logsSlot == old(store.logsSlot) && store.userSlot == old(store.userSlot)
      ensures store.doctorsSlot == old(store.doctorsSlot) && store.knownUsersSlot == old(store.knownUsersSlot)
      ensures store.onboarded == old(store.onboarded)
    {
      store.ToggleReminder(id);
      reminders := store.GetReminders();
    }

    /** `handleDeleteReminder`: stored, then read back. */
    method HandleDeleteReminder(store: DataService.LocalStore, id: string)
      modifies this, store
      ensures reminders == DataService.RemoveReminder(old(store.GetReminders()), id)
      ensures store.GetReminders() == reminders
      ensures currentUser == old(currentUser) && logs == old(logs) && showOnboarding == old(showOnboarding)
      ensures activeTab == old(activeTab)
      ensures store.logsSlot == old(store.logsSlot) && store.userSlot == old(store.userSlot)
      ensures store.doctorsSlot == old(store.doctorsSlot) && store.knownUsersSlot == old(store.knownUsersSlot)
      ensures store.onboarded == old(store.onboarded)
    {
      store.DeleteReminder(id);
      reminders := store.GetReminders();
    }

    /** `completeOnboarding`: the flag is stored, so the check never fires again, and the overlay closes. */
    method CompleteOnboarding(store: DataService.LocalStore)
      modifies this, store
      ensures store.onboarded && !showOnboarding
      ensures !OnboardingDue(store.onboarded, store.GetCurrentUser())
      ensures currentUser == old(currentUser) && logs == old(logs) && reminders == old(reminders)
      ensures activeTab == old(activeTab)
      ensures store.logsSlot == old(store.logsSlot) && store.userSlot == old(store.userSlot)
      ensures store.remindersSlot == old(store.remindersSlot) && store.knownUsersSlot == old(store.knownUsersSlot)
      ensures store.doctorsSlot == old(store.doctorsSlot)
    {
      store.onboarded := true;
      showOnboarding := false;
    }

    /** `handleLogout`: the current-user key is removed and the page reloads. */
    method HandleLogout(store: DataService.LocalStore, now: int)
      modifies this, store
      ensures store.userSlot == DataService.Absent
      ensures currentUser.None? && Screen() == AuthScreen && !showOnboarding
      ensures logs == store.GetLogs(now) && reminders == store.GetReminders() && activeTab == DashboardTab
      ensures store.logsSlot == old(store.logsSlot) && store.remindersSlot == old(store.remindersSlot)
      ensures store.knownUsersSlot == old(store.knownUsersSlot) && store.onboarded == old(store.onboarded)
      ensures store.doctorsSlot == old(store.doctorsSlot)
    {
      store.userSlot := DataService.Absent;
      currentUser, logs, reminders, activeTab, showOnboarding := None, [], [], DashboardTab, false;
      Mount(store, now);
    }
  }
}
