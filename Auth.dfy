/**
 * The sign-in flow (components/Auth.tsx): landing, privacy notice with its
 * consent toggles, phone number, six-digit code, role choice and profile.
 * The simulated network delays are immediate; the account look-up and the
 * final `setCurrentUser` go through the storage service.
 */
module Auth {
  import opened Types
  import DataService

  datatype AuthStep = Landing | Notice | PhoneEntry | OtpEntry | RoleSelect | Profile

  const PHONE_ERROR := "Please enter a valid mobile number"
  const OTP_ERROR := "Please enter the full 6-digit code"
  const OTP_LENGTH := 6

  /** `/^\d*$/`. */
  predicate DigitsOnly(s: string) { AllDigits(s) }

  /** `value.slice(-1)`. */
  function LastChar(s: string): (r: string)
    ensures |r| <= 1
    ensures |s| > 0 ==> r == [s[|s| - 1]]
    ensures |s| == 0 ==> r == ""
  {
    if |s| == 0 then "" else [s[|s| - 1]]
  }

  /** `handleOtpChange`'s new code boxes. */
  function OtpAfter(otp: seq<string>, index: nat, value: string): (r: seq<string>)
    requires index < |otp|
  {
    if !DigitsOnly(value) then otp else otp[index := LastChar(value)]
  }

  /**
   * Input that is not all digits is ignored; otherwise box `index` holds at
   * most one digit, the last one typed, and the other boxes are unchanged.
   */
  lemma OtpAfterSpec(otp: seq<string>, index: nat, value: string)
    requires index < |otp|
    ensures |OtpAfter(otp, index, value)| == |otp|
    ensures !DigitsOnly(value) ==> OtpAfter(otp, index, value) == otp
    ensures DigitsOnly(value) ==>
              OtpAfter(otp, index, value)[index] == LastChar(value) &&
              DigitsOnly(OtpAfter(otp, index, value)[index]) &&
              forall j :: 0 <= j < |otp| && j != index ==> OtpAfter(otp, index, value)[j] == otp[j]
  {
  }

  /** `!otp.some(digit => !digit)`. */
  predicate OtpComplete(otp: seq<string>)
  {
    forall i :: 0 <= i < |otp| ==> otp[i] != ""
  }

  /** Filling every box with digits, one keystroke each, completes the code. */
  lemma {:induction false} TypingCompletes(otp: seq<string>, digits: string)
    requires |digits| == |otp| && AllDigits(digits)
    ensures var typed := TypeDigits(otp, digits, 0);
      OtpComplete(typed) && forall i :: 0 <= i < |otp| ==> typed[i] == [digits[i]]
  {
    TypeDigitsSpec(otp, digits, 0);
  }

  /** The boxes after typing `digits[k..]` into boxes k, k+1, ... */
  function TypeDigits(otp: seq<string>, digits: string, k: nat): (r: seq<string>)
    requires |digits| == |otp| && k <= |otp|
    ensures |r| == |otp|
    decreases |otp| - k
  {
    if k == |otp| then otp else TypeDigits(OtpAfter(otp, k, [digits[k]]), digits, k + 1)
  }

  lemma {:induction false} TypeDigitsSpec(otp: seq<string>, digits: string, k: nat)
    requires |digits| == |otp| && k <= |otp| && AllDigits(digits)
    ensures forall i :: 0 <= i < k ==> TypeDigits(otp, digits, k)[i] == otp[i]
    ensures forall i :: k <= i < |otp| ==> TypeDigits(otp, digits, k)[i] == [digits[i]]
    decreases |otp| - k
  {
    if k < |otp| {
      var next := OtpAfter(otp, k, [digits[k]]);
      assert DigitsOnly([digits[k]]);
      OtpAfterSpec(otp, k, [digits[k]]);
      TypeDigitsSpec(next, digits, k + 1);
    }
  }

  /** The three switches on the privacy notice. */
  datatype Consent = HealthLogging | AiAnalysis | DoctorSharing

  function ToggleConsent(c: UserConsents, which: Consent): UserConsents
  {
    match which
    case HealthLogging => c.(healthLogging := !c.healthLogging)
    case AiAnalysis => c.(aiAnalysis := !c.aiAnalysis)
    case DoctorSharing => c.(doctorSharing := !c.doctorSharing)
  }

  function ConsentOf(c: UserConsents, which: Consent): bool
  {
    match which
    case HealthLogging => c.healthLogging
    case AiAnalysis => c.aiAnalysis
    case DoctorSharing => c.doctorSharing
  }

  /**
   * Each toggle flips its own switch and no other, keeps the timestamp and
   * version, and toggling twice restores the consents.
   */
  lemma ToggleConsentSpec(c: UserConsents, which: Consent, other: Consent)
    ensures ConsentOf(ToggleConsent(c, which), which) == !ConsentOf(c, which)
    ensures other != which ==> ConsentOf(ToggleConsent(c, which), other) == ConsentOf(c, other)
    ensures ToggleConsent(c, which).timestamp == c.timestamp && ToggleConsent(c, which).version == c.version
    ensures ToggleConsent(ToggleConsent(c, which), which) == c
  {
  }

  /** The profile fields `handleProfileSubmit` reads. */
  datatype ProfileForm = ProfileForm(
    phone: string,
    name: string,
    email: string,
    role: Option<UserRole>,
    lang: AppLanguage,
    specialization: string,
    linkedPatientPhone: string,
    consents: UserConsents)

  predicate ProfileReady(f: ProfileForm)
  {
    f.name != "" && f.email != "" && f.role.Some?
  }

  /** The account `handleProfileSubmit` creates, with a fresh id and the consents stamped now. */
  function NewUser(f: ProfileForm, id: string, now: int): User
    requires f.role.Some?
  {
    var role := f.role.value;
    User(id, f.phone, f.name, f.email, role, f.lang,
         if role == DOCTOR then Some(f.specialization) else None,
         if role == PATIENT then Some(["Maintain glucose stability"]) else None,
         if role == CAREGIVER then Some(f.linkedPatientPhone) else None,
         None,
         Some(f.consents.(timestamp := now)))
  }

  /**
   * The new account carries the form's identity and role; a specialization
   * exactly for a doctor, a linked patient exactly for a caregiver, health
   * goals exactly for a patient; the notice's choices are kept and only
   * their timestamp is renewed.
   */
  lemma NewUserSpec(f: ProfileForm, id: string, now: int)
    requires f.role.Some?
    ensures var u := NewUser(f, id, now);
      u.id == id && u.phone == f.phone && u.name == f.name && u.email == f.email && u.role == f.role.value &&
      (u.specialization.Some? <==> u.role == DOCTOR) &&
      (u.linkedPatientPhone.Some? <==> u.role == CAREGIVER) &&
      (u.healthGoals.Some? <==> u.role == PATIENT) &&
      (u.role == DOCTOR ==> u.specialization == Some(f.specialization)) &&
      (u.role == CAREGIVER ==> u.linkedPatientPhone == Some(f.linkedPatientPhone)) &&
      u.consents == Some(f.consents.(timestamp := now)) &&
      u.consents.value.healthLogging == f.consents.healthLogging &&
      u.consents.value.aiAnalysis == f.consents.aiAnalysis &&
      u.consents.value.doctorSharing == f.consents.doctorSharing
  {
  }

  /** The whole state of the sign-in flow, for stating what a handler leaves alone. */
  datatype FlowFields = FlowFields(
    step: AuthStep,
    otp: seq<string>,
    error: string,
    form: ProfileForm,
    completed: seq<User>)

  class AuthFlow {
    var step: AuthStep
    var lang: AppLanguage
    var phone: string
    var otp: seq<string>
    var role: Option<UserRole>
    var name: string
    var email: string
    var specialization: string
    var linkedPatientPhone: string
    var error: string
    var consents: UserConsents
    /** Every user handed to `onAuthComplete`, in order. */
    var completed: seq<User>

    ghost predicate Valid()
      reads this
    {
      |otp| == OTP_LENGTH
    }

    function Form(): ProfileForm
      reads this
    {
      ProfileForm(phone, name, email, role, lang, specialization, linkedPatientPhone, consents)
    }

    function Fields(): FlowFields
      reads this
    {
      FlowFields(step, otp, error, Form(), completed)
    }

    constructor (now: int)
      ensures Valid()
      ensures step == Landing && lang == En && phone == "" && role.None? && error == ""
      ensures name == "" && email == "" && specialization == "" && linkedPatientPhone == ""
      ensures otp == ["", "", "", "", "", ""] && completed == []
      ensures consents == UserConsents(true, true, false, now, "v1.0-DPDP")
    {
      step, lang, phone, otp, role := Landing, En, "", ["", "", "", "", "", ""], None;
      name, email, specialization, linkedPatientPhone, error := "", "", "", "", "";
      consents := UserConsents(true, true, false, now, "v1.0-DPDP");
      completed := [];
    }

    /** The landing page's button. */
    method Begin()
      modifies this
      ensures Fields() == old(Fields()).(step := Notice)
    {
      step := Notice;
    }

    /** The notice's toggles: one switch flips. */
    method Toggle(which: Consent)
      modifies this
      ensures Fields() == old(Fields()).(form := old(Form()).(consents := ToggleConsent(old(consents), which)))
    {
      match which
      case HealthLogging => consents := consents.(healthLogging := !consents.healthLogging);
      case AiAnalysis => consents := consents.(aiAnalysis := !consents.aiAnalysis);
      case DoctorSharing => consents := consents.(doctorSharing := !consents.doctorSharing);
    }

    /** "Accept and proceed": the button is disabled unless health logging is consented. */
    method AcceptNotice()
      modifies this
      ensures Fields() == old(Fields()).(step := if old(consents.healthLogging) then PhoneEntry else old(step))
    {
      if consents.healthLogging {
        step := PhoneEntry;
      }
    }

    /** The phone page's "Back". */
    method Back()
      modifies this
      ensures Fields() == old(Fields()).(step := Landing)
    {
      step := Landing;
    }

    /** A language chip on the landing page; the choice is stored with every new account. */
    method SetLang(l: AppLanguage)
      modifies this
      ensures Fields() == old(Fields()).(form := old(Form()).(lang := l))
    {
      lang := l;
    }

    method SetPhone(p: string)
      modifies this
      ensures Fields() == old(Fields()).(form := old(Form()).(phone := p))
    {
      phone := p;
    }

    /** `handlePhoneSubmit`: fewer than ten characters is an error and stays put; otherwise on to the code. */
    method HandlePhoneSubmit()
      modifies this
      ensures |old(phone)| < 10 ==> Fields() == old(Fields()).(error := PHONE_ERROR)
      ensures |old(phone)| >= 10 ==> Fields() == old(Fields()).(error := "", step := OtpEntry)
    {
      if |phone| < 10 {
        error := PHONE_ERROR;
        return;
      }
      error := "";
      step := OtpEntry;
    }

    /** `handleOtpChange` for one of the six boxes. */
    method HandleOtpChange(index: nat, value: string)
      requires Valid() && index < OTP_LENGTH
      modifies this
      ensures Valid()
      ensures Fields() == old(Fields()).(otp := OtpAfter(old(otp), index, value))
    {
      if !DigitsOnly(value) {
        return;
      }
      otp := otp[index := LastChar(value)];
    }

    /**
     * `handleOtpVerify`. An incomplete code is an error. Otherwise a known
     * phone number signs that user in (stored as the current user, then
     * reported); an unknown one moves on to the role choice.
     */
    method HandleOtpVerify(store: DataService.LocalStore)
      modifies this, store
      ensures !OtpComplete(old(otp)) ==>
                error == OTP_ERROR && step == old(step) && completed == old(completed) &&
                store.userSlot == old(store.userSlot) && store.knownUsersSlot == old(store.knownUsersSlot)
      ensures OtpComplete(old(otp)) && old(store.GetUserByPhone(phone)).None? ==>
                error == "" && step == RoleSelect && completed == old(completed) &&
                store.userSlot == old(store.userSlot) && store.knownUsersSlot == old(store.knownUsersSlot)
      ensures OtpComplete(old(otp)) && old(store.GetUserByPhone(phone)).Some? ==>
                error == "" && step == old(step) &&
                store.userSlot == DataService.Stored(old(store.GetUserByPhone(phone)).value) &&
                store.knownUsersSlot == DataService.Stored(DataService.UpsertUser(
                  DataService.ReadOr(old(store.knownUsersSlot), []), old(store.GetUserByPhone(phone)).value)) &&
                completed == old(completed) + [old(store.GetUserByPhone(phone)).value]
      ensures Form() == old(Form()) && otp == old(otp)
      ensures store.logsSlot == old(store.logsSlot) && store.remindersSlot == old(store.remindersSlot)
      ensures store.doctorsSlot == old(store.doctorsSlot) && store.onboarded == old(store.onboarded)
    {
      if !OtpComplete(otp) {
        error := OTP_ERROR;
        return;
      }
      error := "";
      var existing := store.GetUserByPhone(phone);
      if existing.Some? {
        var ok := store.SetCurrentUser(existing);
        if ok {
          completed := completed + [existing.value];
        }
      } else {
        step := RoleSelect;
      }
    }

    /** A role card: the role is chosen and the profile page opens. */
    method ChooseRole(r: UserRole)
      modifies this
      ensures Fields() == old(Fields()).(step := Profile, form := old(Form()).(role := Some(r)))
    {
      role := Some(r);
      step := Profile;
    }

    method EditProfile(n: string, e: string)
      modifies this
      ensures Fields() == old(Fields()).(form := old(Form()).(name := n, email := e))
    {
      name, email := n, e;
    }

    /**
     * `handleProfileSubmit`: nothing unless name, email and role are set;
     * otherwise the new account is stored as the current user and reported.
     * An unparsable known-user list makes `setCurrentUser` throw after it
     * stored the user, so the account is then not reported.
     */
    method HandleProfileSubmit(store: DataService.LocalStore, id: string, now: int)
      modifies this, store
      ensures !ProfileReady(old(Form())) ==>
                completed == old(completed) &&
                store.userSlot == old(store.userSlot) && store.knownUsersSlot == old(store.knownUsersSlot)
      ensures ProfileReady(old(Form())) ==>
                store.userSlot == DataService.Stored(NewUser(old(Form()), id, now)) &&
                (old(store.knownUsersSlot).Corrupt? ==> store.knownUsersSlot.Corrupt?) &&
                (!old(store.knownUsersSlot).Corrupt? ==>
                   store.knownUsersSlot == DataService.Stored(DataService.UpsertUser(
                     DataService.ReadOr(old(store.knownUsersSlot), []), NewUser(old(Form()), id, now)))) &&
                completed == old(completed) +
                  (if old(store.knownUsersSlot).Corrupt? then [] else [NewUser(old(Form()), id, now)])
      ensures Form() == old(Form()) && step == old(step) && otp == old(otp) && error == old(error)
      ensures store.logsSlot == old(store.logsSlot) && store.remindersSlot == old(store.remindersSlot)
      ensures store.doctorsSlot == old(store.doctorsSlot) && store.onboarded == old(store.onboarded)
    {
      if name == "" || email == "" || role.None? {
        return;
      }
      var u := NewUser(Form(), id, now);
      var ok := store.SetCurrentUser(Some(u));
      if ok {
        completed := completed + [u];
      }
    }
  }
}
