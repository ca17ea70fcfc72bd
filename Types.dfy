/**
 * The domain records of the health tracker (types.ts), and the handful of
 * JavaScript value conversions the components rely on: `String(n)`,
 * `Number(v)`, `toUpperCase`/`toLowerCase` and the truthiness of a string.
 */
module Types {

  datatype Option<T> = None | Some(value: T)

  datatype LogType = GLUCOSE | MEAL | INSULIN | EXERCISE | MOOD | MEDICINE

  datatype UserRole = PATIENT | DOCTOR | CAREGIVER | ADMIN

  datatype ProcessingPurpose = HEALTH_MONITORING | AI_INSIGHTS | ADHERENCE_TRACKING | DOCTOR_REVIEW

  datatype AppLanguage = En | Hi | Bn | Ta | Te | Mr

  datatype UserConsents = UserConsents(
    healthLogging: bool,
    aiAnalysis: bool,
    doctorSharing: bool,
    timestamp: int,
    version: string)

  datatype User = User(
    id: string,
    phone: string,
    name: string,
    email: string,
    role: UserRole,
    language: AppLanguage,
    specialization: Option<string>,
    healthGoals: Option<seq<string>>,
    linkedPatientPhone: Option<string>,
    profileImage: Option<string>,
    consents: Option<UserConsents>)

  /** `HealthLog.value` is `string | number`; numbers are modelled as integers. */
  datatype LogValue = NumberValue(n: int) | TextValue(s: string)

  datatype Metadata = Metadata(source: string, consentVersion: string, purpose: seq<ProcessingPurpose>)

  datatype HealthLog = HealthLog(
    id: string,
    timestamp: int,
    logType: LogType,
    value: LogValue,
    unit: Option<string>,
    notes: Option<string>,
    metadata: Option<Metadata>)

  /** `Omit<HealthLog, 'id' | 'timestamp'>`: what the entry screens hand to `onAddLog`. */
  datatype LogDraft = LogDraft(
    logType: LogType,
    value: LogValue,
    unit: Option<string>,
    notes: Option<string>,
    metadata: Option<Metadata>)

  /**
   * A reminder. types.ts declares `type` as 'INSULIN' | 'MEDICINE', but the
   * voice path stores whatever upper-cased string the model sent, so the
   * model keeps it as a string.
   */
  datatype Reminder = Reminder(
    id: string,
    time: string,
    labelText: string,
    kind: string,
    completed: bool,
    repeat: bool)

  /** `Omit<Reminder, 'id' | 'completed'>`; `labelText` is the source's `label` (a Dafny keyword). */
  datatype ReminderDraft = ReminderDraft(time: string, labelText: string, kind: string, repeat: bool)

  datatype Sender = UserSender | AiSender

  datatype TranscriptionItem = TranscriptionItem(sender: Sender, text: string, timestamp: int)

  datatype Doctor = Doctor(
    id: string,
    name: string,
    email: string,
    specialization: string,
    accessGranted: bool,
    lastShared: Option<int>)

  /** `Omit<Doctor, 'id' | 'accessGranted'>`. */
  datatype DoctorDraft = DoctorDraft(name: string, email: string, specialization: string)

  // ---------------------------------------------------------------------
  // JavaScript conversions

  /** A JavaScript string is truthy exactly when it is non-empty. */
  predicate Truthy(s: string) { s != "" }

  /** `a || b` on strings. */
  function OrElse(a: string, b: string): (r: string)
    ensures r == a || r == b
    ensures Truthy(a) ==> r == a
    ensures !Truthy(a) ==> r == b
  {
    if Truthy(a) then a else b
  }

  predicate IsDigit(c: char) { '0' <= c <= '9' }

  /** `/^\d*$/`: every character is a decimal digit (the empty string matches). */
  predicate AllDigits(s: string) { forall i :: 0 <= i < |s| ==> IsDigit(s[i]) }

  function DigitChar(d: int): (c: char)
    requires 0 <= d < 10
    ensures IsDigit(c)
  {
    ['0', '1', '2', '3', '4', '5', '6', '7', '8', '9'][d]
  }

  function DigitValue(c: char): (d: int)
    requires IsDigit(c)
    ensures 0 <= d < 10
  {
    c as int - '0' as int
  }

  lemma DigitRoundTrip(d: int)
    requires 0 <= d < 10
    ensures DigitValue(DigitChar(d)) == d
  {
  }

  /** The value of a string of decimal digits, most significant first. */
  function DigitsValue(s: string): (n: nat)
    requires AllDigits(s)
  {
    if |s| == 0 then 0 else 10 * DigitsValue(s[..|s| - 1]) + DigitValue(s[|s| - 1])
  }

  /** The decimal digits of a natural number, as `String(n)` writes them. */
  function NatToString(n: nat): (s: string)
    ensures |s| > 0 && AllDigits(s)
  {
    if n < 10 then [DigitChar(n)] else NatToString(n / 10) + [DigitChar(n % 10)]
  }

  /** `String(n)` for an integer. */
  function IntToString(n: int): (s: string)
    ensures |s| > 0
    ensures n >= 0 ==> AllDigits(s)
    ensures n < 0 ==> s[0] == '-' && AllDigits(s[1..])
  {
    if n >= 0 then NatToString(n) else "-" + NatToString(-n)
  }

  /** Reading back the digits `String(n)` writes gives `n` again. */
  lemma {:induction false} NatToStringRoundTrip(n: nat)
    ensures DigitsValue(NatToString(n)) == n
  {
    var s := NatToString(n);
    if n < 10 {
      DigitRoundTrip(n);
    } else {
      NatToStringRoundTrip(n / 10);
      assert s[..|s| - 1] == NatToString(n / 10);
      DigitRoundTrip(n % 10);
    }
  }

  /**
   * `Number(v)` on a log value: numbers are themselves; a string of decimal
   * digits is its value (the empty string is 0, as in JavaScript); any other
   * string is NaN, here None.
   */
  function NumberOf(v: LogValue): (r: Option<int>)
    ensures v.NumberValue? ==> r == Some(v.n)
    ensures v.TextValue? ==> (r.Some? <==> AllDigits(v.s))
  {
    match v
    case NumberValue(n) => Some(n)
    case TextValue(s) => if AllDigits(s) then Some(DigitsValue(s)) else None
  }

  /** `String(v)` on a log value. */
  function ValueString(v: LogValue): string
  {
    match v
    case NumberValue(n) => IntToString(n)
    case TextValue(s) => s
  }

  /** A number turned into text by `String` reads back as the same number. */
  lemma NumberOfStringified(n: nat)
    ensures NumberOf(TextValue(ValueString(NumberValue(n)))) == Some(n)
  {
    NatToStringRoundTrip(n);
  }

  /** `value || 0`: the empty string and the number 0 are falsy. */
  predicate ValueTruthy(v: LogValue)
  {
    match v
    case NumberValue(n) => n != 0
    case TextValue(s) => s != ""
  }

  function UpperChar(c: char): char
  {
    if 'a' <= c <= 'z' then (c as int - 32) as char else c
  }

  function LowerChar(c: char): char
  {
    if 'A' <= c <= 'Z' then (c as int + 32) as char else c
  }

  /** `toUpperCase`, on the ASCII letters only. */
  function Upper(s: string): (r: string)
    ensures |r| == |s|
    ensures forall i :: 0 <= i < |s| ==> r[i] == UpperChar(s[i])
  {
    if |s| == 0 then "" else [UpperChar(s[0])] + Upper(s[1..])
  }

  /** `toLowerCase`, on the ASCII letters only. */
  function Lower(s: string): (r: string)
    ensures |r| == |s|
    ensures forall i :: 0 <= i < |s| ==> r[i] == LowerChar(s[i])
  {
    if |s| == 0 then "" else [LowerChar(s[0])] + Lower(s[1..])
  }

  predicate IsUpper(s: string) { forall i :: 0 <= i < |s| ==> !('a' <= s[i] <= 'z') }

  /** Upper-casing leaves no lower-case letter and is idempotent. */
  lemma UpperIsUpper(s: string)
    ensures IsUpper(Upper(s))
    ensures Upper(Upper(s)) == Upper(s)
  {
  }

  /** The enum's own string values. */
  function LogTypeName(t: LogType): (s: string)
    ensures IsUpper(s) && |s| > 0
  {
    match t
    case GLUCOSE => "GLUCOSE"
    case MEAL => "MEAL"
    case INSULIN => "INSULIN"
    case EXERCISE => "EXERCISE"
    case MOOD => "MOOD"
    case MEDICINE => "MEDICINE"
  }

  /** Casting a string back to `LogType`; strings outside the enum give None. */
  function ParseLogType(s: string): (r: Option<LogType>)
    ensures r.Some? ==> LogTypeName(r.value) == s
  {
    if s == "GLUCOSE" then Some(GLUCOSE)
    else if s == "MEAL" then Some(MEAL)
    else if s == "INSULIN" then Some(INSULIN)
    else if s == "EXERCISE" then Some(EXERCISE)
    else if s == "MOOD" then Some(MOOD)
    else if s == "MEDICINE" then Some(MEDICINE)
    else None
  }

  lemma ParseLogTypeName(t: LogType)
    ensures ParseLogType(LogTypeName(t)) == Some(t)
  {
  }

  /** Any case spelling of an enum name upper-cases to that name. */
  lemma ParseUpperLower(t: LogType)
    ensures ParseLogType(Upper(Lower(LogTypeName(t)))) == Some(t)
  {
    var s := LogTypeName(t);
    assert Upper(Lower(s)) == s;
  }

  function Min(a: int, b: int): int { if a <= b then a else b }

  /** `s.slice(0, n)`. */
  function Take<T>(s: seq<T>, n: nat): (r: seq<T>)
    ensures |r| == Min(n, |s|)
    ensures r == s[..|r|]
  {
    if n <= |s| then s[..n] else s
  }
}
