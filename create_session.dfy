/** The lecturer's three-step session wizard (app/lecturer/create-session.tsx): the
    form, per-step validation into an error map, the step counter, and
    `createSession`, which stores the session together with the token built for it. */
module CreateSession {
  import opened Wrappers
  import opened Decimal
  import opened Types
  import opened FlatJson
  import opened Qr
  import opened Attendance

  const CourseIdRequired: string := "Course ID is required"
  const CourseNameRequired: string := "Course name is required"
  const RoomLocationRequired: string := "Room location is required"
  const DateRequired: string := "Date is required"
  const StartTimeRequired: string := "Start time is required"
  const EndTimeRequired: string := "End time is required"
  const EndNotAfterStartMessage: string := "End time must be after start time"
  const NoLocationMessage: string := "Unable to get location. Please enable location services."

  /** The radius the form starts with; no input of the wizard changes it. */
  const DefaultRadius: int := 100

  /** The wizard's `sessionData` state. */
  datatype SessionForm = SessionForm(
    courseId: string,
    courseName: string,
    roomLocation: string,
    date: string,
    startTime: string,
    endTime: string,
    allowedRadius: int)

  /** The text fields the wizard's inputs edit. */
  datatype FormField = CourseId | CourseName | RoomLocation | Date | StartTime | EndTime

  function FieldKey(f: FormField): string {
    match f
    case CourseId => "courseId"
    case CourseName => "courseName"
    case RoomLocation => "roomLocation"
    case Date => "date"
    case StartTime => "startTime"
    case EndTime => "endTime"
  }

  function FieldValue(form: SessionForm, f: FormField): string {
    match f
    case CourseId => form.courseId
    case CourseName => form.courseName
    case RoomLocation => form.roomLocation
    case Date => form.date
    case StartTime => form.startTime
    case EndTime => form.endTime
  }

  /** `{ ...prev, [field]: value }`: only the named field takes the new value. */
  function WithField(form: SessionForm, f: FormField, value: string): (r: SessionForm)
    ensures FieldValue(r, f) == value
    ensures forall g :: g != f ==> FieldValue(r, g) == FieldValue(form, g)
    ensures r.allowedRadius == form.allowedRadius
  {
    match f
    case CourseId => form.(courseId := value)
    case CourseName => form.(courseName := value)
    case RoomLocation => form.(roomLocation := value)
    case Date => form.(date := value)
    case StartTime => form.(startTime := value)
    case EndTime => form.(endTime := value)
  }

  // ---------------------------------------------------------------- time of day

  predicate DigitPair(t: string, i: nat)
    requires i + 2 <= |t|
  {
    IsDigit(t[i]) && IsDigit(t[i + 1])
  }

  function PairValue(t: string, i: nat): (v: nat)
    requires i + 2 <= |t| && DigitPair(t, i)
    ensures v < 100
  {
    DigitValue(t[i]) * 10 + DigitValue(t[i + 1])
  }

  /** The time of `new Date(`2000-01-01T${t}`)` in seconds after midnight, for the ISO
      forms `HH:mm` and `HH:mm:ss` (hours up to 24:00, which is the next midnight);
      `None` is an invalid date. */
  function WizardTime(t: string): (r: Option<int>)
    ensures r.Some? ==> 0 <= r.value <= 86400
  {
    if (|t| == 5 || |t| == 8) && DigitPair(t, 0) && t[2] == ':' && DigitPair(t, 3)
       && (|t| == 5 || (t[5] == ':' && DigitPair(t, 6)))
    then
      var h := PairValue(t, 0);
      var m := PairValue(t, 3);
      var s := if |t| == 8 then PairValue(t, 6) else 0;
      if m > 59 || s > 59 || h > 24 || (h == 24 && (m > 0 || s > 0)) then None
      else Some(h * 3600 + m * 60 + s)
    else None
  }

  /** Both times are filled in, both are valid dates, and the start is not before the end. */
  predicate EndNotAfterStart(form: SessionForm) {
    && form.startTime != "" && form.endTime != ""
    && WizardTime(form.startTime).Some? && WizardTime(form.endTime).Some?
    && WizardTime(form.startTime).value >= WizardTime(form.endTime).value
  }

  lemma WizardTimeOfClockText(h: nat, m: nat)
    requires h < 24 && m < 60
    ensures WizardTime(ClockText(h, m)) == Some(h * 3600 + m * 60)
  {
    var t := ClockText(h, m);
    assert t[..2] == TwoDigits(h) && t[3..] == TwoDigits(m);
    assert PairValue(t, 0) == h by {
      assert DecimalValue(t[..2]) == h;
      assert t[..2][..1] == [t[0]];
    }
    assert PairValue(t, 3) == m by {
      assert DecimalValue(t[3..]) == m;
      assert t[3..][..1] == [t[3]];
    }
  }

  // ---------------------------------------------------------------- validation

  /** The error map `validateStep(step)` builds from the form. */
  function StepErrors(step: int, form: SessionForm): map<string, string> {
    if step == 1 then
      var e1: map<string, string> := if form.courseId == "" then map["courseId" := CourseIdRequired] else map[];
      if form.courseName == "" then e1["courseName" := CourseNameRequired] else e1
    else if step == 2 then
      var e1: map<string, string> := if form.roomLocation == "" then map["roomLocation" := RoomLocationRequired] else map[];
      var e2 := if form.date == "" then e1["date" := DateRequired] else e1;
      var e3 := if form.startTime == "" then e2["startTime" := StartTimeRequired] else e2;
      var e4 := if form.endTime == "" then e3["endTime" := EndTimeRequired] else e3;
      if EndNotAfterStart(form) then e4["endTime" := EndNotAfterStartMessage] else e4
    else map[]
  }

  /** Which keys the error map of each step holds, and with which message. */
  lemma StepErrorsMeaning(step: int, form: SessionForm)
    ensures var e := StepErrors(step, form);
      step != 1 && step != 2 ==> e == map[]
    ensures var e := StepErrors(step, form);
      step == 1 ==> e.Keys <= {"courseId", "courseName"}
    ensures var e := StepErrors(step, form);
      step == 1 ==> ("courseId" in e <==> form.courseId == "") && ("courseName" in e <==> form.courseName == "")
    ensures var e := StepErrors(step, form);
      step == 2 ==> e.Keys <= {"roomLocation", "date", "startTime", "endTime"}
    ensures var e := StepErrors(step, form);
      step == 2 ==>
      && ("roomLocation" in e <==> form.roomLocation == "")
      && ("date" in e <==> form.date == "")
      && ("startTime" in e <==> form.startTime == "")
      && ("endTime" in e <==> form.endTime == "" || EndNotAfterStart(form))
    ensures var e := StepErrors(step, form);
      "courseId" in e ==> e["courseId"] == CourseIdRequired
    ensures var e := StepErrors(step, form);
      "courseName" in e ==> e["courseName"] == CourseNameRequired
    ensures var e := StepErrors(step, form);
      "roomLocation" in e ==> e["roomLocation"] == RoomLocationRequired
    ensures var e := StepErrors(step, form);
      "date" in e ==> e["date"] == DateRequired
    ensures var e := StepErrors(step, form);
      "startTime" in e ==> e["startTime"] == StartTimeRequired
    ensures var e := StepErrors(step, form);
      "endTime" in e ==> e["endTime"] == (if form.endTime == "" then EndTimeRequired else EndNotAfterStartMessage)
  {
  }

  /** When a step counts as complete, stated field by field. */
  predicate StepValid(step: int, form: SessionForm) {
    && (step == 1 ==> form.courseId != "" && form.courseName != "")
    && (step == 2 ==>
          && form.roomLocation != "" && form.date != "" && form.startTime != "" && form.endTime != ""
          && !EndNotAfterStart(form))
  }

  /** `validateStep` returns true exactly when the step is complete; step 3 always is. */
  lemma {:induction false} StepErrorsEmptyIff(step: int, form: SessionForm)
    ensures (StepErrors(step, form) == map[] <==> StepValid(step, form)) && (|StepErrors(step, form)| == 0 <==> StepValid(step, form))
    ensures StepValid(3, form)
  {
    var e := StepErrors(step, form);
    StepErrorsMeaning(step, form);
    if step == 1 && !StepValid(step, form) {
      assert "courseId" in e || "courseName" in e;
    }
    if step == 2 && !StepValid(step, form) {
      assert "roomLocation" in e || "date" in e || "startTime" in e || "endTime" in e;
    }
    if StepValid(step, form) {
      if step == 1 {
        assert e.Keys == {};
      } else if step == 2 {
        assert e.Keys == {};
      }
    }
  }

  /** 09:00 to 10:00 passes step 2; 10:00 to 09:00, and a start equal to the end, do not. */
  lemma TimeOrderExamples(form: SessionForm)
    requires form.roomLocation != "" && form.date != ""
    ensures StepValid(2, form.(startTime := "09:00", endTime := "10:00"))
    ensures !StepValid(2, form.(startTime := "10:00", endTime := "09:00"))
    ensures !StepValid(2, form.(startTime := "09:00", endTime := "09:00"))
  {
    ClockTextExamples();
    WizardTimeOfClockText(9, 0);
    WizardTimeOfClockText(10, 0);
  }

  // ---------------------------------------------------------------- creation

  /** The session fields `createSession` passes to both `generateQRData` and `createLectureSession`. */
  function DraftOf(form: SessionForm, lecturer: User, location: LocationData, pin: string, qrData: string): SessionDraft {
    SessionDraft(form.courseId, form.courseName, lecturer.name, lecturer.id, form.roomLocation, form.date,
      form.startTime, form.endTime, location.latitude, location.longitude, pin, qrData, true, form.allowedRadius)
  }

  /** The token `createSession` builds before the session exists. */
  function CreationToken(form: SessionForm, lecturer: User, location: LocationData, pin: string, tokenTime: int): string {
    GenerateQRData(DraftOf(form, lecturer, location, pin, ""), tokenTime)
  }

  /** What one press of 'Create Session' leads to. */
  datatype CreateOutcome = Invalid | Created(sessionId: string) | Failed(message: string) | TypeError

  /** No stored session id is the placeholder `'temp_id'`: ids are numerals. */
  lemma PlaceholderNeverStored(sessions: map<string, LectureSession>, sessionIds: seq<string>)
    requires IdsAllocated(sessions, sessionIds)
    ensures TempSessionId !in sessions
  {
  }

  /** The session `createSession` stores carries a token that parses, names the
      placeholder id instead of the session's own, repeats the session's six-digit
      PIN, date, start time and coordinates, and has no `endTime`; the session
      itself is active. */
  lemma StoredTokenFacts(form: SessionForm, lecturer: User, location: LocationData, draw: nat,
                         tokenTime: int, id: string, createdAt: int)
    requires draw < 900000
    ensures var pin := GenerateSessionPin(draw);
      var s := SessionFromDraft(id, DraftOf(form, lecturer, location, pin, CreationToken(form, lecturer, location, pin, tokenTime)), createdAt);
      && ParseQRData(s.qrData).Ok?
      && var o := ParseQRData(s.qrData).value;
      && ValidateQRData(o) == Checked(true)
      && "sessionId" in o && o["sessionId"] == Str(TempSessionId)
      && "pin" in o && o["pin"] == Str(s.pin) && |s.pin| == 6 && AllDigits(s.pin)
      && "date" in o && o["date"] == Str(s.date) && "startTime" in o && o["startTime"] == Str(s.startTime)
      && "latitude" in o && o["latitude"] == Num(s.latitude) && "longitude" in o && o["longitude"] == Num(s.longitude)
      && "endTime" !in o
      && s.isActive
  {
    var pin := GenerateSessionPin(draw);
    var d := DraftOf(form, lecturer, location, pin, "");
    var token := GenerateQRData(d, tokenTime);
    var s := SessionFromDraft(id, DraftOf(form, lecturer, location, pin, token), createdAt);
    assert s.qrData == token && s.pin == pin && s.date == d.date && s.startTime == d.startTime;
    assert s.latitude == d.latitude && s.longitude == d.longitude && s.isActive;
    PinIsSixDigits(draw);
    TokenPayload(d, tokenTime);
  }

  /** The parsed token of a draft, as the facts `StoredTokenFacts` needs. */
  lemma TokenPayload(d: SessionDraft, tokenTime: int)
    ensures ParseQRData(GenerateQRData(d, tokenTime)) == Ok(GeneratedPayload(d, tokenTime))
    ensures var o := GeneratedPayload(d, tokenTime);
      && ValidateQRData(o) == Checked(true) && "endTime" !in o
      && "sessionId" in o && o["sessionId"] == Str(TempSessionId) && "pin" in o && o["pin"] == Str(d.pin)
      && "date" in o && o["date"] == Str(d.date) && "startTime" in o && o["startTime"] == Str(d.startTime)
      && "latitude" in o && o["latitude"] == Num(d.latitude) && "longitude" in o && o["longitude"] == Num(d.longitude)
  {
    GeneratedTokenValidates(d, tokenTime);
    GeneratedTokenRoundTrip(d, tokenTime);
    GeneratedPayloadFields(d, tokenTime);
  }

  class CreateSessionScreen {
    /** The signed-in lecturer (`useAuth().user`), possibly absent. */
    const lecturer: Option<User>
    var step: int
    var errors: map<string, string>
    var sessionData: SessionForm
    var loading: bool

    ghost predicate Valid()
      reads this
    {
      1 <= step <= 3
    }

    /** The wizard opens on step 1 with an empty form dated `today`. */
    constructor (lecturer: Option<User>, today: string)
      ensures Valid() && this.lecturer == lecturer && step == 1 && errors == map[] && !loading
      ensures sessionData == SessionForm("", "", "", today, "", "", DefaultRadius)
    {
      this.lecturer := lecturer;
      step := 1;
      errors := map[];
      sessionData := SessionForm("", "", "", today, "", "", DefaultRadius);
      loading := false;
    }

    /** `validateStep(currentStep)`: replaces the error map with the step's errors and
        reports whether there are none. */
    method ValidateStep(currentStep: int) returns (ok: bool)
      modifies this
      ensures errors == StepErrors(currentStep, sessionData)
      ensures ok <==> StepValid(currentStep, sessionData)
      ensures step == old(step) && sessionData == old(sessionData) && loading == old(loading)
    {
      var form := sessionData;
      var newErrors: map<string, string> := map[];
      if currentStep == 1 {
        if form.courseId == "" { newErrors := newErrors["courseId" := CourseIdRequired]; }
        if form.courseName == "" { newErrors := newErrors["courseName" := CourseNameRequired]; }
      } else if currentStep == 2 {
        if form.roomLocation == "" { newErrors := newErrors["roomLocation" := RoomLocationRequired]; }
        if form.date == "" { newErrors := newErrors["date" := DateRequired]; }
        if form.startTime == "" { newErrors := newErrors["startTime" := StartTimeRequired]; }
        if form.endTime == "" { newErrors := newErrors["endTime" := EndTimeRequired]; }
        if form.startTime != "" && form.endTime != "" {
          var start := WizardTime(form.startTime);
          var end := WizardTime(form.endTime);
          if start.Some? && end.Some? && start.value >= end.value {
            newErrors := newErrors["endTime" := EndNotAfterStartMessage];
          }
        }
      }
      StepErrorsEmptyIff(currentStep, form);
      errors := newErrors;
      ok := |newErrors| == 0;
    }

    /** `nextStep`: advances by one when the current step validates and is not the last. */
    method NextStep()
      requires Valid()
      modifies this
      ensures Valid()
      ensures errors == StepErrors(old(step), sessionData)
      ensures step == (if StepValid(old(step), sessionData) && old(step) < 3 then old(step) + 1 else old(step))
      ensures sessionData == old(sessionData) && loading == old(loading)
    {
      var ok := ValidateStep(step);
      if ok && step < 3 {
        step := step + 1;
      }
    }

    /** `prevStep`: goes back one step unless on the first, without validating. */
    method PrevStep()
      requires Valid()
      modifies this
      ensures Valid()
      ensures step == (if old(step) > 1 then old(step) - 1 else old(step))
      ensures errors == old(errors) && sessionData == old(sessionData) && loading == old(loading)
    {
      if step > 1 {
        step := step - 1;
      }
    }

    /** `updateSessionData(field, value)`: sets that field, and blanks that field's
        error when it shows one; every other field and error is kept. */
    method UpdateSessionData(field: FormField, value: string)
      modifies this
      ensures sessionData == WithField(old(sessionData), field, value)
      ensures var k := FieldKey(field);
        errors == (if k in old(errors) && old(errors)[k] != "" then old(errors)[k := ""] else old(errors))
      ensures step == old(step) && loading == old(loading)
    {
      sessionData := WithField(sessionData, field, value);
      var k := FieldKey(field);
      if k in errors && errors[k] != "" {
        errors := errors[k := ""];
      }
    }

    /** `createSession`: validates the current step, then needs a location and a
        signed-in lecturer, and stores the session with a fresh PIN, the token built
        from the form, and `isActive` set. Nothing is stored on any failure. */
    method CreateSession(store: AttendanceStore, location: Option<LocationData>, draw: nat,
                         tokenTime: int, createdAt: int)
      returns (r: CreateOutcome)
      requires Valid() && store.Valid() && draw < 900000
      modifies this, store
      ensures Valid() && store.Valid()
      ensures step == old(step) && sessionData == old(sessionData)
      ensures errors == StepErrors(old(step), sessionData)
      ensures !StepValid(old(step), sessionData) ==> r == Invalid && loading == old(loading) && unchanged(store)
      ensures StepValid(old(step), sessionData) ==> !loading
      ensures StepValid(old(step), sessionData) && location.None? ==>
        r == Failed(NoLocationMessage) && unchanged(store)
      ensures StepValid(old(step), sessionData) && location.Some? && lecturer.None? ==>
        r == TypeError && unchanged(store)
      ensures StepValid(old(step), sessionData) && location.Some? && lecturer.Some? ==>
        && r.Created? && r.sessionId !in old(store.sessions)
        && var pin := GenerateSessionPin(draw);
        && var token := CreationToken(sessionData, lecturer.value, location.value, pin, tokenTime);
        && store.sessions == old(store.sessions)[r.sessionId :=
             SessionFromDraft(r.sessionId, DraftOf(sessionData, lecturer.value, location.value, pin, token), createdAt)]
        && store.sessionIds == old(store.sessionIds) + [r.sessionId]
        && store.attendance == old(store.attendance)
    {
      var ok := ValidateStep(step);
      if !ok {
        return Invalid;
      }
      loading := true;
      if location.None? {
        r := Failed(NoLocationMessage);
      } else {
        var pin := GenerateSessionPin(draw);
        if lecturer.None? {
          r := TypeError;
        } else {
          var qrData := CreationToken(sessionData, lecturer.value, location.value, pin, tokenTime);
          var id := store.CreateLectureSession(DraftOf(sessionData, lecturer.value, location.value, pin, qrData), createdAt);
          r := Created(id);
        }
      }
      loading := false;
    }
  }
}
