/** The student's QR check-in (`handleQRScanned` in components/StudentHomeScreen.tsx):
    an ordered chain of guards over the scanned text, the clock, the device location
    and the stored session, ending in one `recordAttendance` call. The guard chain is
    the pure function `Decide`; the screen's `scanning`/`showCamera` flags and the
    store write are the method `StudentHomeScreen.HandleQRScanned`. */
module StudentHome {
  import opened Wrappers
  import opened Decimal
  import opened Types
  import opened FlatJson
  import opened Qr
  import opened Attendance

  const NotActiveMessage: string := "This session is no longer active"
  const NoLocationMessage: string := "Unable to get your location. Please enable location services."
  const OutOfRangeMessage: string := "You must be within 100 meters of the class location to check in."
  const AlreadyCheckedInMessage: string := "You have already checked in for this session"
  const SuccessPrefix: string := "You have successfully checked in for "

  /** The fixed geofence radius, in metres. */
  const CheckInRadius: real := 100.0

  /** Why a check-in failed: an `Error` with a message, or the `TypeError` that
      `isSessionActive` raises (its message is the JavaScript engine's). */
  datatype Failure = Refused(message: string) | TypeError

  /** The guard chain's verdict: write a record for `session`, or fail. */
  datatype Decision = Accept(payload: Object, session: LectureSession) | Reject(failure: Failure)

  /** What one delivery of a scanned code leads to. */
  datatype ScanResult = Ignored | CheckedIn(message: string) | Failed(failure: Failure)

  /** A payload property: `None` is `undefined`. */
  function Field(o: Object, key: string): (v: Option<Value>)
    ensures v.Some? <==> key in o
    ensures v.Some? ==> v.value == o[key]
  {
    if key in o then Some(o[key]) else None
  }

  /** The text a template literal makes of a payload value. */
  function ValueText(v: Value): string {
    match v
    case Str(s) => s
    case Num(n) => IntToString(n)
  }

  /** `isWithinRadius`: the distance between the two points is at most the radius. */
  predicate WithinRadius(distance: (int, int, Value, Value) -> real,
                         userLat: int, userLon: int, targetLat: Value, targetLon: Value, radius: real)
  {
    distance(userLat, userLon, targetLat, targetLon) <= radius
  }

  /** `getActiveSession(qrData.sessionId)`: only a text id can name a stored document;
      an absent or numeric id yields `null`. */
  function StoredSession(sessions: map<string, LectureSession>, id: Option<Value>): (r: Option<LectureSession>)
    ensures r.Some? <==> id.Some? && id.value.Str? && id.value.s in sessions
    ensures r.Some? ==> r.value == sessions[id.value.s]
  {
    if id.Some? && id.value.Str? && id.value.s in sessions then Some(sessions[id.value.s]) else None
  }

  /** The scanned text parses and carries every required key. */
  predicate WellFormedToken(data: string) {
    ParseQRData(data).Ok? && ValidateQRData(ParseQRData(data).value) == Checked(true)
  }

  /** The scanned text is not JSON, or lacks a required key: 'Invalid QR code format'. */
  predicate MalformedToken(data: string) {
    ParseQRData(data).Err? || ValidateQRData(ParseQRData(data).value) == Checked(false)
  }

  /** The scanned text parses to an object whose own `hasOwnProperty` key makes
      `validateQRData` throw. */
  predicate ShadowedToken(data: string) {
    ParseQRData(data).Ok? && ValidateQRData(ParseQRData(data).value) == ShadowThrows
  }

  /** The object a well-formed scan parses to. */
  function Payload(data: string): Object
    requires ParseQRData(data).Ok?
  {
    ParseQRData(data).value
  }

  /** `isSessionActive(qrData.startTime, qrData.endTime, qrData.date)`. */
  function TokenActivity(o: Object, now: Clock): Activity {
    IsSessionActive(Field(o, "startTime"), Field(o, "endTime"), Field(o, "date"), now)
  }

  /** The keys the guard chain reads after validation are among the required ones. */
  lemma ValidPayloadPlaceKeys(o: Object)
    requires ValidateQRData(o) == Checked(true)
    ensures "courseName" in o && "latitude" in o && "longitude" in o
  {
    ValidateIff(o);
    assert RequiredFields[1] == "courseName" && RequiredFields[6] == "latitude" && RequiredFields[7] == "longitude";
  }

  /** The guard chain of `handleQRScanned`, from parsing the scanned text to the
      roster check; the first guard that fails decides the failure. */
  function Decide(data: string, user: User, now: Clock, location: Option<LocationData>,
                  distance: (int, int, Value, Value) -> real, sessions: map<string, LectureSession>): (d: Decision)
    ensures d.Accept? ==> WellFormedToken(data) && d.payload == ParseQRData(data).value
    ensures d.Accept? ==> TokenActivity(d.payload, now) == Active(true) && location.Some?
    ensures d.Accept? ==> "courseName" in d.payload && "latitude" in d.payload && "longitude" in d.payload
    ensures d.Accept? ==>
      (location.Some? && "latitude" in d.payload && "longitude" in d.payload &&
       distance(location.value.latitude, location.value.longitude,
                d.payload["latitude"], d.payload["longitude"]) <= CheckInRadius)
    ensures d.Accept? ==> var id := Field(d.payload, "sessionId");
      id.Some? && id.value.Str? && id.value.s in sessions && d.session == sessions[id.value.s]
    ensures d.Accept? ==> user.id !in d.session.checkedInStudents
  {
    match ParseQRData(data)
    case Err(message) => Reject(Refused(message))
    case Ok(o) =>
      match ValidateQRData(o)
      case ShadowThrows => Reject(TypeError)
      case Checked(valid) =>
        if !valid then Reject(Refused(InvalidFormatMessage))
        else
          ValidPayloadPlaceKeys(o);
          match TokenActivity(o, now)
          case Throws => Reject(TypeError)
          case Active(active) =>
            if !active then Reject(Refused(NotActiveMessage))
            else if location.None? then Reject(Refused(NoLocationMessage))
            else if !WithinRadius(distance, location.value.latitude, location.value.longitude,
                                  o["latitude"], o["longitude"], CheckInRadius) then
              Reject(Refused(OutOfRangeMessage))
            else match StoredSession(sessions, Field(o, "sessionId"))
              case None => Reject(Refused(SessionNotFoundMessage))
              case Some(session) =>
                if user.id in session.checkedInStudents then Reject(Refused(AlreadyCheckedInMessage))
                else Accept(o, session)
  }

  /** Each failure arises exactly when every earlier guard passed and its own guard
      failed, in the order parse/shape (a shadowed `hasOwnProperty` throws), activity
      window, location, radius, session lookup, roster. */
  lemma FirstFailingGuardDecides(data: string, user: User, now: Clock, location: Option<LocationData>,
                                 distance: (int, int, Value, Value) -> real,
                                 sessions: map<string, LectureSession>)
    ensures var d := Decide(data, user, now, location, distance, sessions);
      d == Reject(Refused(InvalidFormatMessage)) <==> MalformedToken(data)
    ensures var d := Decide(data, user, now, location, distance, sessions);
      d == Reject(TypeError) <==>
           ShadowedToken(data) || (WellFormedToken(data) && TokenActivity(Payload(data), now) == Throws)
    ensures var d := Decide(data, user, now, location, distance, sessions);
      d == Reject(Refused(NotActiveMessage)) <==>
           (WellFormedToken(data) && TokenActivity(Payload(data), now) == Active(false))
    ensures var d := Decide(data, user, now, location, distance, sessions);
      d == Reject(Refused(NoLocationMessage)) <==>
           (WellFormedToken(data) && TokenActivity(Payload(data), now) == Active(true)
             && location.None?)
    ensures var d := Decide(data, user, now, location, distance, sessions);
      d == Reject(Refused(OutOfRangeMessage)) <==>
           (WellFormedToken(data) && TokenActivity(Payload(data), now) == Active(true) && location.Some?
             && "latitude" in Payload(data) && "longitude" in Payload(data)
             && distance(location.value.latitude, location.value.longitude, Payload(data)["latitude"], Payload(data)["longitude"])
                > CheckInRadius)
    ensures var d := Decide(data, user, now, location, distance, sessions);
      d == Reject(Refused(SessionNotFoundMessage)) <==>
           (WellFormedToken(data) && TokenActivity(Payload(data), now) == Active(true) && location.Some?
             && "latitude" in Payload(data) && "longitude" in Payload(data)
             && distance(location.value.latitude, location.value.longitude, Payload(data)["latitude"], Payload(data)["longitude"])
                <= CheckInRadius
             && StoredSession(sessions, Field(Payload(data), "sessionId")).None?)
    ensures var d := Decide(data, user, now, location, distance, sessions);
      d == Reject(Refused(AlreadyCheckedInMessage)) <==>
           (WellFormedToken(data) && TokenActivity(Payload(data), now) == Active(true) && location.Some?
             && "latitude" in Payload(data) && "longitude" in Payload(data)
             && distance(location.value.latitude, location.value.longitude, Payload(data)["latitude"], Payload(data)["longitude"])
                <= CheckInRadius
             && StoredSession(sessions, Field(Payload(data), "sessionId")).Some?
             && user.id in StoredSession(sessions, Field(Payload(data), "sessionId")).value.checkedInStudents)
  {
    if WellFormedToken(data) {
      ValidPayloadPlaceKeys(ParseQRData(data).value);
    }
  }

  /** Every guard passing leads to acceptance. */
  lemma AllGuardsPassAccepts(data: string, user: User, now: Clock, location: Option<LocationData>,
                             distance: (int, int, Value, Value) -> real, sessions: map<string, LectureSession>)
    requires WellFormedToken(data)
    requires var o := ParseQRData(data).value;
      && TokenActivity(o, now) == Active(true) && location.Some?
      && "latitude" in o && "longitude" in o
      && distance(location.value.latitude, location.value.longitude, o["latitude"], o["longitude"]) <= CheckInRadius
      && StoredSession(sessions, Field(o, "sessionId")).Some?
      && user.id !in StoredSession(sessions, Field(o, "sessionId")).value.checkedInStudents
    ensures Decide(data, user, now, location, distance, sessions).Accept?
  {
  }

  /** A token made by `generateQRData` never checks anyone in: it has no `endTime`,
      so on the session's own date `isSessionActive` throws, and on any other day
      the session is not active. */
  lemma GeneratedTokenNeverAccepted(draft: SessionDraft, timestamp: int, user: User, now: Clock,
                                    location: Option<LocationData>, distance: (int, int, Value, Value) -> real,
                                    sessions: map<string, LectureSession>)
    ensures var d := Decide(GenerateQRData(draft, timestamp), user, now, location, distance, sessions);
      d == (if draft.date == now.today then Reject(TypeError) else Reject(Refused(NotActiveMessage)))
  {
    var data := GenerateQRData(draft, timestamp);
    GeneratedTokenValidates(draft, timestamp);
    GeneratedTokenRoundTrip(draft, timestamp);
    GeneratedPayloadFields(draft, timestamp);
    var o := GeneratedPayload(draft, timestamp);
    assert ParseQRData(data) == Ok(o);
    assert Field(o, "endTime") == None;
    assert Field(o, "date") == Some(Str(draft.date));
    assert TokenActivity(o, now) == (if draft.date == now.today then Throws else Active(false));
  }

  /** The geofence uses the payload's coordinates and the fixed radius: the stored
      session's coordinates and `allowedRadius` never change whether, or why, a
      check-in fails. */
  lemma StoredGeofenceIgnored(data: string, user: User, now: Clock, location: Option<LocationData>,
                              distance: (int, int, Value, Value) -> real,
                              sessions: map<string, LectureSession>, sessions': map<string, LectureSession>)
    requires sessions'.Keys == sessions.Keys
    requires forall k :: k in sessions ==>
      sessions'[k] == sessions[k].(latitude := sessions'[k].latitude, longitude := sessions'[k].longitude,
                                   allowedRadius := sessions'[k].allowedRadius)
    ensures Decide(data, user, now, location, distance, sessions).Reject?
        == Decide(data, user, now, location, distance, sessions').Reject?
    ensures Decide(data, user, now, location, distance, sessions).Reject? ==>
      Decide(data, user, now, location, distance, sessions) == Decide(data, user, now, location, distance, sessions')
  {
    if WellFormedToken(data) {
      var o := ParseQRData(data).value;
      ValidPayloadPlaceKeys(o);
      SameRosterLookup(sessions, sessions', Field(o, "sessionId"));
    }
  }

  /** Sessions that differ only in their geofence answer every lookup alike, roster included. */
  lemma SameRosterLookup(sessions: map<string, LectureSession>, sessions': map<string, LectureSession>,
                         id: Option<Value>)
    requires sessions'.Keys == sessions.Keys
    requires forall k :: k in sessions ==>
      sessions'[k] == sessions[k].(latitude := sessions'[k].latitude, longitude := sessions'[k].longitude,
                                   allowedRadius := sessions'[k].allowedRadius)
    ensures StoredSession(sessions, id).Some? == StoredSession(sessions', id).Some?
    ensures StoredSession(sessions, id).Some? ==>
      StoredSession(sessions, id).value.checkedInStudents == StoredSession(sessions', id).value.checkedInStudents
  {
    if id.Some? && id.value.Str? && id.value.s in sessions {
      assert sessions'[id.value.s].checkedInStudents == sessions[id.value.s].checkedInStudents;
    }
  }

  /** The alert shown after a successful check-in. */
  function SuccessMessage(payload: Object): string
    requires "courseName" in payload
  {
    SuccessPrefix + ValueText(payload["courseName"])
  }

  class StudentHomeScreen {
    const user: User
    var showCamera: bool
    var scanning: bool

    constructor (user: User)
      ensures this.user == user && !showCamera && !scanning
    {
      this.user := user;
      showCamera, scanning := false, false;
    }

    /** `handleQRScanned`: a scan delivered while one is being processed is ignored;
        otherwise the camera closes, the guard chain runs, and only an accepted scan
        records attendance, with method 'qr', for the user at the stored session.
        `scanning` is false again afterwards, on success and on failure. */
    method HandleQRScanned(store: AttendanceStore, data: string, now: Clock, nowMs: int,
                           location: Option<LocationData>, distance: (int, int, Value, Value) -> real)
      returns (r: ScanResult)
      requires store.Valid()
      modifies this, store
      ensures store.Valid()
      ensures old(scanning) ==>
        r == Ignored && scanning && showCamera == old(showCamera) && unchanged(store)
      ensures !old(scanning) ==> !scanning && !showCamera
      ensures !old(scanning) ==> match Decide(data, user, now, location, distance, old(store.sessions))
        case Reject(failure) => r == Failed(failure) && unchanged(store)
        case Accept(payload, session) =>
          && r == CheckedIn(SuccessMessage(payload))
          && store.attendance == old(store.attendance)
               + [NewRecord(NatToString(|old(store.attendance)|), session, user.id, user.name,
                            location.value, QrScan, nowMs)]
          && store.sessions == AddToRoster(old(store.sessions), session.id, user.id)
          && store.sessionIds == old(store.sessionIds)
      ensures OneRecordPerStudent(old(store.attendance)) ==> OneRecordPerStudent(store.attendance)
    {
      if scanning {
        return Ignored;
      }
      ghost var sessions0, attendance0 := store.sessions, store.attendance;
      scanning := true;
      showCamera := false;
      assert store.sessions == sessions0 && store.attendance == attendance0;
      r := CheckIn(store, data, now, nowMs, location, distance);
      scanning := false;
    }

    /** The `try` block of `handleQRScanned`: the guard chain, then, for an accepted
        scan, the `recordAttendance` call; a failure leaves the store as it was. */
    method CheckIn(store: AttendanceStore, data: string, now: Clock, nowMs: int,
                   location: Option<LocationData>, distance: (int, int, Value, Value) -> real)
      returns (r: ScanResult)
      requires store.Valid()
      modifies store
      ensures store.Valid()
      ensures match Decide(data, user, now, location, distance, old(store.sessions))
        case Reject(failure) => r == Failed(failure) && unchanged(store)
        case Accept(payload, session) =>
          && r == CheckedIn(SuccessMessage(payload))
          && store.attendance == old(store.attendance)
               + [NewRecord(NatToString(|old(store.attendance)|), session, user.id, user.name,
                            location.value, QrScan, nowMs)]
          && store.sessions == AddToRoster(old(store.sessions), session.id, user.id)
          && store.sessionIds == old(store.sessionIds)
      ensures OneRecordPerStudent(old(store.attendance)) ==> OneRecordPerStudent(store.attendance)
    {
      var decision := Decide(data, user, now, location, distance, store.sessions);
      match decision {
        case Reject(failure) =>
          r := Failed(failure);
        case Accept(payload, session) =>
          assert payload["sessionId"].s in store.sessions;
          RecordCheckIn(store, payload["sessionId"].s, location.value, nowMs);
          r := CheckedIn(SuccessMessage(payload));
      }
    }

    /** The write an accepted scan makes: one `recordAttendance` call, with method 'qr',
        for a user not yet on the roster of the session stored under `sessionId`. */
    method RecordCheckIn(store: AttendanceStore, sessionId: string, location: LocationData, nowMs: int)
      requires store.Valid() && sessionId in store.sessions
      requires user.id !in store.sessions[sessionId].checkedInStudents
      modifies store
      ensures old(store.sessions)[sessionId].id == sessionId
      ensures store.Valid()
      ensures store.attendance == old(store.attendance)
        + [NewRecord(NatToString(|old(store.attendance)|), old(store.sessions)[sessionId], user.id, user.name,
                     location, QrScan, nowMs)]
      ensures store.sessions == AddToRoster(old(store.sessions), sessionId, user.id)
      ensures store.sessionIds == old(store.sessionIds)
      ensures OneRecordPerStudent(old(store.attendance)) ==> OneRecordPerStudent(store.attendance)
    {
      var session := store.sessions[sessionId];
      ghost var before := store.attendance;
      ghost var record := NewRecord(NatToString(|before|), session, user.id, user.name, location, QrScan, nowMs);
      if OneRecordPerStudent(before) {
        AppendForAbsentStudentKeepsOneRecord(store.sessions, store.sessionIds, before, record);
      }
      var outcome := store.RecordAttendance(session.id, user.id, user.name, location, QrScan, nowMs);
    }
  }
}
