# Smart attendance: check-in verification, modelled in Dafny

The application lets a lecturer create a timed lecture session and lets students check in by scanning the session's QR code. The device's position is used to confirm that a student is physically present.

This project models and proves the application's check-in logic:

- **QR token codec and activity clock** (`utils/qr.ts`):
  - the six-digit session PIN;
  - the token payload, written as a flat JSON object with a proved parse-after-stringify round trip;
  - `parseQRData` and its format error;
  - the required-keys check `validateQRData`, including the `TypeError` it throws when the payload shadows `hasOwnProperty`;
  - the inclusive time-window test `isSessionActive`, evaluated at an explicit `now`.
- **Attendance store** (`services/attendance.ts`):
  - a class holding the `sessions` collection (a map keyed by document id), the `attendance` collection (a sequence) and fresh-id allocation;
  - `createLectureSession`, `getActiveSession` and `recordAttendance`, with `arrayUnion` as append-if-absent;
  - the two filter-then-sort queries.
  - The invariant kept by the store: every roster holds exactly the students that have a record for its session.
- **QR check-in pipeline** (`handleQRScanned` in `components/StudentHomeScreen.tsx`):
  - the guard chain as a pure decision, with six checks in order: shape, window, location, radius, session lookup and roster;
  - the screen's `scanning`/`showCamera` flags;
  - the single store write made on acceptance.
- **Session-creation wizard** (`app/lecturer/create-session.tsx`):
  - per-step validation into an error map;
  - the 1..3 step counter;
  - field edits;
  - `createSession`, which stores the session together with the token built for it.
- **Auth form** (`app/auth/index.tsx`):
  - the error map;
  - the unanchored pattern `\S+@\S+\.\S+`, checked by a small automaton that is proved equivalent to an existential statement of the pattern;
  - the password's minimum length, counted in UTF-16 code units;
  - role-dependent required fields;
  - the mode switch, field edits, and the call `handleAuth` makes.

The code's quirks are modelled as written:

- The token always carries `sessionId: 'temp_id'`, and the session is stored with that token.
- The token has no `endTime`. On the session's date, `isSessionActive` therefore calls `split` on `undefined` and throws. The pipeline reports that as a failure.
- As a consequence, a token produced by `createSession` never checks anyone in (`StudentHome.GeneratedTokenNeverAccepted`).
- Even with an `endTime`, the placeholder id names no stored session (`CreateSession.PlaceholderNeverStored`).
- `recordAttendance` itself has no duplicate check (`Attendance.RecordTwice`).
- `validateQRData` calls `qrData.hasOwnProperty` on the parsed object. A token whose JSON has its own `hasOwnProperty` key hides that method, so validation throws a `TypeError`, which the pipeline reports as a failure (`Qr.ShadowedPayloadThrows`).

In four places the application's intended design and its code disagree. The model follows the code in each:

- The geofence uses the fixed radius of 100 m and the token's coordinates. It does not use the session's `allowedRadius` or the stored anchor.
- There is no PIN check-in path.
- A genuine token is never accepted.
- An unparsable token and a token missing a required key produce the same message.

Modules, one file each: `Wrappers`, `Decimal` (numerals), `FlatJson` (the flat JSON object codec), `Qr`, `Ordering` (filter and stable descending sort), `Types` (records of `types/index.ts`), `Attendance`, `StudentHome`, `CreateSession` and `AuthForm`.

External inputs are parameters:

- the current time: a calendar day, the milliseconds since local midnight, and epoch milliseconds;
- the device location, or none;
- the distance function used by the geofence;
- the random draw behind the PIN;
- the thrown message of the auth service.

## Model

| member | source | states |
|---|---|---|
| Qr.GenerateSessionPin | utils/qr.ts:3-5 | the PIN is the decimal numeral of `100000 + draw` |
| Qr.PinIsSixDigits | utils/qr.ts:3-5 | every PIN has six decimal digits, no leading zero, and value `100000 + draw` |
| Qr.QrMembersDistinctKeys | utils/qr.ts:8-20 | the token's object literal has no repeated key |
| Qr.QrMemberLookup | utils/qr.ts:8-20 | each member of the literal is what the parsed object holds under its key |
| Qr.GeneratedPayloadKeys | utils/qr.ts:8-20 | the payload has exactly the eleven keys of the literal |
| Qr.GeneratedPayloadFields | utils/qr.ts:8-20 | the payload holds `sessionId = 'temp_id'`, the nine copied session fields as given, and the timestamp |
| Qr.OmittedKeys | utils/qr.ts:8-20 | `endTime`, `lecturerId` and `allowedRadius` are absent |
| Qr.GeneratedTokenParses | utils/qr.ts:22-27 | `JSON.parse` of the generated token gives back the literal's object |
| Qr.GenerateQRData | utils/qr.ts:7-23 | `JSON.stringify` of the eleven-member literal; `Qr.GeneratedTokenRoundTrip` proves what `parseQRData` reads back from it |
| Qr.GeneratedTokenRoundTrip | utils/qr.ts:7-31 | `parseQRData(generateQRData(s))` succeeds with the generated payload, which lacks `endTime`, `lecturerId` and `allowedRadius` |
| Qr.ParseQRDataInvertsStringify | utils/qr.ts:25-31 | `parseQRData` succeeds on every stringified flat object and gives back that object, the last duplicate key winning |
| Qr.ParseRejectsNonJson | utils/qr.ts:25-31 | empty text, bare words and truncated objects give the format error |
| Qr.ValidateQRData | utils/qr.ts:33-41 | `validateQRData`: the outcome of `.every` over the ten required keys, true, false or a thrown `TypeError`; its meaning is `Qr.ValidateIff` |
| Qr.EveryHasOwnIff | utils/qr.ts:40 | over a non-empty key list, `.every(f => o.hasOwnProperty(f))` throws exactly when `o` has its own `hasOwnProperty` key, and otherwise is true exactly when each listed key is present |
| Qr.ValidateIff | utils/qr.ts:33-41 | `validateQRData` throws exactly when the payload has its own `hasOwnProperty` key. Otherwise it is true exactly when all ten required keys are present, whatever their values, and false exactly when one is missing |
| Qr.ValidateMonotone | utils/qr.ts:33-41 | adding keys to a valid payload keeps it valid, unless one of them is `hasOwnProperty`, which makes validation throw |
| Qr.ValidateIgnoresSessionIdAndEndTime | utils/qr.ts:33-41 | `sessionId` and `endTime` are not required |
| Qr.ValidateRejectsMissingField | utils/qr.ts:33-41 | missing any one required key fails validation: false, or the throw when `hasOwnProperty` is shadowed |
| Qr.GeneratedTokenValidates | utils/qr.ts:7-41 | a parsed, freshly generated token always validates |
| Qr.RequiredAreTokenKeys | utils/qr.ts:8-38 | the literal's keys include every required key and not `hasOwnProperty` |
| Qr.ShadowedPayloadThrows | utils/qr.ts:33-41 | a generated payload with an extra own `hasOwnProperty` key still holds every required key, yet validation throws |
| Qr.ToNumberOfIntToString | utils/qr.ts:52 | `Number(String(n)) === n` for every integer, negative ones included |
| Qr.ToNumberOfPlusSign | utils/qr.ts:52 | a `+` sign before a numeral is accepted: `Number('+' + String(n)) === n` |
| Qr.IndexOfColon | utils/qr.ts:52 | the position of the first `:` (or the length), with no `:` before it |
| Qr.TimeOfDayMs | utils/qr.ts:52-59 | `split(':').map(Number)` then `setHours(h, m, 0, 0)`: milliseconds after midnight, or an invalid date; `Qr.ClockTextTime` gives its value on `HH:MM` text |
| Qr.InactiveOffSessionDate | utils/qr.ts:47-50 | on any day but the session's date it returns false, whatever the times |
| Qr.IsSessionActive | utils/qr.ts:43-62 | `isSessionActive` at an explicit `now`: false off the session date, a throw when a time is not text, else the inclusive window test; its properties are `Qr.InactiveOffSessionDate`, `Qr.ActiveIffWithinWindow`, `Qr.EmptyWindowNeverActive` and `Qr.MissingEndTimeThrows` |
| Qr.TwoDigits | utils/qr.ts:52-53 | the two-digit text of a number below 100 has that value |
| Qr.ClockTextTime | utils/qr.ts:52-59 | `HH:MM` denotes `HH*3600000 + MM*60000` ms after the day's midnight |
| Qr.ActiveIffWithinWindow | utils/qr.ts:52-61 | on the session date it is true exactly when start ≤ now ≤ end, both inclusive, at `HH:MM:00.000` |
| Qr.EmptyWindowNeverActive | utils/qr.ts:52-61 | a start after the end is never active |
| Qr.MissingEndTimeThrows | utils/qr.ts:52-53 | on the session date, an absent `endTime` makes it throw |
| Qr.ClockTextExamples | utils/qr.ts:52 | `09:00` and `10:00` are the two-digit texts of 9:00 and 10:00 |
| Qr.NineToTenExample | utils/qr.ts:43-62 | 09:00–10:00: active at 09:30 and at 10:00, not at 08:59, not on another day |
| Decimal.NatToString | utils/qr.ts:4 | `toString` of a whole number is a non-empty digit string, with a leading zero only for 0 |
| Decimal.DecimalValueOfNatToString | utils/qr.ts:4 | the numeral of `n` has value `n` |
| Decimal.NatToStringInjective | services/attendance.ts:19-25 | distinct numbers have distinct numerals, so allocated ids never collide |
| Decimal.NatToStringLength | utils/qr.ts:4 | a number in `[10^(k-1), 10^k)` has a `k`-digit numeral |
| FlatJson.EscapeChar | utils/qr.ts:22 | the escape of one character never starts with a quote |
| FlatJson.EscapeCharRoundTrip | utils/qr.ts:22-27 | reading back an escaped character gives it back with the rest of the text |
| FlatJson.EscapeStringRoundTrip | utils/qr.ts:22-27 | reading back an escaped string stops at the closing quote with the string |
| FlatJson.QuoteStringRoundTrip | utils/qr.ts:22-27 | a quoted string reads back to itself |
| FlatJson.NatRoundTrip | utils/qr.ts:22-27 | a written whole number reads back to itself |
| FlatJson.IntRoundTrip | utils/qr.ts:22-27 | a written integer, negative ones included, reads back to itself |
| FlatJson.ValueRoundTrip | utils/qr.ts:22-27 | a written value reads back to itself |
| FlatJson.MemberRoundTrip | utils/qr.ts:22-27 | a written `"key":value` member reads back to itself |
| FlatJson.MembersRoundTrip | utils/qr.ts:22-27 | a comma-separated member list reads back to the same members |
| FlatJson.Stringify | utils/qr.ts:22 | `JSON.stringify` of a flat object, members in order; inverted by `FlatJson.StringifyRoundTrip` |
| FlatJson.Parse | utils/qr.ts:27 | `JSON.parse` of a flat object of strings and integers, whitespace allowed around the tokens; inverts `FlatJson.Stringify` by `FlatJson.StringifyRoundTrip` |
| FlatJson.StringifyRoundTrip | utils/qr.ts:22-27 | `JSON.parse(JSON.stringify(o))` gives back the object, later duplicate keys winning |
| FlatJson.ToObject | utils/qr.ts:27 | the parsed object's keys are exactly the members' keys |
| FlatJson.ToObjectLookup | utils/qr.ts:27 | a key's value is that of its last member |
| Types.SessionFromDraft | services/attendance.ts:19-23 | a stored session has the given id and creation time and an empty roster |
| Attendance.ArrayUnion | services/attendance.ts:108-110 | the roster then contains the student; the old entries keep their order; it is unchanged exactly when the student was already present; at most one element is added; no duplicates arise |
| Attendance.AddToRoster | services/attendance.ts:107-110 | only the named session's roster changes, by `arrayUnion` |
| Attendance.NewRecord | services/attendance.ts:88-105 | the present record `recordAttendance` adds, with the session's course; `Attendance.AttendanceStore.RecordAttendance` states where it goes |
| Attendance.DocsOf | services/attendance.ts:54-60 | the documents listed under the ids, in order |
| Attendance.DocsCoverStore | services/attendance.ts:54-60 | the documents under the allocated ids are exactly the stored sessions |
| Attendance.DocsListEachOnce | services/attendance.ts:54-60 | each document carries the id it is listed under, and no id is listed twice |
| Ordering.Filter | services/attendance.ts:54-56 | `where('==')` keeps exactly the matching elements |
| Ordering.InsertPermutes | services/attendance.ts:57 | inserting adds exactly one element |
| Ordering.InsertSorted | services/attendance.ts:57 | inserting into a descending sequence keeps it descending |
| Ordering.InsertElements | services/attendance.ts:57 | inserting keeps every element and adds only the new one |
| Ordering.SortDescCorrect | services/attendance.ts:57 | `orderBy(desc)` is a permutation in descending order |
| Ordering.Query | services/attendance.ts:54-60 | a filtered, ordered query returns each matching element as often as it is stored, in descending key order |
| Attendance.LecturerSessions | services/attendance.ts:52-71 | exactly the sessions of the lecturer, as a permutation of the filter, newest `createdAt` first |
| Attendance.StudentAttendance | services/attendance.ts:118-137 | exactly the records of the student, as a permutation of the filter, newest `checkInTime` first |
| Attendance.NextIdIsFresh | services/attendance.ts:19-25 | the next allocated id names no stored session |
| Attendance.CreateKeepsInvariant | services/attendance.ts:17-30 | storing a new session under the next id keeps the store invariant |
| Attendance.RecordKeepsInvariant | services/attendance.ts:73-116 | appending a record and its roster entry keeps the store invariant, rosters matching records included |
| Attendance.AttendeesAfterAppend | services/attendance.ts:102-110 | appending a record adds its student to its session's attendees and changes no other session's |
| Attendance.AppendForAbsentStudentKeepsOneRecord | components/StudentHomeScreen.tsx:133-144 | appending for a student missing from the roster keeps at most one record per session and student |
| Attendance.AttendanceStore.constructor | services/attendance.ts:17-30 | an empty store satisfies the invariant |
| Attendance.AttendanceStore.CreateLectureSession | services/attendance.ts:17-30 | stores the draft under a fresh id, with an empty roster, and returns the id; records are untouched |
| Attendance.AttendanceStore.GetActiveSession | services/attendance.ts:32-50 | the session stored under the id, whose `id` is that id, or none when there is no such document |
| Attendance.AttendanceStore.RecordAttendance | services/attendance.ts:73-116 | unknown session: fails with 'Session not found' and writes nothing. Otherwise it appends exactly one present record and adds the student with `arrayUnion`. The record holds the ids and name, the course copied from the session, the location's coordinates and the method. Other sessions and earlier records are unchanged |
| Attendance.AttendanceStore.SessionDocs | services/attendance.ts:54-60 | the stored sessions as documents: each exactly once, in creation order |
| Attendance.AttendanceStore.GetLecturerSessions | services/attendance.ts:52-71 | exactly the stored sessions of the lecturer, each once (a permutation of the filtered documents), newest first |
| Attendance.AttendanceStore.GetStudentAttendance | services/attendance.ts:118-137 | exactly the stored records of the student, each as often as stored (a permutation of the filtered records), newest first |
| Attendance.RecordTwice | services/attendance.ts:81-110 | recording the same student twice writes two records, and the roster still holds the student once |
| StudentHome.WithinRadius | services/location.ts:58-67 | `isWithinRadius`: the distance, a parameter, is at most the radius; `StudentHome.Decide` applies it with 100 m to the payload's coordinates |
| StudentHome.Decide | components/StudentHomeScreen.tsx:95-135 | an accepted scan parsed and validated (no shadowed `hasOwnProperty`) and is within its window. The location is known and within 100 m of the payload's coordinates. The session named by the payload exists, and the user is not on its roster |
| StudentHome.FirstFailingGuardDecides | components/StudentHomeScreen.tsx:95-135 | each failure arises exactly when every earlier guard passed and its own failed. The order is shape (a format error, or a `TypeError` when the payload shadows `hasOwnProperty`), window (false or throwing), location, radius, session lookup, roster |
| StudentHome.AllGuardsPassAccepts | components/StudentHomeScreen.tsx:95-144 | when every guard passes, validation included (so no shadowed `hasOwnProperty`), the scan is accepted |
| StudentHome.GeneratedTokenNeverAccepted | components/StudentHomeScreen.tsx:96-105 | a token made by `generateQRData` is always refused: on its date `isSessionActive` throws (no `endTime`), on other days it is inactive |
| StudentHome.StoredGeofenceIgnored | components/StudentHomeScreen.tsx:114-135 | the stored session's coordinates and `allowedRadius` never change whether, or why, a scan fails |
| StudentHome.SameRosterLookup | components/StudentHomeScreen.tsx:127-135 | stores differing only in the geofence fields find the same sessions with the same rosters |
| StudentHome.StudentHomeScreen.constructor | components/StudentHomeScreen.tsx:45-46 | the camera is closed and no scan is in progress |
| StudentHome.StudentHomeScreen.HandleQRScanned | components/StudentHomeScreen.tsx:88-157 | a scan during a scan is ignored and changes nothing. Otherwise the camera closes and `scanning` ends false. A refused scan leaves the store unchanged. An accepted one calls `recordAttendance` once with the session's id, the user's id and name, the location and 'qr'. At most one record per session and student is kept |
| StudentHome.StudentHomeScreen.CheckIn | components/StudentHomeScreen.tsx:94-151 | the guarded part of the scan handler. A refused scan gives its failure and leaves the store unchanged. An accepted one appends one record and adds the user to the session's roster; the session list is unchanged and at most one record per session and student is kept |
| StudentHome.StudentHomeScreen.RecordCheckIn | components/StudentHomeScreen.tsx:137-144 | the `recordAttendance` call: appends the record with the next id, the session, the user's id and name, the location, 'qr' and the time, and adds the user to that session's roster |
| CreateSession.WithField | app/lecturer/create-session.tsx:165-166 | only the named field takes the new value |
| CreateSession.PairValue | app/lecturer/create-session.tsx:82-83 | the value of two digits, below 100 |
| CreateSession.WizardTime | app/lecturer/create-session.tsx:82-83 | a parsed `2000-01-01T`+time lies within one day |
| CreateSession.WizardTimeOfClockText | app/lecturer/create-session.tsx:82-84 | `HH:MM` parses to `HH*3600 + MM*60` seconds |
| CreateSession.StepErrors | app/lecturer/create-session.tsx:69-92 | the error map `validateStep` builds; its meaning is `CreateSession.StepErrorsMeaning` |
| CreateSession.StepErrorsMeaning | app/lecturer/create-session.tsx:69-92 | step 1 reports exactly the empty course id and name. Step 2 reports exactly the empty room, date, start and end, and the end also when both times are valid and start ≥ end. Each error has its message. Any other step reports nothing |
| CreateSession.StepErrorsEmptyIff | app/lecturer/create-session.tsx:69-92 | `validateStep` is true exactly when the step is complete; step 3 always is |
| CreateSession.TimeOrderExamples | app/lecturer/create-session.tsx:81-87 | 09:00–10:00 passes; 10:00–09:00 and 09:00–09:00 fail |
| CreateSession.PlaceholderNeverStored | app/lecturer/create-session.tsx:123-146 | no stored session has the id 'temp_id' |
| CreateSession.DraftOf | app/lecturer/create-session.tsx:136-146 | the object `createSession` passes to `createLectureSession`: the form, the lecturer's name and id, the location, the PIN, the token and `isActive` |
| CreateSession.CreationToken | app/lecturer/create-session.tsx:122-133 | the token built before the session exists, with `qrData` empty; `CreateSession.TokenPayload` states what it parses to |
| CreateSession.TokenPayload | app/lecturer/create-session.tsx:123-133 | the token of a draft parses, validates, lacks `endTime`, and repeats the draft's PIN, date, start and coordinates under 'temp_id' |
| CreateSession.StoredTokenFacts | app/lecturer/create-session.tsx:122-146 | the stored session's `qrData` parses with `sessionId` 'temp_id', the session's own six-digit PIN and no `endTime`, and the session is active |
| CreateSession.CreateSessionScreen.constructor | app/lecturer/create-session.tsx:39-51 | step 1, no errors, an empty form dated today, radius 100 |
| CreateSession.CreateSessionScreen.ValidateStep | app/lecturer/create-session.tsx:69-92 | the error map becomes the step's errors; true exactly when the step is complete |
| CreateSession.CreateSessionScreen.NextStep | app/lecturer/create-session.tsx:94-101 | advances by one only when the step validates and is below 3; the step stays within 1..3 |
| CreateSession.CreateSessionScreen.PrevStep | app/lecturer/create-session.tsx:103-108 | goes back one only above step 1, without validating |
| CreateSession.CreateSessionScreen.UpdateSessionData | app/lecturer/create-session.tsx:165-170 | sets only the named field and blanks only that field's shown error |
| CreateSession.CreateSessionScreen.CreateSession | app/lecturer/create-session.tsx:110-163 | stores nothing when validation fails, the location is missing or no lecturer is signed in. Otherwise it stores under a fresh id the form, the lecturer, the location, the PIN of the draw, the token built first, and `isActive`. Loading ends false |
| AuthForm.ScanMeaning | app/auth/index.tsx:89 | each automaton state means a partial match of `\S+@\S+\.\S+` ending at the read position |
| AuthForm.DomainStep | app/auth/index.tsx:89 | one character extends the `\S+@\S+` part exactly when it is a non-space following an `@` or that part |
| AuthForm.FoundStep | app/auth/index.tsx:89 | a match appears with a new character exactly when it is a non-space after a `.` ending the `\S+@\S+` part |
| AuthForm.MatchesEmail | app/auth/index.tsx:89 | `/\S+@\S+\.\S+/.test`, run as the automaton; `AuthForm.MatchesEmailIff` states what it accepts |
| AuthForm.MatchesEmailIff | app/auth/index.tsx:89 | the regex test is true exactly when the text contains a match: non-space, `@`, non-spaces, `.`, non-space |
| AuthForm.EmailsAccepted | app/auth/index.tsx:89 | a match may sit inside a longer text |
| AuthForm.EmailsRejected | app/auth/index.tsx:89 | text is needed before `@`, between `@` and `.`, and after `.`, with no space |
| AuthForm.Utf16Length | app/auth/index.tsx:95 | the password length counts code units: at least one and at most two per character |
| AuthForm.WithField | app/auth/index.tsx:148-149 | only the named field takes the new value |
| AuthForm.FormErrors | app/auth/index.tsx:84-113 | the error map `validateForm` builds; its meaning is `AuthForm.FormErrorsMeaning` |
| AuthForm.FormErrorsMeaning | app/auth/index.tsx:84-113 | the email error: empty (required) or no match (invalid). The password error: length below 6, with 'required' when empty. In login mode nothing else. In signup mode, the empty name and department, and the empty student id only for role 'student'. Each error has its message |
| AuthForm.FormErrorsEmptyIff | app/auth/index.tsx:84-113 | `validateForm` is true exactly when the form is complete |
| AuthForm.RoleAndLengthExamples | app/auth/index.tsx:95-108 | a lecturer needs no student id, a student does; three characters outside the Basic Multilingual Plane are six code units |
| AuthForm.AuthScreen.constructor | app/auth/index.tsx:39-50 | login mode, no errors, an empty student form |
| AuthForm.AuthScreen.ToggleAuthMode | app/auth/index.tsx:75-82 | selects the mode and clears all errors |
| AuthForm.AuthScreen.AddSignUpErrors | app/auth/index.tsx:99-109 | the sign-up block: adds the name and department errors and, for role 'student', the student-id error to those already found; `AuthForm.FormErrorsMeaning` states which keys result |
| AuthForm.AuthScreen.ValidateForm | app/auth/index.tsx:84-113 | the error map becomes the form's errors; true exactly when the form is complete |
| AuthForm.AuthScreen.UpdateFormData | app/auth/index.tsx:148-153 | sets only the named field and blanks only that field's shown error |
| AuthForm.AuthScreen.HandleAuth | app/auth/index.tsx:115-146 | no call and the validation errors when the form is incomplete. Otherwise a sign-in in login mode, or a sign-up with the role's additional data. A thrown message, or 'Authentication failed' when it is empty, becomes the only error. Loading ends false |

## Left out

- The haversine distance (`services/location.ts`) is floating-point trigonometry. The geofence takes the distance as a function parameter and keeps the inclusive `<= 100` comparison.
- Device location, permissions and the mock-location check are I/O. The location is a parameter, or none.
- `services/auth.ts` and Firebase authentication are an external identity service. `handleAuth` returns the call it would make, and takes the thrown message as a parameter. Setting the user and navigating are not modelled.
- Firestore-specific behaviour is not modelled: `Timestamp` conversion, logging, errors turned into `null` or `[]`, and the composite index a filtered and ordered query needs. Times are integers in milliseconds.
- Document ids are modelled as the decimal numerals of a counter. Firestore's random ids are not modelled; the model relies only on the fact that ids are fresh and are not 'temp_id'.
- `Math.random` is replaced by the integer `draw`. `Date.now()`, `Timestamp.now()` and `new Date()` are separate integer parameters.
- Time zones are not modelled. `isSessionActive` compares the session's date text with the current calendar day, and measures the current time as milliseconds since local midnight. The UTC-versus-local shift of `new Date(date)` is not modelled. A non-text date never matches today.
- The read-then-write race between the roster check and `arrayUnion` is concurrency; the model is sequential. The asynchronous overlap of scans is captured only by the `scanning` flag.
- The JSON grammar beyond a flat object of strings and integers is not modelled: fractions, exponents, `true`/`false`/`null`, arrays and nested objects are parse errors here. For `null`, whose `hasOwnProperty` call throws in the source, the model gives the format error instead. A `\u` escape of a lone surrogate (which Dafny's `char` cannot hold) is also a parse error. Integers are written in full, although JavaScript uses exponent notation from 1e21 and loses precision beyond 2^53.
- Qr.ToNumber: covers an optional sign followed by decimal digits (empty counts as 0). Any other text, including whitespace, decimals, hexadecimal and exponent forms, counts as `NaN`, and then the session is treated as inactive.
- CreateSession.WizardTime: only the ISO forms `HH:mm` and `HH:mm:ss` are parsed. Other texts count as invalid dates, which the wizard never compares. Fractional seconds, offsets and engines' lenient legacy parsing are not modelled.
- StudentHome.Decide: the `TypeError`s thrown by `validateQRData` (shadowed `hasOwnProperty`) and by `isSessionActive` are one failure kind, without their engine-specific messages.
- Attendance.LecturerSessions and Attendance.StudentAttendance: equal keys keep creation order. Firestore breaks ties by document id.
- The PIN check-in path does not exist in the code, so there is nothing to model for it.
- Rendering, animations, styles, navigation, alerts' buttons and the camera permission flow are UI.
