/** The QR token codec and the session activity clock (utils/qr.ts). */
module Qr {
  import opened Wrappers
  import opened Decimal
  import opened FlatJson
  import opened Types

  // ---------------------------------------------------------------- PIN

  /** `generateSessionPin`: `floor(100000 + r * 900000)` written in decimal. The
      random `r` in [0, 1) is represented by `draw`, the integer `floor(r * 900000)`. */
  function GenerateSessionPin(draw: nat): (pin: string)
    requires draw < 900000
  {
    NatToString(100000 + draw)
  }

  /** Every PIN is six decimal digits with a nonzero first digit and denotes 100000 + draw. */
  lemma PinIsSixDigits(draw: nat)
    requires draw < 900000
    ensures var pin := GenerateSessionPin(draw);
      |pin| == 6 && AllDigits(pin) && pin[0] != '0' && DecimalValue(pin) == 100000 + draw
  {
    assert Pow10(5) == 100000 && Pow10(6) == 1000000;
    NatToStringLength(100000 + draw, 6);
    DecimalValueOfNatToString(100000 + draw);
  }

  // ---------------------------------------------------------------- token

  /** The placeholder the token carries instead of the session's real id. */
  const TempSessionId: string := "temp_id"

  /** The object literal `generateQRData` builds, in its key order. */
  function QrMembers(d: SessionDraft, timestamp: int): seq<Member> {
    [ ("sessionId", Str(TempSessionId)),
      ("courseId", Str(d.courseId)),
      ("courseName", Str(d.courseName)),
      ("lecturerName", Str(d.lecturerName)),
      ("roomLocation", Str(d.roomLocation)),
      ("date", Str(d.date)),
      ("startTime", Str(d.startTime)),
      ("latitude", Num(d.latitude)),
      ("longitude", Num(d.longitude)),
      ("pin", Str(d.pin)),
      ("timestamp", Num(timestamp)) ]
  }

  /** `generateQRData`; `timestamp` is the `Date.now()` reading. */
  function GenerateQRData(d: SessionDraft, timestamp: int): string {
    Stringify(QrMembers(d, timestamp))
  }

  const InvalidFormatMessage: string := "Invalid QR code format"

  /** `parseQRData`: the parsed object, or the error it throws on text that is not JSON. */
  function ParseQRData(text: string): (r: Result<Object, string>)
    ensures r.Err? ==> r.error == InvalidFormatMessage
    ensures r.Ok? <==> Parse(text).Some?
    ensures r.Ok? ==> r.value == Parse(text).value
  {
    match Parse(text)
    case Some(o) => Ok(o)
    case None => Err(InvalidFormatMessage)
  }

  /** `parseQRData` inverts `JSON.stringify` on every flat object, duplicate keys
      resolved as `JSON.parse` does. */
  lemma ParseQRDataInvertsStringify(ms: seq<Member>)
    ensures ParseQRData(Stringify(ms)) == Ok(ToObject(ms))
  {
    StringifyRoundTrip(ms);
  }

  const RequiredFields: seq<string> :=
    ["courseId", "courseName", "lecturerName", "roomLocation", "date", "startTime",
     "latitude", "longitude", "pin", "timestamp"]

  /** What `validateQRData` does: answers, or throws a `TypeError` because the payload's
      own `hasOwnProperty` property hides the method it calls. */
  datatype Validation = Checked(valid: bool) | ShadowThrows

  /** A parsed value is never a function, so an own property under this name makes
      every `o.hasOwnProperty(...)` call throw. */
  const HasOwnPropertyKey: string := "hasOwnProperty"

  /** `fields.every(field => o.hasOwnProperty(field))`: stops at the first missing key;
      the first call throws when `o` has its own `hasOwnProperty` property. */
  function EveryHasOwn(fields: seq<string>, o: Object): Validation {
    if |fields| == 0 then Checked(true)
    else if HasOwnPropertyKey in o then ShadowThrows
    else if fields[0] in o then EveryHasOwn(fields[1..], o)
    else Checked(false)
  }

  /** `validateQRData`. */
  function ValidateQRData(o: Object): Validation {
    EveryHasOwn(RequiredFields, o)
  }

  /** `.every` over a non-empty list throws exactly when the method is shadowed, and
      otherwise is true exactly when each listed key is present. */
  lemma {:induction false} EveryHasOwnIff(fields: seq<string>, o: Object)
    ensures EveryHasOwn(fields, o) ==
      if |fields| > 0 && HasOwnPropertyKey in o then ShadowThrows
      else Checked(forall i :: 0 <= i < |fields| ==> fields[i] in o)
    decreases |fields|
  {
    if |fields| > 0 && HasOwnPropertyKey !in o {
      EveryHasOwnIff(fields[1..], o);
      assert forall i :: 1 <= i < |fields| ==> fields[i] == fields[1..][i - 1];
    }
  }

  /** A payload with its own `hasOwnProperty` key makes validation throw; any other
      payload validates exactly when every required key is present, whatever its value. */
  lemma ValidateIff(o: Object)
    ensures ValidateQRData(o) == ShadowThrows <==> HasOwnPropertyKey in o
    ensures ValidateQRData(o) == Checked(true) <==>
      HasOwnPropertyKey !in o && (forall f :: f in RequiredFields ==> f in o)
    ensures ValidateQRData(o) == Checked(false) <==>
      HasOwnPropertyKey !in o && (exists f :: f in RequiredFields && f !in o)
  {
    EveryHasOwnIff(RequiredFields, o);
    assert forall f :: f in RequiredFields ==> exists i :: 0 <= i < |RequiredFields| && RequiredFields[i] == f;
  }

  /** Values are never inspected, and extra keys keep a valid payload valid, except
      an own `hasOwnProperty` key, which makes validation throw. */
  lemma ValidateMonotone(o: Object, o': Object)
    requires o.Keys <= o'.Keys
    ensures ValidateQRData(o) == Checked(true) ==>
      ValidateQRData(o') == if HasOwnPropertyKey in o' then ShadowThrows else Checked(true)
  {
    ValidateIff(o);
    ValidateIff(o');
  }

  /** `sessionId` and `endTime` are not required. */
  lemma ValidateIgnoresSessionIdAndEndTime(o: Object)
    ensures ValidateQRData(o) == ValidateQRData(o - {"sessionId", "endTime"})
  {
    ValidateIff(o);
    ValidateIff(o - {"sessionId", "endTime"});
  }

  /** Missing any one required key fails validation, by an answer or by the throw. */
  lemma ValidateRejectsMissingField(o: Object, f: string)
    requires f in RequiredFields && f !in o
    ensures ValidateQRData(o) == if HasOwnPropertyKey in o then ShadowThrows else Checked(false)
  {
    ValidateIff(o);
  }

  /** The object `parseQRData` returns for a freshly generated token. */
  function GeneratedPayload(d: SessionDraft, timestamp: int): Object {
    ToObject(QrMembers(d, timestamp))
  }

  lemma QrMembersDistinctKeys(d: SessionDraft, timestamp: int)
    ensures var ms := QrMembers(d, timestamp);
      forall i, j :: 0 <= i < j < |ms| ==> ms[i].0 != ms[j].0
  {
  }

  lemma QrMemberLookup(d: SessionDraft, timestamp: int, i: nat)
    requires i < 11
    ensures var ms := QrMembers(d, timestamp);
      ms[i].0 in GeneratedPayload(d, timestamp) && GeneratedPayload(d, timestamp)[ms[i].0] == ms[i].1
  {
    QrMembersDistinctKeys(d, timestamp);
    ToObjectLookup(QrMembers(d, timestamp), i);
  }

  /** The generated payload holds the placeholder id, the copied session fields and
      the timestamp, and nothing else. */
  lemma GeneratedPayloadFields(d: SessionDraft, timestamp: int)
    ensures var o := GeneratedPayload(d, timestamp);
      && o.Keys == TokenKeys
      && o["sessionId"] == Str(TempSessionId)
      && o["courseId"] == Str(d.courseId) && o["courseName"] == Str(d.courseName)
      && o["lecturerName"] == Str(d.lecturerName) && o["roomLocation"] == Str(d.roomLocation)
      && o["date"] == Str(d.date) && o["startTime"] == Str(d.startTime)
      && o["latitude"] == Num(d.latitude) && o["longitude"] == Num(d.longitude)
      && o["pin"] == Str(d.pin) && o["timestamp"] == Num(timestamp)
  {
    GeneratedPayloadKeys(d, timestamp);
    QrMemberLookup(d, timestamp, 0);
    QrMemberLookup(d, timestamp, 1);
    QrMemberLookup(d, timestamp, 2);
    QrMemberLookup(d, timestamp, 3);
    QrMemberLookup(d, timestamp, 4);
    QrMemberLookup(d, timestamp, 5);
    QrMemberLookup(d, timestamp, 6);
    QrMemberLookup(d, timestamp, 7);
    QrMemberLookup(d, timestamp, 8);
    QrMemberLookup(d, timestamp, 9);
    QrMemberLookup(d, timestamp, 10);
  }

  /** The keys the token's object literal lists. */
  const TokenKeys: set<string> :=
    {"sessionId", "courseId", "courseName", "lecturerName", "roomLocation",
     "date", "startTime", "latitude", "longitude", "pin", "timestamp"}

  lemma GeneratedPayloadKeys(d: SessionDraft, timestamp: int)
    ensures GeneratedPayload(d, timestamp).Keys == TokenKeys
  {
    var ms := QrMembers(d, timestamp);
    var keys := GeneratedPayload(d, timestamp).Keys;
    assert keys == set i | 0 <= i < |ms| :: ms[i].0;
    forall k | k in keys ensures k in TokenKeys {
      var i :| 0 <= i < |ms| && ms[i].0 == k;
    }
    assert ms[0].0 in keys && ms[1].0 in keys && ms[2].0 in keys && ms[3].0 in keys;
    assert ms[4].0 in keys && ms[5].0 in keys && ms[6].0 in keys && ms[7].0 in keys;
    assert ms[8].0 in keys && ms[9].0 in keys && ms[10].0 in keys;
  }

  /** Round trip: parsing a generated token gives back every copied field, the
      placeholder id and the timestamp; `endTime`, `lecturerId` and `allowedRadius`
      are absent. */
  lemma GeneratedTokenRoundTrip(d: SessionDraft, timestamp: int)
    ensures ParseQRData(GenerateQRData(d, timestamp)) == Ok(GeneratedPayload(d, timestamp))
    ensures var o := GeneratedPayload(d, timestamp);
      "endTime" !in o && "lecturerId" !in o && "allowedRadius" !in o
  {
    GeneratedTokenParses(d, timestamp);
    OmittedKeys(d, timestamp);
  }

  lemma OmittedKeys(d: SessionDraft, timestamp: int)
    ensures var o := GeneratedPayload(d, timestamp);
      "endTime" !in o && "lecturerId" !in o && "allowedRadius" !in o
  {
    GeneratedPayloadKeys(d, timestamp);
  }

  lemma GeneratedTokenParses(d: SessionDraft, timestamp: int)
    ensures Parse(GenerateQRData(d, timestamp)) == Some(GeneratedPayload(d, timestamp))
  {
    StringifyRoundTrip(QrMembers(d, timestamp));
  }

  /** A parsed, freshly generated token always validates. */
  lemma GeneratedTokenValidates(d: SessionDraft, timestamp: int)
    ensures ParseQRData(GenerateQRData(d, timestamp)).Ok?
    ensures ValidateQRData(ParseQRData(GenerateQRData(d, timestamp)).value) == Checked(true)
  {
    GeneratedTokenRoundTrip(d, timestamp);
    var o := GeneratedPayload(d, timestamp);
    GeneratedPayloadKeys(d, timestamp);
    RequiredAreTokenKeys();
    ValidateIff(o);
  }

  /** The token's keys include every required one and no `hasOwnProperty`. */
  lemma RequiredAreTokenKeys()
    ensures forall f :: f in RequiredFields ==> f in TokenKeys
    ensures HasOwnPropertyKey !in TokenKeys
  {
  }

  /** The generated payload with an extra own `hasOwnProperty` key: every required key
      is present, yet validation throws. */
  lemma ShadowedPayloadThrows(d: SessionDraft, timestamp: int, v: Value)
    ensures var o := GeneratedPayload(d, timestamp)[HasOwnPropertyKey := v];
      (forall f :: f in RequiredFields ==> f in o) && ValidateQRData(o) == ShadowThrows
  {
    var o := GeneratedPayload(d, timestamp)[HasOwnPropertyKey := v];
    GeneratedPayloadKeys(d, timestamp);
    ValidateIff(o);
  }

  /** Text that is not JSON, such as the empty string, is rejected with the format error. */
  lemma ParseRejectsNonJson()
    ensures ParseQRData("") == Err(InvalidFormatMessage)
    ensures ParseQRData("temp_id") == Err(InvalidFormatMessage)
    ensures ParseQRData("{") == Err(InvalidFormatMessage)
  {
  }

  // ---------------------------------------------------------------- activity clock

  /** The present moment: the local calendar day (as the `YYYY-MM-DD` text a session
      stores) and the milliseconds since that day's local midnight. */
  datatype Clock = Clock(today: string, msOfDay: int)

  /** What `isSessionActive` does: returns a boolean, or throws a `TypeError` because
      it calls `split` on a start or end time that is not a string. */
  datatype Activity = Active(active: bool) | Throws

  /** `Number(text)` for an optional sign followed by decimal digits, the empty
      string counting as 0; `None` stands for `NaN`. */
  function ToNumber(text: string): (r: Option<int>)
    ensures AllDigits(text) ==> r == Some(DecimalValue(text))
  {
    if AllDigits(text) then Some(DecimalValue(text))
    else if |text| > 1 && text[0] == '-' && AllDigits(text[1..]) then Some(-(DecimalValue(text[1..]) as int))
    else if |text| > 1 && text[0] == '+' && AllDigits(text[1..]) then Some(DecimalValue(text[1..]))
    else None
  }

  /** `Number(String(n)) === n`: the text of any integer, negative ones included,
      reads back as that integer. */
  lemma ToNumberOfIntToString(n: int)
    ensures ToNumber(IntToString(n)) == Some(n)
  {
    if n < 0 {
      var d := NatToString(-n);
      var t := IntToString(n);
      assert t == "-" + d && t[1..] == d;
      assert !IsDigit(t[0]);
      DecimalValueOfNatToString(-n);
    } else {
      DecimalValueOfNatToString(n);
    }
  }

  /** An explicit `+` sign is accepted: `Number('+' + String(n)) === n`. */
  lemma ToNumberOfPlusSign(n: nat)
    ensures ToNumber("+" + NatToString(n)) == Some(n)
  {
    var t := "+" + NatToString(n);
    assert t[1..] == NatToString(n);
    assert !IsDigit(t[0]);
    DecimalValueOfNatToString(n);
  }

  function IndexOfColon(s: string): (k: nat)
    ensures k <= |s| && (k < |s| ==> s[k] == ':')
    ensures forall i :: 0 <= i < k ==> s[i] != ':'
  {
    if |s| == 0 || s[0] == ':' then 0 else 1 + IndexOfColon(s[1..])
  }

  /** `const [h, m] = text.split(':').map(Number)` followed by `setHours(h, m, 0, 0)`:
      the milliseconds after the session day's midnight, or `None` when the date
      becomes invalid (a missing minute part or a part that is `NaN`). */
  function TimeOfDayMs(text: string): Option<int> {
    var k := IndexOfColon(text);
    if k == |text| then None
    else
      var rest := text[k + 1..];
      match (ToNumber(text[..k]), ToNumber(rest[..IndexOfColon(rest)]))
      case (Some(h), Some(m)) => Some(h * 3600000 + m * 60000)
      case _ => None
  }

  /** `new Date(date).toDateString() === now.toDateString()`: an absent or non-text
      date never matches today. */
  predicate OnSessionDate(date: Option<Value>, now: Clock) {
    date.Some? && date.value.Str? && date.value.s == now.today
  }

  predicate IsText(v: Option<Value>) {
    v.Some? && v.value.Str?
  }

  /** `isSessionActive(startTime, endTime, date)` evaluated at `now`, on the
      property values it is given (`None` is `undefined`). */
  function IsSessionActive(startTime: Option<Value>, endTime: Option<Value>, date: Option<Value>, now: Clock): Activity {
    if !OnSessionDate(date, now) then Active(false)
    else if !IsText(startTime) || !IsText(endTime) then Throws
    else
      match (TimeOfDayMs(startTime.value.s), TimeOfDayMs(endTime.value.s))
      case (Some(start), Some(end)) => Active(start <= now.msOfDay && now.msOfDay <= end)
      case _ => Active(false)
  }

  /** A session is never active on a day other than its own, whatever its times. */
  lemma InactiveOffSessionDate(startTime: Option<Value>, endTime: Option<Value>, date: Option<Value>, now: Clock)
    requires !OnSessionDate(date, now)
    ensures IsSessionActive(startTime, endTime, date, now) == Active(false)
  {
  }

  /** Two-digit `HH:MM` text, the form the session wizard asks for. */
  function TwoDigits(n: nat): (s: string)
    requires n < 100
    ensures |s| == 2 && AllDigits(s) && DecimalValue(s) == n
  {
    var s := [DigitChar(n / 10), DigitChar(n % 10)];
    assert DecimalValue(s[..1]) == n / 10 by {
      assert s[..1] == [DigitChar(n / 10)];
      assert s[..1][..0] == [];
    }
    s
  }

  function ClockText(h: nat, m: nat): string
    requires h < 100 && m < 100
  {
    TwoDigits(h) + ":" + TwoDigits(m)
  }

  lemma ClockTextTime(h: nat, m: nat)
    requires h < 100 && m < 100
    ensures TimeOfDayMs(ClockText(h, m)) == Some(h * 3600000 + m * 60000)
  {
    var t := ClockText(h, m);
    assert t[2] == ':';
    assert IndexOfColon(t) == 2 by {
      assert t[0] != ':' && t[1] != ':';
      assert t[1..][1..] == t[2..];
    }
    var rest := t[3..];
    assert rest == TwoDigits(m);
    assert IndexOfColon(rest) == 2 by {
      assert rest[0] != ':' && rest[1] != ':';
      assert rest[1..][1..] == [];
    }
    assert t[..2] == TwoDigits(h);
    assert rest[..2] == rest;
  }

  /** On the session's date, with `HH:MM` times, the session is active exactly from
      `HH:MM:00.000` of the start to `HH:MM:00.000` of the end, both ends included. */
  lemma ActiveIffWithinWindow(sh: nat, sm: nat, eh: nat, em: nat, date: string, now: Clock)
    requires sh < 100 && sm < 100 && eh < 100 && em < 100
    requires now.today == date
    ensures var start := sh * 3600000 + sm * 60000;
      var end := eh * 3600000 + em * 60000;
      IsSessionActive(Some(Str(ClockText(sh, sm))), Some(Str(ClockText(eh, em))), Some(Str(date)), now)
        == Active(start <= now.msOfDay <= end)
  {
    ClockTextTime(sh, sm);
    ClockTextTime(eh, em);
  }

  /** A window whose start lies after its end is never active. */
  lemma EmptyWindowNeverActive(startTime: string, endTime: string, date: Option<Value>, now: Clock)
    requires TimeOfDayMs(startTime).Some? && TimeOfDayMs(endTime).Some?
    requires TimeOfDayMs(startTime).value > TimeOfDayMs(endTime).value
    ensures IsSessionActive(Some(Str(startTime)), Some(Str(endTime)), date, now) == Active(false)
  {
  }

  /** A payload without `endTime`, checked on its own date, makes `isSessionActive` throw. */
  lemma MissingEndTimeThrows(startTime: Option<Value>, date: Option<Value>, now: Clock)
    requires OnSessionDate(date, now)
    ensures IsSessionActive(startTime, None, date, now) == Throws
  {
  }

  lemma ClockTextExamples()
    ensures ClockText(9, 0) == "09:00" && ClockText(10, 0) == "10:00"
  {
  }

  /** The 09:00 to 10:00 session: active at 09:30 and at 10:00 sharp, not at 08:59, not on another day. */
  lemma NineToTenExample(today: string, yesterday: string, ms: int)
    requires today != yesterday
    ensures IsSessionActive(Some(Str("09:00")), Some(Str("10:00")), Some(Str(today)), Clock(today, 9 * 3600000 + 30 * 60000)) == Active(true)
    ensures IsSessionActive(Some(Str("09:00")), Some(Str("10:00")), Some(Str(today)), Clock(today, 10 * 3600000)) == Active(true)
    ensures IsSessionActive(Some(Str("09:00")), Some(Str("10:00")), Some(Str(today)), Clock(today, 8 * 3600000 + 59 * 60000)) == Active(false)
    ensures IsSessionActive(Some(Str("09:00")), Some(Str("10:00")), Some(Str(yesterday)), Clock(today, ms)) == Active(false)
  {
    ClockTextExamples();
    ActiveIffWithinWindow(9, 0, 10, 0, today, Clock(today, 9 * 3600000 + 30 * 60000));
    ActiveIffWithinWindow(9, 0, 10, 0, today, Clock(today, 10 * 3600000));
    ActiveIffWithinWindow(9, 0, 10, 0, today, Clock(today, 8 * 3600000 + 59 * 60000));
  }
}
