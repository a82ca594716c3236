/** The attendance service (services/attendance.ts) over an in-memory document
    store: the `sessions` collection, keyed by document id, and the `attendance`
    collection. Document ids are allocated as the decimal numerals 0, 1, 2, ...
    of each collection's size. */
module Attendance {
  import opened Wrappers
  import opened Decimal
  import opened Types
  import opened Ordering

  const SessionNotFoundMessage: string := "Session not found"

  predicate NoDuplicates(s: seq<string>) {
    forall i, j :: 0 <= i < j < |s| ==> s[i] != s[j]
  }

  /** The store's `arrayUnion(x)` applied to an array field: `x` is appended unless already present. */
  function ArrayUnion(roster: seq<string>, x: string): (r: seq<string>)
    ensures x in r
    ensures |roster| <= |r| <= |roster| + 1 && r[..|roster|] == roster
    ensures r == roster <==> x in roster
    ensures forall y :: y in r <==> y in roster || y == x
    ensures NoDuplicates(roster) ==> NoDuplicates(r)
  {
    if x in roster then roster else roster + [x]
  }

  /** The students with at least one attendance record for `sessionId`. */
  ghost function Attendees(records: seq<AttendanceRecord>, sessionId: string): set<string> {
    set i | 0 <= i < |records| && records[i].sessionId == sessionId :: records[i].studentId
  }

  ghost function Elements(s: seq<string>): set<string> {
    set x | x in s
  }

  /** The record `recordAttendance` writes. */
  function NewRecord(id: string, session: LectureSession, studentId: string, studentName: string,
                     location: LocationData, verification: VerificationMethod, checkInTime: int): (r: AttendanceRecord)
  {
    AttendanceRecord(id, session.id, studentId, studentName, session.courseId, session.courseName,
      checkInTime, location.latitude, location.longitude, Present, verification)
  }

  /** The sessions stored under `ids`, in that order. */
  function DocsOf(ids: seq<string>, m: map<string, LectureSession>): (docs: seq<LectureSession>)
    requires forall i :: 0 <= i < |ids| ==> ids[i] in m
    ensures |docs| == |ids| && forall i :: 0 <= i < |ids| ==> docs[i] == m[ids[i]]
  {
    if |ids| == 0 then [] else [m[ids[0]]] + DocsOf(ids[1..], m)
  }

  /** The documents listed under allocated ids are exactly the stored sessions. */
  lemma DocsCoverStore(ids: seq<string>, m: map<string, LectureSession>)
    requires IdsAllocated(m, ids) && SessionsWellFormed(m)
    ensures forall s: LectureSession :: s in DocsOf(ids, m) <==> s.id in m && m[s.id] == s
  {
    var docs := DocsOf(ids, m);
    forall s: LectureSession | s.id in m && m[s.id] == s ensures s in docs {
      var k :| 0 <= k < |ids| && ids[k] == s.id;
      assert docs[k] == s;
    }
  }

  /** Each document carries the id it is listed under, and no id is listed twice. */
  lemma DocsListEachOnce(ids: seq<string>, m: map<string, LectureSession>)
    requires IdsAllocated(m, ids) && SessionsWellFormed(m)
    ensures var docs := DocsOf(ids, m);
      && (forall i :: 0 <= i < |docs| ==> docs[i].id == ids[i])
      && (forall i, j :: 0 <= i < j < |docs| ==> docs[i].id != docs[j].id)
  {
    var docs := DocsOf(ids, m);
    forall i, j | 0 <= i < j < |docs| ensures docs[i].id != docs[j].id {
      if ids[i] == ids[j] {
        NatToStringInjective(i, j);
      }
    }
  }

  /** `getLecturerSessions`: the sessions of one lecturer, newest `createdAt` first. */
  function LecturerSessions(docs: seq<LectureSession>, lecturerId: string): (r: seq<LectureSession>)
    ensures forall s :: s in r <==> s in docs && s.lecturerId == lecturerId
    ensures multiset(r) == multiset(Filter(docs, (s: LectureSession) => s.lecturerId == lecturerId))
    ensures SortedDesc(r, (s: LectureSession) => s.createdAt)
  {
    Query(docs, (s: LectureSession) => s.lecturerId == lecturerId, (s: LectureSession) => s.createdAt)
  }

  /** `getStudentAttendance`: the records of one student, newest `checkInTime` first. */
  function StudentAttendance(records: seq<AttendanceRecord>, studentId: string): (r: seq<AttendanceRecord>)
    ensures forall a :: a in r <==> a in records && a.studentId == studentId
    ensures multiset(r) == multiset(Filter(records, (a: AttendanceRecord) => a.studentId == studentId))
    ensures SortedDesc(r, (a: AttendanceRecord) => a.checkInTime)
  {
    Query(records, (a: AttendanceRecord) => a.studentId == studentId, (a: AttendanceRecord) => a.checkInTime)
  }

  /** Session ids are the numerals 0, 1, ... in creation order, and name exactly the stored sessions. */
  ghost predicate IdsAllocated(sessions: map<string, LectureSession>, sessionIds: seq<string>) {
    && (forall k :: 0 <= k < |sessionIds| ==> sessionIds[k] == NatToString(k) && sessionIds[k] in sessions)
    && (forall id :: id in sessions ==> id in sessionIds)
  }

  /** Each session carries its own id and a roster without duplicates. */
  ghost predicate SessionsWellFormed(sessions: map<string, LectureSession>) {
    forall id :: id in sessions ==> sessions[id].id == id && NoDuplicates(sessions[id].checkedInStudents)
  }

  /** Record ids are the numerals 0, 1, ..., and every record belongs to a stored session. */
  ghost predicate RecordsWellFormed(sessions: map<string, LectureSession>, attendance: seq<AttendanceRecord>) {
    forall i :: 0 <= i < |attendance| ==> attendance[i].id == NatToString(i) && attendance[i].sessionId in sessions
  }

  /** A session's roster holds exactly the students that have a record for it. */
  ghost predicate RostersMatchRecords(sessions: map<string, LectureSession>, attendance: seq<AttendanceRecord>) {
    forall id :: id in sessions ==> Elements(sessions[id].checkedInStudents) == Attendees(attendance, id)
  }

  ghost predicate StoreInvariant(sessions: map<string, LectureSession>, sessionIds: seq<string>,
                                 attendance: seq<AttendanceRecord>)
  {
    && IdsAllocated(sessions, sessionIds)
    && SessionsWellFormed(sessions)
    && RecordsWellFormed(sessions, attendance)
    && RostersMatchRecords(sessions, attendance)
  }

  /** The sessions after `studentId` is added to the roster of `sid`. */
  function AddToRoster(sessions: map<string, LectureSession>, sid: string, studentId: string): (m: map<string, LectureSession>)
    requires sid in sessions
    ensures m.Keys == sessions.Keys
    ensures m[sid].checkedInStudents == ArrayUnion(sessions[sid].checkedInStudents, studentId)
    ensures forall id :: id in sessions && id != sid ==> m[id] == sessions[id]
  {
    sessions[sid := sessions[sid].(checkedInStudents := ArrayUnion(sessions[sid].checkedInStudents, studentId))]
  }

  lemma SessionsAfterRecord(sessions: map<string, LectureSession>, sid: string, studentId: string)
    requires SessionsWellFormed(sessions) && sid in sessions
    ensures SessionsWellFormed(AddToRoster(sessions, sid, studentId))
  {
    var sessions' := AddToRoster(sessions, sid, studentId);
    forall id | id in sessions'
      ensures sessions'[id].id == id && NoDuplicates(sessions'[id].checkedInStudents)
    {
      if id != sid {
        assert sessions'[id] == sessions[id];
      }
    }
  }

  lemma RecordsAfterRecord(sessions: map<string, LectureSession>, sessions': map<string, LectureSession>,
                           attendance: seq<AttendanceRecord>, record: AttendanceRecord)
    requires RecordsWellFormed(sessions, attendance) && sessions'.Keys == sessions.Keys
    requires record.sessionId in sessions && record.id == NatToString(|attendance|)
    ensures RecordsWellFormed(sessions', attendance + [record])
  {
    var attendance' := attendance + [record];
    forall i | 0 <= i < |attendance'|
      ensures attendance'[i].id == NatToString(i) && attendance'[i].sessionId in sessions'
    {
      if i < |attendance| {
        assert attendance'[i] == attendance[i];
      }
    }
  }

  lemma RostersAfterRecord(sessions: map<string, LectureSession>, attendance: seq<AttendanceRecord>,
                           record: AttendanceRecord)
    requires RostersMatchRecords(sessions, attendance) && record.sessionId in sessions
    ensures RostersMatchRecords(AddToRoster(sessions, record.sessionId, record.studentId), attendance + [record])
  {
    var sid := record.sessionId;
    var sessions' := AddToRoster(sessions, sid, record.studentId);
    var attendance' := attendance + [record];
    AttendeesAfterAppend(attendance, record);
    forall id | id in sessions'
      ensures Elements(sessions'[id].checkedInStudents) == Attendees(attendance', id)
    {
      if id != sid {
        assert sessions'[id] == sessions[id];
      } else {
        var roster := sessions[sid].checkedInStudents;
        assert Elements(ArrayUnion(roster, record.studentId)) == Elements(roster) + {record.studentId};
      }
    }
  }

  /** Recording attendance for a stored session keeps the invariant. */
  lemma RecordKeepsInvariant(sessions: map<string, LectureSession>, sessionIds: seq<string>,
                             attendance: seq<AttendanceRecord>, record: AttendanceRecord)
    requires StoreInvariant(sessions, sessionIds, attendance)
    requires record.sessionId in sessions && record.id == NatToString(|attendance|)
    ensures StoreInvariant(AddToRoster(sessions, record.sessionId, record.studentId), sessionIds, attendance + [record])
  {
    SessionsAfterRecord(sessions, record.sessionId, record.studentId);
    RecordsAfterRecord(sessions, AddToRoster(sessions, record.sessionId, record.studentId), attendance, record);
    RostersAfterRecord(sessions, attendance, record);
  }

  /** The next session id is not yet taken. */
  lemma NextIdIsFresh(sessions: map<string, LectureSession>, sessionIds: seq<string>)
    requires IdsAllocated(sessions, sessionIds)
    ensures NatToString(|sessionIds|) !in sessions
  {
    var id := NatToString(|sessionIds|);
    if id in sessions {
      var k :| 0 <= k < |sessionIds| && sessionIds[k] == id;
      NatToStringInjective(k, |sessionIds|);
    }
  }

  lemma IdsAfterCreate(sessions: map<string, LectureSession>, sessionIds: seq<string>, session: LectureSession)
    requires IdsAllocated(sessions, sessionIds) && session.id == NatToString(|sessionIds|)
    ensures IdsAllocated(sessions[session.id := session], sessionIds + [session.id])
  {
    NumeralsAfterCreate(sessions, sessionIds, session);
    CoveredAfterCreate(sessions, sessionIds, session);
  }

  lemma NumeralsAfterCreate(sessions: map<string, LectureSession>, sessionIds: seq<string>, session: LectureSession)
    requires forall k :: 0 <= k < |sessionIds| ==> sessionIds[k] == NatToString(k) && sessionIds[k] in sessions
    requires session.id == NatToString(|sessionIds|)
    ensures var ids' := sessionIds + [session.id];
      forall k :: 0 <= k < |ids'| ==> ids'[k] == NatToString(k) && ids'[k] in sessions[session.id := session]
  {
    var ids' := sessionIds + [session.id];
    forall k | 0 <= k < |ids'| ensures ids'[k] == NatToString(k) && ids'[k] in sessions[session.id := session] {
      if k < |sessionIds| {
        assert ids'[k] == sessionIds[k];
      }
    }
  }

  lemma CoveredAfterCreate(sessions: map<string, LectureSession>, sessionIds: seq<string>, session: LectureSession)
    requires forall id :: id in sessions ==> id in sessionIds
    ensures forall id :: id in sessions[session.id := session] ==> id in sessionIds + [session.id]
  {
  }

  lemma SessionsAfterCreate(sessions: map<string, LectureSession>, session: LectureSession)
    requires SessionsWellFormed(sessions) && session.checkedInStudents == []
    ensures SessionsWellFormed(sessions[session.id := session])
  {
    assert NoDuplicates(session.checkedInStudents);
  }

  lemma RecordsAfterCreate(sessions: map<string, LectureSession>, attendance: seq<AttendanceRecord>,
                           session: LectureSession)
    requires RecordsWellFormed(sessions, attendance)
    ensures RecordsWellFormed(sessions[session.id := session], attendance)
  {
  }

  lemma RostersAfterCreate(sessions: map<string, LectureSession>, attendance: seq<AttendanceRecord>,
                           session: LectureSession)
    requires RecordsWellFormed(sessions, attendance) && RostersMatchRecords(sessions, attendance)
    requires session.id !in sessions && session.checkedInStudents == []
    ensures RostersMatchRecords(sessions[session.id := session], attendance)
  {
    assert Attendees(attendance, session.id) == {};
    assert Elements([]) == {};
  }

  /** Storing a new session under the next id keeps the invariant. */
  lemma CreateKeepsInvariant(sessions: map<string, LectureSession>, sessionIds: seq<string>,
                             attendance: seq<AttendanceRecord>, session: LectureSession)
    requires StoreInvariant(sessions, sessionIds, attendance)
    requires session.id == NatToString(|sessionIds|) && session.checkedInStudents == []
    ensures session.id !in sessions
    ensures StoreInvariant(sessions[session.id := session], sessionIds + [session.id], attendance)
  {
    NextIdIsFresh(sessions, sessionIds);
    IdsAfterCreate(sessions, sessionIds, session);
    SessionsAfterCreate(sessions, session);
    RecordsAfterCreate(sessions, attendance, session);
    RostersAfterCreate(sessions, attendance, session);
  }

  /** The invariant the check-in pipeline is meant to keep: at most one record per
      session and student. The store itself does not enforce it. */
  ghost predicate OneRecordPerStudent(attendance: seq<AttendanceRecord>) {
    forall i, j :: 0 <= i < j < |attendance| ==>
      attendance[i].sessionId != attendance[j].sessionId || attendance[i].studentId != attendance[j].studentId
  }

  /** A student missing from a roster has no record for that session, so appending one
      keeps at most one record per session and student. */
  lemma AppendForAbsentStudentKeepsOneRecord(sessions: map<string, LectureSession>, sessionIds: seq<string>,
                                             attendance: seq<AttendanceRecord>, record: AttendanceRecord)
    requires StoreInvariant(sessions, sessionIds, attendance) && OneRecordPerStudent(attendance)
    requires record.sessionId in sessions && record.studentId !in sessions[record.sessionId].checkedInStudents
    ensures OneRecordPerStudent(attendance + [record])
  {
    var att := attendance + [record];
    forall i, j | 0 <= i < j < |att|
      ensures att[i].sessionId != att[j].sessionId || att[i].studentId != att[j].studentId
    {
      if j < |attendance| {
        assert att[i] == attendance[i] && att[j] == attendance[j];
      } else {
        assert att[i] == attendance[i] && att[j] == record;
        if attendance[i].sessionId == record.sessionId {
          assert attendance[i].studentId in Attendees(attendance, record.sessionId);
          assert attendance[i].studentId in Elements(sessions[record.sessionId].checkedInStudents);
        }
      }
    }
  }

  class AttendanceStore {
    /** The `sessions` collection. */
    var sessions: map<string, LectureSession>
    /** The ids of the `sessions` documents, in creation order. */
    var sessionIds: seq<string>
    /** The `attendance` collection, in creation order. */
    var attendance: seq<AttendanceRecord>

    ghost predicate Valid()
      reads this
    {
      StoreInvariant(sessions, sessionIds, attendance)
    }

    constructor ()
      ensures Valid()
      ensures sessions == map[] && sessionIds == [] && attendance == []
    {
      sessions, sessionIds, attendance := map[], [], [];
    }

    /** `createLectureSession`: stores the draft under a fresh id, with the creation
        time and an empty roster, and returns the id. */
    method CreateLectureSession(draft: SessionDraft, now: int) returns (id: string)
      requires Valid()
      modifies this
      ensures Valid()
      ensures id !in old(sessions)
      ensures sessions == old(sessions)[id := SessionFromDraft(id, draft, now)]
      ensures sessionIds == old(sessionIds) + [id]
      ensures attendance == old(attendance)
    {
      id := NatToString(|sessionIds|);
      var session := SessionFromDraft(id, draft, now);
      CreateKeepsInvariant(sessions, sessionIds, attendance, session);
      sessions := sessions[id := session];
      sessionIds := sessionIds + [id];
    }

    /** `getActiveSession`: the session stored under `sessionId`, or `null` (`None`). */
    function GetActiveSession(sessionId: string): (r: Option<LectureSession>)
      reads this
      requires Valid()
      ensures r.Some? <==> sessionId in sessions
      ensures r.Some? ==> r.value == sessions[sessionId] && r.value.id == sessionId
    {
      if sessionId in sessions then Some(sessions[sessionId]) else None
    }

    /** `recordAttendance`: fails with 'Session not found' for an unknown session and
        writes nothing; otherwise appends one 'present' record built from the session
        and the location, and adds the student to the roster with `arrayUnion`. There
        is no duplicate check. */
    method RecordAttendance(sessionId: string, studentId: string, studentName: string,
                            location: LocationData, verification: VerificationMethod, now: int)
      returns (r: Outcome<string>)
      requires Valid()
      modifies this
      ensures Valid()
      ensures sessionId !in old(sessions) ==>
        r == Fail(SessionNotFoundMessage) && sessions == old(sessions) && attendance == old(attendance)
      ensures sessionId in old(sessions) ==>
        && r == Pass
        && attendance == old(attendance) + [NewRecord(NatToString(|old(attendance)|), old(sessions)[sessionId],
                                                      studentId, studentName, location, verification, now)]
        && sessions == AddToRoster(old(sessions), sessionId, studentId)
      ensures sessionIds == old(sessionIds) && sessions.Keys == old(sessions).Keys
    {
      if sessionId !in sessions {
        return Fail(SessionNotFoundMessage);
      }
      var session := sessions[sessionId];
      var record := NewRecord(NatToString(|attendance|), session, studentId, studentName, location, verification, now);
      RecordKeepsInvariant(sessions, sessionIds, attendance, record);
      attendance := attendance + [record];
      sessions := AddToRoster(sessions, sessionId, studentId);
      r := Pass;
    }

    /** The documents of the `sessions` collection, in creation order: each stored
        session exactly once. */
    function SessionDocs(): (docs: seq<LectureSession>)
      reads this
      requires Valid()
      ensures forall s :: s in docs <==> s.id in sessions && sessions[s.id] == s
      ensures |docs| == |sessionIds| && forall i :: 0 <= i < |docs| ==> docs[i].id == sessionIds[i]
      ensures forall i, j :: 0 <= i < j < |docs| ==> docs[i].id != docs[j].id
    {
      DocsCoverStore(sessionIds, sessions);
      DocsListEachOnce(sessionIds, sessions);
      DocsOf(sessionIds, sessions)
    }

    /** `getLecturerSessions` on this store. */
    function GetLecturerSessions(lecturerId: string): (r: seq<LectureSession>)
      reads this
      requires Valid()
      ensures forall s :: s in r <==> s.id in sessions && sessions[s.id] == s && s.lecturerId == lecturerId
      ensures multiset(r) == multiset(Filter(SessionDocs(), (s: LectureSession) => s.lecturerId == lecturerId))
      ensures SortedDesc(r, (s: LectureSession) => s.createdAt)
    {
      LecturerSessions(SessionDocs(), lecturerId)
    }

    /** `getStudentAttendance` on this store. */
    function GetStudentAttendance(studentId: string): (r: seq<AttendanceRecord>)
      reads this
      requires Valid()
      ensures forall a :: a in r <==> a in attendance && a.studentId == studentId
      ensures multiset(r) == multiset(Filter(attendance, (a: AttendanceRecord) => a.studentId == studentId))
      ensures SortedDesc(r, (a: AttendanceRecord) => a.checkInTime)
    {
      StudentAttendance(attendance, studentId)
    }

  }

  lemma AttendeesAfterAppend(records: seq<AttendanceRecord>, record: AttendanceRecord)
    ensures Attendees(records + [record], record.sessionId) == Attendees(records, record.sessionId) + {record.studentId}
    ensures forall id :: id != record.sessionId ==> Attendees(records + [record], id) == Attendees(records, id)
  {
    var rs := records + [record];
    assert rs[|records|] == record;
    forall id ensures Attendees(rs, id) == Attendees(records, id) + (if id == record.sessionId then {record.studentId} else {}) {
      forall x | x in Attendees(rs, id) ensures x in Attendees(records, id) + (if id == record.sessionId then {record.studentId} else {}) {
        var i :| 0 <= i < |rs| && rs[i].sessionId == id && rs[i].studentId == x;
        if i < |records| {
          assert rs[i] == records[i];
        }
      }
      forall x | x in Attendees(records, id) ensures x in Attendees(rs, id) {
        var i :| 0 <= i < |records| && records[i].sessionId == id && records[i].studentId == x;
        assert rs[i] == records[i];
      }
    }
  }

  /** `recordAttendance` twice for the same student and session: two records are
      written, and the roster holds the student once. */
  method RecordTwice(store: AttendanceStore, sessionId: string, studentId: string, studentName: string,
                     location: LocationData, now: int)
    requires store.Valid() && sessionId in store.sessions
    modifies store
    ensures store.Valid() && store.sessions.Keys == old(store.sessions).Keys
    ensures |store.attendance| == |old(store.attendance)| + 2
    ensures store.attendance[|store.attendance| - 1].studentId == studentId
    ensures store.attendance[|store.attendance| - 2].studentId == studentId
    ensures store.sessions[sessionId].checkedInStudents
         == ArrayUnion(old(store.sessions)[sessionId].checkedInStudents, studentId)
  {
    ghost var roster := store.sessions[sessionId].checkedInStudents;
    var first := store.RecordAttendance(sessionId, studentId, studentName, location, QrScan, now);
    ghost var r1 := store.sessions[sessionId].checkedInStudents;
    assert r1 == ArrayUnion(roster, studentId);
    assert studentId in r1;
    assert ArrayUnion(r1, studentId) == r1;
    var second := store.RecordAttendance(sessionId, studentId, studentName, location, QrScan, now);
    assert store.sessions[sessionId].checkedInStudents == r1;
  }
}
