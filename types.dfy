/** The records the application stores and passes around (types/index.ts).
    Coordinates are opaque integers; dates and times of day are the texts the
    lecturer typed; timestamps are milliseconds since the epoch. */
module Types {
  import opened Wrappers

  datatype Role = Lecturer | Student

  datatype User = User(
    id: string,
    email: string,
    name: string,
    role: Role,
    studentId: Option<string>,
    department: Option<string>)

  /** A lecture session without the fields the store adds (`id`, `createdAt`,
      `checkedInStudents`): what `createLectureSession` is given. */
  datatype SessionDraft = SessionDraft(
    courseId: string,
    courseName: string,
    lecturerName: string,
    lecturerId: string,
    roomLocation: string,
    date: string,
    startTime: string,
    endTime: string,
    latitude: int,
    longitude: int,
    pin: string,
    qrData: string,
    isActive: bool,
    allowedRadius: int)

  datatype LectureSession = LectureSession(
    id: string,
    courseId: string,
    courseName: string,
    lecturerName: string,
    lecturerId: string,
    roomLocation: string,
    date: string,
    startTime: string,
    endTime: string,
    latitude: int,
    longitude: int,
    pin: string,
    qrData: string,
    isActive: bool,
    createdAt: int,
    checkedInStudents: seq<string>,
    allowedRadius: int)

  datatype AttendanceStatus = Present | Absent | Late

  datatype VerificationMethod = QrScan | PinEntry

  datatype AttendanceRecord = AttendanceRecord(
    id: string,
    sessionId: string,
    studentId: string,
    studentName: string,
    courseId: string,
    courseName: string,
    checkInTime: int,
    latitude: int,
    longitude: int,
    status: AttendanceStatus,
    verificationMethod: VerificationMethod)

  datatype LocationData = LocationData(latitude: int, longitude: int, accuracy: int, timestamp: int)

  /** The draft's fields under `id`, with the creation time and an empty roster. */
  function SessionFromDraft(id: string, d: SessionDraft, createdAt: int): (s: LectureSession)
    ensures s.id == id && s.createdAt == createdAt && s.checkedInStudents == []
  {
    LectureSession(id, d.courseId, d.courseName, d.lecturerName, d.lecturerId, d.roomLocation,
      d.date, d.startTime, d.endTime, d.latitude, d.longitude, d.pin, d.qrData, d.isActive,
      createdAt, [], d.allowedRadius)
  }
}
