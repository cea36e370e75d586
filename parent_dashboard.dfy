/** The parent dashboard controller (static/parent-dashboard.js): the page
    keeps the signed-in parent (`userInfo`), the first of their children
    (`studentInfo`) and the child's bus (`busDetails`) in module variables,
    renders them with placeholders, edits the child's name and class, and
    shows the child's attendance on one day. Replies from the server are
    parameters; "today" and the chosen date are parameters. */
module ParentDashboard {
  import opened Values
  import opened Api
  import Backend

  // ---------------------------------------------------------------------------
  // The bus panel
  // ---------------------------------------------------------------------------

  /** The teacher box: a contact card, or the "No teacher assigned" text. */
  datatype TeacherBox = Contact(name: string, mobile: string) | NoTeacher

  /** What displayBusDetails writes into the bus panel. */
  datatype BusPanel = BusPanel(busNumber: string, busRoute: string, driverName: string, driverMobile: string, teacher: TeacherBox)

  const Placeholder := "-"

  /** displayBusDetails: each of the four details, or "-" when it is missing
      or empty; the teacher's contact only when both their name and mobile
      are known. */
  function BusPanelOf(d: BusDetailsJson): (p: BusPanel)
    ensures Truthy(d.busNumber) ==> p.busNumber == d.busNumber.value
    ensures !Truthy(d.busNumber) ==> p.busNumber == Placeholder
    ensures Truthy(d.busRoute) ==> p.busRoute == d.busRoute.value
    ensures !Truthy(d.busRoute) ==> p.busRoute == Placeholder
    ensures Truthy(d.driverName) ==> p.driverName == d.driverName.value
    ensures !Truthy(d.driverName) ==> p.driverName == Placeholder
    ensures Truthy(d.driverMobile) ==> p.driverMobile == d.driverMobile.value
    ensures !Truthy(d.driverMobile) ==> p.driverMobile == Placeholder
    ensures p.teacher.Contact? <==> Truthy(d.teacherName) && Truthy(d.teacherMobile)
    ensures p.teacher.Contact? ==> p.teacher == Contact(d.teacherName.value, d.teacherMobile.value)
  {
    BusPanel(
      Or(d.busNumber, Placeholder), Or(d.busRoute, Placeholder),
      Or(d.driverName, Placeholder), Or(d.driverMobile, Placeholder),
      if Truthy(d.teacherName) && Truthy(d.teacherMobile)
      then Contact(d.teacherName.value, d.teacherMobile.value)
      else NoTeacher)
  }

  /** The bus details as GET /api/bus-details serialises the joined row. */
  function BusJson(v: Backend.BusView): BusDetailsJson {
    BusDetailsJson(Some(v.bus.busNumber), Some(v.bus.busRoute), v.bus.driverName, v.bus.driverMobile,
                   v.teacherName, v.teacherMobile)
  }

  /** A bus whose teacher_id names no user (no teacher assigned yet, as for
      every seeded bus) is shown with "No teacher assigned"; a bus whose
      teacher has a name and mobile is shown with that contact. */
  lemma TeacherBoxFromServer(users: seq<Backend.User>, bus: Backend.Bus)
    ensures var box := BusPanelOf(BusJson(Backend.WithTeacher(users, bus))).teacher;
            var t := First(users, (u: Backend.User) => Some(u.id) == bus.teacherId);
            (t.None? ==> box == NoTeacher) &&
            (t.Some? && t.value.name != "" && Truthy(t.value.mobile) ==>
              box == Contact(t.value.name, t.value.mobile.value))
  {
  }

  // ---------------------------------------------------------------------------
  // Attendance of one day
  // ---------------------------------------------------------------------------

  /** How an entry or exit time is shown: the time, styled `present`, or
      "Not marked", styled `absent`. */
  datatype Mark = Present(time: string) | Absent

  function Classify(t: Option<string>): (m: Mark)
    ensures m.Present? <==> Truthy(t)
    ensures m.Present? ==> m.time == t.value
  {
    if Truthy(t) then Present(t.value) else Absent
  }

  function MarkText(m: Mark): string {
    match m
    case Present(time) => time
    case Absent => "Not marked"
  }

  /** The text of a mark is the `time || 'Not marked'` fallback the
      teacher dashboard also uses. */
  lemma MarkTextIsFallback(t: Option<string>)
    ensures MarkText(Classify(t)) == Or(t, "Not marked")
  {
  }

  /** The todayRecord and attendanceHistory panels. */
  datatype DayPanel =
    | NotLoaded
    | NoRecord(text: string)
    | Detail(date: Option<string>, entry: Mark, exit: Mark, busNumber: Option<string>)
    | LoadError

  const NoRecordToday := "No attendance record for today"
  const NoRecordOnDate := "No attendance record for this date"

  /** A day's panel from the records GET /api/attendance returned: the empty
      state, or the FIRST record only. */
  function DayPanelOf(records: seq<AttendanceJson>, emptyText: string): (p: DayPanel)
    ensures p.NoRecord? <==> records == []
    ensures p.NoRecord? ==> p.text == emptyText
    ensures p.Detail? ==>
      p.date == records[0].date && p.busNumber == records[0].busNumber &&
      p.entry == Classify(records[0].entryTime) && p.exit == Classify(records[0].exitTime)
    ensures !p.NotLoaded? && !p.LoadError?
  {
    if records == [] then NoRecord(emptyText)
    else
      var r := records[0];
      Detail(r.date, Classify(r.entryTime), Classify(r.exitTime), r.busNumber)
  }

  /** One record as GET /api/attendance serialises it: the attendance row's
      columns and the joined student name. */
  function RecordJson(v: Backend.AttendanceView): AttendanceJson {
    AttendanceJson(Some(v.studentName), v.row.date, v.row.entryTime, v.row.exitTime, v.row.busNumber)
  }

  function RecordsJson(vs: seq<Backend.AttendanceView>): (js: seq<AttendanceJson>)
    ensures |js| == |vs|
    ensures forall i :: 0 <= i < |vs| ==> js[i] == RecordJson(vs[i])
  {
    seq(|vs|, i requires 0 <= i < |vs| => RecordJson(vs[i]))
  }

  /** The panel a parent sees for a student and a date, given the server's
      tables. */
  function ShownFor(attendance: seq<Backend.AttendanceRow>, students: seq<Backend.Student>,
                    studentId: int, date: string, emptyText: string): DayPanel
  {
    DayPanelOf(RecordsJson(Backend.AttendanceOf(attendance, students, Some(studentId), date)), emptyText)
  }

  /** What a parent sees after the teacher marks attendance for their child:
      on a day with no record yet, the new row; on a day that already has
      one, nothing changes, since the server keeps both rows and the page
      shows only the first (a second marking that adds the exit time is
      never shown). */
  lemma {:induction false} ShownAfterMarking(attendance: seq<Backend.AttendanceRow>, students: seq<Backend.Student>,
                                             row: Backend.AttendanceRow, studentName: string, emptyText: string)
    requires row.studentId.Some? && row.date.Some?
    requires First(students, (s: Backend.Student) => Some(s.id) == row.studentId).Some?
    requires First(students, (s: Backend.Student) => Some(s.id) == row.studentId).value.studentName == studentName
    ensures var before := ShownFor(attendance, students, row.studentId.value, row.date.value, emptyText);
            var after := ShownFor(attendance + [row], students, row.studentId.value, row.date.value, emptyText);
            (before.NoRecord? ==>
               after == Detail(row.date, Classify(row.entryTime), Classify(row.exitTime), row.busNumber)) &&
            (before.Detail? ==> after == before)
  {
    Backend.AttendanceAppend(attendance, students, row, studentName);
    var before := Backend.AttendanceOf(attendance, students, row.studentId, row.date.value);
    var after := Backend.AttendanceOf(attendance + [row], students, row.studentId, row.date.value);
    assert after == before + [Backend.AttendanceView(row, studentName)];
    if before != [] {
      assert after[0] == before[0];
    }
  }

  // ---------------------------------------------------------------------------
  // The page
  // ---------------------------------------------------------------------------

  /** The studentInfo panel: nothing yet, the child's card, or the edit
      form filled from the cached child. */
  datatype StudentPanel = NoStudent | Card(student: StudentJson) | EditForm(student: StudentJson)

  /** The dashboard's module-level state and what it has rendered. */
  class ParentPage {
    var userInfo: Option<UserInfoJson>
    var studentInfo: Option<StudentJson>
    var busDetails: Option<BusDetailsJson>
    var busPanel: Option<BusPanel>
    var studentPanel: StudentPanel
    var todayPanel: DayPanel
    var historyPanel: DayPanel
    var location: Location

    /** The page as loaded, before init runs. */
    constructor ()
      ensures userInfo == None && studentInfo == None && busDetails == None && busPanel == None
      ensures studentPanel == NoStudent && todayPanel == NotLoaded && historyPanel == NotLoaded
      ensures location == Stay
    {
      userInfo, studentInfo, busDetails, busPanel := None, None, None, None;
      studentPanel, todayPanel, historyPanel := NoStudent, NotLoaded, NotLoaded;
      location := Stay;
    }

    /** loadUserInfo: a failed identity request sends the browser back to
        the login page. */
    method LoadUserInfo(reply: Response<UserInfoJson>)
      modifies this`userInfo, this`location
      ensures reply.Received? && reply.ok ==> userInfo == Some(reply.body) && location == old(location)
      ensures !(reply.Received? && reply.ok) ==> userInfo == old(userInfo) && location == GoTo("/")
    {
      if reply.Received? && reply.ok {
        userInfo := Some(reply.body);
      } else {
        location := GoTo("/");
      }
    }

    /** loadBusDetails: the parent's bus, asked for by its number as URL
        text. A reply that is not ok changes nothing; without a parent
        loaded, reading `userInfo.bus_number` throws and the error is
        shown. */
    method LoadBusDetails(reply: Response<BusDetailsJson>) returns (path: Option<string>, notice: Notice)
      modifies this`busDetails, this`busPanel
      ensures path.Some? <==> userInfo.Some?
      ensures userInfo.Some? ==> path == Some(QueryText(userInfo.value.busNumber))
      ensures path.Some? && reply.Received? && reply.ok ==>
        busDetails == Some(reply.body) && busPanel == Some(BusPanelOf(reply.body)) && notice == Quiet
      ensures path.Some? && reply.Received? && !reply.ok ==>
        busDetails == old(busDetails) && busPanel == old(busPanel) && notice == Quiet
      ensures path.None? || reply.NetworkError? ==>
        busDetails == old(busDetails) && busPanel == old(busPanel) && notice == Error("Error loading bus details")
    {
      if userInfo.None? {
        return None, Error("Error loading bus details");
      }
      path := Some(QueryText(userInfo.value.busNumber));
      match reply
      case NetworkError =>
        notice := Error("Error loading bus details");
      case Received(ok, body) =>
        notice := Quiet;
        if ok {
          busDetails := Some(body);
          busPanel := Some(BusPanelOf(body));
        }
    }

    /** loadStudentInfo: the first student of a non-empty list becomes the
        cached child and is shown; an empty list or a failed reply changes
        nothing. */
    method LoadStudentInfo(reply: Response<seq<StudentJson>>) returns (notice: Notice)
      modifies this`studentInfo, this`studentPanel
      ensures reply.Received? && reply.ok && reply.body != [] ==>
        studentInfo == Some(reply.body[0]) && studentPanel == Card(reply.body[0])
      ensures !(reply.Received? && reply.ok && reply.body != []) ==>
        studentInfo == old(studentInfo) && studentPanel == old(studentPanel)
      ensures notice == if reply.NetworkError? then Error("Error loading student info") else Quiet
    {
      match reply
      case NetworkError =>
        notice := Error("Error loading student info");
      case Received(ok, body) =>
        notice := Quiet;
        if ok && |body| > 0 {
          studentInfo := Some(body[0]);
          studentPanel := Card(body[0]);
        }
    }

    /** editStudentDetails: opens the edit form on the cached child; without
        one it does nothing. */
    method EditStudentDetails()
      modifies this`studentPanel
      ensures studentInfo.Some? ==> studentPanel == EditForm(studentInfo.value)
      ensures studentInfo.None? ==> studentPanel == old(studentPanel)
    {
      if studentInfo.Some? {
        studentPanel := EditForm(studentInfo.value);
      }
    }

    /** cancelEdit: shows the cached child's card again. */
    method CancelEdit()
      modifies this`studentPanel
      ensures studentInfo.Some? ==> studentPanel == Card(studentInfo.value)
      ensures studentInfo.None? ==> studentPanel == old(studentPanel)
    {
      if studentInfo.Some? {
        studentPanel := Card(studentInfo.value);
      }
    }

    /** saveStudentDetails: an empty name or class is rejected before any
        request; after a successful reply only the cached child's name and
        class change and the card is shown again; a failed reply leaves the
        cache as it was. */
    method SaveStudentDetails(name: string, className: string, reply: Response<ReplyBody>)
      returns (sent: Option<UpdateStudentRequest>, notice: Notice)
      modifies this`studentInfo, this`studentPanel
      ensures name == "" || className == "" ==>
        sent == None && notice == FillAllFields &&
        studentInfo == old(studentInfo) && studentPanel == old(studentPanel)
      ensures name != "" && className != "" && old(studentInfo).None? ==>
        sent == None && notice == ConnectionError &&
        studentInfo == old(studentInfo) && studentPanel == old(studentPanel)
      ensures name != "" && className != "" && old(studentInfo).Some? ==>
        sent == Some(UpdateStudentRequest(old(studentInfo).value.id, name, className))
      ensures sent.Some? && reply.Received? && reply.body.success ==>
        studentInfo == Some(old(studentInfo).value.(studentName := name, className := className)) &&
        studentPanel == Card(studentInfo.value) &&
        notice == Success("Student details updated!")
      ensures sent.Some? && reply.Received? && !reply.body.success ==>
        studentInfo == old(studentInfo) && studentPanel == old(studentPanel) &&
        notice == Error(Or(reply.body.message, "Update failed!"))
      ensures sent.Some? && reply.NetworkError? ==>
        studentInfo == old(studentInfo) && studentPanel == old(studentPanel) && notice == ConnectionError
    {
      if name == "" || className == "" {
        return None, FillAllFields;
      }
      if studentInfo.None? {
        // studentInfo.id throws while the body is built
        return None, ConnectionError;
      }
      sent := Some(UpdateStudentRequest(studentInfo.value.id, name, className));
      match reply
      case NetworkError =>
        notice := ConnectionError;
      case Received(_, body) =>
        if body.success {
          studentInfo := Some(studentInfo.value.(studentName := name, className := className));
          studentPanel := Card(studentInfo.value);
          notice := Success("Student details updated!");
        } else {
          notice := Error(Or(body.message, "Update failed!"));
        }
    }

    /** loadTodayAttendance: the child's record for today; without a cached
        child nothing happens, and a reply that is not ok leaves the panel
        as it was. */
    method LoadTodayAttendance(today: string, reply: Response<seq<AttendanceJson>>)
      returns (query: Option<(int, string)>)
      modifies this`todayPanel
      ensures query.Some? <==> studentInfo.Some?
      ensures query.Some? ==> query.value == (studentInfo.value.id, today)
      ensures query.Some? && reply.Received? && reply.ok ==> todayPanel == DayPanelOf(reply.body, NoRecordToday)
      ensures query.Some? && reply.NetworkError? ==> todayPanel == LoadError
      ensures query.None? || (reply.Received? && !reply.ok) ==> todayPanel == old(todayPanel)
    {
      if studentInfo.None? {
        return None;
      }
      query := Some((studentInfo.value.id, today));
      todayPanel := DayView(reply, NoRecordToday, todayPanel);
    }

    /** loadAttendanceByDate: the same for the date the parent picked. */
    method LoadAttendanceByDate(date: string, reply: Response<seq<AttendanceJson>>)
      returns (query: Option<(int, string)>)
      modifies this`historyPanel
      ensures query.Some? <==> studentInfo.Some?
      ensures query.Some? ==> query.value == (studentInfo.value.id, date)
      ensures query.Some? && reply.Received? && reply.ok ==> historyPanel == DayPanelOf(reply.body, NoRecordOnDate)
      ensures query.Some? && reply.NetworkError? ==> historyPanel == LoadError
      ensures query.None? || (reply.Received? && !reply.ok) ==> historyPanel == old(historyPanel)
    {
      if studentInfo.None? {
        return None;
      }
      query := Some((studentInfo.value.id, date));
      historyPanel := DayView(reply, NoRecordOnDate, historyPanel);
    }
  }

  /** A day panel after a reply: rebuilt from an ok reply, the error state
      after a failure, and left as it was after a reply that is not ok. */
  function DayView(reply: Response<seq<AttendanceJson>>, emptyText: string, current: DayPanel): (p: DayPanel)
    ensures reply.Received? && reply.ok ==> p == DayPanelOf(reply.body, emptyText)
    ensures reply.NetworkError? ==> p == LoadError
    ensures reply.Received? && !reply.ok ==> p == current
  {
    match reply
    case NetworkError => LoadError
    case Received(ok, body) => if ok then DayPanelOf(body, emptyText) else current
  }
}
