/** The teacher dashboard controller (static/teacher-dashboard.js): the page
    keeps the signed-in teacher (`userInfo`) and the bus's roster
    (`students`) in module variables, filters the roster as the teacher
    types, enrolls students, marks attendance and shows today's records.
    Replies from the server are parameters; "today" is a parameter. */
module TeacherDashboard {
  import opened Values
  import opened Api

  // ---------------------------------------------------------------------------
  // The roster and its search
  // ---------------------------------------------------------------------------

  /** The search box's test on one student: the lower-cased term occurs in
      the lower-cased name, roll number or class. */
  predicate Matches(s: StudentJson, term: string) {
    Includes(Lower(s.studentName), term) ||
    Includes(Lower(s.rollNumber), term) ||
    Includes(Lower(s.className), term)
  }

  /** filterStudents: the roster entries that match the search, in roster
      order. */
  function Filter(roster: seq<StudentJson>, search: string): (shown: seq<StudentJson>)
    ensures forall s :: s in shown <==> s in roster && Matches(s, Lower(search))
    ensures IsSubsequence(shown, roster)
  {
    var term := Lower(search);
    Select(roster, (s: StudentJson) => Matches(s, term))
  }

  /** An empty search shows the whole roster. */
  lemma FilterEmptySearch(roster: seq<StudentJson>)
    ensures Filter(roster, "") == roster
  {
    forall s | s in roster ensures Matches(s, Lower("")) {
      IncludesEmpty(Lower(s.studentName));
    }
    SelectAll(roster, (s: StudentJson) => Matches(s, Lower("")));
  }

  /** Searching is case-insensitive: a search and its lower-cased form show
      the same students. */
  lemma FilterIgnoresCase(roster: seq<StudentJson>, search: string)
    ensures Filter(roster, Lower(search)) == Filter(roster, search)
  {
    LowerIdempotent(search);
  }

  /** A search term found, in any case, in one of the three fields shows the
      student. */
  lemma FilterFindsField(roster: seq<StudentJson>, search: string, s: StudentJson, k: int)
    requires s in roster
    requires OccursAt(Lower(s.studentName), Lower(search), k) ||
             OccursAt(Lower(s.rollNumber), Lower(search), k) ||
             OccursAt(Lower(s.className), Lower(search), k)
    ensures s in Filter(roster, search)
  {
  }

  /** displayStudents: the empty state, or one card per student in order. */
  datatype RosterPanel = NoStudents | Cards(students: seq<StudentJson>)

  function RosterView(list: seq<StudentJson>): (p: RosterPanel)
    ensures p.NoStudents? <==> list == []
    ensures p.Cards? ==> p.students == list
  {
    if list == [] then NoStudents else Cards(list)
  }

  // ---------------------------------------------------------------------------
  // Today's attendance
  // ---------------------------------------------------------------------------

  /** An entry or exit time as the record shows it. */
  function TimeLabel(t: Option<string>): (text: string)
    ensures Truthy(t) ==> text == t.value
    ensures !Truthy(t) ==> text == "Not marked"
  {
    Or(t, "Not marked")
  }

  datatype AttendanceItem = AttendanceItem(studentName: Option<string>, entry: string, exit: string)

  function Item(r: AttendanceJson): AttendanceItem {
    AttendanceItem(r.studentName, TimeLabel(r.entryTime), TimeLabel(r.exitTime))
  }

  function Items(records: seq<AttendanceJson>): (items: seq<AttendanceItem>)
    ensures |items| == |records|
    ensures forall i :: 0 <= i < |records| ==> items[i] == Item(records[i])
  {
    if records == [] then [] else [Item(records[0])] + Items(records[1..])
  }

  /** The todayAttendance panel. */
  datatype AttendancePanel = NotLoaded | NoRecords | Records(items: seq<AttendanceItem>) | LoadError

  /** Whether every per-student request succeeded (Promise.all rejects on
      the first failure). */
  predicate AllLoaded(results: seq<Option<seq<AttendanceJson>>>) {
    forall i :: 0 <= i < |results| ==> results[i].Some?
  }

  function Loaded(results: seq<Option<seq<AttendanceJson>>>): (lists: seq<seq<AttendanceJson>>)
    requires AllLoaded(results)
    ensures |lists| == |results|
    ensures forall i :: 0 <= i < |results| ==> lists[i] == results[i].value
  {
    if results == [] then [] else [results[0].value] + Loaded(results[1..])
  }

  /** loadAttendance, after the requests: all the records of all students,
      roster order first, or the empty state when there are none; one
      failed request fails the whole panel. */
  function AttendanceView(results: seq<Option<seq<AttendanceJson>>>): (p: AttendancePanel)
    ensures p.LoadError? <==> !AllLoaded(results)
    ensures AllLoaded(results) ==>
      (p.NoRecords? <==> forall i :: 0 <= i < |results| ==> results[i].value == [])
    ensures p.Records? ==> p.items == Items(Flatten(Loaded(results)))
  {
    if !AllLoaded(results) then LoadError
    else
      var all := Flatten(Loaded(results));
      FlattenEmpty(Loaded(results));
      if all == [] then NoRecords else Records(Items(all))
  }

  /** With a single record among all the students' replies, the panel shows
      exactly one item. */
  lemma OneRecordOneItem(results: seq<Option<seq<AttendanceJson>>>)
    requires AllLoaded(results)
    requires TotalLength(Loaded(results)) == 1
    ensures AttendanceView(results).Records? && |AttendanceView(results).items| == 1
  {
    FlattenLength(Loaded(results));
  }

  /** A record is shown exactly when it is in the reply of some roster
      student. */
  lemma AttendanceViewMembers(results: seq<Option<seq<AttendanceJson>>>, r: AttendanceJson)
    requires AllLoaded(results)
    ensures r in Flatten(Loaded(results)) <==> exists i :: 0 <= i < |results| && r in results[i].value
  {
    FlattenMembers(Loaded(results), r);
  }

  // ---------------------------------------------------------------------------
  // The page
  // ---------------------------------------------------------------------------

  /** The dashboard's module-level state and what it has rendered. */
  class TeacherPage {
    var userInfo: Option<UserInfoJson>
    var students: seq<StudentJson>
    var rosterPanel: RosterPanel
    var attendancePanel: AttendancePanel
    var location: Location

    /** The page as loaded, before init runs. */
    constructor ()
      ensures userInfo == None && students == [] && location == Stay
      ensures rosterPanel == NoStudents && attendancePanel == NotLoaded
    {
      userInfo, students := None, [];
      rosterPanel, attendancePanel := NoStudents, NotLoaded;
      location := Stay;
    }

    /** loadUserInfo: a failed identity request sends the browser back to
        the login page. */
    method LoadUserInfo(reply: Response<UserInfoJson>)
      modifies this`userInfo, this`location
      ensures reply.Received? && reply.ok ==> userInfo == Some(reply.body) && location == old(location)
      ensures !(reply.Received? && reply.ok) ==> userInfo == old(userInfo) && location == GoTo("/")
    {
      if reply.Received? && reply.ok {
        userInfo := Some(reply.body);
      } else {
        location := GoTo("/");
      }
    }

    /** loadStudents: the roster of the teacher's bus, asked for with the
        bus number as query text (a null bus number is sent as the text
        "null"). Without a teacher loaded, reading `userInfo.bus_number`
        throws and the error is shown. */
    method LoadStudents(reply: Response<seq<StudentJson>>) returns (query: Option<string>, notice: Notice)
      modifies this`students, this`rosterPanel
      ensures query.Some? <==> userInfo.Some?
      ensures userInfo.Some? ==> query == Some(QueryText(userInfo.value.busNumber))
      ensures query.Some? && reply.Received? ==>
        students == reply.body && rosterPanel == RosterView(reply.body) && notice == Quiet
      ensures !(query.Some? && reply.Received?) ==>
        students == old(students) && rosterPanel == old(rosterPanel) && notice == Error("Error loading students")
    {
      if userInfo.None? {
        return None, Error("Error loading students");
      }
      query := Some(QueryText(userInfo.value.busNumber));
      if reply.NetworkError? {
        return query, Error("Error loading students");
      }
      students := reply.body;
      rosterPanel := RosterView(students);
      notice := Quiet;
    }

    /** filterStudents: the roster panel shows the matching students; the
        roster itself is not touched. */
    method FilterStudents(search: string)
      modifies this`rosterPanel
      ensures rosterPanel == RosterView(Filter(students, search))
      ensures students == old(students)
    {
      rosterPanel := RosterView(Filter(students, search));
    }

    /** updateTeacherDetails: an empty name or mobile is rejected before any
        request; after a successful reply only the cached name and mobile
        change. */
    method UpdateTeacherDetails(name: string, mobile: string, reply: Response<ReplyBody>)
      returns (sent: Option<UpdateTeacherRequest>, notice: Notice)
      modifies this`userInfo
      ensures name == "" || mobile == "" ==>
        sent == None && notice == FillAllFields && userInfo == old(userInfo)
      ensures name != "" && mobile != "" ==> sent == Some(UpdateTeacherRequest(name, mobile))
      ensures sent.Some? && reply.Received? && reply.body.success && old(userInfo).Some? ==>
        userInfo == Some(old(userInfo).value.(name := Some(name), mobile := Some(mobile))) &&
        notice == Success("Details updated successfully!")
      ensures sent.Some? && reply.Received? && reply.body.success && old(userInfo).None? ==>
        userInfo == None && notice == ConnectionError
      ensures sent.Some? && reply.Received? && !reply.body.success ==>
        userInfo == old(userInfo) && notice == Error(Or(reply.body.message, "Update failed!"))
      ensures sent.Some? && reply.NetworkError? ==> userInfo == old(userInfo) && notice == ConnectionError
    {
      if name == "" || mobile == "" {
        return None, FillAllFields;
      }
      sent := Some(UpdateTeacherRequest(name, mobile));
      if reply.NetworkError? {
        return sent, ConnectionError;
      }
      if !reply.body.success {
        return sent, Error(Or(reply.body.message, "Update failed!"));
      }
      if userInfo.None? {
        // userInfo.name = name throws inside the try
        return sent, ConnectionError;
      }
      userInfo := Some(userInfo.value.(name := Some(name), mobile := Some(mobile)));
      notice := Success("Details updated successfully!");
    }

    /** enrollStudent, up to the request: all four inputs are required; the
        student is enrolled by registering a parent account with a fixed
        placeholder mobile and password and the teacher's bus. The finger
        ID is checked but not sent. */
    method EnrollStudent(name: string, roll: string, className: string, fingerId: string)
      returns (r: Submission<RegisterRequest>)
      ensures r.Rejected? <==> name == "" || roll == "" || className == "" || fingerId == "" || userInfo.None?
      ensures r.Rejected? && (name == "" || roll == "" || className == "" || fingerId == "") ==> r.notice == FillAllFields
      ensures r.Rejected? && name != "" && roll != "" && className != "" && fingerId != "" ==> r.notice == ConnectionError
      ensures r.Send? ==>
        r.request == RegisterRequest(
          Some("parent"), Some("Parent of " + name), Some("0000000000"), Some("default123"),
          Some(className), None, userInfo.value.busNumber, userInfo.value.busRoute,
          Some(name), Some(roll))
    {
      if name == "" || roll == "" || className == "" || fingerId == "" {
        return Rejected(FillAllFields);
      }
      if userInfo.None? {
        // userInfo.bus_number throws while the body is built
        return Rejected(ConnectionError);
      }
      r := Send(RegisterRequest(
        Some("parent"), Some("Parent of " + name), Some("0000000000"), Some("default123"),
        Some(className), None, userInfo.value.busNumber, userInfo.value.busRoute,
        Some(name), Some(roll)));
    }

    /** markAttendance, up to the request: a student and an entry time are
        required; a blank exit time is sent as null; the date is today and
        the bus is the teacher's. `selected` is the dropdown's value, a
        roster id or nothing. */
    method MarkAttendance(selected: Option<int>, entryTime: string, exitTime: string, today: string)
      returns (r: Submission<AttendanceRequest>)
      ensures r.Rejected? <==> selected.None? || entryTime == "" || userInfo.None?
      ensures r.Rejected? && (selected.None? || entryTime == "") ==>
        r.notice == Error("Please select student and entry time!")
      ensures r.Rejected? && selected.Some? && entryTime != "" ==> r.notice == ConnectionError
      ensures r.Send? ==>
        r.request.studentId == selected && r.request.entryTime == Some(entryTime) &&
        (r.request.exitTime.None? <==> exitTime == "") &&
        (exitTime != "" ==> r.request.exitTime == Some(exitTime)) &&
        r.request.date == Some(today) && r.request.busNumber == userInfo.value.busNumber
    {
      if selected.None? || entryTime == "" {
        return Rejected(Error("Please select student and entry time!"));
      }
      if userInfo.None? {
        return Rejected(ConnectionError);
      }
      var exit := if exitTime == "" then None else Some(exitTime);
      r := Send(AttendanceRequest(selected, Some(entryTime), exit, Some(today), userInfo.value.busNumber));
    }

    /** loadAttendance: one request per roster student for today, in roster
        order, and the panel built from all their replies (one reply per
        request). */
    method LoadAttendance(today: string, results: seq<Option<seq<AttendanceJson>>>)
      returns (requests: seq<(int, string)>)
      requires |results| == |students|
      modifies this`attendancePanel
      ensures requests == AttendanceQueries(students, today)
      ensures attendancePanel == AttendanceView(results)
    {
      requests := AttendanceQueries(students, today);
      attendancePanel := AttendanceView(results);
    }
  }

  /** The (student_id, date) query of each roster student, in roster order. */
  function AttendanceQueries(roster: seq<StudentJson>, today: string): (qs: seq<(int, string)>)
    ensures |qs| == |roster|
    ensures forall i :: 0 <= i < |roster| ==> qs[i] == (roster[i].id, today)
  {
    seq(|roster|, i requires 0 <= i < |roster| => (roster[i].id, today))
  }

  /** What enrollStudent and markAttendance show after their request, and
      whether they reload the list they changed: an ok reply shows the
      action's success text and reloads, any other reply its failure text,
      and a rejected request 'Connection error!'. Enrollment passes
      'Student enrolled successfully!' and 'Enrollment failed!'; marking
      passes 'Attendance marked!' and 'Failed to mark attendance!'. */
  function AfterPost(reply: Response<ReplyBody>, done: string, failed: string): (r: (Notice, bool))
    ensures r.1 <==> reply.Received? && reply.ok
    ensures reply.NetworkError? ==> r.0 == ConnectionError
    ensures reply.Received? && reply.ok ==> r.0 == Success(done)
    ensures reply.Received? && !reply.ok ==> r.0 == Error(failed)
  {
    match reply
    case NetworkError => (ConnectionError, false)
    case Received(ok, _) => if ok then (Success(done), true) else (Error(failed), false)
  }
}
