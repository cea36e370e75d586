/** The Flask server (app.py): four SQLite tables and the signed session
    cookie, changed and read by the request handlers. Each table is a
    sequence of rows in insertion order; an AUTOINCREMENT id is the row's
    position plus one (rows are never deleted, and a rolled-back insert gives
    its id back). A request body is an `Api` record whose missing keys are
    `None`, exactly as `data.get` sees them. */
module Backend {
  import opened Values
  import opened Api

  /** BUS_ROUTES: the four buses and their routes. */
  const BusRoutes: map<string, string> := map[
    "Bus-1" := "Route A - Main Street \U{2192} School",
    "Bus-2" := "Route B - Park Avenue \U{2192} School",
    "Bus-3" := "Route C - Lake Road \U{2192} School",
    "Bus-4" := "Route D - Hill Street \U{2192} School"]

  // ---------------------------------------------------------------------------
  // Password hashing, kept abstract
  // ---------------------------------------------------------------------------

  /** A salted password hash. Key derivation is not modelled: a hash is known
      by its salt and the password it was made from. */
  datatype PasswordHash = PasswordHash(salt: string, derivedFrom: string)

  /** generate_password_hash, with its random salt as a parameter. */
  function Hash(password: string, salt: string): PasswordHash {
    PasswordHash(salt, password)
  }

  /** check_password_hash. */
  predicate Verify(h: PasswordHash, password: string) {
    h.derivedFrom == password
  }

  /** A hash verifies the password it was made from, and no other. */
  lemma HashVerifies(password: string, other: string, salt: string)
    ensures Verify(Hash(password, salt), password)
    ensures Verify(Hash(password, salt), other) ==> other == password
  {
  }

  // ---------------------------------------------------------------------------
  // Tables
  // ---------------------------------------------------------------------------

  /** A row of `users`. user_type, name and password are NOT NULL. */
  datatype User = User(
    id: int,
    userType: string,
    name: string,
    mobile: Option<string>,
    password: PasswordHash,
    className: Option<string>,
    studentsCount: Option<string>,
    busNumber: Option<string>,
    busRoute: Option<string>)

  /** A row of `students`. student_name, roll_number (UNIQUE) and class are
      NOT NULL. */
  datatype Student = Student(
    id: int,
    studentName: string,
    rollNumber: string,
    className: string,
    parentId: Option<int>,
    busNumber: Option<string>,
    busRoute: Option<string>,
    fingerprintId: Option<int>)

  /** A row of `bus_details`. bus_number (UNIQUE) and bus_route are NOT NULL. */
  datatype Bus = Bus(
    id: int,
    busNumber: string,
    busRoute: string,
    driverName: Option<string>,
    driverMobile: Option<string>,
    teacherId: Option<int>,
    capacity: Option<int>)

  /** A row of `attendance`. */
  datatype AttendanceRow = AttendanceRow(
    id: int,
    studentId: Option<int>,
    entryTime: Option<string>,
    exitTime: Option<string>,
    date: Option<string>,
    busNumber: Option<string>)

  /** The three keys login writes into the session. */
  datatype Session = Session(userId: Option<int>, userType: Option<string>, userName: Option<string>)

  const NoSession := Session(None, None, None)

  /** The rows init_db inserts into an empty `bus_details`. */
  function DefaultBuses(): seq<Bus> {
    [Bus(1, "Bus-1", BusRoutes["Bus-1"], Some("Rajesh Kumar"), Some("9876543210"), None, Some(40)),
     Bus(2, "Bus-2", BusRoutes["Bus-2"], Some("Suresh Babu"), Some("9876543211"), None, Some(35)),
     Bus(3, "Bus-3", BusRoutes["Bus-3"], Some("Ramesh Reddy"), Some("9876543212"), None, Some(45)),
     Bus(4, "Bus-4", BusRoutes["Bus-4"], Some("Vijay Singh"), Some("9876543213"), None, Some(38))]
  }

  /** The bus table after seeding. */
  function Seeded(buses: seq<Bus>): seq<Bus> {
    if buses == [] then DefaultBuses() else buses
  }

  /** Seeding twice is seeding once, the seeded table names each of the four
      buses exactly once with its BUS_ROUTES route, and a table that already
      has rows is left as it is. */
  lemma SeedingIdempotent(buses: seq<Bus>)
    ensures Seeded(Seeded(buses)) == Seeded(buses)
    ensures buses != [] ==> Seeded(buses) == buses
    ensures buses == [] ==>
      |Seeded(buses)| == 4 &&
      forall i :: 0 <= i < 4 ==> Seeded(buses)[i].busNumber in BusRoutes &&
                                 BusRoutes[Seeded(buses)[i].busNumber] == Seeded(buses)[i].busRoute &&
                                 Seeded(buses)[i].teacherId == None
  {
  }

  // ---------------------------------------------------------------------------
  // Integrity of the tables
  // ---------------------------------------------------------------------------

  predicate UsersNumbered(users: seq<User>) {
    forall i :: 0 <= i < |users| ==> users[i].id == i + 1
  }

  predicate StudentsNumbered(students: seq<Student>) {
    forall i :: 0 <= i < |students| ==> students[i].id == i + 1
  }

  predicate BusesNumbered(buses: seq<Bus>) {
    forall i :: 0 <= i < |buses| ==> buses[i].id == i + 1
  }

  predicate AttendanceNumbered(rows: seq<AttendanceRow>) {
    forall i :: 0 <= i < |rows| ==> rows[i].id == i + 1
  }

  /** The UNIQUE constraint on students.roll_number. */
  predicate RollsUnique(students: seq<Student>) {
    forall i, j :: 0 <= i < j < |students| ==> students[i].rollNumber != students[j].rollNumber
  }

  /** The UNIQUE constraint on bus_details.bus_number. */
  predicate BusNumbersUnique(buses: seq<Bus>) {
    forall i, j :: 0 <= i < j < |buses| ==> buses[i].busNumber != buses[j].busNumber
  }

  predicate TablesValid(users: seq<User>, students: seq<Student>, buses: seq<Bus>, attendance: seq<AttendanceRow>) {
    UsersNumbered(users) && StudentsNumbered(students) && BusesNumbered(buses) &&
    AttendanceNumbered(attendance) && RollsUnique(students) && BusNumbersUnique(buses)
  }

  // ---------------------------------------------------------------------------
  // Queries
  // ---------------------------------------------------------------------------

  /** SELECT * FROM users WHERE id = ? (one row). */
  function UserById(users: seq<User>, id: int): Option<User> {
    First(users, (u: User) => u.id == id)
  }

  /** With AUTOINCREMENT ids, the user with id k is row k - 1. */
  lemma UserByIdNumbered(users: seq<User>, id: int)
    requires UsersNumbered(users)
    ensures UserById(users, id) == if 1 <= id <= |users| then Some(users[id - 1]) else None
  {
    var r := UserById(users, id);
    if 1 <= id <= |users| {
      assert users[id - 1].id == id;
    }
  }

  /** SELECT * FROM students WHERE roll_number = ? (one row). */
  function StudentByRoll(students: seq<Student>, roll: Option<string>): Option<Student> {
    First(students, (s: Student) => SqlEq(Some(s.rollNumber), roll))
  }

  /** The teacher login query: the first user with that name and type
      'teacher'. */
  function TeacherNamed(users: seq<User>, name: Option<string>): (r: Option<User>)
    ensures r.None? <==> forall u :: u in users ==> !(SqlEq(Some(u.name), name) && u.userType == "teacher")
    ensures r.Some? ==> r.value in users && Some(r.value.name) == name && r.value.userType == "teacher"
  {
    First(users, (u: User) => SqlEq(Some(u.name), name) && u.userType == "teacher")
  }

  /** The parent login query, users JOIN students ON users.id = parent_id,
      written as the lookups it amounts to: the student with that roll
      number, then its parent, kept only if the parent's type is the type
      the client sent. */
  function ParentByRoll(users: seq<User>, students: seq<Student>, roll: Option<string>, userType: Option<string>): (r: Option<User>)
    ensures r.Some? ==> r.value in users && exists s :: s in students && JoinRow(r.value, s, roll, userType)
    ensures StudentByRoll(students, roll).None? ==> r.None?
  {
    match StudentByRoll(students, roll)
    case None => None
    case Some(s) =>
      if s.parentId.None? then None
      else
        match UserById(users, s.parentId.value)
        case None => None
        case Some(u) =>
          if SqlEq(Some(u.userType), userType) then
            assert s in students && JoinRow(u, s, roll, userType);
            Some(u)
          else None
  }

  /** SELECT * FROM bus_details WHERE bus_number = ? (all rows). */
  function BusesNamed(buses: seq<Bus>, busNumber: string): seq<Bus> {
    Select(buses, (b: Bus) => b.busNumber == busNumber)
  }

  /** SELECT * FROM students WHERE bus_number = ?: a teacher's roster. */
  function BusRoster(students: seq<Student>, busNumber: Option<string>): seq<Student> {
    Select(students, (s: Student) => SqlEq(s.busNumber, busNumber))
  }

  /** A student inserted on a bus joins the end of that bus's roster, and
      leaves every other bus's roster as it was. */
  lemma NewStudentJoinsRoster(students: seq<Student>, s: Student, busNumber: Option<string>)
    ensures BusRoster(students + [s], busNumber) ==
            BusRoster(students, busNumber) + (if SqlEq(s.busNumber, busNumber) then [s] else [])
  {
    SelectAppend(students, s, (t: Student) => SqlEq(t.busNumber, busNumber));
  }

  /** A pair of rows the join in the parent login query produces. */
  predicate JoinRow(u: User, s: Student, roll: Option<string>, userType: Option<string>) {
    s.parentId == Some(u.id) && SqlEq(Some(s.rollNumber), roll) && SqlEq(Some(u.userType), userType)
  }

  /** With unique roll numbers and ids, the join has at most one row and the
      lookups find exactly its user. */
  lemma {:induction false} ParentByRollIsJoin(users: seq<User>, students: seq<Student>, roll: Option<string>, userType: Option<string>, u: User)
    requires UsersNumbered(users) && RollsUnique(students)
    ensures ParentByRoll(users, students, roll, userType) == Some(u) <==>
            u in users && exists s :: s in students && JoinRow(u, s, roll, userType)
  {
    var p := (s: Student) => SqlEq(Some(s.rollNumber), roll);
    if ParentByRoll(users, students, roll, userType) == Some(u) {
      var s := StudentByRoll(students, roll).value;
      UserByIdNumbered(users, s.parentId.value);
      assert JoinRow(u, s, roll, userType);
    }
    if u in users && exists s :: s in students && JoinRow(u, s, roll, userType) {
      var s :| s in students && JoinRow(u, s, roll, userType);
      var i :| 0 <= i < |students| && students[i] == s;
      var found := StudentByRoll(students, roll);
      assert p(students[i]);
      var j :| 0 <= j < |students| && students[j] == found.value && p(students[j]);
      assert i == j;
      var k :| 0 <= k < |users| && users[k] == u;
      UserByIdNumbered(users, u.id);
    }
  }

  /** The user a login request names: looked up by name for 'teacher', and
      through the student's roll number for any other type. */
  function LoginUser(users: seq<User>, students: seq<Student>, req: LoginRequest): (r: Option<User>)
    ensures r.Some? ==> r.value in users
    ensures r.Some? && req.userType == Some("teacher") ==>
      r.value.userType == "teacher" && Some(r.value.name) == req.name
    ensures r.Some? && req.userType != Some("teacher") ==>
      exists s :: s in students && JoinRow(r.value, s, req.rollNumber, req.userType)
    ensures req.userType.None? ==> r.None?
  {
    if req.userType == Some("teacher") then TeacherNamed(users, req.name)
    else ParentByRoll(users, students, req.rollNumber, req.userType)
  }

  /** SELECT bd.*, u.name, u.mobile FROM bus_details bd LEFT JOIN users u ON
      bd.teacher_id = u.id: the bus with its teacher's name and mobile, both
      NULL when no user matches. */
  datatype BusView = BusView(bus: Bus, teacherName: Option<string>, teacherMobile: Option<string>)

  function WithTeacher(users: seq<User>, bus: Bus): (v: BusView)
    ensures v.bus == bus
    ensures v.teacherName.Some? <==> bus.teacherId.Some? && exists u :: u in users && u.id == bus.teacherId.value
    ensures v.teacherName.Some? ==>
      exists u :: u in users && u.id == bus.teacherId.value &&
                  v.teacherName == Some(u.name) && v.teacherMobile == u.mobile
    ensures v.teacherName.None? ==> v.teacherMobile.None?
  {
    var teacher := if bus.teacherId.Some? then UserById(users, bus.teacherId.value) else None;
    if teacher.Some? then
      BusView(bus, Some(teacher.value.name), teacher.value.mobile)
    else
      BusView(bus, None, None)
  }

  /** An attendance row joined with its student's name. */
  datatype AttendanceView = AttendanceView(row: AttendanceRow, studentName: string)

  /** The attendance rows of one student on one date, each joined with the
      student it names; a row whose student does not exist drops out of the
      inner join. */
  function AttendanceOf(attendance: seq<AttendanceRow>, students: seq<Student>, studentId: Option<int>, date: string): (r: seq<AttendanceView>)
    ensures forall v :: v in r ==>
      v.row in attendance && SqlEq(v.row.studentId, studentId) && v.row.date == Some(date) &&
      exists s :: s in students && Some(s.id) == v.row.studentId && s.studentName == v.studentName
    ensures forall a :: a in attendance && SqlEq(a.studentId, studentId) && a.date == Some(date) &&
                        (exists s :: s in students && Some(s.id) == a.studentId) ==>
                          exists v :: v in r && v.row == a
  {
    if attendance == [] then []
    else
      var a := attendance[0];
      var rest := AttendanceOf(attendance[1..], students, studentId, date);
      if SqlEq(a.studentId, studentId) && a.date == Some(date) then
        match First(students, (s: Student) => Some(s.id) == a.studentId)
        case None => rest
        case Some(s) => [AttendanceView(a, s.studentName)] + rest
      else rest
  }

  /** Attendance is never de-duplicated: a newly inserted row for a student
      and date adds exactly one record to what GET returns for them, after
      the records already there. */
  lemma {:induction false} AttendanceAppend(attendance: seq<AttendanceRow>, students: seq<Student>, row: AttendanceRow, studentName: string)
    requires row.studentId.Some? && row.date.Some?
    requires First(students, (s: Student) => Some(s.id) == row.studentId).Some?
    requires First(students, (s: Student) => Some(s.id) == row.studentId).value.studentName == studentName
    ensures AttendanceOf(attendance + [row], students, row.studentId, row.date.value) ==
            AttendanceOf(attendance, students, row.studentId, row.date.value) + [AttendanceView(row, studentName)]
  {
    if attendance == [] {
      assert attendance + [row] == [row];
    } else {
      assert (attendance + [row])[1..] == attendance[1..] + [row];
      AttendanceAppend(attendance[1..], students, row, studentName);
    }
  }

  /** GET /api/user-info: the session user's columns, without the password. */
  datatype UserInfo = UserInfo(
    id: int,
    userType: string,
    name: string,
    mobile: Option<string>,
    className: Option<string>,
    busNumber: Option<string>,
    busRoute: Option<string>)

  function InfoOf(u: User): UserInfo {
    UserInfo(u.id, u.userType, u.name, u.mobile, u.className, u.busNumber, u.busRoute)
  }

  // ---------------------------------------------------------------------------
  // Rows the register handler inserts
  // ---------------------------------------------------------------------------

  function TeacherRow(id: int, req: RegisterRequest, hashed: PasswordHash): User
    requires req.name.Some?
  {
    User(id, "teacher", req.name.value, req.mobile, hashed, req.className,
         req.studentsCount, req.busNumber, req.busRoute)
  }

  function ParentRow(id: int, req: RegisterRequest, hashed: PasswordHash): User
    requires req.name.Some?
  {
    User(id, "parent", req.name.value, req.mobile, hashed, req.className,
         None, req.busNumber, req.busRoute)
  }

  function StudentRow(id: int, req: RegisterRequest, parentId: int): Student
    requires req.studentName.Some? && req.rollNumber.Some? && req.className.Some?
  {
    Student(id, req.studentName.value, req.rollNumber.value, req.className.value,
            Some(parentId), req.busNumber, req.busRoute, None)
  }

  /** UPDATE bus_details SET teacher_id = ? WHERE bus_number = ? */
  function AssignTeacher(buses: seq<Bus>, busNumber: Option<string>, teacherId: int): (r: seq<Bus>)
    ensures |r| == |buses|
    ensures forall i :: 0 <= i < |buses| ==>
      r[i] == if SqlEq(Some(buses[i].busNumber), busNumber) then buses[i].(teacherId := Some(teacherId)) else buses[i]
  {
    if buses == [] then []
    else
      var b := buses[0];
      [if SqlEq(Some(b.busNumber), busNumber) then b.(teacherId := Some(teacherId)) else b] +
      AssignTeacher(buses[1..], busNumber, teacherId)
  }

  /** A student insert passes the NOT NULL and UNIQUE constraints. */
  predicate StudentInsertable(students: seq<Student>, req: RegisterRequest)
    ensures StudentInsertable(students, req) <==>
      req.studentName.Some? && req.rollNumber.Some? && req.className.Some? &&
      forall s :: s in students ==> s.rollNumber != req.rollNumber.value
  {
    req.studentName.Some? && req.rollNumber.Some? && req.className.Some? &&
    StudentByRoll(students, req.rollNumber).None?
  }

  // ---------------------------------------------------------------------------
  // Replies
  // ---------------------------------------------------------------------------

  /** A handler's reply: a status and a JSON body, or the 500 page Flask sends
      when the handler raises an exception it does not catch. */
  datatype Http<T> = Http(status: int, body: T) | InternalError

  const Registered := Http(200, ReplyBody(true, Some("Registration successful"), None, None))
  const RegisterRejected := Http(400, ReplyBody(false, Some("User already exists or invalid data"), None, None))
  const InvalidCredentials := Http(401, ReplyBody(false, Some("Invalid credentials"), None, None))
  const Done := Http(200, ReplyBody(true, None, None, None))

  // ---------------------------------------------------------------------------
  // The server
  // ---------------------------------------------------------------------------

  class Server {
    var users: seq<User>
    var students: seq<Student>
    var buses: seq<Bus>
    var attendance: seq<AttendanceRow>
    /** The session of the client whose requests are being served. */
    var session: Session

    ghost predicate Valid()
      reads this
    {
      TablesValid(users, students, buses, attendance)
    }

    /** A new database file with its four empty tables, and no session. */
    constructor ()
      ensures Valid()
      ensures users == [] && students == [] && buses == [] && attendance == [] && session == NoSession
    {
      users, students, buses, attendance := [], [], [], [];
      session := NoSession;
    }

    /** init_db: the four default buses are inserted only into an empty
        bus_details table. */
    method InitDb()
      requires Valid()
      modifies this`buses
      ensures Valid()
      ensures buses == Seeded(old(buses))
    {
      if |buses| == 0 {
        buses := DefaultBuses();
      }
    }

    /** POST /api/register. The inserts run in one transaction that is
        committed only when every statement succeeded; an IntegrityError
        returns 400 and the connection is closed without a commit, so nothing
        the request inserted persists. */
    method Register(req: RegisterRequest, salt: string) returns (reply: Http<ReplyBody>)
      requires Valid()
      modifies this`users, this`students, this`buses
      ensures Valid()
      ensures req.userType == Some("teacher") ==>
        if req.password.None? then
          reply == InternalError && users == old(users) && students == old(students) && buses == old(buses)
        else if req.name.None? then
          reply == RegisterRejected && users == old(users) && students == old(students) && buses == old(buses)
        else
          reply == Registered &&
          users == old(users) + [TeacherRow(|old(users)| + 1, req, Hash(req.password.value, salt))] &&
          students == old(students) &&
          buses == AssignTeacher(old(buses), req.busNumber, |old(users)| + 1)
      ensures req.userType == Some("parent") ==>
        if req.password.None? then
          reply == InternalError && users == old(users) && students == old(students) && buses == old(buses)
        else if req.name.None? || !StudentInsertable(old(students), req) then
          reply == RegisterRejected && users == old(users) && students == old(students) && buses == old(buses)
        else
          reply == Registered &&
          users == old(users) + [ParentRow(|old(users)| + 1, req, Hash(req.password.value, salt))] &&
          students == old(students) + [StudentRow(|old(students)| + 1, req, |old(users)| + 1)] &&
          buses == old(buses)
      ensures req.userType != Some("teacher") && req.userType != Some("parent") ==>
        reply == Registered && users == old(users) && students == old(students) && buses == old(buses)
    {
      // the connection's uncommitted view of the tables
      var txUsers, txStudents, txBuses := users, students, buses;
      if req.userType == Some("teacher") {
        if req.password.None? {
          // generate_password_hash(None) raises outside the IntegrityError handler
          return InternalError;
        }
        var hashed := Hash(req.password.value, salt);
        if req.name.None? {
          return RegisterRejected;
        }
        var id := |txUsers| + 1;
        txUsers := txUsers + [TeacherRow(id, req, hashed)];
        txBuses := AssignTeacher(txBuses, req.busNumber, id);
      } else if req.userType == Some("parent") {
        if req.password.None? {
          return InternalError;
        }
        var hashed := Hash(req.password.value, salt);
        if req.name.None? {
          return RegisterRejected;
        }
        var parentId := |txUsers| + 1;
        txUsers := txUsers + [ParentRow(parentId, req, hashed)];
        if !StudentInsertable(txStudents, req) {
          // the parent row above is discarded with the transaction
          return RegisterRejected;
        }
        txStudents := txStudents + [StudentRow(|txStudents| + 1, req, parentId)];
        RollsStayUnique(txStudents[..|txStudents| - 1], txStudents[|txStudents| - 1]);
      }
      // conn.commit()
      users, students, buses := txUsers, txStudents, txBuses;
      reply := Registered;
    }

    /** POST /api/login. On success the session holds the user's id, type
        and name; on any failure the session is left as it was. */
    method Login(req: LoginRequest) returns (reply: Http<ReplyBody>)
      requires Valid()
      modifies this`session
      ensures Valid()
      ensures var u := LoginUser(users, students, req);
        if u.None? then
          reply == InvalidCredentials && session == old(session)
        else if req.password.None? then
          // check_password_hash(hash, None) raises
          reply == InternalError && session == old(session)
        else if Verify(u.value.password, req.password.value) then
          reply == Http(200, ReplyBody(true, None, Some(u.value.userType), Some(u.value.name))) &&
          session == Session(Some(u.value.id), Some(u.value.userType), Some(u.value.name))
        else
          reply == InvalidCredentials && session == old(session)
    {
      var user := LoginUser(users, students, req);
      if user.None? {
        return InvalidCredentials;
      }
      if req.password.None? {
        return InternalError;
      }
      if Verify(user.value.password, req.password.value) {
        session := Session(Some(user.value.id), Some(user.value.userType), Some(user.value.name));
        return Http(200, ReplyBody(true, None, Some(user.value.userType), Some(user.value.name)));
      }
      reply := InvalidCredentials;
    }

    /** POST /api/logout: the session is cleared. */
    method Logout() returns (reply: Http<ReplyBody>)
      modifies this`session
      ensures session == NoSession && reply == Done
    {
      session := NoSession;
      reply := Done;
    }

    /** GET /api/bus-details/<bus_number>. */
    method GetBusDetails(busNumber: string) returns (reply: Http<Option<BusView>>)
      requires Valid()
      ensures reply.Http?
      ensures reply.status == 200 <==> exists b :: b in buses && b.busNumber == busNumber
      ensures reply.status != 200 ==> reply == Http(404, None)
      ensures reply.status == 200 ==>
        reply.body.Some? && reply.body.value.bus in buses && reply.body.value.bus.busNumber == busNumber &&
        reply.body.value == WithTeacher(users, reply.body.value.bus)
      ensures reply.status == 200 ==> reply.body.value.bus == BusesNamed(buses, busNumber)[0]
    {
      var bus := First(buses, (b: Bus) => b.busNumber == busNumber);
      // fetchone() is the first row of the full result set
      FirstIsHeadOfSelect(buses, (b: Bus) => b.busNumber == busNumber);
      if bus.Some? {
        return Http(200, Some(WithTeacher(users, bus.value)));
      }
      reply := Http(404, None);
    }

    /** GET /api/students: a teacher session gets the students of the bus
        named in the query string, any other session the students whose
        parent is the session's user. */
    method GetStudents(busNumber: Option<string>) returns (rows: seq<Student>)
      ensures session.userType == Some("teacher") ==>
        forall s :: s in rows <==> s in students && SqlEq(s.busNumber, busNumber)
      ensures session.userType == Some("teacher") ==> rows == BusRoster(students, busNumber)
      ensures session.userType != Some("teacher") ==>
        forall s :: s in rows <==> s in students && SqlEq(s.parentId, session.userId)
      ensures IsSubsequence(rows, students)
    {
      if session.userType == Some("teacher") {
        rows := BusRoster(students, busNumber);
      } else {
        var userId := session.userId;
        rows := Select(students, (s: Student) => SqlEq(s.parentId, userId));
      }
    }

    /** POST /api/attendance: one row is appended, whatever rows the student
        already has for that date. */
    method PostAttendance(req: AttendanceRequest) returns (reply: Http<ReplyBody>)
      requires Valid()
      modifies this`attendance
      ensures Valid()
      ensures attendance == old(attendance) +
        [AttendanceRow(|old(attendance)| + 1, req.studentId, req.entryTime, req.exitTime, req.date, req.busNumber)]
      ensures reply == Done
    {
      attendance := attendance +
        [AttendanceRow(|attendance| + 1, req.studentId, req.entryTime, req.exitTime, req.date, req.busNumber)];
      reply := Done;
    }

    /** GET /api/attendance: the rows of one student on one date; the date
        defaults to today when the query string has none. */
    method GetAttendance(studentId: Option<int>, date: Option<string>, today: string) returns (records: seq<AttendanceView>)
      ensures var day := if date.Some? then date.value else today;
        records == AttendanceOf(attendance, students, studentId, day)
      ensures forall v :: v in records ==>
        v.row in attendance && SqlEq(v.row.studentId, studentId) &&
        v.row.date == Some(if date.Some? then date.value else today)
    {
      var day := if date.Some? then date.value else today;
      records := AttendanceOf(attendance, students, studentId, day);
    }

    /** GET /api/user-info: 401 without a session, 404 when the session's
        user is not in the table. */
    method GetUserInfo() returns (reply: Http<Option<UserInfo>>)
      requires Valid()
      ensures reply.Http?
      ensures session.userId.None? ==> reply == Http(401, None)
      ensures session.userId.Some? ==>
        if 1 <= session.userId.value <= |users| then
          reply == Http(200, Some(InfoOf(users[session.userId.value - 1])))
        else reply == Http(404, None)
    {
      if session.userId.None? {
        return Http(401, None);
      }
      var user := UserById(users, session.userId.value);
      UserByIdNumbered(users, session.userId.value);
      if user.Some? {
        return Http(200, Some(InfoOf(user.value)));
      }
      reply := Http(404, None);
    }
  }

  /** Appending a student whose roll number is not yet taken keeps roll
      numbers unique. */
  lemma RollsStayUnique(students: seq<Student>, s: Student)
    requires RollsUnique(students)
    requires StudentByRoll(students, Some(s.rollNumber)).None?
    ensures RollsUnique(students + [s])
  {
    var p := (t: Student) => SqlEq(Some(t.rollNumber), Some(s.rollNumber));
    assert forall i :: 0 <= i < |students| ==> !p(students[i]);
  }

  /** A parent registered through POST /api/register can log in with the
      student's roll number and the password given at registration, and is
      found as the user the registration inserted. */
  lemma RegisteredParentCanLogIn(users: seq<User>, students: seq<Student>, req: RegisterRequest, salt: string)
    requires UsersNumbered(users) && RollsUnique(students)
    requires req.password.Some? && req.name.Some? && StudentInsertable(students, req)
    ensures var parent := ParentRow(|users| + 1, req, Hash(req.password.value, salt));
      var users' := users + [parent];
      var students' := students + [StudentRow(|students| + 1, req, |users| + 1)];
      var login := LoginRequest(Some("parent"), req.password, None, req.rollNumber);
      LoginUser(users', students', login) == Some(parent) &&
      Verify(parent.password, req.password.value)
  {
    var parent := ParentRow(|users| + 1, req, Hash(req.password.value, salt));
    var users' := users + [parent];
    var student := StudentRow(|students| + 1, req, |users| + 1);
    var students' := students + [student];
    RollsStayUnique(students, student);
    assert UsersNumbered(users');
    assert JoinRow(parent, student, req.rollNumber, Some("parent"));
    assert student in students';
    ParentByRollIsJoin(users', students', req.rollNumber, Some("parent"), parent);
  }

  /** A teacher registered through POST /api/register is the user a login by
      that name finds exactly when no earlier teacher has the same name: the
      users table does not keep teacher names unique, and the login query
      takes the first match. */
  lemma RegisteredTeacherFoundByName(users: seq<User>, req: RegisterRequest, salt: string)
    requires UsersNumbered(users)
    requires req.password.Some? && req.name.Some?
    ensures var teacher := TeacherRow(|users| + 1, req, Hash(req.password.value, salt));
      var login := LoginRequest(Some("teacher"), req.password, req.name, None);
      LoginUser(users + [teacher], [], login) == Some(teacher) <==>
        forall u :: u in users ==> !(u.name == req.name.value && u.userType == "teacher")
  {
    var teacher := TeacherRow(|users| + 1, req, Hash(req.password.value, salt));
    var p := (u: User) => SqlEq(Some(u.name), req.name) && u.userType == "teacher";
    var all := users + [teacher];
    var r := First(all, p);
    if forall u :: u in users ==> !(u.name == req.name.value && u.userType == "teacher") {
      assert forall i :: 0 <= i < |users| ==> !p(all[i]);
      assert p(all[|users|]);
    } else {
      var u :| u in users && u.name == req.name.value && u.userType == "teacher";
      var k :| 0 <= k < |users| && users[k] == u;
      assert p(all[k]);
      var i :| 0 <= i < |all| && all[i] == r.value && p(all[i]) && forall j :: 0 <= j < i ==> !p(all[j]);
      assert i <= k;
      assert r.value == users[i];
      assert users[i].id < teacher.id;
    }
  }
}
