/** The JSON bodies that travel between the three page controllers and the
    server. A key that is missing from a body, or holds null, is `None`;
    the server reads every request key with `data.get`, which gives `None`
    for a missing key. */
module Api {
  import opened Values

  /** Body of POST /api/register (teacher sign-up, parent sign-up and the
      teacher's enrollment of a student). */
  datatype RegisterRequest = RegisterRequest(
    userType: Option<string>,
    name: Option<string>,
    mobile: Option<string>,
    password: Option<string>,
    className: Option<string>,
    studentsCount: Option<string>,
    busNumber: Option<string>,
    busRoute: Option<string>,
    studentName: Option<string>,
    rollNumber: Option<string>)

  /** Body of POST /api/login. */
  datatype LoginRequest = LoginRequest(
    userType: Option<string>,
    password: Option<string>,
    name: Option<string>,
    rollNumber: Option<string>)

  /** Body of POST /api/attendance. */
  datatype AttendanceRequest = AttendanceRequest(
    studentId: Option<int>,
    entryTime: Option<string>,
    exitTime: Option<string>,
    date: Option<string>,
    busNumber: Option<string>)

  /** Bodies of POST /api/update-student and POST /api/update-teacher, two
      routes the clients call and the server does not define. */
  datatype UpdateStudentRequest = UpdateStudentRequest(studentId: int, studentName: string, className: string)
  datatype UpdateTeacherRequest = UpdateTeacherRequest(name: string, mobile: string)

  /** The `{success, message, user_type, name}` body of a POST reply. */
  datatype ReplyBody = ReplyBody(
    success: bool,
    message: Option<string>,
    userType: Option<string>,
    name: Option<string>)

  /** What a page controller gets from `fetch` and `response.json()`: either
      the promise rejects (network failure, a body that is not JSON, or any
      other exception inside the same `try`), or a response with its `ok`
      flag and parsed body. */
  datatype Response<T> = NetworkError | Received(ok: bool, body: T)

  /** A student as the dashboards read it from GET /api/students. The name,
      roll number and class are NOT NULL columns, so they are always strings. */
  datatype StudentJson = StudentJson(
    id: int,
    studentName: string,
    rollNumber: string,
    className: string,
    busNumber: Option<string>,
    busRoute: Option<string>)

  /** GET /api/user-info as the dashboards read it. */
  datatype UserInfoJson = UserInfoJson(
    name: Option<string>,
    mobile: Option<string>,
    className: Option<string>,
    busNumber: Option<string>,
    busRoute: Option<string>)

  /** GET /api/bus-details/<bus> as the parent dashboard reads it. */
  datatype BusDetailsJson = BusDetailsJson(
    busNumber: Option<string>,
    busRoute: Option<string>,
    driverName: Option<string>,
    driverMobile: Option<string>,
    teacherName: Option<string>,
    teacherMobile: Option<string>)

  /** One record of GET /api/attendance as the dashboards read it. */
  datatype AttendanceJson = AttendanceJson(
    studentName: Option<string>,
    date: Option<string>,
    entryTime: Option<string>,
    exitTime: Option<string>,
    busNumber: Option<string>)

  /** The last notification a controller shows for an action. */
  datatype Notice = Quiet | Success(text: string) | Error(text: string)

  /** What a form handler does with its input: reject it with a
      notification before any request, or send a request body. */
  datatype Submission<T> = Rejected(notice: Notice) | Send(request: T)

  const FillAllFields := Error("Please fill all fields!")
  const ConnectionError := Error("Connection error!")

  /** Where a page sends the browser, if anywhere. */
  datatype Location = Stay | GoTo(url: string)
}
