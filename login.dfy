/** The login page controller (static/login.js): the bus-route lookup, the
    login and registration forms' validation and request bodies, what the
    page does with the server's reply, and the Enter-key shortcut. Form
    inputs are the `.value` strings of their elements; the page's `fetch`
    replies are parameters. */
module LoginPage {
  import opened Values
  import opened Api
  import Backend

  /** The two tabs of each form; every caller passes one of these. */
  datatype Role = Teacher | Parent

  function RoleName(role: Role): string {
    match role
    case Teacher => "teacher"
    case Parent => "parent"
  }

  /** busRoutes: the page's own copy of the route table. */
  const BusRouteTable: map<string, string> := map[
    "Bus-1" := "Route A - Main Street \U{2192} School",
    "Bus-2" := "Route B - Park Avenue \U{2192} School",
    "Bus-3" := "Route C - Lake Road \U{2192} School",
    "Bus-4" := "Route D - Hill Street \U{2192} School"]

  /** updateBusRoute: the route filled in when a bus is chosen. Exactly the
      four buses have a route, and it is the one the server's BUS_ROUTES
      gives them. */
  function RouteFor(busNumber: string): (route: string)
    ensures route != "" <==> busNumber in {"Bus-1", "Bus-2", "Bus-3", "Bus-4"}
    ensures busNumber in Backend.BusRoutes ==> route == Backend.BusRoutes[busNumber]
    ensures busNumber !in Backend.BusRoutes ==> route == ""
  {
    if busNumber in BusRouteTable then BusRouteTable[busNumber] else ""
  }

  // ---------------------------------------------------------------------------
  // Login
  // ---------------------------------------------------------------------------

  /** The login inputs: teacherName, teacherPassword, parentRollNumber,
      parentPassword. */
  datatype LoginForm = LoginForm(
    teacherName: string,
    teacherPassword: string,
    parentRollNumber: string,
    parentPassword: string)

  function PasswordOf(role: Role, form: LoginForm): string {
    if role == Teacher then form.teacherPassword else form.parentPassword
  }

  /** login, up to the request: a teacher needs a name and a password, a
      parent a roll number and a password. The body always carries the type
      and the password, and carries the name for a teacher or the roll
      number for a parent, never both. */
  function LoginSubmission(role: Role, form: LoginForm): (r: Submission<LoginRequest>)
    ensures r.Rejected? <==>
      PasswordOf(role, form) == "" ||
      (role == Teacher && form.teacherName == "") ||
      (role == Parent && form.parentRollNumber == "")
    ensures r.Rejected? ==> r.notice == FillAllFields
    ensures r.Send? ==>
      r.request.userType == Some(RoleName(role)) &&
      r.request.password == Some(PasswordOf(role, form)) &&
      (r.request.name.Some? <==> role == Teacher) &&
      (r.request.rollNumber.Some? <==> role == Parent) &&
      (role == Teacher ==> r.request.name == Some(form.teacherName)) &&
      (role == Parent ==> r.request.rollNumber == Some(form.parentRollNumber))
  {
    var password := PasswordOf(role, form);
    if role == Teacher then
      if form.teacherName == "" || password == "" then Rejected(FillAllFields)
      else Send(LoginRequest(Some("teacher"), Some(password), Some(form.teacherName), None))
    else
      if form.parentRollNumber == "" || password == "" then Rejected(FillAllFields)
      else Send(LoginRequest(Some("parent"), Some(password), None, Some(form.parentRollNumber)))
  }

  /** The dashboard a successful login opens. */
  function RedirectTarget(userType: Option<string>): (url: string)
    ensures url == "teacher-dashboard.html" <==> userType == Some("teacher")
    ensures url != "teacher-dashboard.html" ==> url == "parent-dashboard.html"
  {
    if userType == Some("teacher") then "teacher-dashboard.html" else "parent-dashboard.html"
  }

  /** How a template literal shows an optional name. */
  function Shown(v: Option<string>): string {
    if v.Some? then v.value else "undefined"
  }

  /** login, after the request: a successful reply greets the user and
      opens the dashboard of the type the server returned; otherwise the
      server's message, or 'Login failed!', is shown and the page stays. */
  function AfterLogin(reply: Response<ReplyBody>): (r: (Notice, Location))
    ensures reply.NetworkError? ==> r == (ConnectionError, Stay)
    ensures reply.Received? && reply.body.success ==>
      r.0 == Success("Welcome " + Shown(reply.body.name) + "!") &&
      r.1 == GoTo(RedirectTarget(reply.body.userType))
    ensures reply.Received? && !reply.body.success ==>
      r.1 == Stay && r.0.Error? &&
      (Truthy(reply.body.message) ==> r.0.text == reply.body.message.value) &&
      (!Truthy(reply.body.message) ==> r.0.text == "Login failed!")
  {
    match reply
    case NetworkError => (ConnectionError, Stay)
    case Received(_, body) =>
      if body.success then
        (Success("Welcome " + Shown(body.name) + "!"), GoTo(RedirectTarget(body.userType)))
      else
        (Error(Or(body.message, "Login failed!")), Stay)
  }

  // ---------------------------------------------------------------------------
  // Registration
  // ---------------------------------------------------------------------------

  datatype TeacherSignUp = TeacherSignUp(
    name: string, mobile: string, password: string, className: string,
    studentsCount: string, busNumber: string, busRoute: string)

  datatype ParentSignUp = ParentSignUp(
    name: string, mobile: string, password: string, studentName: string,
    rollNumber: string, className: string, busNumber: string, busRoute: string)

  /** The keys register can put in its object. */
  datatype Key = UserTypeKey | NameKey | MobileKey | PasswordKey | ClassKey | StudentsCountKey
               | BusNumberKey | BusRouteKey | StudentNameKey | RollNumberKey

  /** A JavaScript object as its own keys and values, in insertion order. */
  type Fields = seq<(Key, string)>

  /** The value of the first entry with key `key`; `None` when absent. */
  function Lookup(fields: Fields, key: Key): Option<string> {
    if fields == [] then None
    else if fields[0].0 == key then Some(fields[0].1)
    else Lookup(fields[1..], key)
  }

  /** A key read from the object is the value of its first entry, and a
      key with no entry reads as missing. */
  lemma {:induction false} LookupFirst(fields: Fields, key: Key, i: int)
    requires 0 <= i <= |fields|
    requires forall j :: 0 <= j < i ==> fields[j].0 != key
    requires i < |fields| ==> fields[i].0 == key
    ensures Lookup(fields, key) == if i < |fields| then Some(fields[i].1) else None
  {
    if i > 0 {
      LookupFirst(fields[1..], key, i - 1);
    }
  }

  /** What the server's `data.get` reads from a posted object. */
  function RequestOf(fields: Fields): RegisterRequest {
    RegisterRequest(
      Lookup(fields, UserTypeKey), Lookup(fields, NameKey), Lookup(fields, MobileKey),
      Lookup(fields, PasswordKey), Lookup(fields, ClassKey), Lookup(fields, StudentsCountKey),
      Lookup(fields, BusNumberKey), Lookup(fields, BusRouteKey), Lookup(fields, StudentNameKey),
      Lookup(fields, RollNumberKey))
  }

  /** The object register builds: user_type, then seven teacher fields or
      eight parent fields. */
  function SignUpFields(role: Role, t: TeacherSignUp, p: ParentSignUp): Fields {
    if role == Teacher then
      [(UserTypeKey, "teacher"), (NameKey, t.name), (MobileKey, t.mobile), (PasswordKey, t.password),
       (ClassKey, t.className), (StudentsCountKey, t.studentsCount), (BusNumberKey, t.busNumber),
       (BusRouteKey, t.busRoute)]
    else
      [(UserTypeKey, "parent"), (NameKey, p.name), (MobileKey, p.mobile), (PasswordKey, p.password),
       (StudentNameKey, p.studentName), (RollNumberKey, p.rollNumber), (ClassKey, p.className),
       (BusNumberKey, p.busNumber), (BusRouteKey, p.busRoute)]
  }

  /** The body a teacher sign-up posts, as the server reads it. */
  function TeacherRequest(t: TeacherSignUp): RegisterRequest {
    RegisterRequest(Some("teacher"), Some(t.name), Some(t.mobile), Some(t.password), Some(t.className),
                    Some(t.studentsCount), Some(t.busNumber), Some(t.busRoute), None, None)
  }

  /** The body a parent sign-up posts, as the server reads it. */
  function ParentRequest(p: ParentSignUp): RegisterRequest {
    RegisterRequest(Some("parent"), Some(p.name), Some(p.mobile), Some(p.password), Some(p.className),
                    None, Some(p.busNumber), Some(p.busRoute), Some(p.studentName), Some(p.rollNumber))
  }

  /** register, up to the request: the object is built key by key and sent
      only if no value in it is empty. The teacher body has the seven
      teacher fields and the parent body the eight parent fields, each
      with user_type; neither has the other role's fields. */
  method SignUp(role: Role, t: TeacherSignUp, p: ParentSignUp) returns (r: Submission<RegisterRequest>)
    ensures r.Rejected? <==> exists i :: 0 <= i < |SignUpFields(role, t, p)| && SignUpFields(role, t, p)[i].1 == ""
    ensures r.Rejected? ==> r.notice == FillAllFields
    ensures r.Send? ==> r.request == if role == Teacher then TeacherRequest(t) else ParentRequest(p)
  {
    var data: Fields := [(UserTypeKey, RoleName(role))];
    if role == Teacher {
      data := data + [(NameKey, t.name)];
      data := data + [(MobileKey, t.mobile)];
      data := data + [(PasswordKey, t.password)];
      data := data + [(ClassKey, t.className)];
      data := data + [(StudentsCountKey, t.studentsCount)];
      data := data + [(BusNumberKey, t.busNumber)];
      data := data + [(BusRouteKey, t.busRoute)];
    } else {
      data := data + [(NameKey, p.name)];
      data := data + [(MobileKey, p.mobile)];
      data := data + [(PasswordKey, p.password)];
      data := data + [(StudentNameKey, p.studentName)];
      data := data + [(RollNumberKey, p.rollNumber)];
      data := data + [(ClassKey, p.className)];
      data := data + [(BusNumberKey, p.busNumber)];
      data := data + [(BusRouteKey, p.busRoute)];
    }
    assert data == SignUpFields(role, t, p);
    // stop at the first empty value
    var i := 0;
    while i < |data|
      invariant 0 <= i <= |data|
      invariant forall j :: 0 <= j < i ==> data[j].1 != ""
    {
      if data[i].1 == "" {
        return Rejected(FillAllFields);
      }
      i := i + 1;
    }
    SignUpRequest(role, t, p);
    r := Send(RequestOf(data));
  }

  /** The posted object reads, key by key, as the role's request body. */
  lemma SignUpRequest(role: Role, t: TeacherSignUp, p: ParentSignUp)
    ensures RequestOf(SignUpFields(role, t, p)) == if role == Teacher then TeacherRequest(t) else ParentRequest(p)
  {
    if role == Teacher {
      TeacherFieldsRead(t, p);
    } else {
      ParentFieldsRead(t, p);
    }
  }

  lemma TeacherFieldsRead(t: TeacherSignUp, p: ParentSignUp)
    ensures RequestOf(SignUpFields(Teacher, t, p)) == TeacherRequest(t)
  {
    var f := SignUpFields(Teacher, t, p);
    TeacherFieldRead(t, p, UserTypeKey, 0);
    TeacherFieldRead(t, p, NameKey, 1);
    TeacherFieldRead(t, p, MobileKey, 2);
    TeacherFieldRead(t, p, PasswordKey, 3);
    TeacherFieldRead(t, p, ClassKey, 4);
    TeacherFieldRead(t, p, StudentsCountKey, 5);
    TeacherFieldRead(t, p, BusNumberKey, 6);
    TeacherFieldRead(t, p, BusRouteKey, 7);
    TeacherFieldRead(t, p, StudentNameKey, 8);
    TeacherFieldRead(t, p, RollNumberKey, 8);
  }

  lemma TeacherFieldRead(t: TeacherSignUp, p: ParentSignUp, key: Key, i: int)
    requires 0 <= i <= 8
    requires forall j :: 0 <= j < i ==> SignUpFields(Teacher, t, p)[j].0 != key
    requires i < 8 ==> SignUpFields(Teacher, t, p)[i].0 == key
    ensures Lookup(SignUpFields(Teacher, t, p), key) == if i < 8 then Some(SignUpFields(Teacher, t, p)[i].1) else None
  {
    LookupFirst(SignUpFields(Teacher, t, p), key, i);
  }

  lemma ParentFieldsRead(t: TeacherSignUp, p: ParentSignUp)
    ensures RequestOf(SignUpFields(Parent, t, p)) == ParentRequest(p)
  {
    ParentFieldRead(t, p, UserTypeKey, 0);
    ParentFieldRead(t, p, NameKey, 1);
    ParentFieldRead(t, p, MobileKey, 2);
    ParentFieldRead(t, p, PasswordKey, 3);
    ParentFieldRead(t, p, StudentNameKey, 4);
    ParentFieldRead(t, p, RollNumberKey, 5);
    ParentFieldRead(t, p, ClassKey, 6);
    ParentFieldRead(t, p, BusNumberKey, 7);
    ParentFieldRead(t, p, BusRouteKey, 8);
    ParentFieldRead(t, p, StudentsCountKey, 9);
  }

  lemma ParentFieldRead(t: TeacherSignUp, p: ParentSignUp, key: Key, i: int)
    requires 0 <= i <= 9
    requires forall j :: 0 <= j < i ==> SignUpFields(Parent, t, p)[j].0 != key
    requires i < 9 ==> SignUpFields(Parent, t, p)[i].0 == key
    ensures Lookup(SignUpFields(Parent, t, p), key) == if i < 9 then Some(SignUpFields(Parent, t, p)[i].1) else None
  {
    LookupFirst(SignUpFields(Parent, t, p), key, i);
  }

  /** register, after the request: success returns to the login form. */
  function AfterSignUp(reply: Response<ReplyBody>): (r: (Notice, bool))
    ensures r.1 <==> reply.Received? && reply.body.success
    ensures reply.NetworkError? ==> r.0 == ConnectionError
    ensures reply.Received? && reply.body.success ==> r.0 == Success("Registration successful! Please login.")
    ensures reply.Received? && !reply.body.success ==>
      r.0.Error? &&
      (Truthy(reply.body.message) ==> r.0.text == reply.body.message.value) &&
      (!Truthy(reply.body.message) ==> r.0.text == "Registration failed!")
  {
    match reply
    case NetworkError => (ConnectionError, false)
    case Received(_, body) =>
      if body.success then (Success("Registration successful! Please login."), true)
      else (Error(Or(body.message, "Registration failed!")), false)
  }

  /** A parent who signs up on this page with a roll number not yet taken
      can then log in on the parent tab with that roll number and password:
      the server finds the parent it inserted and the password verifies. */
  lemma SignUpThenLogIn(users: seq<Backend.User>, students: seq<Backend.Student>, p: ParentSignUp, salt: string)
    requires Backend.UsersNumbered(users) && Backend.RollsUnique(students)
    requires p.password != "" && p.rollNumber != ""
    requires Backend.StudentByRoll(students, Some(p.rollNumber)).None?
    ensures
      var req := ParentRequest(p);
      var parent := Backend.ParentRow(|users| + 1, req, Backend.Hash(p.password, salt));
      var login := LoginSubmission(Parent, LoginForm("", "", p.rollNumber, p.password));
      login.Send? &&
      Backend.LoginUser(users + [parent], students + [Backend.StudentRow(|students| + 1, req, |users| + 1)],
                        login.request) == Some(parent) &&
      Backend.Verify(parent.password, p.password)
  {
    Backend.RegisteredParentCanLogIn(users, students, ParentRequest(p), salt);
  }

  // ---------------------------------------------------------------------------
  // Enter key
  // ---------------------------------------------------------------------------

  datatype Dispatch = CallLogin(role: Role) | CallRegister(role: Role)

  /** The keypress handler: with an active tab, Enter registers when the
      login form is hidden and logs in otherwise, as a teacher iff the
      tab's text contains 'Teacher'. */
  function OnKeyPress(key: string, activeTabText: Option<string>, loginFormHidden: bool): (d: Option<Dispatch>)
    ensures d.Some? <==> key == "Enter" && activeTabText.Some?
    ensures d.Some? ==> (d.value.CallRegister? <==> loginFormHidden)
    ensures d.Some? ==> (d.value.role == Teacher <==> exists k :: OccursAt(activeTabText.value, "Teacher", k))
  {
    if key != "Enter" || activeTabText.None? then None
    else
      var role := if Includes(activeTabText.value, "Teacher") then Teacher else Parent;
      if loginFormHidden then Some(CallRegister(role)) else Some(CallLogin(role))
  }
}
