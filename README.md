# TrackMate school-bus attendance portal, modelled in Dafny

TrackMate is a small school-bus attendance portal. Teachers and parents sign up and log in on one page. Teachers then use a dashboard to keep the roster of their bus, enroll students and mark attendance. Parents use another dashboard to see their child's bus, teacher and attendance.

This project models the parts of the portal that keep records and make decisions:

- **The Flask server (`app.py`).** The `Backend.Server` class holds the four tables (`users`, `students`, `bus_details`, `attendance`) and the client's session, with one method per request handler.
  - Tables are sequences in row order. The AUTOINCREMENT id of a row is its position plus one.
  - A registration works on copies of the tables and writes them back only where the handler commits, so a failed insert leaves nothing behind.
  - Password hashing is abstract: `Hash` and `Verify`.
- **The login page (`static/login.js`).**
  - the bus-to-route lookup;
  - login and sign-up validation, and the request bodies they post;
  - what the page does with the reply;
  - the Enter-key shortcut.
- **The teacher dashboard (`static/teacher-dashboard.js`).** The `TeacherDashboard.TeacherPage` class holds the page's `userInfo` and `students` variables and the panels it renders.
  - the case-insensitive roster search;
  - enrollment, attendance and detail-update payloads;
  - today's attendance built from the per-student replies.
- **The parent dashboard (`static/parent-dashboard.js`).** The `ParentDashboard.ParentPage` class holds `userInfo`, `studentInfo` and `busDetails` and the panels.
  - placeholders and the teacher contact box;
  - the choice of the first child;
  - editing the child's name and class;
  - the one-record attendance views with their present/absent marks.

Each server reply a page receives is a parameter of type `Api.Response`. `NetworkError` stands for a promise that rejects: a network failure, a body that is not JSON, or an exception thrown inside the same `try`. Wherever the code reads the clock, "today" is a parameter as well.

Files:

- `values.dfy`: shared helpers.
  - optional values and JavaScript truthiness;
  - SQL NULL comparison;
  - ASCII lower-casing and substring search;
  - filter, first match and flatten over sequences, with their lemmas.
- `api.dfy`: the JSON bodies exchanged between the pages and the server.
- `backend.dfy`: the server.
- `login.dfy`, `teacher_dashboard.dfy`, `parent_dashboard.dfy`: the three page controllers.

## Model

| member | source | states |
|---|---|---|
| Backend.SeedingIdempotent | app.py:84-94 | Seeding twice equals seeding once. A non-empty bus table is left as it is. An empty one gets four buses whose routes are their BUS_ROUTES entries and which have no teacher. |
| Backend.Server.constructor | app.py:33-81 | A new database has four empty tables and no session. |
| Backend.Server.InitDb | app.py:84-94 | The buses table becomes `Seeded` of the old one, keeping the tables' integrity. |
| Backend.Server.Register | app.py:106-147 | Teacher: appends one teacher row (id = row count + 1, hashed password) and sets `teacher_id` only on buses with the requested number. Parent: appends one parent row and one student row whose `parent_id` is the new user, copying class, bus and route. A taken roll number or a NULL NOT NULL column gives 400 and leaves every table unchanged, including the parent row inserted first. A missing password gives 500 and no change. Any other user type changes nothing and still replies success. |
| Backend.Server.Login | app.py:149-185 | A teacher is looked up by name, a parent through the student's roll number. If the user exists and the password verifies, the reply is 200 with type and name, and the session holds the user's id, type and name. Otherwise the reply is 401 (500 for a missing password) and the session is unchanged. |
| Backend.Server.Logout | app.py:187-190 | The session is cleared and the reply is success. |
| Backend.Server.GetBusDetails | app.py:196-210 | 200 iff some bus has that number. The reply is that bus LEFT JOINed with its teacher's name and mobile. The bus is the first row of the full `WHERE bus_number = ?` result, which is what `fetchone` returns. Otherwise 404. |
| Backend.WithTeacher | app.py:199-203 | The teacher name and mobile are present iff `teacher_id` names an existing user, and then they are that user's. |
| Backend.Server.GetStudents | app.py:212-225 | A teacher session gets exactly the students whose bus equals the query argument. Any other session gets exactly the students whose `parent_id` is the session's user. The result keeps table order, and for a teacher it is exactly `BusRoster` of the table. |
| Backend.NewStudentJoinsRoster | app.py:137-140 | A student inserted on a bus is added at the end of that bus's roster (app.py:219-220), and every other bus's roster is unchanged. |
| Backend.Server.PostAttendance | app.py:232-240 | Exactly one row is appended, with the request's values and the next id, even if the student already has a row for that date. |
| Backend.Server.GetAttendance | app.py:242-253 | The result is exactly the joined rows for that student and date. The date defaults to today. |
| Backend.AttendanceOf | app.py:247-250 | Every record is a row of that student on that date, joined with an existing student's name. Every such row appears. |
| Backend.AttendanceAppend | app.py:234-238 | A newly posted row adds exactly one record, after the existing ones, to what GET returns for its student and date. |
| Backend.Server.GetUserInfo | app.py:255-269 | 401 without a session user. 200 with the user's columns, without the password, when the id exists. 404 otherwise. |
| Backend.UserByIdNumbered | app.py:34 | With AUTOINCREMENT ids, the user with id k is row k-1, and ids outside the table find nothing. |
| Backend.ParentByRollIsJoin | app.py:167-170 | With unique roll numbers, the parent lookup returns u iff users JOIN students has a row for u with that roll number and user type. |
| Backend.RollsStayUnique | app.py:50 | Adding a student whose roll number is not taken keeps roll numbers unique. |
| Backend.RegisteredParentCanLogIn | app.py:127-140 | After a parent registration, a parent login with that roll number finds the inserted parent, and the password verifies. |
| Backend.RegisteredTeacherFoundByName | app.py:115-125 | A teacher login finds the newly registered teacher iff no earlier teacher has the same name. The first match wins. |
| Backend.HashVerifies | app.py:116 | A hash made from a password verifies that password and no other. |
| Backend.AssignTeacher | app.py:124-125 | The bus table keeps its length. Every bus whose number equals the requested one gets the new `teacher_id`. Every other bus is unchanged, and a NULL bus number matches none. |
| Backend.TeacherNamed | app.py:161-162 | Nothing is found iff no user has that name and type 'teacher'. A user that is found is in the table, with that name and type 'teacher'. |
| Backend.ParentByRoll | app.py:167-170 | A user that is found is in the table and forms a join row with a student that has that roll number and that user type. A roll number that matches no student finds nobody. |
| Backend.LoginUser | app.py:158-170 | A found user is in the table. For 'teacher' the user is a teacher with the requested name. For any other type the user forms a join row with a student that has the requested roll number and the requested type. A missing type finds nobody. |
| Backend.StudentInsertable | app.py:49-51 | The student insert of app.py:137-140 passes its constraints iff the student name, roll number and class are present (NOT NULL) and no existing student has that roll number (UNIQUE). |
| LoginPage.RouteFor | static/login.js:2-7 | The route is non-empty iff the bus is one of Bus-1 to Bus-4, and it agrees with the server's BUS_ROUTES (app.py:16-21). |
| LoginPage.LoginSubmission | static/login.js:77-95 | Rejected iff the password, or the name (teacher) or roll number (parent), is empty. A sent body has the type and password, plus the name for a teacher or the roll number for a parent, never both. |
| LoginPage.RedirectTarget | static/login.js:109 | `teacher-dashboard.html` iff the reply's `user_type` is 'teacher', otherwise `parent-dashboard.html`. |
| LoginPage.AfterLogin | static/login.js:104-116 | Success greets the user by name and opens the dashboard for the returned type. Failure shows the server message or 'Login failed!' and stays. A network error shows 'Connection error!'. |
| LoginPage.SignUp | static/login.js:120-148 | Rejected iff some value in the built object is empty. Otherwise the posted body is exactly the role's seven teacher or eight parent fields plus `user_type`. |
| LoginPage.LookupFirst | static/login.js:143-154 | Reading a key from the object gives the value of its first entry, or missing when there is none. |
| LoginPage.SignUpRequest | static/login.js:121-140 | The object built key by key reads as the teacher or parent request body. |
| LoginPage.AfterSignUp | static/login.js:157-167 | Success returns to the login form. Failure shows the server message or 'Registration failed!'. |
| LoginPage.SignUpThenLogIn | static/login.js:132-139 | A parent who signs up with an unused roll number passes login validation on the parent tab. The server then finds the parent it inserted, and the password verifies. |
| LoginPage.OnKeyPress | static/login.js:171-183 | Only Enter with an active tab dispatches. It registers iff the login form is hidden, as a teacher iff the tab text contains 'Teacher'. |
| TeacherDashboard.Filter | static/teacher-dashboard.js:129-137 | A student is kept iff the lower-cased term occurs in its lower-cased name, roll number or class. The result is a subsequence of the roster. |
| TeacherDashboard.FilterEmptySearch | static/teacher-dashboard.js:130-136 | An empty search shows the whole roster. |
| TeacherDashboard.FilterIgnoresCase | static/teacher-dashboard.js:130 | A search and its lower-cased form show the same students. |
| TeacherDashboard.FilterFindsField | static/teacher-dashboard.js:131-135 | A student whose name, roll number or class contains the term, ignoring case, is shown. |
| TeacherDashboard.RosterView | static/teacher-dashboard.js:110-126 | The empty state iff the list is empty. Otherwise one card per student, in order. |
| TeacherDashboard.TeacherPage.constructor | static/teacher-dashboard.js:1-2 | The page starts with no user, an empty roster and nothing rendered. |
| TeacherDashboard.TeacherPage.LoadUserInfo | static/teacher-dashboard.js:14-26 | An ok reply caches the user. Anything else goes back to '/' and leaves the cache as it was. |
| TeacherDashboard.TeacherPage.LoadStudents | static/teacher-dashboard.js:97-107 | Asks for the teacher's bus number, null as "null". A reply replaces the roster and renders it. Without a user, or on error, the roster is kept and 'Error loading students' is shown. |
| TeacherDashboard.TeacherPage.FilterStudents | static/teacher-dashboard.js:129-137 | The roster panel shows `Filter(students, search)`. `students` is unchanged. |
| TeacherDashboard.TeacherPage.UpdateTeacherDetails | static/teacher-dashboard.js:40-68 | An empty name or mobile is rejected before any request. On success only the cached name and mobile change. On failure the cache is unchanged and the server message or 'Update failed!' is shown. |
| TeacherDashboard.TeacherPage.EnrollStudent | static/teacher-dashboard.js:156-183 | Rejected iff name, roll, class or finger ID is empty, or no user is loaded. The body registers 'Parent of ' + name with mobile '0000000000', password 'default123' and the teacher's bus and route. The finger ID is not sent. |
| TeacherDashboard.AfterPost | static/teacher-dashboard.js:184-234 | An ok reply shows the action's success text and reloads: 'Student enrolled successfully!' and the roster (184-190), or 'Attendance marked!' and today's attendance (223-228). Any other reply shows 'Enrollment failed!' or 'Failed to mark attendance!'. A rejected request shows 'Connection error!'. |
| TeacherDashboard.TeacherPage.MarkAttendance | static/teacher-dashboard.js:200-221 | Rejected iff no student or no entry time is given, or no user is loaded. A blank exit time is sent as null. The date is today and the bus is the teacher's. |
| TeacherDashboard.AttendanceQueries | static/teacher-dashboard.js:242-245 | One query per roster student, in roster order, for today. |
| TeacherDashboard.AttendanceView | static/teacher-dashboard.js:247-264 | The error panel iff some request failed. Otherwise the empty state iff every student's list is empty, or the concatenation of the lists in roster order. |
| TeacherDashboard.TimeLabel | static/teacher-dashboard.js:258-259 | A truthy time is shown as itself, anything else as 'Not marked'. |
| TeacherDashboard.OneRecordOneItem | static/teacher-dashboard.js:248-261 | With exactly one record among all the replies, the panel shows exactly one item. |
| TeacherDashboard.AttendanceViewMembers | static/teacher-dashboard.js:247-248 | A record is among the flattened records iff it is in the reply for some roster student. |
| TeacherDashboard.TeacherPage.LoadAttendance | static/teacher-dashboard.js:238-265 | Sends `AttendanceQueries` of the roster and sets the panel to `AttendanceView` of the replies. |
| ParentDashboard.BusPanelOf | static/parent-dashboard.js:69-94 | Each of bus number, route, driver name and driver mobile is shown, or '-' when missing or empty. The teacher contact appears iff both the teacher's name and mobile are truthy, otherwise 'No teacher assigned'. |
| ParentDashboard.TeacherBoxFromServer | static/parent-dashboard.js:78-91 | A bus whose `teacher_id` names no user shows 'No teacher assigned'. One whose teacher has a name and mobile shows that contact. |
| ParentDashboard.Classify | static/parent-dashboard.js:233-240 | A time is `present` iff truthy, and then it is shown as itself. |
| ParentDashboard.MarkTextIsFallback | static/parent-dashboard.js:234 | The shown text is the time or 'Not marked'. |
| ParentDashboard.DayPanelOf | static/parent-dashboard.js:217-248 | The empty state iff there are no records. Otherwise only the first record is shown, with its date, bus and classified entry and exit. |
| ParentDashboard.ShownAfterMarking | static/parent-dashboard.js:215-224 | After a new attendance row, a day with no record shows the new row. A day that already had one shows what it showed before. |
| ParentDashboard.ParentPage.constructor | static/parent-dashboard.js:1-3 | The page starts with nothing cached or rendered. |
| ParentDashboard.ParentPage.LoadUserInfo | static/parent-dashboard.js:15-27 | An ok reply caches the user. Anything else goes back to '/'. |
| ParentDashboard.ParentPage.LoadBusDetails | static/parent-dashboard.js:56-66 | An ok reply caches and renders the bus. A reply that is not ok changes nothing. Without a user, or on error, 'Error loading bus details' is shown. |
| ParentDashboard.ParentPage.LoadStudentInfo | static/parent-dashboard.js:97-110 | The first student of a non-empty ok list becomes `studentInfo` and is shown. Anything else leaves it as it was. |
| ParentDashboard.ParentPage.EditStudentDetails | static/parent-dashboard.js:129-158 | Opens the edit form on the cached child. With no child it does nothing. |
| ParentDashboard.ParentPage.SaveStudentDetails | static/parent-dashboard.js:161-193 | An empty name or class is rejected before any request. On success only `student_name` and `class` of the cached child change. On failure the cache is unchanged and the server message or 'Update failed!' is shown. |
| ParentDashboard.ParentPage.CancelEdit | static/parent-dashboard.js:196-198 | Shows the cached child's card again. |
| ParentDashboard.ParentPage.LoadTodayAttendance | static/parent-dashboard.js:208-253 | With no child it does nothing. An ok reply renders today's records. A reply that is not ok keeps the panel. An error shows the error panel. |
| ParentDashboard.ParentPage.LoadAttendanceByDate | static/parent-dashboard.js:256-301 | The same for the chosen date. |
| ParentDashboard.DayView | static/parent-dashboard.js:216-252 | The panel after a reply: rebuilt from an ok reply, kept after a reply that is not ok, and the error panel after a failure. |

## Left out

- SQLite, Flask routing, CORS, `send_from_directory`, the secret key and the `created_at` columns: storage and framework plumbing. The tables are sequences in insertion order, which is taken as the order SQLite scans them.
- A request whose body is not JSON (`request.json` is None): the model assumes every POST carries a JSON object.
- Werkzeug password hashing: `Hash` and `Verify` are abstract. A hash verifies exactly the password it was made from.
- The session is modelled for one client only. The cookie signing and several concurrent clients are not part of this model.
- `/api/update-student` and `/api/update-teacher` are called by the dashboards but not defined in app.py. The server reply is a parameter. Against this server, a POST to either path matches only the GET-only static-file rule that `static_url_path=''` registers (app.py:9). Flask answers with an HTML 405 Method Not Allowed page, which is not JSON, so those calls end in 'Connection error!', the `NetworkError` case.
- Backend.Server.GetAttendance: `request.args.get('student_id')` is query text (app.py:243), which SQLite compares with the INTEGER `student_id` column under its type-affinity rules. The model takes an already parsed `Option<int>`, so text that SQLite would not convert to that integer is not modelled.
- The `/api/bus-routes` route only returns the BUS_ROUTES constant, which `LoginPage.RouteFor` is shown to agree with.
- The DOM, HTML templates, CSS injection and `showNotification` timers: only the chosen message, the redirect and the rendered panel's content are modelled. This covers `populateTeacherDetails`, `populateVerifyDropdown`, `displayStudentInfo` markup and `setCurrentTime`.
- `showTab`, `toggleForm` and `showSection`: class toggling with nothing to decide.
- `fetch`, the `Promise.all` fan-out and the awaited `init` sequences: each reply is a parameter, and the fan-out is a list of replies, one per student.
- `Date`, `toISOString`, `formatDate` and `setDefaultDate`: "today" and the chosen date are parameters, and dates are shown unformatted.
- Values.Lower: ASCII case folding only, not full Unicode `toLowerCase`.
- LoginPage.RouteFor: keys that a JavaScript object inherits from its prototype (such as `busRoutes['constructor']`) are not modelled.
- TeacherDashboard.TeacherPage.MarkAttendance: the dropdown value is taken as an already parsed student id. The `parseInt` of arbitrary text is not modelled.
- TeacherDashboard.TeacherPage.UpdateTeacherDetails and ParentDashboard.ParentPage.SaveStudentDetails: the in-place field writes `userInfo.name = …` and `studentInfo.student_name = …` are modelled as record updates of the cached value. Nothing else holds a reference to these objects on the page, so no aliasing is lost.
- TeacherDashboard.TeacherPage.LoadAttendance: a reply body that is not an array, such as an error object, is not modelled. Each reply is a list of records or a failure.
- The 'Welcome …' and empty-state texts are modelled. The emoji and layout around them are not.
- `students.roll_number` is UNIQUE across the whole table (app.py:50), not per class. The model follows the code.
- POST /api/attendance appends every request, with no de-duplication per student and date (app.py:234-238). `ParentDashboard.ShownAfterMarking` shows that the parent page then only ever shows a day's first row.
