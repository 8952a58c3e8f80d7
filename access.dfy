/** Login and navigation: the built-in accounts, the credential check, the
    menu each role is offered, and the page each menu entry opens. */
module Access {
  import opened Timetables

  /** A stored account, as the login returns it. */
  datatype UserRecord = UserRecord(password: string, role: string, name: string)

  const Users: map<string, UserRecord> := map[
    "admin" := UserRecord("admin123", "admin", "System Administrator"),
    "hod_ece" := UserRecord("hod123", "hod", "ECE HOD"),
    "asra" := UserRecord("faculty123", "faculty", "Ms. H. Asra Jabeen"),
    "timetable_officer" := UserRecord("officer123", "timetable_officer", "Timetable Officer")
  ]

  /** The stored record when the username is known and the password matches it; otherwise None. */
  function AuthenticateUser(username: string, password: string): (r: Option<UserRecord>)
    ensures r.Some? <==> username in Users && Users[username].password == password
    ensures r.Some? ==> r.value == Users[username]
  {
    if username in Users && Users[username].password == password then Some(Users[username]) else None
  }

  /** The pages the main view can show. */
  datatype Page =
    | Dashboard | TimetableGeneration | FacultyManagement | RoomManagement | SubjectManagement
    | TimetableApproval | ViewTimetables | MySchedule | SystemConfiguration

  /** Every entry any menu can offer. */
  const MenuEntries: seq<string> := [
    "Dashboard", "Timetable Generation", "Faculty Management", "Room Management",
    "Subject Management", "Timetable Approval", "View Timetables", "My Schedule",
    "System Configuration"
  ]

  /** The menu text under which a page is offered. */
  function EntryOf(p: Page): (e: string)
    ensures e in MenuEntries
  {
    match p
    case Dashboard => "Dashboard"
    case TimetableGeneration => "Timetable Generation"
    case FacultyManagement => "Faculty Management"
    case RoomManagement => "Room Management"
    case SubjectManagement => "Subject Management"
    case TimetableApproval => "Timetable Approval"
    case ViewTimetables => "View Timetables"
    case MySchedule => "My Schedule"
    case SystemConfiguration => "System Configuration"
  }

  /** The page a menu entry opens: the page offered under that very text;
      an unknown entry opens nothing. */
  function PageFor(entry: string): (r: Option<Page>)
    ensures r.Some? <==> entry in MenuEntries
    ensures r.Some? ==> EntryOf(r.value) == entry
  {
    if entry == "Dashboard" then Some(Dashboard)
    else if entry == "Timetable Generation" then Some(TimetableGeneration)
    else if entry == "Faculty Management" then Some(FacultyManagement)
    else if entry == "Room Management" then Some(RoomManagement)
    else if entry == "Subject Management" then Some(SubjectManagement)
    else if entry == "Timetable Approval" then Some(TimetableApproval)
    else if entry == "View Timetables" then Some(ViewTimetables)
    else if entry == "My Schedule" then Some(MySchedule)
    else if entry == "System Configuration" then Some(SystemConfiguration)
    else None
  }

  predicate IsManager(role: string)
  {
    role == "admin" || role == "timetable_officer"
  }

  const ManagerMenu: seq<string> := ["Dashboard", "Timetable Generation", "Faculty Management",
                                      "Room Management", "Subject Management", "System Configuration"]
  const HodMenu: seq<string> := ["Dashboard", "Timetable Approval", "View Timetables"]
  const StaffMenu: seq<string> := ["My Schedule", "View Timetables"]

  /** Every entry of a menu opens a page, and no two entries open the same one. */
  predicate OpensDistinctPages(menu: seq<string>)
  {
    (forall i :: 0 <= i < |menu| ==> PageFor(menu[i]).Some?) &&
    (forall i, j :: 0 <= i < j < |menu| ==> PageFor(menu[i]) != PageFor(menu[j]))
  }

  lemma ManagerMenuFacts()
    ensures OpensDistinctPages(ManagerMenu)
    ensures "Timetable Approval" !in ManagerMenu && "View Timetables" !in ManagerMenu
    ensures "My Schedule" !in ManagerMenu
  {
  }

  lemma HodMenuFacts()
    ensures OpensDistinctPages(HodMenu)
    ensures "Timetable Generation" !in HodMenu && "Faculty Management" !in HodMenu
    ensures "Room Management" !in HodMenu && "Subject Management" !in HodMenu
    ensures "System Configuration" !in HodMenu && "My Schedule" !in HodMenu
  {
  }

  lemma StaffMenuFacts()
    ensures OpensDistinctPages(StaffMenu)
    ensures "Dashboard" !in StaffMenu && "Timetable Generation" !in StaffMenu
    ensures "Faculty Management" !in StaffMenu && "Room Management" !in StaffMenu
    ensures "Subject Management" !in StaffMenu && "System Configuration" !in StaffMenu
    ensures "Timetable Approval" !in StaffMenu
  {
  }

  /** The sidebar menu for a role. Every entry opens a page and no entry
      repeats; generation is offered to managers only, approval to the head
      of department only, and every role can look at timetables. */
  function MenuFor(role: string): (menu: seq<string>)
    ensures |menu| == if IsManager(role) then 6 else if role == "hod" then 3 else 2
    ensures forall i :: 0 <= i < |menu| ==> PageFor(menu[i]).Some?
    ensures forall i, j :: 0 <= i < j < |menu| ==> PageFor(menu[i]) != PageFor(menu[j])
    ensures "Timetable Generation" in menu <==> IsManager(role)
    ensures "Timetable Approval" in menu <==> role == "hod"
    ensures "View Timetables" in menu <==> !IsManager(role)
    ensures "Dashboard" in menu <==> IsManager(role) || role == "hod"
    ensures "My Schedule" in menu <==> !IsManager(role) && role != "hod"
    ensures "Faculty Management" in menu <==> IsManager(role)
    ensures "Room Management" in menu <==> IsManager(role)
    ensures "Subject Management" in menu <==> IsManager(role)
    ensures "System Configuration" in menu <==> IsManager(role)
    ensures menu[0] == if IsManager(role) || role == "hod" then "Dashboard" else "My Schedule"
  {
    ManagerMenuFacts();
    HodMenuFacts();
    StaffMenuFacts();
    if IsManager(role) then ManagerMenu
    else if role == "hod" then HodMenu
    else StaffMenu
  }

  /** Every page is reached from its own menu text. */
  lemma PageForEntryOf(p: Page)
    ensures PageFor(EntryOf(p)) == Some(p)
  {
  }

  /** Different entries open different pages, so the dispatch never confuses two entries. */
  lemma PageForInjective(a: string, b: string)
    requires PageFor(a).Some? && PageFor(a) == PageFor(b)
    ensures a == b
  {
    assert a == EntryOf(PageFor(a).value);
  }

  /** Of the built-in accounts, only the administrator and the timetable
      officer can reach timetable generation after logging in. */
  lemma OnlyManagersGenerate(username: string, password: string)
    requires AuthenticateUser(username, password).Some?
    ensures "Timetable Generation" in MenuFor(AuthenticateUser(username, password).value.role)
      <==> username == "admin" || username == "timetable_officer"
  {
    var role := Users[username].role;
    assert IsManager(role) <==> username == "admin" || username == "timetable_officer";
  }

  /** Every built-in account logs in with its own password. */
  lemma StoredCredentialsLogIn(username: string)
    requires username in Users
    ensures AuthenticateUser(username, Users[username].password) == Some(Users[username])
  {
  }
}
