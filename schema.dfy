/**
 * Row shapes, column defaults and constraints of the seven tables (users, students, tablets,
 * activities, alerts, blocked_sites, security_policies). Timestamps are integers (milliseconds);
 * a `jsonb` column is kept as its text.
 */
module Schema {
  import opened Wrappers
  import opened Lists

  const Online := "online"
  const Offline := "offline"
  const Warning := "warning"
  const Blocked := "blocked"

  /**
   * An insert-record field for a nullable column with a default: left out (the default applies),
   * an explicit null, or a value.
   */
  datatype Field<+T> = Omitted | Null | Given(value: T)

  /** The value stored for a `Field` of a nullable column with default `d`. */
  function Stored<T>(f: Field<T>, d: T): Option<T> {
    match f
    case Omitted => Some(d)
    case Null => None
    case Given(v) => Some(v)
  }

  datatype User = User(id: string, username: string, password: string, role: string, name: string,
                       email: Option<string>, createdAt: int)

  datatype Student = Student(id: string, name: string, grade: string, email: Option<string>,
                             tabletId: Option<string>, isActive: Option<bool>, createdAt: int)

  datatype Tablet = Tablet(id: string, tabletNumber: string, studentId: Option<string>, status: string,
                           lastActivity: Option<int>, currentApp: Option<string>, currentUrl: Option<string>,
                           screenTime: Option<int>, isBlocked: Option<bool>, createdAt: int)

  datatype Activity = Activity(id: string, studentId: string, tabletId: string, activityType: string,
                               application: Option<string>, url: Option<string>, title: Option<string>,
                               category: Option<string>, duration: Option<int>, isBlocked: Option<bool>,
                               timestamp: int)

  datatype Alert = Alert(id: string, studentId: string, tabletId: string, alertType: string, severity: string,
                         title: string, description: Option<string>, isResolved: Option<bool>,
                         resolvedBy: Option<string>, resolvedAt: Option<int>, createdAt: int)

  datatype BlockedSite = BlockedSite(id: string, url: string, category: string, reason: Option<string>,
                                     isActive: Option<bool>, createdAt: int)

  datatype SecurityPolicy = SecurityPolicy(id: string, name: string, description: Option<string>, rules: string,
                                           isActive: Option<bool>, createdAt: int)

  // Insert records: what a body parsed by the insert schemas holds. They have no id and no
  // createdAt (no timestamp for activities): the server assigns those.

  datatype InsertUser = InsertUser(username: string, password: string, role: Option<string>, name: string,
                                   email: Option<string>)

  datatype InsertStudent = InsertStudent(name: string, grade: string, email: Option<string>,
                                         tabletId: Option<string>, isActive: Field<bool>)

  datatype InsertTablet = InsertTablet(tabletNumber: string, studentId: Option<string>, status: Option<string>,
                                       lastActivity: Option<int>, currentApp: Option<string>,
                                       currentUrl: Option<string>, screenTime: Field<int>, isBlocked: Field<bool>)

  datatype InsertActivity = InsertActivity(studentId: string, tabletId: string, activityType: string,
                                           application: Option<string>, url: Option<string>, title: Option<string>,
                                           category: Option<string>, duration: Field<int>, isBlocked: Field<bool>)

  datatype InsertAlert = InsertAlert(studentId: string, tabletId: string, alertType: string, severity: Option<string>,
                                     title: string, description: Option<string>, isResolved: Field<bool>,
                                     resolvedBy: Option<string>, resolvedAt: Option<int>)

  datatype InsertBlockedSite = InsertBlockedSite(url: string, category: string, reason: Option<string>,
                                                 isActive: Field<bool>)

  datatype InsertSecurityPolicy = InsertSecurityPolicy(name: string, description: Option<string>, rules: string,
                                                       isActive: Field<bool>)

  /** The row a user insert stores: role defaults to 'teacher'. */
  function NewUser(id: string, now: int, u: InsertUser): (r: User)
    ensures r.id == id && r.createdAt == now && r.username == u.username
    ensures r.role == if u.role.Some? then u.role.value else "teacher"
  {
    User(id, u.username, u.password, u.role.GetOr("teacher"), u.name, u.email, now)
  }

  /** The row a student insert stores: isActive defaults to true. */
  function NewStudent(id: string, now: int, s: InsertStudent): (r: Student)
    ensures r.id == id && r.createdAt == now && r.tabletId == s.tabletId
    ensures s.isActive.Omitted? ==> r.isActive == Some(true)
  {
    Student(id, s.name, s.grade, s.email, s.tabletId, Stored(s.isActive, true), now)
  }

  /**
   * The row a tablet insert stores: status defaults to 'offline', screenTime to 0, isBlocked to false;
   * the student is whatever the insert names, none by default.
   */
  function NewTablet(id: string, now: int, t: InsertTablet): (r: Tablet)
    ensures r.id == id && r.createdAt == now && r.tabletNumber == t.tabletNumber && r.studentId == t.studentId
    ensures t.status.None? ==> r.status == Offline
    ensures t.screenTime.Omitted? ==> r.screenTime == Some(0)
    ensures t.isBlocked.Omitted? ==> r.isBlocked == Some(false)
  {
    Tablet(id, t.tabletNumber, t.studentId, t.status.GetOr(Offline), t.lastActivity, t.currentApp, t.currentUrl,
           Stored(t.screenTime, 0), Stored(t.isBlocked, false), now)
  }

  /** The row an activity insert stores: timestamp is the insert time, duration defaults to 0. */
  function NewActivity(id: string, now: int, a: InsertActivity): (r: Activity)
    ensures r.id == id && r.timestamp == now && r.studentId == a.studentId && r.tabletId == a.tabletId
    ensures a.duration.Omitted? ==> r.duration == Some(0)
    ensures a.isBlocked.Omitted? ==> r.isBlocked == Some(false)
  {
    Activity(id, a.studentId, a.tabletId, a.activityType, a.application, a.url, a.title, a.category,
             Stored(a.duration, 0), Stored(a.isBlocked, false), now)
  }

  /**
   * The row an alert insert stores: severity defaults to 'medium', isResolved to false, and
   * resolvedBy/resolvedAt stay null unless the insert gives them.
   */
  function NewAlert(id: string, now: int, a: InsertAlert): (r: Alert)
    ensures r.id == id && r.createdAt == now && r.studentId == a.studentId && r.tabletId == a.tabletId
    ensures a.severity.None? ==> r.severity == "medium"
    ensures a.isResolved.Omitted? ==> r.isResolved == Some(false)
    ensures r.resolvedBy == a.resolvedBy && r.resolvedAt == a.resolvedAt
  {
    Alert(id, a.studentId, a.tabletId, a.alertType, a.severity.GetOr("medium"), a.title, a.description,
          Stored(a.isResolved, false), a.resolvedBy, a.resolvedAt, now)
  }

  /** The row a blocked-site insert stores: isActive defaults to true. */
  function NewBlockedSite(id: string, now: int, b: InsertBlockedSite): (r: BlockedSite)
    ensures r.id == id && r.createdAt == now && r.url == b.url
    ensures b.isActive.Omitted? ==> r.isActive == Some(true)
  {
    BlockedSite(id, b.url, b.category, b.reason, Stored(b.isActive, true), now)
  }

  /** The row a security-policy insert stores: isActive defaults to true. */
  function NewSecurityPolicy(id: string, now: int, p: InsertSecurityPolicy): (r: SecurityPolicy)
    ensures r.id == id && r.createdAt == now && r.rules == p.rules
    ensures p.isActive.Omitted? ==> r.isActive == Some(true)
  {
    SecurityPolicy(id, p.name, p.description, p.rules, Stored(p.isActive, true), now)
  }

  // Column projections, used for keys and references.

  function UserId(u: User): string { u.id }
  function Username(u: User): string { u.username }
  function StudentId(s: Student): string { s.id }
  function TabletId(t: Tablet): string { t.id }
  function TabletNumber(t: Tablet): string { t.tabletNumber }
  function ActivityId(a: Activity): string { a.id }
  function AlertId(a: Alert): string { a.id }
  function SiteId(b: BlockedSite): string { b.id }
  function PolicyId(p: SecurityPolicy): string { p.id }

  /** Non-null student tablet ids are pairwise distinct (a UNIQUE column admits many nulls). */
  ghost predicate DistinctTabletIds(students: seq<Student>) {
    forall i, j :: 0 <= i < j < |students| && students[i].tabletId.Some? ==> students[i].tabletId != students[j].tabletId
  }

  /** users: primary key and unique username. */
  ghost predicate UsersOk(users: seq<User>) {
    Distinct(Map(users, UserId)) && Distinct(Map(users, Username))
  }

  /** students: primary key and unique tablet_id. */
  ghost predicate StudentsOk(students: seq<Student>) {
    Distinct(Map(students, StudentId)) && DistinctTabletIds(students)
  }

  /** tablets: primary key, unique tablet_number, and student_id null or referencing a student. */
  ghost predicate TabletsOk(tablets: seq<Tablet>, students: seq<Student>) {
    && Distinct(Map(tablets, TabletId))
    && Distinct(Map(tablets, TabletNumber))
    && forall i :: 0 <= i < |tablets| && tablets[i].studentId.Some? ==> tablets[i].studentId.value in Map(students, StudentId)
  }

  /** activities: primary key, and non-null student_id and tablet_id referencing existing rows. */
  ghost predicate ActivitiesOk(activities: seq<Activity>, students: seq<Student>, tablets: seq<Tablet>) {
    && Distinct(Map(activities, ActivityId))
    && forall i :: 0 <= i < |activities| ==>
         activities[i].studentId in Map(students, StudentId) && activities[i].tabletId in Map(tablets, TabletId)
  }

  /** alerts: primary key, student_id and tablet_id referencing rows, resolved_by null or a user. */
  ghost predicate AlertsOk(alerts: seq<Alert>, students: seq<Student>, tablets: seq<Tablet>, users: seq<User>) {
    && Distinct(Map(alerts, AlertId))
    && (forall i :: 0 <= i < |alerts| ==>
         alerts[i].studentId in Map(students, StudentId) && alerts[i].tabletId in Map(tablets, TabletId))
    && (forall i :: 0 <= i < |alerts| && alerts[i].resolvedBy.Some? ==> alerts[i].resolvedBy.value in Map(users, UserId))
  }
}
