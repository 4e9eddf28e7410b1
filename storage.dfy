/**
 * The data-access layer: the tables as sequences of rows, the queries as functions over them,
 * and `DatabaseStorage`, whose methods insert, update and delete rows in place.
 * Row ids and clock values are parameters; an id that is already taken fails like a
 * primary-key violation.
 */
module Storage {
  import opened Wrappers
  import opened Text
  import opened Lists
  import opened Schema

  /** Why the database rejects a statement. */
  datatype DbError = DuplicateKey(column: string) | MissingReference(column: string) | NotNullViolation(column: string)

  /** A snapshot of all seven tables. */
  datatype Db = Db(users: seq<User>, students: seq<Student>, tablets: seq<Tablet>, activities: seq<Activity>,
                   alerts: seq<Alert>, blockedSites: seq<BlockedSite>, securityPolicies: seq<SecurityPolicy>)

  /** The constraints the database enforces: keys, unique columns and references. */
  ghost predicate Consistent(db: Db) {
    && UsersOk(db.users)
    && StudentsOk(db.students)
    && TabletsOk(db.tablets, db.students)
    && ActivitiesOk(db.activities, db.students, db.tablets)
    && AlertsOk(db.alerts, db.students, db.tablets, db.users)
    && Distinct(Map(db.blockedSites, SiteId))
    && Distinct(Map(db.securityPolicies, PolicyId))
  }

  // ---------------------------------------------------------------------------------------------
  // Joined result rows

  datatype StudentSummary = StudentSummary(id: string, name: string, grade: string)
  datatype StudentName = StudentName(id: string, name: string)
  datatype TabletLabel = TabletLabel(id: string, tabletNumber: string)

  /** A row of the tablets listing: the tablet's columns and its student, if any. */
  datatype TabletWithStudent = TabletWithStudent(id: string, tabletNumber: string, status: string,
                                                 lastActivity: Option<int>, currentApp: Option<string>,
                                                 currentUrl: Option<string>, screenTime: Option<int>,
                                                 isBlocked: Option<bool>, createdAt: int,
                                                 student: Option<StudentSummary>)

  /** A row of a tablet's activity feed. */
  datatype ActivityWithStudent = ActivityWithStudent(id: string, activityType: string, application: Option<string>,
                                                     url: Option<string>, title: Option<string>,
                                                     category: Option<string>, duration: Option<int>,
                                                     isBlocked: Option<bool>, timestamp: int,
                                                     student: Option<StudentName>)

  /** A row of the alerts listing. */
  datatype AlertWithDetails = AlertWithDetails(id: string, alertType: string, severity: string, title: string,
                                               description: Option<string>, isResolved: Option<bool>,
                                               createdAt: int, resolvedAt: Option<int>,
                                               student: Option<StudentName>, tablet: Option<TabletLabel>)

  datatype DashboardStats = DashboardStats(activeTablets: nat, totalTablets: nat, activeAlerts: nat,
                                           averageTime: int, blockedSites: nat)

  // ---------------------------------------------------------------------------------------------
  // Orders used by ORDER BY

  predicate NewerStudent(a: Student, b: Student) { a.createdAt >= b.createdAt }
  predicate NewerActivity(a: Activity, b: Activity) { a.timestamp >= b.timestamp }
  predicate NewerActivityRow(a: ActivityWithStudent, b: ActivityWithStudent) { a.timestamp >= b.timestamp }
  predicate NewerAlert(a: AlertWithDetails, b: AlertWithDetails) { a.createdAt >= b.createdAt }
  predicate NewerSite(a: BlockedSite, b: BlockedSite) { a.createdAt >= b.createdAt }
  predicate TabletNumberLe(a: TabletWithStudent, b: TabletWithStudent) { LexLe(a.tabletNumber, b.tabletNumber) }

  lemma TimestampOrders()
    ensures TotalPreorder(NewerStudent) && TotalPreorder(NewerActivity) && TotalPreorder(NewerActivityRow)
    ensures TotalPreorder(NewerAlert) && TotalPreorder(NewerSite)
  {
  }

  /** Ordering tablets by number is a total preorder. */
  lemma TabletNumberOrder()
    ensures TotalPreorder(TabletNumberLe)
  {
    forall a, b ensures TabletNumberLe(a, b) || TabletNumberLe(b, a) {
      LexLeTotal(a.tabletNumber, b.tabletNumber);
    }
    forall a, b, c | TabletNumberLe(a, b) && TabletNumberLe(b, c) ensures TabletNumberLe(a, c) {
      LexLeTrans(a.tabletNumber, b.tabletNumber, c.tabletNumber);
    }
  }

  // ---------------------------------------------------------------------------------------------
  // Users and students

  /** getUser: the user with that id, if any. */
  function UserById(users: seq<User>, id: string): (r: Option<User>)
    ensures r.Some? ==> r.value in users && r.value.id == id
    ensures r.None? <==> id !in Map(users, UserId)
  {
    Find(users, UserId, id)
  }

  /** getUserByUsername: the user with that username, if any. */
  function UserByUsername(users: seq<User>, username: string): (r: Option<User>)
    ensures r.Some? ==> r.value in users && r.value.username == username
    ensures r.None? <==> username !in Map(users, Username)
  {
    Find(users, Username, username)
  }

  /** getAllStudents: every student, newest first. */
  function AllStudents(students: seq<Student>): (r: seq<Student>)
    ensures multiset(r) == multiset(students)
    ensures SortedBy(r, NewerStudent)
  {
    TimestampOrders();
    SortBySorted(students, NewerStudent);
    SortBy(students, NewerStudent)
  }

  /** getStudent: the student with that id, if any. */
  function StudentById(students: seq<Student>, id: string): (r: Option<Student>)
    ensures r.Some? ==> r.value in students && r.value.id == id
    ensures r.None? <==> id !in Map(students, StudentId)
  {
    Find(students, StudentId, id)
  }

  // ---------------------------------------------------------------------------------------------
  // Tablets

  /** getTablet: the tablet with that id, if any. */
  function TabletById(tablets: seq<Tablet>, id: string): (r: Option<Tablet>)
    ensures r.Some? ==> r.value in tablets && r.value.id == id
    ensures r.None? <==> id !in Map(tablets, TabletId)
  {
    Find(tablets, TabletId, id)
  }

  /**
   * The left join of a tablet with its student; a student whose id is the empty string
   * is dropped like a missing one (the source tests the id for truthiness).
   */
  function TabletView(t: Tablet, students: seq<Student>): TabletWithStudent {
    var student :=
      if t.studentId.None? then None
      else match StudentById(students, t.studentId.value)
        case None => None
        case Some(s) => if s.id == "" then None else Some(StudentSummary(s.id, s.name, s.grade));
    TabletWithStudent(t.id, t.tabletNumber, t.status, t.lastActivity, t.currentApp, t.currentUrl,
                      t.screenTime, t.isBlocked, t.createdAt, student)
  }

  function TabletViews(tablets: seq<Tablet>, students: seq<Student>): seq<TabletWithStudent> {
    seq(|tablets|, i requires 0 <= i < |tablets| => TabletView(tablets[i], students))
  }

  /** getAllTablets: every tablet with its student, ordered by tablet number. */
  function AllTablets(tablets: seq<Tablet>, students: seq<Student>): (r: seq<TabletWithStudent>)
    ensures multiset(r) == multiset(TabletViews(tablets, students))
    ensures SortedBy(r, TabletNumberLe)
  {
    TabletNumberOrder();
    SortBySorted(TabletViews(tablets, students), TabletNumberLe);
    SortBy(TabletViews(tablets, students), TabletNumberLe)
  }

  /** A tablet in the listing points at a student exactly when its studentId names an existing one. */
  lemma TabletViewStudent(t: Tablet, students: seq<Student>)
    requires StudentsOk(students)
    requires forall i :: 0 <= i < |students| ==> students[i].id != ""
    ensures TabletView(t, students).student.Some? <==> t.studentId.Some? && t.studentId.value in Map(students, StudentId)
    ensures TabletView(t, students).student.Some? ==> TabletView(t, students).student.value.id == t.studentId.value
  {
  }

  /** The left join found a student row for the tablet. */
  predicate JoinMatched(t: Tablet, students: seq<Student>) {
    t.studentId.Some? && StudentById(students, t.studentId.value).Some?
  }

  /**
   * getAllTablets AS WRITTEN, under the query builder's reading of a left join: a row whose joined
   * student columns are all NULL gets a null `student` object, so `row.student.id` throws and the
   * whole listing fails (None) as soon as one tablet has no student.
   */
  function AllTabletsAsWritten(tablets: seq<Tablet>, students: seq<Student>): (r: Option<seq<TabletWithStudent>>)
    ensures r.Some? <==> forall i :: 0 <= i < |tablets| ==> JoinMatched(tablets[i], students)
    ensures r.Some? ==> r.value == AllTablets(tablets, students)
  {
    if forall i :: 0 <= i < |tablets| ==> JoinMatched(tablets[i], students) then Some(AllTablets(tablets, students))
    else None
  }

  /** A newly created tablet with no student makes the listing as written fail, whatever else is stored. */
  lemma UnassignedTabletFailsAsWritten(tablets: seq<Tablet>, students: seq<Student>, id: string, now: int, t: InsertTablet)
    requires t.studentId.None?
    ensures AllTabletsAsWritten(tablets + [NewTablet(id, now, t)], students).None?
  {
    var all := tablets + [NewTablet(id, now, t)];
    assert !JoinMatched(all[|tablets|], students);
  }

  /** Locking applied to one tablet row. */
  function LockIfOnline(t: Tablet): Tablet {
    if t.status == Online then t.(status := Blocked, isBlocked := Some(true)) else t
  }

  /**
   * lockAllTablets as a table transformation: exactly the online rows change, and in them
   * only status (to 'blocked') and isBlocked (to true).
   */
  function LockOnline(tablets: seq<Tablet>): (r: seq<Tablet>)
    ensures |r| == |tablets|
    ensures forall i :: 0 <= i < |tablets| ==> (r[i] == tablets[i] <==> tablets[i].status != Online)
    ensures forall i :: 0 <= i < |tablets| && tablets[i].status == Online ==>
              r[i].status == Blocked && r[i].isBlocked == Some(true)
    ensures forall i :: 0 <= i < |tablets| ==>
              r[i].(status := tablets[i].status, isBlocked := tablets[i].isBlocked) == tablets[i]
  {
    Map(tablets, LockIfOnline)
  }

  /** After locking no tablet is online. */
  lemma NoneOnlineAfterLock(tablets: seq<Tablet>)
    ensures forall t :: t in LockOnline(tablets) ==> t.status != Online
    ensures Filter(LockOnline(tablets), IsOnline) == []
  {
    FilterKeepsNone(LockOnline(tablets), IsOnline);
  }

  /** Locking twice is locking once. */
  lemma LockIdempotent(tablets: seq<Tablet>)
    ensures LockOnline(LockOnline(tablets)) == LockOnline(tablets)
  {
  }

  function IsBlockedStatus(t: Tablet): bool { t.status == Blocked }

  /** Every tablet that was online is now counted among the blocked ones. */
  lemma {:induction false} LockBlockedCount(tablets: seq<Tablet>)
    ensures |Filter(LockOnline(tablets), IsBlockedStatus)| ==
            |Filter(tablets, IsBlockedStatus)| + |Filter(tablets, IsOnline)|
    decreases |tablets|
  {
    if tablets != [] {
      assert LockOnline(tablets)[1..] == LockOnline(tablets[1..]);
      LockBlockedCount(tablets[1..]);
    }
  }

  /** updateTabletStatus on one row: status set, isBlocked set only when the caller gives it. */
  function SetTabletStatus(t: Tablet, status: string, isBlocked: Field<bool>): Tablet {
    t.(status := status,
       isBlocked := match isBlocked
                    case Omitted => t.isBlocked
                    case Null => None
                    case Given(b) => Some(b))
  }

  /** updateTabletStatus as a table transformation over the rows with that id. */
  function UpdateStatusRows(tablets: seq<Tablet>, id: string, status: string, isBlocked: Field<bool>): (r: seq<Tablet>)
    ensures |r| == |tablets|
    ensures forall i :: 0 <= i < |tablets| && tablets[i].id != id ==> r[i] == tablets[i]
    ensures forall i :: 0 <= i < |tablets| && tablets[i].id == id ==>
              && r[i].status == status
              && r[i].(status := tablets[i].status, isBlocked := tablets[i].isBlocked) == tablets[i]
              && (isBlocked.Omitted? ==> r[i].isBlocked == tablets[i].isBlocked)
              && (isBlocked.Given? ==> r[i].isBlocked == Some(isBlocked.value))
    ensures id !in Map(tablets, TabletId) ==> r == tablets
  {
    seq(|tablets|, i requires 0 <= i < |tablets| =>
      if tablets[i].id == id then SetTabletStatus(tablets[i], status, isBlocked) else tablets[i])
  }

  /** The test blockSiteForTablet applies: the tablet exists and its current URL includes `url`. */
  function VisitsSite(tablets: seq<Tablet>, tabletId: string, url: string): bool {
    match TabletById(tablets, tabletId)
    case None => false
    case Some(t) => t.currentUrl.Some? && Includes(t.currentUrl.value, url)
  }

  /** The tablet-table half of blockSiteForTablet. */
  function BlockVisitingTablet(tablets: seq<Tablet>, tabletId: string, url: string): seq<Tablet> {
    if VisitsSite(tablets, tabletId, url) then UpdateStatusRows(tablets, tabletId, Blocked, Given(true)) else tablets
  }

  /**
   * With distinct tablet ids, blocking a site locks the named tablet if and only if it exists and its
   * current URL includes the site, and leaves every other row untouched.
   */
  lemma BlockVisitingTabletExact(tablets: seq<Tablet>, tabletId: string, url: string)
    requires Distinct(Map(tablets, TabletId))
    ensures |BlockVisitingTablet(tablets, tabletId, url)| == |tablets|
    ensures forall k :: 0 <= k < |tablets| ==>
      BlockVisitingTablet(tablets, tabletId, url)[k] ==
        if tablets[k].id == tabletId && tablets[k].currentUrl.Some? && Includes(tablets[k].currentUrl.value, url)
        then tablets[k].(status := Blocked, isBlocked := Some(true))
        else tablets[k]
  {
    forall k | 0 <= k < |tablets| && tablets[k].id == tabletId
      ensures TabletById(tablets, tabletId) == Some(tablets[k])
    {
      FindDistinct(tablets, TabletId, k);
    }
  }

  // ---------------------------------------------------------------------------------------------
  // Activities

  function OnTablet(tabletId: string): Activity -> bool { (a: Activity) => a.tabletId == tabletId }

  /** The activities recorded for one tablet, in table order. */
  function ActivitiesOfTablet(activities: seq<Activity>, tabletId: string): (r: seq<Activity>)
    ensures forall i :: 0 <= i < |r| ==> r[i].tabletId == tabletId
    ensures forall i :: 0 <= i < |activities| && activities[i].tabletId == tabletId ==> activities[i] in r
  {
    Filter(activities, OnTablet(tabletId))
  }

  function ActivityView(a: Activity, students: seq<Student>): ActivityWithStudent {
    var student := match StudentById(students, a.studentId)
      case None => None
      case Some(s) => Some(StudentName(s.id, s.name));
    ActivityWithStudent(a.id, a.activityType, a.application, a.url, a.title, a.category, a.duration,
                        a.isBlocked, a.timestamp, student)
  }

  function ActivityViews(activities: seq<Activity>, students: seq<Student>): seq<ActivityWithStudent> {
    seq(|activities|, i requires 0 <= i < |activities| => ActivityView(activities[i], students))
  }

  /**
   * getTabletActivities: at most 10 of the tablet's activities, newest first, and none of the
   * tablet's activities left out is newer than one returned.
   */
  function TabletActivities(activities: seq<Activity>, students: seq<Student>, tabletId: string): (r: seq<ActivityWithStudent>)
    ensures var n := |ActivitiesOfTablet(activities, tabletId)|; |r| == if n < 10 then n else 10
    ensures multiset(r) <= multiset(ActivityViews(ActivitiesOfTablet(activities, tabletId), students))
    ensures SortedBy(r, NewerActivityRow)
    ensures forall x, y :: x in r && y in multiset(ActivityViews(ActivitiesOfTablet(activities, tabletId), students)) - multiset(r)
              ==> x.timestamp >= y.timestamp
  {
    var all := ActivityViews(ActivitiesOfTablet(activities, tabletId), students);
    TimestampOrders();
    SortBySorted(all, NewerActivityRow);
    TakeOfSorted(SortBy(all, NewerActivityRow), NewerActivityRow, 10);
    Take(SortBy(all, NewerActivityRow), 10)
  }

  /**
   * The filter getStudentActivities runs, AS WRITTEN: a later `.where()` replaces the earlier one,
   * so with both dates only the end bound survives.
   */
  function StudentWindowAsWritten(studentId: string, startDate: Option<int>, endDate: Option<int>): Activity -> bool {
    if endDate.Some? then (a: Activity) => a.studentId == studentId && a.timestamp <= endDate.value
    else if startDate.Some? then (a: Activity) => a.studentId == studentId && a.timestamp >= startDate.value
    else (a: Activity) => a.studentId == studentId
  }

  function StudentActivitiesAsWritten(activities: seq<Activity>, studentId: string, startDate: Option<int>,
                                      endDate: Option<int>): (r: seq<Activity>)
    ensures multiset(r) == multiset(Filter(activities, StudentWindowAsWritten(studentId, startDate, endDate)))
    ensures SortedBy(r, NewerActivity)
  {
    TimestampOrders();
    SortBySorted(Filter(activities, StudentWindowAsWritten(studentId, startDate, endDate)), NewerActivity);
    SortBy(Filter(activities, StudentWindowAsWritten(studentId, startDate, endDate)), NewerActivity)
  }

  /** An activity before the start date is returned when both dates are given. */
  lemma StartDateDroppedAsWritten()
    ensures var a := Activity("a1", "s1", "t1", "app_usage", None, None, None, None, Some(0), Some(false), 5);
            StudentActivitiesAsWritten([a], "s1", Some(10), Some(20)) == [a] && a.timestamp < 10
  {
    var a := Activity("a1", "s1", "t1", "app_usage", None, None, None, None, Some(0), Some(false), 5);
    assert Filter([a], StudentWindowAsWritten("s1", Some(10), Some(20))) == [a];
  }

  /** The intended filter: the student's activities within the inclusive date range. */
  function StudentWindow(studentId: string, startDate: Option<int>, endDate: Option<int>): Activity -> bool {
    (a: Activity) => a.studentId == studentId && (startDate.None? || a.timestamp >= startDate.value)
         && (endDate.None? || a.timestamp <= endDate.value)
  }

  /** getStudentActivities with both bounds applied: the student's activities in range, newest first. */
  function StudentActivities(activities: seq<Activity>, studentId: string, startDate: Option<int>,
                             endDate: Option<int>): (r: seq<Activity>)
    ensures multiset(r) == multiset(Filter(activities, StudentWindow(studentId, startDate, endDate)))
    ensures SortedBy(r, NewerActivity)
  {
    TimestampOrders();
    SortBySorted(Filter(activities, StudentWindow(studentId, startDate, endDate)), NewerActivity);
    SortBy(Filter(activities, StudentWindow(studentId, startDate, endDate)), NewerActivity)
  }

  /** Exactly the student's activities inside the range are returned. */
  lemma StudentActivitiesExact(activities: seq<Activity>, studentId: string, startDate: Option<int>,
                               endDate: Option<int>, a: Activity)
    ensures a in StudentActivities(activities, studentId, startDate, endDate) <==>
            && a in activities && a.studentId == studentId
            && (startDate.Some? ==> a.timestamp >= startDate.value)
            && (endDate.Some? ==> a.timestamp <= endDate.value)
  {
    var r := StudentActivities(activities, studentId, startDate, endDate);
    FilterMember(activities, StudentWindow(studentId, startDate, endDate), a);
    assert a in r <==> a in multiset(r);
  }

  /** With at most one date given, the query as written and the intended one agree. */
  lemma AsWrittenAgreesOnOneBound(activities: seq<Activity>, studentId: string, startDate: Option<int>,
                                  endDate: Option<int>)
    requires startDate.None? || endDate.None?
    ensures StudentActivitiesAsWritten(activities, studentId, startDate, endDate) ==
            StudentActivities(activities, studentId, startDate, endDate)
  {
    FilterCongruent(activities, StudentWindowAsWritten(studentId, startDate, endDate),
                    StudentWindow(studentId, startDate, endDate));
  }

  // ---------------------------------------------------------------------------------------------
  // Alerts

  /** The resolution filter: none, or equality with the stored flag (NULL equals neither). */
  function ResolvedIs(resolved: Option<bool>): Alert -> bool {
    (a: Alert) => resolved.None? || a.isResolved == resolved
  }

  function AlertsMatching(alerts: seq<Alert>, resolved: Option<bool>): seq<Alert> {
    Filter(alerts, ResolvedIs(resolved))
  }

  function AlertView(a: Alert, students: seq<Student>, tablets: seq<Tablet>): AlertWithDetails {
    var student := match StudentById(students, a.studentId)
      case None => None
      case Some(s) => Some(StudentName(s.id, s.name));
    var tablet := match TabletById(tablets, a.tabletId)
      case None => None
      case Some(t) => Some(TabletLabel(t.id, t.tabletNumber));
    AlertWithDetails(a.id, a.alertType, a.severity, a.title, a.description, a.isResolved, a.createdAt,
                     a.resolvedAt, student, tablet)
  }

  function AlertViews(alerts: seq<Alert>, students: seq<Student>, tablets: seq<Tablet>): seq<AlertWithDetails> {
    seq(|alerts|, i requires 0 <= i < |alerts| => AlertView(alerts[i], students, tablets))
  }

  /** getAlerts: the matching alerts with student and tablet, newest first. */
  function AlertsQuery(alerts: seq<Alert>, students: seq<Student>, tablets: seq<Tablet>, resolved: Option<bool>)
    : (r: seq<AlertWithDetails>)
    ensures multiset(r) == multiset(AlertViews(AlertsMatching(alerts, resolved), students, tablets))
    ensures SortedBy(r, NewerAlert)
  {
    var rows := AlertViews(AlertsMatching(alerts, resolved), students, tablets);
    TimestampOrders();
    SortBySorted(rows, NewerAlert);
    SortBy(rows, NewerAlert)
  }

  /**
   * With a filter, every row returned carries that resolution flag, and every alert with that flag
   * is returned; without one, every alert is.
   */
  lemma AlertsQueryExact(alerts: seq<Alert>, students: seq<Student>, tablets: seq<Tablet>, resolved: Option<bool>)
    ensures resolved.Some? ==> forall x :: x in AlertsQuery(alerts, students, tablets, resolved) ==> x.isResolved == resolved
    ensures forall a :: a in alerts && (resolved.None? || a.isResolved == resolved) ==>
              AlertView(a, students, tablets) in AlertsQuery(alerts, students, tablets, resolved)
    ensures resolved.None? ==> |AlertsQuery(alerts, students, tablets, resolved)| == |alerts|
  {
    var m := AlertsMatching(alerts, resolved);
    var rows := AlertViews(m, students, tablets);
    var r := AlertsQuery(alerts, students, tablets, resolved);
    forall x | x in r ensures resolved.Some? ==> x.isResolved == resolved {
      assert x in multiset(rows);
      var j :| 0 <= j < |rows| && rows[j] == x;
      assert ResolvedIs(resolved)(m[j]);
    }
    forall a | a in alerts && (resolved.None? || a.isResolved == resolved)
      ensures AlertView(a, students, tablets) in r
    {
      FilterMember(alerts, ResolvedIs(resolved), a);
      var j :| 0 <= j < |m| && m[j] == a;
      assert rows[j] == AlertView(a, students, tablets);
      assert rows[j] in multiset(rows);
    }
    if resolved.None? {
      FilterKeepsAll(alerts, ResolvedIs(resolved));
      assert |r| == |multiset(r)| == |multiset(rows)| == |rows|;
    }
  }

  /** An alert without the requested flag makes the filtered listing strictly shorter than the table. */
  lemma AlertsQueryShorter(alerts: seq<Alert>, students: seq<Student>, tablets: seq<Tablet>, resolved: Option<bool>, k: nat)
    requires resolved.Some? && k < |alerts| && alerts[k].isResolved != resolved
    ensures |AlertsQuery(alerts, students, tablets, resolved)| < |alerts|
  {
    FilterDrops(alerts, ResolvedIs(resolved), k);
    var rows := AlertViews(AlertsMatching(alerts, resolved), students, tablets);
    var r := AlertsQuery(alerts, students, tablets, resolved);
    assert |r| == |multiset(r)| == |multiset(rows)| == |rows|;
  }

  /** The resolved and the unresolved listings never share a row. */
  lemma AlertsQueriesDisjoint(alerts: seq<Alert>, students: seq<Student>, tablets: seq<Tablet>)
    ensures forall x :: x in AlertsQuery(alerts, students, tablets, Some(true)) ==>
              x !in AlertsQuery(alerts, students, tablets, Some(false))
  {
    AlertsQueryExact(alerts, students, tablets, Some(true));
    AlertsQueryExact(alerts, students, tablets, Some(false));
  }

  /** resolveAlert on one row; nothing checks whether the alert was already resolved. */
  function ResolveRow(a: Alert, resolvedBy: string, now: int): Alert {
    a.(isResolved := Some(true), resolvedBy := Some(resolvedBy), resolvedAt := Some(now))
  }

  /** resolveAlert as a table transformation over the rows with that id. */
  function ResolveRows(alerts: seq<Alert>, id: string, resolvedBy: string, now: int): (r: seq<Alert>)
    ensures |r| == |alerts|
    ensures forall i :: 0 <= i < |alerts| && alerts[i].id != id ==> r[i] == alerts[i]
    ensures forall i :: 0 <= i < |alerts| && alerts[i].id == id ==>
              && r[i].isResolved == Some(true) && r[i].resolvedBy == Some(resolvedBy) && r[i].resolvedAt == Some(now)
              && r[i].(isResolved := alerts[i].isResolved, resolvedBy := alerts[i].resolvedBy,
                       resolvedAt := alerts[i].resolvedAt) == alerts[i]
  {
    seq(|alerts|, i requires 0 <= i < |alerts| =>
      if alerts[i].id == id then ResolveRow(alerts[i], resolvedBy, now) else alerts[i])
  }

  /** Resolving again overwrites resolver and time: the second resolution wins. */
  lemma ResolveOverwrites(alerts: seq<Alert>, id: string, by1: string, t1: int, by2: string, t2: int)
    ensures ResolveRows(ResolveRows(alerts, id, by1, t1), id, by2, t2) == ResolveRows(alerts, id, by2, t2)
  {
  }

  // ---------------------------------------------------------------------------------------------
  // Blocked sites and security policies

  /** getBlockedSites: every blocked site, newest first. */
  function AllBlockedSites(sites: seq<BlockedSite>): (r: seq<BlockedSite>)
    ensures multiset(r) == multiset(sites)
    ensures SortedBy(r, NewerSite)
  {
    TimestampOrders();
    SortBySorted(sites, NewerSite);
    SortBy(sites, NewerSite)
  }

  function SiteIsNot(id: string): BlockedSite -> bool { (b: BlockedSite) => b.id != id }

  /** deleteBlockedSite: the rows with that id are removed, the others kept in order. */
  function RemoveSite(sites: seq<BlockedSite>, id: string): (r: seq<BlockedSite>)
    ensures IsSublist(r, sites)
    ensures forall b :: b in r <==> b in sites && b.id != id
  {
    forall b ensures b in Filter(sites, SiteIsNot(id)) <==> b in sites && b.id != id {
      FilterMember(sites, SiteIsNot(id), b);
    }
    Filter(sites, SiteIsNot(id))
  }

  function IsActivePolicy(p: SecurityPolicy): bool { p.isActive == Some(true) }

  /** getSecurityPolicies: the active policies, in table order. */
  function ActivePolicies(policies: seq<SecurityPolicy>): (r: seq<SecurityPolicy>)
    ensures IsSublist(r, policies)
    ensures forall p :: p in r <==> p in policies && p.isActive == Some(true)
  {
    forall p ensures p in Filter(policies, IsActivePolicy) <==> p in policies && IsActivePolicy(p) {
      FilterMember(policies, IsActivePolicy, p);
    }
    Filter(policies, IsActivePolicy)
  }

  // ---------------------------------------------------------------------------------------------
  // Dashboard statistics

  function IsOnline(t: Tablet): bool { t.status == Online }
  function IsUnresolved(a: Alert): bool { a.isResolved == Some(false) }
  function IsActiveSite(b: BlockedSite): bool { b.isActive == Some(true) }

  /** `t.screenTime || 0`. */
  function ScreenOrZero(t: Tablet): int { t.screenTime.GetOr(0) }

  /** The `reduce` of getDashboardStats: screen time summed left to right, null as 0. */
  function ScreenTimeSum(tablets: seq<Tablet>): int
    decreases |tablets|
  {
    if tablets == [] then 0 else ScreenTimeSum(tablets[..|tablets| - 1]) + ScreenOrZero(tablets[|tablets| - 1])
  }

  /** `Math.round(s / n)`: the nearest integer to s/n, halves rounded up. */
  function RoundDiv(s: int, n: nat): (r: int)
    requires n > 0
    ensures 2 * n * r <= 2 * s + n < 2 * n * (r + 1)
  {
    (2 * s + n) / (2 * n)
  }

  /** getDashboardStats. */
  function DashboardStatsOf(tablets: seq<Tablet>, alerts: seq<Alert>, sites: seq<BlockedSite>): (s: DashboardStats)
    ensures s.totalTablets == |tablets| && s.activeTablets <= s.totalTablets
    ensures s.activeTablets == |Filter(tablets, IsOnline)|
    ensures s.activeAlerts == |Filter(alerts, IsUnresolved)|
    ensures s.blockedSites == |Filter(sites, IsActiveSite)|
    ensures s.activeTablets == 0 ==> s.averageTime == 0
    ensures s.activeTablets > 0 ==>
              var twice := 2 * ScreenTimeSum(Filter(tablets, IsOnline));
              2 * s.activeTablets * s.averageTime <= twice + s.activeTablets < 2 * s.activeTablets * (s.averageTime + 1)
  {
    var online := Filter(tablets, IsOnline);
    var average := if |online| > 0 then RoundDiv(ScreenTimeSum(online), |online|) else 0;
    DashboardStats(|online|, |tablets|, |Filter(alerts, IsUnresolved)|, average, |Filter(sites, IsActiveSite)|)
  }

  lemma {:induction false} ScreenTimeSumBounds(tablets: seq<Tablet>, lo: int, hi: int)
    requires forall i :: 0 <= i < |tablets| ==> lo <= ScreenOrZero(tablets[i]) <= hi
    ensures |tablets| * lo <= ScreenTimeSum(tablets) <= |tablets| * hi
    decreases |tablets|
  {
    if tablets != [] {
      ScreenTimeSumBounds(tablets[..|tablets| - 1], lo, hi);
    }
  }

  lemma MulMono(n: nat, a: int, b: int)
    requires a <= b
    ensures n * a <= n * b
  {
    assert n * b - n * a == n * (b - a);
  }

  /** A rounded mean of values in [lo, hi] lies in [lo, hi]. */
  lemma RoundDivBetween(s: int, n: nat, lo: int, hi: int)
    requires n > 0 && n * lo <= s <= n * hi
    ensures lo <= RoundDiv(s, n) <= hi
  {
    var r := RoundDiv(s, n);
    if r < lo {
      MulMono(2 * n, r + 1, lo);
      assert false;
    }
    if r > hi {
      MulMono(2 * n, hi + 1, r);
      assert false;
    }
  }

  /**
   * With some tablet online, the average lies between any lower and upper bound of the online
   * tablets' screen times; with none online it is 0.
   */
  lemma AverageTimeBounds(tablets: seq<Tablet>, alerts: seq<Alert>, sites: seq<BlockedSite>, lo: int, hi: int)
    requires forall t :: t in tablets && t.status == Online ==> lo <= ScreenOrZero(t) <= hi
    ensures Filter(tablets, IsOnline) != [] ==> lo <= DashboardStatsOf(tablets, alerts, sites).averageTime <= hi
    ensures Filter(tablets, IsOnline) == [] ==> DashboardStatsOf(tablets, alerts, sites).averageTime == 0
  {
    var online := Filter(tablets, IsOnline);
    var n := |online|;
    if n > 0 {
      forall i | 0 <= i < n ensures lo <= ScreenOrZero(online[i]) <= hi {
        FilterMember(tablets, IsOnline, online[i]);
      }
      ScreenTimeSumBounds(online, lo, hi);
      RoundDivBetween(ScreenTimeSum(online), n, lo, hi);
    }
  }

  /** Two online tablets at 40 and 20 minutes and one offline tablet: two active, average 30. */
  lemma DashboardExample()
    ensures var t := Tablet("t", "T-001", None, Online, None, None, None, Some(40), Some(false), 0);
            var tablets := [t, t.(id := "u", screenTime := Some(20)), t.(id := "v", status := Offline, screenTime := Some(90))];
            var s := DashboardStatsOf(tablets, [], []);
            s.activeTablets == 2 && s.totalTablets == 3 && s.averageTime == 30
  {
    var t := Tablet("t", "T-001", None, Online, None, None, None, Some(40), Some(false), 0);
    var tablets := [t, t.(id := "u", screenTime := Some(20)), t.(id := "v", status := Offline, screenTime := Some(90))];
    var u := tablets[1];
    var v := tablets[2];
    assert tablets[1..][1..] == [v];
    assert Filter([v], IsOnline) == [];
    assert Filter(tablets[1..], IsOnline) == [u];
    assert Filter(tablets, IsOnline) == [t, u];
    assert [t, u][..1] == [t];
    assert ScreenTimeSum([t]) == 40;
    assert ScreenTimeSum([t, u]) == 60;
  }

  /** After lockAllTablets the dashboard shows no active tablet and an average of 0. */
  lemma StatsAfterLockAll(tablets: seq<Tablet>, alerts: seq<Alert>, sites: seq<BlockedSite>)
    ensures DashboardStatsOf(LockOnline(tablets), alerts, sites).activeTablets == 0
    ensures DashboardStatsOf(LockOnline(tablets), alerts, sites).averageTime == 0
    ensures DashboardStatsOf(LockOnline(tablets), alerts, sites).totalTablets == |tablets|
  {
    NoneOnlineAfterLock(tablets);
  }

  // ---------------------------------------------------------------------------------------------
  // Report stubs

  /** How `${p}` renders a query parameter: the missing one prints as "undefined". */
  function ShowParam(p: Option<string>): string {
    match p
    case None => "undefined"
    case Some(v) => v
  }

  /** The description shared by both stubs; a missing or empty studentId adds nothing. */
  function ReportDescription(kind: string, reportType: Option<string>, startDate: Option<string>,
                             endDate: Option<string>, studentId: Option<string>): (r: string)
    ensures IsPrefix(kind + " Report - Type: " + ShowParam(reportType), r)
    ensures studentId.None? || studentId == Some("") ==>
              r == kind + " Report - Type: " + ShowParam(reportType) + ", Period: " + ShowParam(startDate) + " to " + ShowParam(endDate)
  {
    var head := kind + " Report - Type: " + ShowParam(reportType);
    var tail := ", Period: " + ShowParam(startDate) + " to " + ShowParam(endDate)
      + (if studentId.Some? && studentId.value != "" then ", Student: " + studentId.value else "");
    assert (head + tail)[..|head|] == head;
    head + tail
  }

  /** generatePDFReport: placeholder text standing in for a PDF document. */
  function PdfReport(reportType: Option<string>, startDate: Option<string>, endDate: Option<string>,
                     studentId: Option<string>): (r: string)
    ensures IsPrefix("PDF Report - Type: ", r)
  {
    var r := ReportDescription("PDF", reportType, startDate, endDate, studentId);
    assert r[..|"PDF Report - Type: "|] == ("PDF" + " Report - Type: " + ShowParam(reportType))[..|"PDF Report - Type: "|];
    r
  }

  /** generateExcelReport: placeholder text standing in for a spreadsheet. */
  function ExcelReport(reportType: Option<string>, startDate: Option<string>, endDate: Option<string>,
                       studentId: Option<string>): (r: string)
    ensures IsPrefix("Excel Report - Type: ", r)
  {
    var r := ReportDescription("Excel", reportType, startDate, endDate, studentId);
    assert r[..|"Excel Report - Type: "|] == ("Excel" + " Report - Type: " + ShowParam(reportType))[..|"Excel Report - Type: "|];
    r
  }

  // ---------------------------------------------------------------------------------------------
  // Inserts keep the constraints

  lemma InsertUserConsistent(db: Db, u: User)
    requires Consistent(db) && u.id !in Map(db.users, UserId) && u.username !in Map(db.users, Username)
    ensures Consistent(db.(users := db.users + [u]))
  {
    MapAppend(db.users, u, UserId);
    MapAppend(db.users, u, Username);
    DistinctAppend(Map(db.users, UserId), u.id);
    DistinctAppend(Map(db.users, Username), u.username);
  }

  function StudentTabletId(s: Student): Option<string> { s.tabletId }

  lemma InsertStudentConsistent(db: Db, s: Student)
    requires Consistent(db) && s.id !in Map(db.students, StudentId)
    requires s.tabletId.Some? ==> s.tabletId !in Map(db.students, StudentTabletId)
    ensures Consistent(db.(students := db.students + [s]))
  {
    MapAppend(db.students, s, StudentId);
    DistinctAppend(Map(db.students, StudentId), s.id);
    var ss := db.students + [s];
    forall i, j | 0 <= i < j < |ss| && ss[i].tabletId.Some? ensures ss[i].tabletId != ss[j].tabletId {
      if j == |db.students| {
        assert Map(db.students, StudentTabletId)[i] == ss[i].tabletId;
      }
    }
  }

  lemma InsertTabletConsistent(db: Db, t: Tablet)
    requires Consistent(db) && t.id !in Map(db.tablets, TabletId) && t.tabletNumber !in Map(db.tablets, TabletNumber)
    requires t.studentId.Some? ==> t.studentId.value in Map(db.students, StudentId)
    ensures Consistent(db.(tablets := db.tablets + [t]))
  {
    MapAppend(db.tablets, t, TabletId);
    MapAppend(db.tablets, t, TabletNumber);
    DistinctAppend(Map(db.tablets, TabletId), t.id);
    DistinctAppend(Map(db.tablets, TabletNumber), t.tabletNumber);
  }

  lemma InsertActivityConsistent(db: Db, a: Activity)
    requires Consistent(db) && a.id !in Map(db.activities, ActivityId)
    requires a.studentId in Map(db.students, StudentId) && a.tabletId in Map(db.tablets, TabletId)
    ensures Consistent(db.(activities := db.activities + [a]))
  {
    MapAppend(db.activities, a, ActivityId);
    DistinctAppend(Map(db.activities, ActivityId), a.id);
  }

  lemma InsertAlertConsistent(db: Db, a: Alert)
    requires Consistent(db) && a.id !in Map(db.alerts, AlertId)
    requires a.studentId in Map(db.students, StudentId) && a.tabletId in Map(db.tablets, TabletId)
    requires a.resolvedBy.Some? ==> a.resolvedBy.value in Map(db.users, UserId)
    ensures Consistent(db.(alerts := db.alerts + [a]))
  {
    MapAppend(db.alerts, a, AlertId);
    DistinctAppend(Map(db.alerts, AlertId), a.id);
  }

  lemma InsertSiteConsistent(db: Db, b: BlockedSite)
    requires Consistent(db) && b.id !in Map(db.blockedSites, SiteId)
    ensures Consistent(db.(blockedSites := db.blockedSites + [b]))
  {
    MapAppend(db.blockedSites, b, SiteId);
    DistinctAppend(Map(db.blockedSites, SiteId), b.id);
  }

  lemma InsertPolicyConsistent(db: Db, p: SecurityPolicy)
    requires Consistent(db) && p.id !in Map(db.securityPolicies, PolicyId)
    ensures Consistent(db.(securityPolicies := db.securityPolicies + [p]))
  {
    MapAppend(db.securityPolicies, p, PolicyId);
    DistinctAppend(Map(db.securityPolicies, PolicyId), p.id);
  }

  /** Rewriting tablet rows without touching id, number or student keeps the constraints. */
  lemma TabletRewriteConsistent(db: Db, tablets: seq<Tablet>)
    requires Consistent(db) && |tablets| == |db.tablets|
    requires forall i :: 0 <= i < |tablets| ==>
               tablets[i].id == db.tablets[i].id && tablets[i].tabletNumber == db.tablets[i].tabletNumber
               && tablets[i].studentId == db.tablets[i].studentId
    ensures Consistent(db.(tablets := tablets))
  {
    assert Map(tablets, TabletId) == Map(db.tablets, TabletId);
    assert Map(tablets, TabletNumber) == Map(db.tablets, TabletNumber);
  }

  /** Resolving alerts by an existing user keeps the constraints. */
  lemma ResolveConsistent(db: Db, id: string, resolvedBy: string, now: int)
    requires Consistent(db) && resolvedBy in Map(db.users, UserId)
    ensures Consistent(db.(alerts := ResolveRows(db.alerts, id, resolvedBy, now)))
  {
    assert Map(ResolveRows(db.alerts, id, resolvedBy, now), AlertId) == Map(db.alerts, AlertId);
  }

  // ---------------------------------------------------------------------------------------------
  // The storage object

  class DatabaseStorage {
    var users: seq<User>
    var students: seq<Student>
    var tablets: seq<Tablet>
    var activities: seq<Activity>
    var alerts: seq<Alert>
    var blockedSites: seq<BlockedSite>
    var securityPolicies: seq<SecurityPolicy>

    function State(): Db
      reads this
    {
      Db(users, students, tablets, activities, alerts, blockedSites, securityPolicies)
    }

    ghost predicate Valid()
      reads this
    {
      Consistent(State())
    }

    constructor ()
      ensures Valid()
      ensures State() == Db([], [], [], [], [], [], [])
    {
      users, students, tablets, activities, alerts, blockedSites, securityPolicies := [], [], [], [], [], [], [];
    }

    /** createUser: fails on a taken id or username, otherwise appends the row. */
    method CreateUser(id: string, now: int, u: InsertUser) returns (r: Result<User, DbError>)
      requires Valid()
      modifies this
      ensures Valid()
      ensures r.Err? <==> id in Map(old(users), UserId) || u.username in Map(old(users), Username)
      ensures r.Err? ==> State() == old(State())
      ensures r.Ok? ==> r.value == NewUser(id, now, u) && State() == old(State()).(users := old(users) + [r.value])
    {
      if id in Map(users, UserId) {
        return Err(DuplicateKey("id"));
      }
      if u.username in Map(users, Username) {
        return Err(DuplicateKey("username"));
      }
      var row := NewUser(id, now, u);
      InsertUserConsistent(State(), row);
      users := users + [row];
      r := Ok(row);
    }

    /** createStudent: fails on a taken id or a tablet id another student holds. */
    method CreateStudent(id: string, now: int, s: InsertStudent) returns (r: Result<Student, DbError>)
      requires Valid()
      modifies this
      ensures Valid()
      ensures r.Err? <==> (id in Map(old(students), StudentId)
                           || (s.tabletId.Some? && s.tabletId in Map(old(students), StudentTabletId)))
      ensures r.Err? ==> State() == old(State())
      ensures r.Ok? ==> r.value == NewStudent(id, now, s) && State() == old(State()).(students := old(students) + [r.value])
    {
      if id in Map(students, StudentId) {
        return Err(DuplicateKey("id"));
      }
      if s.tabletId.Some? && s.tabletId in Map(students, StudentTabletId) {
        return Err(DuplicateKey("tablet_id"));
      }
      var row := NewStudent(id, now, s);
      InsertStudentConsistent(State(), row);
      students := students + [row];
      r := Ok(row);
    }

    /** createTablet: fails on a taken id or number, or a student id naming no student. */
    method CreateTablet(id: string, now: int, t: InsertTablet) returns (r: Result<Tablet, DbError>)
      requires Valid()
      modifies this
      ensures Valid()
      ensures r.Err? <==> (id in Map(old(tablets), TabletId) || t.tabletNumber in Map(old(tablets), TabletNumber)
                           || (t.studentId.Some? && t.studentId.value !in Map(old(students), StudentId)))
      ensures r.Err? ==> State() == old(State())
      ensures r.Ok? ==> r.value == NewTablet(id, now, t) && State() == old(State()).(tablets := old(tablets) + [r.value])
    {
      if id in Map(tablets, TabletId) {
        return Err(DuplicateKey("id"));
      }
      if t.tabletNumber in Map(tablets, TabletNumber) {
        return Err(DuplicateKey("tablet_number"));
      }
      if t.studentId.Some? && t.studentId.value !in Map(students, StudentId) {
        return Err(MissingReference("student_id"));
      }
      var row := NewTablet(id, now, t);
      InsertTabletConsistent(State(), row);
      tablets := tablets + [row];
      r := Ok(row);
    }

    /**
     * updateTabletStatus: rewrites the rows with that id and returns the updated row, or nothing
     * when no tablet has that id.
     */
    method UpdateTabletStatus(id: string, status: string, isBlocked: Field<bool>) returns (r: Option<Tablet>)
      requires Valid()
      modifies this
      ensures Valid()
      ensures State() == old(State()).(tablets := UpdateStatusRows(old(tablets), id, status, isBlocked))
      ensures r == TabletById(tablets, id)
      ensures r.None? <==> id !in Map(old(tablets), TabletId)
    {
      var updated := UpdateStatusRows(tablets, id, status, isBlocked);
      TabletRewriteConsistent(State(), updated);
      assert Map(updated, TabletId) == Map(tablets, TabletId);
      tablets := updated;
      r := TabletById(tablets, id);
    }

    /** lockAllTablets: one bulk update of every online tablet. */
    method LockAllTablets()
      requires Valid()
      modifies this
      ensures Valid()
      ensures State() == old(State()).(tablets := LockOnline(old(tablets)))
    {
      TabletRewriteConsistent(State(), LockOnline(tablets));
      tablets := LockOnline(tablets);
    }

    /**
     * blockSiteForTablet: appends an active 'inappropriate' blocked site, then locks the tablet when its
     * current URL includes the site. A missing url violates NOT NULL and nothing changes.
     */
    method BlockSiteForTablet(siteId: string, now: int, tabletId: string, url: Option<string>, reason: Option<string>)
      returns (r: Outcome<DbError>)
      requires Valid()
      modifies this
      ensures Valid()
      ensures r.Fail? <==> url.None? || siteId in Map(old(blockedSites), SiteId)
      ensures r.Fail? ==> State() == old(State())
      ensures r.Pass? ==>
        State() == old(State()).(
          blockedSites := old(blockedSites) + [BlockedSite(siteId, url.value, "inappropriate", reason, Some(true), now)],
          tablets := BlockVisitingTablet(old(tablets), tabletId, url.value))
    {
      if url.None? {
        return Fail(NotNullViolation("url"));
      }
      if siteId in Map(blockedSites, SiteId) {
        return Fail(DuplicateKey("id"));
      }
      var site := BlockedSite(siteId, url.value, "inappropriate", reason, Some(true), now);
      InsertSiteConsistent(State(), site);
      blockedSites := blockedSites + [site];
      var tablet := TabletById(tablets, tabletId);
      if tablet.Some? && tablet.value.currentUrl.Some? && Includes(tablet.value.currentUrl.value, url.value) {
        var _ := UpdateTabletStatus(tabletId, Blocked, Given(true));
      }
      r := Pass;
    }

    /** createActivity: fails on a taken id or a student or tablet that does not exist. */
    method CreateActivity(id: string, now: int, a: InsertActivity) returns (r: Result<Activity, DbError>)
      requires Valid()
      modifies this
      ensures Valid()
      ensures r.Err? <==> (id in Map(old(activities), ActivityId) || a.studentId !in Map(old(students), StudentId)
                           || a.tabletId !in Map(old(tablets), TabletId))
      ensures r.Err? ==> State() == old(State())
      ensures r.Ok? ==> r.value == NewActivity(id, now, a) && State() == old(State()).(activities := old(activities) + [r.value])
    {
      if id in Map(activities, ActivityId) {
        return Err(DuplicateKey("id"));
      }
      if a.studentId !in Map(students, StudentId) {
        return Err(MissingReference("student_id"));
      }
      if a.tabletId !in Map(tablets, TabletId) {
        return Err(MissingReference("tablet_id"));
      }
      var row := NewActivity(id, now, a);
      InsertActivityConsistent(State(), row);
      activities := activities + [row];
      r := Ok(row);
    }

    /** createAlert: fails on a taken id, a missing student or tablet, or a resolver who is not a user. */
    method CreateAlert(id: string, now: int, a: InsertAlert) returns (r: Result<Alert, DbError>)
      requires Valid()
      modifies this
      ensures Valid()
      ensures r.Err? <==> (id in Map(old(alerts), AlertId) || a.studentId !in Map(old(students), StudentId)
                           || a.tabletId !in Map(old(tablets), TabletId)
                           || (a.resolvedBy.Some? && a.resolvedBy.value !in Map(old(users), UserId)))
      ensures r.Err? ==> State() == old(State())
      ensures r.Ok? ==> r.value == NewAlert(id, now, a) && State() == old(State()).(alerts := old(alerts) + [r.value])
    {
      if id in Map(alerts, AlertId) {
        return Err(DuplicateKey("id"));
      }
      if a.studentId !in Map(students, StudentId) {
        return Err(MissingReference("student_id"));
      }
      if a.tabletId !in Map(tablets, TabletId) {
        return Err(MissingReference("tablet_id"));
      }
      if a.resolvedBy.Some? && a.resolvedBy.value !in Map(users, UserId) {
        return Err(MissingReference("resolved_by"));
      }
      var row := NewAlert(id, now, a);
      InsertAlertConsistent(State(), row);
      alerts := alerts + [row];
      r := Ok(row);
    }

    /**
     * resolveAlert: marks the alerts with that id resolved by `resolvedBy` at `now` and returns the row.
     * No alert with that id: nothing changes and nothing is returned. A resolver who is not a user
     * violates the reference and nothing changes.
     */
    method ResolveAlert(id: string, resolvedBy: string, now: int) returns (r: Result<Option<Alert>, DbError>)
      requires Valid()
      modifies this
      ensures Valid()
      ensures id !in Map(old(alerts), AlertId) ==> r == Ok(None) && State() == old(State())
      ensures id in Map(old(alerts), AlertId) && resolvedBy !in Map(old(users), UserId) ==>
                r.Err? && State() == old(State())
      ensures id in Map(old(alerts), AlertId) && resolvedBy in Map(old(users), UserId) ==>
                && State() == old(State()).(alerts := ResolveRows(old(alerts), id, resolvedBy, now))
                && r.Ok? && r.value.Some? && r.value == Find(alerts, AlertId, id)
    {
      if id !in Map(alerts, AlertId) {
        assert ResolveRows(alerts, id, resolvedBy, now) == alerts;
        return Ok(None);
      }
      if resolvedBy !in Map(users, UserId) {
        return Err(MissingReference("resolved_by"));
      }
      ResolveConsistent(State(), id, resolvedBy, now);
      var updated := ResolveRows(alerts, id, resolvedBy, now);
      assert Map(updated, AlertId) == Map(alerts, AlertId);
      alerts := updated;
      r := Ok(Find(alerts, AlertId, id));
    }

    /** createBlockedSite: fails only on a taken id. */
    method CreateBlockedSite(id: string, now: int, b: InsertBlockedSite) returns (r: Result<BlockedSite, DbError>)
      requires Valid()
      modifies this
      ensures Valid()
      ensures r.Err? <==> id in Map(old(blockedSites), SiteId)
      ensures r.Err? ==> State() == old(State())
      ensures r.Ok? ==> r.value == NewBlockedSite(id, now, b)
                        && State() == old(State()).(blockedSites := old(blockedSites) + [r.value])
    {
      if id in Map(blockedSites, SiteId) {
        return Err(DuplicateKey("id"));
      }
      var row := NewBlockedSite(id, now, b);
      InsertSiteConsistent(State(), row);
      blockedSites := blockedSites + [row];
      r := Ok(row);
    }

    /** deleteBlockedSite: removes the rows with that id. */
    method DeleteBlockedSite(id: string)
      requires Valid()
      modifies this
      ensures Valid()
      ensures State() == old(State()).(blockedSites := RemoveSite(old(blockedSites), id))
    {
      FilterDistinct(blockedSites, SiteIsNot(id), SiteId);
      blockedSites := RemoveSite(blockedSites, id);
    }

    /** createSecurityPolicy: fails only on a taken id. */
    method CreateSecurityPolicy(id: string, now: int, p: InsertSecurityPolicy) returns (r: Result<SecurityPolicy, DbError>)
      requires Valid()
      modifies this
      ensures Valid()
      ensures r.Err? <==> id in Map(old(securityPolicies), PolicyId)
      ensures r.Err? ==> State() == old(State())
      ensures r.Ok? ==> r.value == NewSecurityPolicy(id, now, p)
                        && State() == old(State()).(securityPolicies := old(securityPolicies) + [r.value])
    {
      if id in Map(securityPolicies, PolicyId) {
        return Err(DuplicateKey("id"));
      }
      var row := NewSecurityPolicy(id, now, p);
      InsertPolicyConsistent(State(), row);
      securityPolicies := securityPolicies + [row];
      r := Ok(row);
    }
  }
}
