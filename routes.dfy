/**
 * The REST layer: each request becomes a status and a JSON (or file) body. Reads are pure functions
 * of the tables; writes call the storage object. Whether the database answers at all is the
 * `reachable` flag: when it does not, each handler's catch branch answers.
 */
module Routes {
  import opened Wrappers
  import opened Text
  import opened Lists
  import opened Schema
  import opened Storage

  /**
   * One case per route. Bodies of the create routes are what the insert schema parsed, or None when
   * parsing failed; date query parameters are already converted to timestamps.
   */
  datatype Request =
    | GetStats
    | GetStudents
    | PostStudent(student: Option<InsertStudent>)
    | GetStudent(id: string)
    | GetTablets
    | PostTablet(tablet: Option<InsertTablet>)
    | PutTabletStatus(id: string, status: string, isBlocked: Field<bool>)
    | GetTabletActivity(id: string)
    | PostActivity(activity: Option<InsertActivity>)
    | GetStudentActivities(id: string, startTime: Option<int>, endTime: Option<int>)
    | GetAlerts(resolved: Option<string>)
    | PostAlert(alert: Option<InsertAlert>)
    | PutResolve(id: string, resolvedBy: string)
    | GetBlockedSites
    | PostBlockedSite(site: Option<InsertBlockedSite>)
    | ExportReport(reportType: Option<string>, format: Option<string>, startDate: Option<string>,
                   endDate: Option<string>, studentId: Option<string>)
    | LockAll
    | BlockSite(id: string, url: Option<string>, reason: Option<string>)
  {
    /** The routes that only read. */
    predicate IsQuery() {
      GetStats? || GetStudents? || GetStudent? || GetTablets? || GetTabletActivity? || GetStudentActivities?
      || GetAlerts? || GetBlockedSites? || ExportReport?
    }

    /** The routes that parse a body with an insert schema and create a row. */
    predicate IsCreate() {
      PostStudent? || PostTablet? || PostActivity? || PostAlert? || PostBlockedSite?
    }
  }

  datatype Payload =
    | StatsBody(stats: DashboardStats)
    | StudentsBody(students: seq<Student>)
    | StudentBody(student: Student)
    | TabletsBody(tablets: seq<TabletWithStudent>)
    | TabletBody(tablet: Tablet)
    | ActivityRowsBody(activityRows: seq<ActivityWithStudent>)
    | ActivitiesBody(activities: seq<Activity>)
    | ActivityBody(activity: Activity)
    | AlertsBody(alerts: seq<AlertWithDetails>)
    | AlertBody(alert: Alert)
    | SitesBody(sites: seq<BlockedSite>)
    | SiteBody(site: BlockedSite)
    | ErrorBody(error: string)
    | SuccessBody(message: string)
    | NoBody
    | FileBody(contentType: string, disposition: string, content: string)

  datatype Response = Response(status: int, payload: Payload)

  const PdfType := "application/pdf"
  const ExcelType := "application/vnd.openxmlformats-officedocument.spreadsheetml.sheet"

  /** What each route's catch branch answers: 400 for the create routes, 500 for the rest. */
  function CatchResponse(req: Request): (r: Response)
    ensures r.payload.ErrorBody?
    ensures r.status == 400 <==> req.IsCreate()
    ensures !req.IsCreate() ==> r.status == 500
  {
    match req
    case GetStats => Response(500, ErrorBody("Failed to fetch dashboard stats"))
    case GetStudents => Response(500, ErrorBody("Failed to fetch students"))
    case PostStudent(_) => Response(400, ErrorBody("Invalid student data"))
    case GetStudent(_) => Response(500, ErrorBody("Failed to fetch student"))
    case GetTablets => Response(500, ErrorBody("Failed to fetch tablets"))
    case PostTablet(_) => Response(400, ErrorBody("Invalid tablet data"))
    case PutTabletStatus(_, _, _) => Response(500, ErrorBody("Failed to update tablet status"))
    case GetTabletActivity(_) => Response(500, ErrorBody("Failed to fetch tablet activities"))
    case PostActivity(_) => Response(400, ErrorBody("Invalid activity data"))
    case GetStudentActivities(_, _, _) => Response(500, ErrorBody("Failed to fetch student activities"))
    case GetAlerts(_) => Response(500, ErrorBody("Failed to fetch alerts"))
    case PostAlert(_) => Response(400, ErrorBody("Invalid alert data"))
    case PutResolve(_, _) => Response(500, ErrorBody("Failed to resolve alert"))
    case GetBlockedSites => Response(500, ErrorBody("Failed to fetch blocked sites"))
    case PostBlockedSite(_) => Response(400, ErrorBody("Invalid blocked site data"))
    case ExportReport(_, _, _, _, _) => Response(500, ErrorBody("Failed to generate report"))
    case LockAll => Response(500, ErrorBody("Failed to lock tablets"))
    case BlockSite(_, _, _) => Response(500, ErrorBody("Failed to block site"))
  }

  /** The Content-Disposition header of an export: `attachment; filename="report-<type>-<now><ext>"`. */
  function Attachment(reportType: Option<string>, now: nat, ext: string): (r: string)
    ensures IsPrefix("attachment; filename=\"report-", r)
    ensures IsSuffix(ext + "\"", r)
  {
    var head := "attachment; filename=\"report-";
    var tail := ext + "\"";
    var r := head + ShowParam(reportType) + "-" + NatToString(now) + tail;
    assert r[..|head|] == head;
    assert r[|r| - |tail|..] == tail;
    r
  }

  /**
   * A header value the HTTP server accepts: every character is a tab, printable ASCII, or a code
   * point from U+0080 to U+00FF. `setHeader` throws on any other value.
   */
  predicate HeaderSafe(v: string) {
    forall i :: 0 <= i < |v| ==> HeaderChar(v[i])
  }

  predicate HeaderChar(c: char) {
    c == '\t' || ' ' <= c <= '~' || '\U{80}' <= c <= '\U{FF}'
  }

  lemma HeaderSafeAppend(a: string, b: string)
    ensures HeaderSafe(a + b) <==> HeaderSafe(a) && HeaderSafe(b)
  {
    if HeaderSafe(a + b) {
      forall i | 0 <= i < |a| ensures HeaderChar(a[i]) {
        assert a[i] == (a + b)[i];
      }
      forall i | 0 <= i < |b| ensures HeaderChar(b[i]) {
        assert b[i] == (a + b)[|a| + i];
      }
    }
  }

  /** The Content-Disposition of an export is accepted exactly when the report type, as text, is. */
  lemma AttachmentSafe(reportType: Option<string>, now: nat, ext: string)
    requires HeaderSafe(ext)
    ensures HeaderSafe(Attachment(reportType, now, ext)) <==> HeaderSafe(ShowParam(reportType))
  {
    var head := "attachment; filename=\"report-";
    var digits := NatToString(now);
    HeaderSafeAppend(head + ShowParam(reportType) + "-" + digits, ext + "\"");
    HeaderSafeAppend(head + ShowParam(reportType) + "-", digits);
    HeaderSafeAppend(head + ShowParam(reportType), "-");
    HeaderSafeAppend(head, ShowParam(reportType));
    HeaderSafeAppend(ext, "\"");
  }

  /**
   * GET /api/reports/export: a PDF for format 'pdf', a spreadsheet for 'excel', and 400 for anything
   * else, including a missing format. A report type the Content-Disposition header cannot carry makes
   * `setHeader` throw, and the catch branch answers 500. The report stubs never touch the tables.
   */
  function ExportResponse(reportType: Option<string>, format: Option<string>, startDate: Option<string>,
                          endDate: Option<string>, studentId: Option<string>, now: nat): (r: Response)
    ensures r.status == 200 <==> (format == Some("pdf") || format == Some("excel")) && HeaderSafe(ShowParam(reportType))
    ensures r.status == 400 <==> format != Some("pdf") && format != Some("excel")
    ensures r.status == 400 ==> r == Response(400, ErrorBody("Invalid format specified"))
    ensures r.status == 500 ==> r == Response(500, ErrorBody("Failed to generate report"))
    ensures r.status == 200 && format == Some("pdf") ==>
              && r.payload.FileBody? && r.payload.contentType == PdfType
              && IsSuffix(".pdf\"", r.payload.disposition) && IsPrefix("PDF Report - Type: ", r.payload.content)
    ensures r.status == 200 && format == Some("excel") ==>
              && r.payload.FileBody? && r.payload.contentType == ExcelType
              && IsSuffix(".xlsx\"", r.payload.disposition) && IsPrefix("Excel Report - Type: ", r.payload.content)
  {
    AttachmentSafe(reportType, now, ".pdf");
    AttachmentSafe(reportType, now, ".xlsx");
    var failed := Response(500, ErrorBody("Failed to generate report"));
    if format == Some("pdf") then
      if !HeaderSafe(Attachment(reportType, now, ".pdf")) then failed
      else Response(200, FileBody(PdfType, Attachment(reportType, now, ".pdf"),
                                  PdfReport(reportType, startDate, endDate, studentId)))
    else if format == Some("excel") then
      if !HeaderSafe(Attachment(reportType, now, ".xlsx")) then failed
      else Response(200, FileBody(ExcelType, Attachment(reportType, now, ".xlsx"),
                                  ExcelReport(reportType, startDate, endDate, studentId)))
    else
      Response(400, ErrorBody("Invalid format specified"))
  }

  /** A report type holding a line break (`type=a%0Ab`) cannot go into the header: the export answers 500. */
  lemma ExportLineBreakFails(now: nat)
    ensures ExportResponse(Some("a\nb"), Some("pdf"), None, None, None, now).status == 500
  {
    assert !HeaderChar(ShowParam(Some("a\nb"))[1]);
  }

  /** The flag GET /api/alerts passes to the query: only the text 'true' selects resolved alerts. */
  function ResolvedFlag(resolved: Option<string>): bool {
    resolved == Some("true")
  }

  /** The answer to a read-only route over the tables `db`. */
  function QueryResponse(req: Request, db: Db, now: nat, reachable: bool): (r: Response)
    requires req.IsQuery()
    ensures r.status == 404 <==> reachable && req.GetStudent? && req.id !in Map(db.students, StudentId)
    ensures r.status == 500 <==>
              || (!reachable && !req.ExportReport?)
              || (req.ExportReport? && (req.format == Some("pdf") || req.format == Some("excel"))
                  && !HeaderSafe(ShowParam(req.reportType)))
    ensures r.status == 400 <==> req.ExportReport? && req.format != Some("pdf") && req.format != Some("excel")
    ensures req.GetStudent? && r.status == 200 ==>
              r.payload.StudentBody? && r.payload.student in db.students && r.payload.student.id == req.id
    ensures req.GetAlerts? && reachable ==>
              && r.payload.AlertsBody?
              && forall x :: x in r.payload.alerts ==> x.isResolved == Some(ResolvedFlag(req.resolved))
    ensures req.GetTabletActivity? && reachable ==>
              r.payload.ActivityRowsBody? && |r.payload.activityRows| <= 10
  {
    if req.ExportReport? then
      ExportResponse(req.reportType, req.format, req.startDate, req.endDate, req.studentId, now)
    else if !reachable then
      CatchResponse(req)
    else
      match req
      case GetStats => Response(200, StatsBody(DashboardStatsOf(db.tablets, db.alerts, db.blockedSites)))
      case GetStudents => Response(200, StudentsBody(AllStudents(db.students)))
      case GetStudent(id) =>
        (match StudentById(db.students, id)
         case None => Response(404, ErrorBody("Student not found"))
         case Some(s) => Response(200, StudentBody(s)))
      case GetTablets => Response(200, TabletsBody(AllTablets(db.tablets, db.students)))
      case GetTabletActivity(id) => Response(200, ActivityRowsBody(TabletActivities(db.activities, db.students, id)))
      case GetStudentActivities(id, startDate, endDate) =>
        Response(200, ActivitiesBody(StudentActivities(db.activities, id, startDate, endDate)))
      case GetAlerts(resolved) =>
        AlertsQueryExact(db.alerts, db.students, db.tablets, Some(ResolvedFlag(resolved)));
        Response(200, AlertsBody(AlertsQuery(db.alerts, db.students, db.tablets, Some(ResolvedFlag(resolved)))))
      case GetBlockedSites => Response(200, SitesBody(AllBlockedSites(db.blockedSites)))
  }

  /**
   * GET /api/students/:id/activities answers the corrected query; with at most one date given that
   * is also what the query as written returns.
   */
  lemma StudentActivitiesRoute(db: Db, id: string, startTime: Option<int>, endTime: Option<int>)
    requires startTime.None? || endTime.None?
    ensures QueryResponse(GetStudentActivities(id, startTime, endTime), db, 0, true) ==
            Response(200, ActivitiesBody(StudentActivitiesAsWritten(db.activities, id, startTime, endTime)))
  {
    AsWrittenAgreesOnOneBound(db.activities, id, startTime, endTime);
  }

  /**
   * GET /api/tablets answers the corrected listing; when every tablet has a student that is also
   * what the listing as written returns, and otherwise the listing as written fails.
   */
  lemma TabletsRoute(db: Db)
    ensures AllTabletsAsWritten(db.tablets, db.students).Some? ==>
              QueryResponse(GetTablets, db, 0, true) == Response(200, TabletsBody(AllTabletsAsWritten(db.tablets, db.students).value))
    ensures AllTabletsAsWritten(db.tablets, db.students).None? <==>
              exists i :: 0 <= i < |db.tablets| && !JoinMatched(db.tablets[i], db.students)
  {
  }

  /**
   * GET /api/alerts never answers the unfiltered list once some alert does not carry the flag the
   * query string selects: without `resolved=true` that is any alert not stored as unresolved.
   */
  lemma AlertsRouteFilters(db: Db, resolved: Option<string>, k: nat)
    requires k < |db.alerts| && db.alerts[k].isResolved != Some(ResolvedFlag(resolved))
    ensures |QueryResponse(GetAlerts(resolved), db, 0, true).payload.alerts| < |db.alerts|
  {
    var flag := Some(ResolvedFlag(resolved));
    AlertsQueryShorter(db.alerts, db.students, db.tablets, flag, k);
    assert QueryResponse(GetAlerts(resolved), db, 0, true).payload.alerts == AlertsQuery(db.alerts, db.students, db.tablets, flag);
  }

  /** Without `resolved=true` the alerts route answers exactly the alerts stored as unresolved. */
  lemma AlertsRouteDefault(db: Db, resolved: Option<string>)
    requires resolved != Some("true")
    ensures forall a :: a in db.alerts && a.isResolved == Some(false) ==>
              AlertView(a, db.students, db.tablets) in QueryResponse(GetAlerts(resolved), db, 0, true).payload.alerts
    ensures forall x :: x in QueryResponse(GetAlerts(resolved), db, 0, true).payload.alerts ==> x.isResolved == Some(false)
  {
    AlertsQueryExact(db.alerts, db.students, db.tablets, Some(false));
  }

  /**
   * The route table as a method over the storage object. Reads answer `QueryResponse` and change
   * nothing; writes call the storage method and answer its result, or the catch response.
   */
  method Handle(st: DatabaseStorage, req: Request, newId: string, now: nat, reachable: bool) returns (resp: Response)
    requires st.Valid()
    modifies st
    ensures st.Valid()
    ensures req.IsQuery() ==> resp == QueryResponse(req, old(st.State()), now, reachable) && st.State() == old(st.State())
    ensures !req.IsQuery() && !reachable ==> resp == CatchResponse(req) && st.State() == old(st.State())
    ensures req.IsCreate() ==> (resp.status == 200 || resp == CatchResponse(req))
    ensures req.IsCreate() && resp.status != 200 ==> st.State() == old(st.State())
    ensures req.PostStudent? && reachable ==>
              (resp.status == 200 <==>
                 && req.student.Some? && newId !in Map(old(st.students), StudentId)
                 && !(req.student.value.tabletId.Some? && req.student.value.tabletId in Map(old(st.students), StudentTabletId)))
    ensures req.PostStudent? && reachable && resp.status == 200 ==>
              && resp.payload == StudentBody(NewStudent(newId, now, req.student.value))
              && st.State() == old(st.State()).(students := old(st.students) + [NewStudent(newId, now, req.student.value)])
    ensures req.PostTablet? && reachable ==>
              (resp.status == 200 <==>
                 && req.tablet.Some? && newId !in Map(old(st.tablets), TabletId)
                 && req.tablet.value.tabletNumber !in Map(old(st.tablets), TabletNumber)
                 && (req.tablet.value.studentId.Some? ==> req.tablet.value.studentId.value in Map(old(st.students), StudentId)))
    ensures req.PostTablet? && reachable && resp.status == 200 ==>
              && resp.payload == TabletBody(NewTablet(newId, now, req.tablet.value))
              && st.State() == old(st.State()).(tablets := old(st.tablets) + [NewTablet(newId, now, req.tablet.value)])
    ensures req.PostActivity? && reachable ==>
              (resp.status == 200 <==>
                 && req.activity.Some? && newId !in Map(old(st.activities), ActivityId)
                 && req.activity.value.studentId in Map(old(st.students), StudentId)
                 && req.activity.value.tabletId in Map(old(st.tablets), TabletId))
    ensures req.PostActivity? && reachable && resp.status == 200 ==>
              && resp.payload == ActivityBody(NewActivity(newId, now, req.activity.value))
              && st.State() == old(st.State()).(activities := old(st.activities) + [NewActivity(newId, now, req.activity.value)])
    ensures req.PostAlert? && reachable ==>
              (resp.status == 200 <==>
                 && req.alert.Some? && newId !in Map(old(st.alerts), AlertId)
                 && req.alert.value.studentId in Map(old(st.students), StudentId)
                 && req.alert.value.tabletId in Map(old(st.tablets), TabletId)
                 && (req.alert.value.resolvedBy.Some? ==> req.alert.value.resolvedBy.value in Map(old(st.users), UserId)))
    ensures req.PostAlert? && reachable && resp.status == 200 ==>
              && resp.payload == AlertBody(NewAlert(newId, now, req.alert.value))
              && st.State() == old(st.State()).(alerts := old(st.alerts) + [NewAlert(newId, now, req.alert.value)])
    ensures req.PostBlockedSite? && reachable ==>
              (resp.status == 200 <==> req.site.Some? && newId !in Map(old(st.blockedSites), SiteId))
    ensures req.PostBlockedSite? && reachable && resp.status == 200 ==>
              && resp.payload == SiteBody(NewBlockedSite(newId, now, req.site.value))
              && st.State() == old(st.State()).(blockedSites := old(st.blockedSites) + [NewBlockedSite(newId, now, req.site.value)])
    ensures (req.PostStudent? && req.student.None?) || (req.PostTablet? && req.tablet.None?)
            || (req.PostActivity? && req.activity.None?) || (req.PostAlert? && req.alert.None?)
            || (req.PostBlockedSite? && req.site.None?) ==>
              resp == CatchResponse(req) && st.State() == old(st.State())
    ensures req.LockAll? && reachable ==>
              resp == Response(200, SuccessBody("All tablets locked"))
              && st.State() == old(st.State()).(tablets := LockOnline(old(st.tablets)))
    ensures req.PutTabletStatus? && reachable ==>
              && st.State() == old(st.State()).(tablets := UpdateStatusRows(old(st.tablets), req.id, req.status, req.isBlocked))
              && resp.status == 200
              && (resp.payload.NoBody? <==> req.id !in Map(old(st.tablets), TabletId))
              && (!resp.payload.NoBody? ==> resp.payload == TabletBody(TabletById(st.tablets, req.id).value))
    ensures req.BlockSite? && reachable ==>
              (resp == Response(200, SuccessBody("Site blocked")) <==> req.url.Some? && newId !in Map(old(st.blockedSites), SiteId))
    ensures req.BlockSite? && reachable && resp == Response(200, SuccessBody("Site blocked")) ==>
              st.State() == old(st.State()).(
                blockedSites := old(st.blockedSites) + [BlockedSite(newId, req.url.value, "inappropriate", req.reason, Some(true), now)],
                tablets := BlockVisitingTablet(old(st.tablets), req.id, req.url.value))
    ensures req.BlockSite? && reachable && resp != Response(200, SuccessBody("Site blocked")) ==>
              resp == CatchResponse(req) && st.State() == old(st.State())
    ensures req.PutResolve? && reachable ==> resp.status == 200 || resp == CatchResponse(req)
    ensures req.PutResolve? && reachable ==>
              (resp.status == 500 <==> req.id in Map(old(st.alerts), AlertId) && req.resolvedBy !in Map(old(st.users), UserId))
    ensures req.PutResolve? && reachable && resp.status == 200 ==>
              && st.State() == old(st.State()).(alerts := ResolveRows(old(st.alerts), req.id, req.resolvedBy, now))
              && (resp.payload.NoBody? <==> req.id !in Map(old(st.alerts), AlertId))
              && (!resp.payload.NoBody? ==> resp.payload == AlertBody(Find(st.alerts, AlertId, req.id).value))
    ensures req.PutResolve? && reachable && resp.status == 500 ==> st.State() == old(st.State())
  {
    if req.IsQuery() {
      resp := QueryResponse(req, st.State(), now, reachable);
      return;
    }
    if !reachable {
      resp := CatchResponse(req);
      return;
    }
    match req {
      case PostStudent(body) =>
        if body.None? {
          resp := CatchResponse(req);
        } else {
          var r := st.CreateStudent(newId, now, body.value);
          resp := if r.Ok? then Response(200, StudentBody(r.value)) else CatchResponse(req);
        }
      case PostTablet(body) =>
        if body.None? {
          resp := CatchResponse(req);
        } else {
          var r := st.CreateTablet(newId, now, body.value);
          resp := if r.Ok? then Response(200, TabletBody(r.value)) else CatchResponse(req);
        }
      case PostActivity(body) =>
        if body.None? {
          resp := CatchResponse(req);
        } else {
          var r := st.CreateActivity(newId, now, body.value);
          resp := if r.Ok? then Response(200, ActivityBody(r.value)) else CatchResponse(req);
        }
      case PostAlert(body) =>
        if body.None? {
          resp := CatchResponse(req);
        } else {
          var r := st.CreateAlert(newId, now, body.value);
          resp := if r.Ok? then Response(200, AlertBody(r.value)) else CatchResponse(req);
        }
      case PostBlockedSite(body) =>
        if body.None? {
          resp := CatchResponse(req);
        } else {
          var r := st.CreateBlockedSite(newId, now, body.value);
          resp := if r.Ok? then Response(200, SiteBody(r.value)) else CatchResponse(req);
        }
      case PutTabletStatus(id, status, isBlocked) =>
        var t := st.UpdateTabletStatus(id, status, isBlocked);
        resp := if t.Some? then Response(200, TabletBody(t.value)) else Response(200, NoBody);
      case PutResolve(id, resolvedBy) =>
        var r := st.ResolveAlert(id, resolvedBy, now);
        resp := match r
          case Err(_) => CatchResponse(req)
          case Ok(None) => Response(200, NoBody)
          case Ok(Some(a)) => Response(200, AlertBody(a));
      case LockAll =>
        st.LockAllTablets();
        resp := Response(200, SuccessBody("All tablets locked"));
      case BlockSite(id, url, reason) =>
        var r := st.BlockSiteForTablet(newId, now, id, url, reason);
        resp := if r.Pass? then Response(200, SuccessBody("Site blocked")) else CatchResponse(req);
    }
  }
}
