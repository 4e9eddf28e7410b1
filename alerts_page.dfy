/**
 * The alerts page: the severity and status filters over the fetched alerts, the header badge and
 * the severity labels.
 */
module AlertsPage {
  import opened Wrappers
  import opened Lists
  import opened Storage
  import opened Routes

  /** `alert.isResolved` read as a JavaScript truth value: null counts as not resolved. */
  predicate IsResolved(a: AlertWithDetails) { a.isResolved == Some(true) }

  predicate MatchesSeverity(severityFilter: string, a: AlertWithDetails) {
    severityFilter == "all" || a.severity == severityFilter
  }

  predicate MatchesStatus(statusFilter: string, a: AlertWithDetails) {
    || statusFilter == "all"
    || (statusFilter == "active" && !IsResolved(a))
    || (statusFilter == "resolved" && IsResolved(a))
  }

  function Keeps(severityFilter: string, statusFilter: string): AlertWithDetails -> bool {
    (a: AlertWithDetails) => MatchesSeverity(severityFilter, a) && MatchesStatus(statusFilter, a)
  }

  /** The alerts listed under the two filters, in fetched order; none while unloaded. */
  function FilteredAlerts(alerts: Option<seq<AlertWithDetails>>, severityFilter: string, statusFilter: string)
    : (r: seq<AlertWithDetails>)
    ensures alerts.None? ==> r == []
    ensures IsSublist(r, alerts.GetOr([]))
    ensures forall a :: a in r <==>
              a in alerts.GetOr([]) && MatchesSeverity(severityFilter, a) && MatchesStatus(statusFilter, a)
    ensures forall a :: a in r ==> multiset(r)[a] == multiset(alerts.GetOr([]))[a]
  {
    forall a ensures a in Filter(alerts.GetOr([]), Keeps(severityFilter, statusFilter)) <==>
                       a in alerts.GetOr([]) && Keeps(severityFilter, statusFilter)(a) {
      FilterMember(alerts.GetOr([]), Keeps(severityFilter, statusFilter), a);
    }
    forall a | a in Filter(alerts.GetOr([]), Keeps(severityFilter, statusFilter))
      ensures multiset(Filter(alerts.GetOr([]), Keeps(severityFilter, statusFilter)))[a] == multiset(alerts.GetOr([]))[a]
    {
      FilterMultiplicity(alerts.GetOr([]), Keeps(severityFilter, statusFilter), a);
    }
    Filter(alerts.GetOr([]), Keeps(severityFilter, statusFilter))
  }

  /** With both filters on 'all' every fetched alert is listed, in order. */
  lemma AllFiltersKeepAll(alerts: seq<AlertWithDetails>)
    ensures FilteredAlerts(Some(alerts), "all", "all") == alerts
  {
    FilterKeepsAll(alerts, Keeps("all", "all"));
  }

  /** A status filter other than all, active or resolved lists nothing. */
  lemma UnknownStatusKeepsNone(alerts: seq<AlertWithDetails>, severityFilter: string, statusFilter: string)
    requires statusFilter != "all" && statusFilter != "active" && statusFilter != "resolved"
    ensures FilteredAlerts(Some(alerts), severityFilter, statusFilter) == []
  {
    FilterKeepsNone(alerts, Keeps(severityFilter, statusFilter));
  }

  function IsActive(a: AlertWithDetails): bool { !IsResolved(a) }

  /** The header badge: the unresolved alerts among those listed. */
  function ActiveBadge(shown: seq<AlertWithDetails>): (n: nat)
    ensures n <= |shown|
    ensures n == 0 <==> forall i :: 0 <= i < |shown| ==> IsResolved(shown[i])
  {
    NoActiveIffAllResolved(shown);
    |Filter(shown, IsActive)|
  }

  /** No alert is active exactly when every alert is resolved. */
  lemma NoActiveIffAllResolved(shown: seq<AlertWithDetails>)
    ensures Filter(shown, IsActive) == [] <==> forall i :: 0 <= i < |shown| ==> IsResolved(shown[i])
  {
    if forall i :: 0 <= i < |shown| ==> IsResolved(shown[i]) {
      FilterKeepsNone(shown, IsActive);
    } else {
      var k :| 0 <= k < |shown| && !IsResolved(shown[k]);
      assert shown[k] in Filter(shown, IsActive);
    }
  }

  /** The "Mostrando n de m" counts: `alerts?.length || 0` for the total. */
  function TotalCount(alerts: Option<seq<AlertWithDetails>>): nat {
    |alerts.GetOr([])|
  }

  /** Badge, shown count and total are ordered; under the 'resolved' filter the badge is 0. */
  lemma CountsOrdered(alerts: Option<seq<AlertWithDetails>>, severityFilter: string, statusFilter: string)
    ensures var shown := FilteredAlerts(alerts, severityFilter, statusFilter);
            ActiveBadge(shown) <= |shown| <= TotalCount(alerts)
    ensures statusFilter == "resolved" ==> ActiveBadge(FilteredAlerts(alerts, severityFilter, statusFilter)) == 0
    ensures statusFilter == "active" ==>
              ActiveBadge(FilteredAlerts(alerts, severityFilter, statusFilter)) == |FilteredAlerts(alerts, severityFilter, statusFilter)|
  {
    var shown := FilteredAlerts(alerts, severityFilter, statusFilter);
    if statusFilter == "active" {
      FilterKeepsAll(shown, IsActive);
    }
  }

  /**
   * The page fetches GET /api/alerts without a `resolved` parameter, which answers the unresolved
   * alerts only; so the 'resolved' filter lists nothing, whatever the tables hold.
   */
  lemma ResolvedFilterEmptyOnPageFetch(db: Db, now: nat, severityFilter: string)
    ensures var resp := QueryResponse(GetAlerts(None), db, now, true);
            FilteredAlerts(Some(resp.payload.alerts), severityFilter, "resolved") == []
  {
    var resp := QueryResponse(GetAlerts(None), db, now, true);
    FilterKeepsNone(resp.payload.alerts, Keeps(severityFilter, "resolved"));
  }

  /** The severity label. */
  function SeverityText(severity: string): (r: string)
    ensures r == "Desconocida" <==> severity != "high" && severity != "medium" && severity != "low"
    ensures severity == "high" ==> r == "Alta"
    ensures severity == "medium" ==> r == "Media"
    ensures severity == "low" ==> r == "Baja"
  {
    match severity
    case "high" => "Alta"
    case "medium" => "Media"
    case "low" => "Baja"
    case _ => "Desconocida"
  }
}
