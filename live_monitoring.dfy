/** The live-monitoring page: the status filter over the fetched tablets and the active-device count. */
module LiveMonitoring {
  import opened Wrappers
  import opened Lists
  import opened Schema
  import opened Storage

  /** The filter's test: a known status keeps that status; 'all' and any other value keep everything. */
  predicate PassesFilter(statusFilter: string, t: TabletWithStudent) {
    if statusFilter == "all" then true
    else if statusFilter == Online then t.status == Online
    else if statusFilter == Warning then t.status == Warning
    else if statusFilter == Blocked then t.status == Blocked
    else true
  }

  function Passes(statusFilter: string): TabletWithStudent -> bool {
    (t: TabletWithStudent) => PassesFilter(statusFilter, t)
  }

  predicate KnownFilter(statusFilter: string) {
    statusFilter == Online || statusFilter == Warning || statusFilter == Blocked
  }

  /** The tablets shown, in fetched order; none while unloaded. */
  function FilteredTablets(tablets: Option<seq<TabletWithStudent>>, statusFilter: string): (r: seq<TabletWithStudent>)
    ensures tablets.None? ==> r == []
    ensures IsSublist(r, tablets.GetOr([]))
    ensures KnownFilter(statusFilter) ==> forall t :: t in r <==> t in tablets.GetOr([]) && t.status == statusFilter
    ensures forall t :: t in r ==> multiset(r)[t] == multiset(tablets.GetOr([]))[t]
  {
    forall t ensures t in Filter(tablets.GetOr([]), Passes(statusFilter)) <==>
                       t in tablets.GetOr([]) && PassesFilter(statusFilter, t) {
      FilterMember(tablets.GetOr([]), Passes(statusFilter), t);
    }
    forall t | t in Filter(tablets.GetOr([]), Passes(statusFilter))
      ensures multiset(Filter(tablets.GetOr([]), Passes(statusFilter)))[t] == multiset(tablets.GetOr([]))[t]
    {
      FilterMultiplicity(tablets.GetOr([]), Passes(statusFilter), t);
    }
    Filter(tablets.GetOr([]), Passes(statusFilter))
  }

  /** 'all', and any value that names none of the three statuses, shows every tablet in order. */
  lemma UnknownFilterKeepsAll(tablets: seq<TabletWithStudent>, statusFilter: string)
    requires !KnownFilter(statusFilter)
    ensures FilteredTablets(Some(tablets), statusFilter) == tablets
  {
    FilterKeepsAll(tablets, Passes(statusFilter));
  }

  function IsOnlineRow(t: TabletWithStudent): bool { t.status == Online }

  /** "Dispositivos activos": the online tablets among those shown. */
  function ActiveDevices(shown: seq<TabletWithStudent>): (n: nat)
    ensures n <= |shown|
    ensures n == |shown| <==> forall i :: 0 <= i < |shown| ==> shown[i].status == Online
  {
    AllOnlineIffNoneDropped(shown);
    |Filter(shown, IsOnlineRow)|
  }

  /** Filtering by "online" drops nothing exactly when every tablet is online. */
  lemma AllOnlineIffNoneDropped(shown: seq<TabletWithStudent>)
    ensures |Filter(shown, IsOnlineRow)| == |shown| <==> forall i :: 0 <= i < |shown| ==> shown[i].status == Online
  {
    if forall i :: 0 <= i < |shown| ==> shown[i].status == Online {
      FilterKeepsAll(shown, IsOnlineRow);
    } else {
      var k :| 0 <= k < |shown| && shown[k].status != Online;
      FilterDrops(shown, IsOnlineRow, k);
    }
  }

  /** Under the warning or blocked filter the count is 0; under the online filter it is the list's length. */
  lemma ActiveDevicesUnderFilter(tablets: Option<seq<TabletWithStudent>>, statusFilter: string)
    ensures statusFilter == Warning || statusFilter == Blocked ==> ActiveDevices(FilteredTablets(tablets, statusFilter)) == 0
    ensures statusFilter == Online ==>
              ActiveDevices(FilteredTablets(tablets, statusFilter)) == |FilteredTablets(tablets, statusFilter)|
  {
    var shown := FilteredTablets(tablets, statusFilter);
    if statusFilter == Warning || statusFilter == Blocked {
      FilterKeepsNone(shown, IsOnlineRow);
    }
  }
}
