/**
 * The dashboard page: the tablet grid (online, then warning, then blocked, at most six cards),
 * the "Ver más" tile, and the three most recent alerts.
 */
module Dashboard {
  import opened Wrappers
  import opened Lists
  import opened Schema
  import opened Storage

  function HasStatus(status: string): TabletWithStudent -> bool {
    (t: TabletWithStudent) => t.status == status
  }

  /** The statuses the grid shows. */
  function Shown(t: TabletWithStudent): bool {
    t.status == Online || t.status == Warning || t.status == Blocked
  }

  /** A card's band in the grid: online first, then warning, then blocked. */
  function Band(t: TabletWithStudent): nat {
    if t.status == Online then 0 else if t.status == Warning then 1 else 2
  }

  /** `[...online, ...warning, ...blocked]` before the slice. */
  function Candidates(tablets: seq<TabletWithStudent>): (r: seq<TabletWithStudent>)
    ensures multiset(r) == multiset(Filter(tablets, Shown))
    ensures |r| == |Filter(tablets, Shown)|
    ensures forall i :: 0 <= i < |r| ==> Shown(r[i])
    ensures forall i, j :: 0 <= i < j < |r| ==> Band(r[i]) <= Band(r[j])
    ensures Filter(r, HasStatus(Online)) == Filter(tablets, HasStatus(Online))
    ensures Filter(r, HasStatus(Warning)) == Filter(tablets, HasStatus(Warning))
    ensures Filter(r, HasStatus(Blocked)) == Filter(tablets, HasStatus(Blocked))
  {
    CandidatesPermute(tablets);
    var on, warn, blocked := Filter(tablets, HasStatus(Online)), Filter(tablets, HasStatus(Warning)), Filter(tablets, HasStatus(Blocked));
    var r := on + warn + blocked;
    assert |r| == |multiset(r)|;
    BandsInOrder(on, warn, blocked);
    BandKept(on, warn, blocked, Online);
    BandKept(on, warn, blocked, Warning);
    BandKept(on, warn, blocked, Blocked);
    r
  }

  /** Filtering the concatenated bands by one status gives back that status's band, in its order. */
  lemma BandKept(on: seq<TabletWithStudent>, warn: seq<TabletWithStudent>, blocked: seq<TabletWithStudent>, s: string)
    requires s == Online || s == Warning || s == Blocked
    requires forall i :: 0 <= i < |on| ==> on[i].status == Online
    requires forall i :: 0 <= i < |warn| ==> warn[i].status == Warning
    requires forall i :: 0 <= i < |blocked| ==> blocked[i].status == Blocked
    ensures Filter(on + warn + blocked, HasStatus(s)) ==
            if s == Online then on else if s == Warning then warn else blocked
  {
    FilterAppend(on + warn, blocked, HasStatus(s));
    FilterAppend(on, warn, HasStatus(s));
    if s == Online {
      FilterKeepsAll(on, HasStatus(s));
      FilterKeepsNone(warn, HasStatus(s));
      FilterKeepsNone(blocked, HasStatus(s));
    } else if s == Warning {
      FilterKeepsNone(on, HasStatus(s));
      FilterKeepsAll(warn, HasStatus(s));
      FilterKeepsNone(blocked, HasStatus(s));
    } else {
      FilterKeepsNone(on, HasStatus(s));
      FilterKeepsNone(warn, HasStatus(s));
      FilterKeepsAll(blocked, HasStatus(s));
    }
  }

  lemma BandsInOrder(on: seq<TabletWithStudent>, warn: seq<TabletWithStudent>, blocked: seq<TabletWithStudent>)
    requires forall i :: 0 <= i < |on| ==> on[i].status == Online
    requires forall i :: 0 <= i < |warn| ==> warn[i].status == Warning
    requires forall i :: 0 <= i < |blocked| ==> blocked[i].status == Blocked
    ensures forall i :: 0 <= i < |on + warn + blocked| ==> Shown((on + warn + blocked)[i])
    ensures forall i, j :: 0 <= i < j < |on + warn + blocked| ==> Band((on + warn + blocked)[i]) <= Band((on + warn + blocked)[j])
  {
    var r := on + warn + blocked;
    forall i | 0 <= i < |r|
      ensures Band(r[i]) == (if i < |on| then 0 else if i < |on| + |warn| then 1 else 2) && Shown(r[i])
    {
      if i < |on| {
        assert r[i] == on[i];
      } else if i < |on| + |warn| {
        assert r[i] == warn[i - |on|];
      } else {
        assert r[i] == blocked[i - |on| - |warn|];
      }
    }
  }

  /** The three status filters together hold the same tablets as one filter by "shown". */
  lemma {:induction false} CandidatesPermute(tablets: seq<TabletWithStudent>)
    ensures multiset(Filter(tablets, HasStatus(Online)) + Filter(tablets, HasStatus(Warning))
                     + Filter(tablets, HasStatus(Blocked))) == multiset(Filter(tablets, Shown))
    decreases |tablets|
  {
    if tablets != [] {
      CandidatesPermute(tablets[1..]);
    }
  }

  /** The grid: the candidates cut to six cards; an unloaded list shows none. */
  function Grid(tablets: Option<seq<TabletWithStudent>>): (r: seq<TabletWithStudent>)
    ensures |r| == if |Filter(tablets.GetOr([]), Shown)| < 6 then |Filter(tablets.GetOr([]), Shown)| else 6
    ensures r == Candidates(tablets.GetOr([]))[..|r|]
    ensures forall i :: 0 <= i < |r| ==> Shown(r[i])
    ensures forall i, j :: 0 <= i < j < |r| ==> Band(r[i]) <= Band(r[j])
  {
    Take(Candidates(tablets.GetOr([])), 6)
  }

  /** When at most six tablets are shown, every online, warning or blocked tablet gets a card. */
  lemma GridComplete(tablets: seq<TabletWithStudent>, t: TabletWithStudent)
    requires |Filter(tablets, Shown)| <= 6
    ensures t in Grid(Some(tablets)) <==> t in tablets && Shown(t)
  {
    var c := Candidates(tablets);
    assert Grid(Some(tablets)) == c;
    FilterMember(tablets, Shown, t);
    assert t in c <==> t in multiset(c);
  }

  /** The "Ver más" tile: present iff more than six tablets were fetched, showing how many beyond six. */
  function MoreTile(tablets: Option<seq<TabletWithStudent>>): (r: Option<nat>)
    ensures r.Some? <==> tablets.Some? && |tablets.value| > 6
    ensures r.Some? ==> r.value + 6 == |tablets.value|
  {
    if tablets.Some? && |tablets.value| > 6 then Some(|tablets.value| - 6) else None
  }

  /**
   * The tile counts every fetched tablet, offline ones included: its number equals the candidates
   * left without a card exactly when every tablet is online, warning or blocked.
   */
  lemma MoreTileCountsHidden(tablets: seq<TabletWithStudent>)
    requires |tablets| > 6
    ensures MoreTile(Some(tablets)).value == |Candidates(tablets)| - |Grid(Some(tablets))| <==>
            forall i :: 0 <= i < |tablets| ==> Shown(tablets[i])
  {
    var c := Candidates(tablets);
    if forall i :: 0 <= i < |tablets| ==> Shown(tablets[i]) {
      FilterKeepsAll(tablets, Shown);
    } else {
      var k :| 0 <= k < |tablets| && !Shown(tablets[k]);
      FilterDrops(tablets, Shown, k);
    }
  }

  /** The alert list: the first three fetched alerts, none while unloaded. */
  function RecentAlerts(alerts: Option<seq<AlertWithDetails>>): (r: seq<AlertWithDetails>)
    ensures alerts.None? ==> r == []
    ensures alerts.Some? ==> |r| == (if |alerts.value| < 3 then |alerts.value| else 3) && r == alerts.value[..|r|]
  {
    Take(alerts.GetOr([]), 3)
  }

  datatype Tone = Destructive | Yellow | Orange

  /** An alert row's colour: high is destructive, medium yellow, any other severity orange. */
  function AlertTone(severity: string): (r: Tone)
    ensures r == Destructive <==> severity == "high"
    ensures r == Yellow <==> severity == "medium"
    ensures r == Orange <==> severity != "high" && severity != "medium"
  {
    if severity == "high" then Destructive else if severity == "medium" then Yellow else Orange
  }
}
