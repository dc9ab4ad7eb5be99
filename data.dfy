/**
 * The dashboard's data layer: project and alert records, the shipped mock
 * table, the read-only queries over it, and the store object whose one
 * mutation turns a pending alert into an assigned one.
 *
 * The queries take the table's current contents as values (the store hands
 * them `projects` and `alerts`); only `Store.AssignAlert` changes state.
 */
module Data {
  import opened JsRuntime
  import opened Risk

  /**
   * A project. Margins are percentages; the display-only prose of the table
   * (risk reason, risk factors, insight, suggestions) is not part of the record.
   */
  datatype Project = Project(
    id: string,
    name: string,
    client: string,
    contractAmount: int,
    targetMarginPct: real,
    forecastMarginPct: real,
    trend: seq<real>,
    estimatedHours: int,
    actualHours: int)

  datatype Status = Pending | Assigned

  /**
   * An alert raised on a project. `createdAt` is a comparable timestamp
   * (the table's local times written as YYYYMMDDhhmm); the three assignment
   * fields are `null` until the alert is assigned.
   */
  datatype Alert = Alert(
    id: string,
    projectId: string,
    reason: string,
    createdAt: int,
    status: Status,
    assignedTo: Option<string>,
    deadline: Option<string>,
    note: Option<string>)

  // ---------------------------------------------------------------------------
  // The shipped table

  function ShippedProjects(): seq<Project>
  {
    [ Project("P001", "溜冰場環控工程", "台灣防潮科技", 5835168, 20.0, 9.0,
              [21.0, 19.0, 16.0, 14.0, 11.0, 9.0], 320, 385),
      Project("P002", "華可貴環控工程", "華可貴股份有限公司", 3044265, 18.0, 7.0,
              [19.0, 17.0, 14.0, 11.0, 9.0, 7.0], 240, 295),
      Project("P003", "南港廠房除濕工程", "台灣防潮科技", 1850000, 20.0, 15.0,
              [21.0, 20.0, 19.0, 18.0, 16.0, 15.0], 180, 198),
      Project("P004", "數位發展部環控工程", "台灣防潮科技", 53700, 22.0, 16.0,
              [23.0, 22.0, 20.0, 19.0, 17.0, 16.0], 45, 52),
      Project("P005", "竹科無塵室恆濕工程", "聯華電子", 4200000, 18.0, 21.0,
              [18.0, 18.0, 19.0, 20.0, 20.0, 21.0], 280, 252),
      Project("P006", "桃園倉儲環控改善", "台灣防潮科技", 2380000, 20.0, 22.0,
              [20.0, 20.0, 21.0, 21.0, 22.0, 22.0], 200, 186) ]
  }

  function ShippedAlerts(): seq<Alert>
  {
    [ Alert("A001", "P001", "溜冰場案除濕機漲價＋風管工時爆量，毛利降至 9%",
            202602140930, Pending, None, None, None),
      Alert("A002", "P002", "華可貴案現場配管重工，動力配電追加，毛利僅 7%",
            202602131400, Pending, None, None, None),
      Alert("A003", "P003", "南港案銅管延遲導致工班閒置，毛利下滑至 15%",
            202602121115, Pending, None, None, None) ]
  }

  /** Assignment fields are all-or-nothing: unset while pending, all set once assigned. */
  predicate WellFormed(a: Alert)
  {
    match a.status
    case Pending => a.assignedTo.None? && a.deadline.None? && a.note.None?
    case Assigned => a.assignedTo.Some? && a.deadline.Some? && a.note.Some?
  }

  predicate UniqueAlertIds(alerts: seq<Alert>)
  {
    forall i, j :: 0 <= i < j < |alerts| ==> alerts[i].id != alerts[j].id
  }

  // ---------------------------------------------------------------------------
  // Projects

  /** The sort key of `getProjects`: the order of the project's tier. */
  function ProjectRank(p: Project): (r: int)
    ensures 0 <= r <= 2
    ensures r == 0 <==> p.forecastMarginPct < 12.0
    ensures r == 2 <==> 18.0 <= p.forecastMarginPct
  {
    Order(GetRiskLevel(p.forecastMarginPct))
  }

  /** The projects of one tier, in table order. */
  function OfLevel(ps: seq<Project>, level: RiskLevel): (r: seq<Project>)
    ensures |r| <= |ps|
    ensures forall i :: 0 <= i < |r| ==> GetRiskLevel(r[i].forecastMarginPct) == level
  {
    if ps == [] then []
    else
      var last := ps[|ps| - 1];
      OfLevel(ps[..|ps| - 1], level)
        + (if GetRiskLevel(last.forecastMarginPct) == level then [last] else [])
  }

  /**
   * The stable risk sort is the table's red projects, then its yellow ones,
   * then its green ones, each group in table order.
   */
  lemma {:induction false} RiskSortIsGrouped(ps: seq<Project>)
    ensures SortByKey(ps, ProjectRank) == Grouped(ps)
    decreases |ps|
  {
    if ps != [] {
      var init, x := ps[..|ps| - 1], ps[|ps| - 1];
      RiskSortIsGrouped(init);
      assert ps == init + [x];
      GroupedStep(init, x);
    }
  }

  /** The red, yellow and green projects of the table, one group after another. */
  function Grouped(ps: seq<Project>): (r: seq<Project>)
    ensures forall i, j :: 0 <= i < j < |r| ==> ProjectRank(r[i]) <= ProjectRank(r[j])
  {
    OfLevel(ps, Red) + OfLevel(ps, Yellow) + OfLevel(ps, Green)
  }

  /** Sorting in one more project inserts it at the end of its own group. */
  lemma GroupedStep(init: seq<Project>, x: Project)
    requires SortByKey(init, ProjectRank) == Grouped(init)
    ensures SortByKey(init + [x], ProjectRank) == Grouped(init + [x])
  {
    var r, y, g := OfLevel(init, Red), OfLevel(init, Yellow), OfLevel(init, Green);
    SortSnoc(init, x);
    match GetRiskLevel(x.forecastMarginPct)
    case Red =>
      OfLevelAppend(init, x, Red);
      OfLevelSkip(init, x, Yellow);
      OfLevelSkip(init, x, Green);
      InsertRed(r, y, g, x);
    case Yellow =>
      OfLevelSkip(init, x, Red);
      OfLevelAppend(init, x, Yellow);
      OfLevelSkip(init, x, Green);
      InsertYellow(r, y, g, x);
    case Green =>
      OfLevelSkip(init, x, Red);
      OfLevelSkip(init, x, Yellow);
      OfLevelAppend(init, x, Green);
      InsertGreen(r, y, g, x);
  }

  lemma SortSnoc(init: seq<Project>, x: Project)
    ensures SortByKey(init + [x], ProjectRank) == InsertByKey(SortByKey(init, ProjectRank), x, ProjectRank)
  {
    assert (init + [x])[..|init|] == init;
  }

  lemma OfLevelAppend(init: seq<Project>, x: Project, level: RiskLevel)
    requires GetRiskLevel(x.forecastMarginPct) == level
    ensures OfLevel(init + [x], level) == OfLevel(init, level) + [x]
  {
    assert (init + [x])[..|init|] == init;
  }

  lemma OfLevelSkip(init: seq<Project>, x: Project, level: RiskLevel)
    requires GetRiskLevel(x.forecastMarginPct) != level
    ensures OfLevel(init + [x], level) == OfLevel(init, level)
  {
    assert (init + [x])[..|init|] == init;
  }

  lemma InsertRed(r: seq<Project>, y: seq<Project>, g: seq<Project>, x: Project)
    requires GetRiskLevel(x.forecastMarginPct) == Red
    requires forall i :: 0 <= i < |y| ==> GetRiskLevel(y[i].forecastMarginPct) == Yellow
    requires forall i :: 0 <= i < |g| ==> GetRiskLevel(g[i].forecastMarginPct) == Green
    requires forall i :: 0 <= i < |r| ==> GetRiskLevel(r[i].forecastMarginPct) == Red
    ensures InsertByKey(r + y + g, x, ProjectRank) == r + [x] + y + g
  {
    var hi := y + g;
    forall i | 0 <= i < |hi| ensures ProjectRank(x) < ProjectRank(hi[i]) {
      if i < |y| { assert hi[i] == y[i]; } else { assert hi[i] == g[i - |y|]; }
    }
    assert r + y + g == r + hi;
    InsertRiskGroup(r, hi, x);
    assert r + [x] + hi == r + [x] + y + g;
  }

  lemma InsertYellow(r: seq<Project>, y: seq<Project>, g: seq<Project>, x: Project)
    requires GetRiskLevel(x.forecastMarginPct) == Yellow
    requires forall i :: 0 <= i < |r| ==> GetRiskLevel(r[i].forecastMarginPct) == Red
    requires forall i :: 0 <= i < |y| ==> GetRiskLevel(y[i].forecastMarginPct) == Yellow
    requires forall i :: 0 <= i < |g| ==> GetRiskLevel(g[i].forecastMarginPct) == Green
    ensures InsertByKey(r + y + g, x, ProjectRank) == r + (y + [x]) + g
  {
    var lo := r + y;
    forall i | 0 <= i < |lo| ensures ProjectRank(lo[i]) <= ProjectRank(x) {
      if i < |r| { assert lo[i] == r[i]; } else { assert lo[i] == y[i - |r|]; }
    }
    InsertRiskGroup(lo, g, x);
    assert lo + [x] + g == r + (y + [x]) + g;
  }

  lemma InsertGreen(r: seq<Project>, y: seq<Project>, g: seq<Project>, x: Project)
    requires GetRiskLevel(x.forecastMarginPct) == Green
    ensures InsertByKey(r + y + g, x, ProjectRank) == r + y + (g + [x])
  {
    var lo := r + y + g;
    if lo != [] {
      assert ProjectRank(lo[|lo| - 1]) <= 2 == ProjectRank(x);
    }
    assert lo + [x] == r + y + (g + [x]);
  }

  /** InsertBetween, stated for the risk key. */
  lemma InsertRiskGroup(lo: seq<Project>, hi: seq<Project>, x: Project)
    requires forall i :: 0 <= i < |lo| ==> ProjectRank(lo[i]) <= ProjectRank(x)
    requires forall i :: 0 <= i < |hi| ==> ProjectRank(x) < ProjectRank(hi[i])
    ensures InsertByKey(lo + hi, x, ProjectRank) == lo + [x] + hi
  {
    InsertBetween(lo, hi, x, ProjectRank);
  }

  /**
   * `getProjects`: a copy of the table sorted red, yellow, green. It is a
   * permutation of the table, ordered by tier, and stable within a tier.
   */
  function GetProjects(projects: seq<Project>): (r: seq<Project>)
    ensures multiset(r) == multiset(projects)
    ensures forall i, j :: 0 <= i < j < |r| ==> ProjectRank(r[i]) <= ProjectRank(r[j])
    ensures r == Grouped(projects)
  {
    RiskSortIsGrouped(projects);
    SortByKey(projects, ProjectRank)
  }

  /**
   * `getTopRiskProjects(n = 5)`: the first n of the risk-sorted list. Every
   * project left out is at most as severe as every project kept.
   */
  function GetTopRiskProjects(projects: seq<Project>, n: int := 5): (r: seq<Project>)
    ensures n >= 0 ==> r == GetProjects(projects)[..MinInt(n, |projects|)]
    ensures n < 0 ==> r == GetProjects(projects)[..MaxInt(|projects| + n, 0)]
    ensures forall i, j :: 0 <= i < |r| <= j < |projects|
              ==> ProjectRank(r[i]) <= ProjectRank(GetProjects(projects)[j])
  {
    var all := GetProjects(projects);
    var r := SlicePrefix(all, n);
    assert r == all[..|r|];
    r
  }

  /** `getProjectById`: the first project with that id, or `null`. */
  function GetProjectById(projects: seq<Project>, id: string): (r: Option<Project>)
    ensures r.None? <==> forall i :: 0 <= i < |projects| ==> projects[i].id != id
    ensures r.Some? ==> r.value.id == id && r.value in projects
    ensures r.Some? ==> exists k :: 0 <= k < |projects| && projects[k] == r.value
                                    && forall j :: 0 <= j < k ==> projects[j].id != id
  {
    Find(projects, (p: Project) => p.id == id)
  }

  /** `getAlertProject`: the project an alert refers to, or `null` if there is none. */
  function GetAlertProject(projects: seq<Project>, alert: Alert): (r: Option<Project>)
    ensures r.None? <==> forall i :: 0 <= i < |projects| ==> projects[i].id != alert.projectId
    ensures r.Some? ==> r.value.id == alert.projectId && r.value in projects
    ensures r.Some? ==> exists k :: 0 <= k < |projects| && projects[k] == r.value
                                    && forall j :: 0 <= j < k ==> projects[j].id != alert.projectId
  {
    GetProjectById(projects, alert.projectId)
  }

  // ---------------------------------------------------------------------------
  // Alerts

  /** The sort key of `getAlerts`: newest first. */
  function NewestFirst(a: Alert): int
  {
    -a.createdAt
  }

  /** `getAlerts`: a copy of the alerts, newest first. */
  function GetAlerts(alerts: seq<Alert>): (r: seq<Alert>)
    ensures multiset(r) == multiset(alerts)
    ensures forall i, j :: 0 <= i < j < |r| ==> r[j].createdAt <= r[i].createdAt
  {
    var r := SortByKey(alerts, NewestFirst);
    assert forall i, j :: 0 <= i < j < |r| ==> NewestFirst(r[i]) <= NewestFirst(r[j]);
    r
  }

  predicate IsPending(a: Alert)
  {
    a.status == Pending
  }

  /** No pending alert of the table is newer than a. */
  ghost predicate IsNewestPending(alerts: seq<Alert>, a: Alert)
  {
    forall i :: 0 <= i < |alerts| && alerts[i].status == Pending ==> alerts[i].createdAt <= a.createdAt
  }

  /** The first pending alert of a newest-first list is the newest pending alert. */
  lemma LatestPendingIsNewest(alerts: seq<Alert>)
    ensures var r := Find(GetAlerts(alerts), IsPending);
            && (r.None? <==> forall i :: 0 <= i < |alerts| ==> alerts[i].status != Pending)
            && (r.Some? ==> r.value in alerts && r.value.status == Pending)
            && (r.Some? ==> IsNewestPending(alerts, r.value))
  {
    var sorted := GetAlerts(alerts);
    SameElements(sorted, alerts);
    var r := Find(sorted, IsPending);
    if r.None? {
      forall i | 0 <= i < |alerts| ensures alerts[i].status != Pending {
        assert alerts[i] in sorted;
      }
    } else {
      var k :| 0 <= k < |sorted| && sorted[k] == r.value && IsPending(sorted[k])
               && forall j :: 0 <= j < k ==> !IsPending(sorted[j]);
      assert sorted[k] in alerts;
      var w :| 0 <= w < |alerts| && alerts[w] == sorted[k];
      assert alerts[w].status == Pending;
      forall i | 0 <= i < |alerts| && alerts[i].status == Pending
        ensures alerts[i].createdAt <= r.value.createdAt
      {
        assert alerts[i] in sorted;
        var j :| 0 <= j < |sorted| && sorted[j] == alerts[i];
        assert k <= j;
      }
    }
  }

  /**
   * `getLatestPendingAlert`: `null` exactly when no alert is pending; otherwise
   * a pending alert of the table that is at least as new as every pending alert.
   */
  function GetLatestPendingAlert(alerts: seq<Alert>): (r: Option<Alert>)
    ensures r.None? <==> forall i :: 0 <= i < |alerts| ==> alerts[i].status != Pending
    ensures r.Some? ==> r.value in alerts && r.value.status == Pending
    ensures r.Some? ==> forall i :: 0 <= i < |alerts| && alerts[i].status == Pending
                                    ==> alerts[i].createdAt <= r.value.createdAt
  {
    LatestPendingIsNewest(alerts);
    Find(GetAlerts(alerts), IsPending)
  }

  /** `isProjectAssigned`: some alert of the project has been assigned. */
  function IsProjectAssigned(alerts: seq<Alert>, projectId: string): (r: bool)
    ensures r <==> exists i :: 0 <= i < |alerts| && alerts[i].projectId == projectId
                                && alerts[i].status == Assigned
  {
    FirstIndex(alerts, (a: Alert) => a.projectId == projectId && a.status == Assigned).Some?
  }

  /** `getAlertByProjectId`: the first alert raised on the project, or `null`. */
  function GetAlertByProjectId(alerts: seq<Alert>, projectId: string): (r: Option<Alert>)
    ensures r.None? <==> forall i :: 0 <= i < |alerts| ==> alerts[i].projectId != projectId
    ensures r.Some? ==> exists k :: 0 <= k < |alerts| && alerts[k] == r.value
                                    && r.value.projectId == projectId
                                    && forall j :: 0 <= j < k ==> alerts[j].projectId != projectId
  {
    Find(alerts, (a: Alert) => a.projectId == projectId)
  }

  // ---------------------------------------------------------------------------
  // Assignment

  /** The position of the first alert with the given id (`DB.alerts.find(...)`). */
  function AlertIndex(alerts: seq<Alert>, alertId: string): (r: Option<nat>)
    ensures r.None? <==> forall i :: 0 <= i < |alerts| ==> alerts[i].id != alertId
    ensures r.Some? ==> r.value < |alerts| && alerts[r.value].id == alertId
    ensures r.Some? ==> forall j :: 0 <= j < r.value ==> alerts[j].id != alertId
  {
    FirstIndex(alerts, (a: Alert) => a.id == alertId)
  }

  /** `note || ''`: an absent or empty note is stored as the empty string. */
  function NoteText(note: Option<string>): (r: string)
    ensures note.None? ==> r == ""
    ensures note.Some? ==> r == note.value
  {
    if note.None? || note.value == "" then "" else note.value
  }

  /** The alert after `assignAlert` overwrote its status and assignment fields. */
  function MarkAssigned(a: Alert, pm: string, deadline: string, note: Option<string>): (r: Alert)
    ensures WellFormed(r) && r.status == Assigned
    ensures r.assignedTo == Some(pm) && r.deadline == Some(deadline) && r.note == Some(NoteText(note))
    ensures r.id == a.id && r.projectId == a.projectId && r.reason == a.reason
            && r.createdAt == a.createdAt
  {
    a.(status := Assigned, assignedTo := Some(pm), deadline := Some(deadline),
       note := Some(NoteText(note)))
  }

  /** The alert table after the alert at position k is assigned; nothing else changes. */
  function AssignAt(alerts: seq<Alert>, k: nat, pm: string, deadline: string,
                    note: Option<string>): (r: seq<Alert>)
    requires k < |alerts|
    ensures |r| == |alerts|
    ensures r[k] == MarkAssigned(alerts[k], pm, deadline, note)
    ensures forall i :: 0 <= i < |alerts| && i != k ==> r[i] == alerts[i]
  {
    alerts[k := MarkAssigned(alerts[k], pm, deadline, note)]
  }

  /** Once an alert is assigned, its project counts as assigned. */
  lemma AssignMarksProjectAssigned(alerts: seq<Alert>, k: nat, pm: string, deadline: string,
                                   note: Option<string>)
    requires k < |alerts|
    ensures IsProjectAssigned(AssignAt(alerts, k, pm, deadline, note), alerts[k].projectId)
  {
    var r := AssignAt(alerts, k, pm, deadline, note);
    assert r[k].projectId == alerts[k].projectId && r[k].status == Assigned;
  }

  /**
   * Assignment is permanent: no alert goes back to pending, and a project
   * that was assigned stays assigned.
   */
  lemma AssignIsPermanent(alerts: seq<Alert>, k: nat, pm: string, deadline: string,
                          note: Option<string>, projectId: string)
    requires k < |alerts|
    ensures forall i :: 0 <= i < |alerts| && alerts[i].status == Assigned
              ==> AssignAt(alerts, k, pm, deadline, note)[i].status == Assigned
    ensures IsProjectAssigned(alerts, projectId)
            ==> IsProjectAssigned(AssignAt(alerts, k, pm, deadline, note), projectId)
  {
    var r := AssignAt(alerts, k, pm, deadline, note);
    if IsProjectAssigned(alerts, projectId) {
      var i :| 0 <= i < |alerts| && alerts[i].projectId == projectId && alerts[i].status == Assigned;
      assert r[i].projectId == projectId && r[i].status == Assigned;
    }
  }

  /** After an alert is assigned, the newest-pending query never returns it again. */
  lemma AssignRetiresFromLatestPending(alerts: seq<Alert>, k: nat, pm: string, deadline: string,
                                       note: Option<string>)
    requires k < |alerts|
    requires UniqueAlertIds(alerts)
    ensures var l := GetLatestPendingAlert(AssignAt(alerts, k, pm, deadline, note));
            l.None? || l.value.id != alerts[k].id
  {
    var r := AssignAt(alerts, k, pm, deadline, note);
    var l := GetLatestPendingAlert(r);
    if l.Some? {
      var j :| 0 <= j < |r| && r[j] == l.value;
      assert j != k;
      assert r[j] == alerts[j];
    }
  }

  /** Assigning keeps every alert well formed and the ids unique. */
  lemma AssignKeepsInvariant(alerts: seq<Alert>, k: nat, pm: string, deadline: string,
                             note: Option<string>)
    requires k < |alerts|
    requires forall i :: 0 <= i < |alerts| ==> WellFormed(alerts[i])
    requires UniqueAlertIds(alerts)
    ensures var r := AssignAt(alerts, k, pm, deadline, note);
            (forall i :: 0 <= i < |r| ==> WellFormed(r[i])) && UniqueAlertIds(r)
  {
    var r := AssignAt(alerts, k, pm, deadline, note);
    forall i, j | 0 <= i < j < |r| ensures r[i].id != r[j].id {
      assert r[i].id == alerts[i].id && r[j].id == alerts[j].id;
    }
  }

  // ---------------------------------------------------------------------------
  // The store

  /** The mock database `DB`: the project table and the alert table. */
  class Store {
    var projects: seq<Project>
    var alerts: seq<Alert>

    ghost predicate Valid()
      reads this
    {
      (forall i :: 0 <= i < |alerts| ==> WellFormed(alerts[i])) && UniqueAlertIds(alerts)
    }

    /** The store as shipped. */
    constructor ()
      ensures Valid()
      ensures projects == ShippedProjects() && alerts == ShippedAlerts()
    {
      projects := ShippedProjects();
      alerts := ShippedAlerts();
    }

    /**
     * `assignAlert`: find the first alert with the id; if there is none, report
     * failure and change nothing; otherwise overwrite that alert's status and
     * assignment fields in place and report success.
     */
    method AssignAlert(alertId: string, pm: string, deadline: string, note: Option<string>)
      returns (ok: bool)
      requires Valid()
      modifies this`alerts
      ensures Valid()
      ensures ok <==> exists i :: 0 <= i < |old(alerts)| && old(alerts)[i].id == alertId
      ensures !ok ==> alerts == old(alerts)
      ensures ok ==> var k := AlertIndex(old(alerts), alertId).value;
                     alerts == AssignAt(old(alerts), k, pm, deadline, note)
                     && IsProjectAssigned(alerts, old(alerts)[k].projectId)
      ensures forall i :: 0 <= i < |old(alerts)| && old(alerts)[i].status == Assigned
                ==> alerts[i].status == Assigned
    {
      var found := AlertIndex(alerts, alertId);
      if found.None? {
        return false;
      }
      var k := found.value;
      AssignKeepsInvariant(alerts, k, pm, deadline, note);
      AssignMarksProjectAssigned(alerts, k, pm, deadline, note);
      AssignIsPermanent(alerts, k, pm, deadline, note, alerts[k].projectId);
      alerts := alerts[k := MarkAssigned(alerts[k], pm, deadline, note)];
      return true;
    }
  }

  // ---------------------------------------------------------------------------
  // The shipped table, queried

  lemma ShippedStoreIsValid()
    ensures UniqueAlertIds(ShippedAlerts())
    ensures forall i :: 0 <= i < |ShippedAlerts()| ==> WellFormed(ShippedAlerts()[i])
    ensures forall i :: 0 <= i < |ShippedAlerts()| ==> ShippedAlerts()[i].status == Pending
  {
  }

  /** Each project's tier is no more severe than the next one's. */
  predicate InTierOrder(ps: seq<Project>)
  {
    forall i :: 0 <= i < |ps| - 1 ==> ProjectRank(ps[i]) <= ProjectRank(ps[i + 1])
  }

  /** Dropping the last project keeps a table in tier order, and that project comes last. */
  lemma InTierOrderInit(ps: seq<Project>)
    requires InTierOrder(ps) && ps != []
    ensures InTierOrder(ps[..|ps| - 1])
    ensures |ps| >= 2 ==> ProjectRank(ps[|ps| - 2]) <= ProjectRank(ps[|ps| - 1])
  {
    var init := ps[..|ps| - 1];
    forall i | 0 <= i < |init| - 1 ensures ProjectRank(init[i]) <= ProjectRank(init[i + 1]) {
      assert init[i] == ps[i] && init[i + 1] == ps[i + 1];
    }
  }

  /** A table already in tier order is its own grouping, so the risk sort leaves it as it is. */
  lemma {:induction false} SortedTableIsGrouped(ps: seq<Project>)
    requires InTierOrder(ps)
    ensures Grouped(ps) == ps
    decreases |ps|
  {
    if ps != [] {
      InTierOrderInit(ps);
      SortedTableIsGrouped(ps[..|ps| - 1]);
      GroupedSnoc(ps);
    }
  }

  /** A grouped table followed by a project of a tier at least its last one's stays grouped. */
  lemma GroupedSnoc(ps: seq<Project>)
    requires ps != [] && Grouped(ps[..|ps| - 1]) == ps[..|ps| - 1]
    requires |ps| >= 2 ==> ProjectRank(ps[|ps| - 2]) <= ProjectRank(ps[|ps| - 1])
    ensures Grouped(ps) == ps
  {
    var init, x := ps[..|ps| - 1], ps[|ps| - 1];
    assert ps == init + [x];
    if init != [] {
      assert init[|init| - 1] == ps[|ps| - 2];
    }
    match GetRiskLevel(x.forecastMarginPct)
    case Red => GroupedSnocRed(init, x);
    case Yellow => GroupedSnocYellow(init, x);
    case Green => GroupedSnocGreen(init, x);
  }

  /**
   * A grouped table whose last project is at most yellow has no green
   * project, and one whose last project is red has no yellow one either.
   */
  lemma GroupedTail(init: seq<Project>, x: Project)
    requires Grouped(init) == init
    requires init != [] ==> ProjectRank(init[|init| - 1]) <= ProjectRank(x)
    ensures ProjectRank(x) <= 1 ==> OfLevel(init, Green) == []
    ensures ProjectRank(x) == 0 ==> OfLevel(init, Yellow) == []
  {
    var r, y, g := OfLevel(init, Red), OfLevel(init, Yellow), OfLevel(init, Green);
    if g != [] {
      assert init[|init| - 1] == g[|g| - 1];
    } else if y != [] {
      assert init == r + y;
      assert init[|init| - 1] == y[|y| - 1];
    }
  }

  /** A red project can follow a grouped table only if the table is all red, and stays grouped. */
  lemma GroupedSnocRed(init: seq<Project>, x: Project)
    requires Grouped(init) == init && GetRiskLevel(x.forecastMarginPct) == Red
    requires init != [] ==> ProjectRank(init[|init| - 1]) <= ProjectRank(x)
    ensures Grouped(init + [x]) == init + [x]
  {
    GroupedTail(init, x);
    var r := OfLevel(init, Red);
    assert init == r + [] + [];
    OfLevelAppend(init, x, Red);
    OfLevelSkip(init, x, Yellow);
    OfLevelSkip(init, x, Green);
    assert init + [x] == r + [x] + [] + [];
  }

  /** A yellow project can follow a grouped table only if it has no green project, and stays grouped. */
  lemma GroupedSnocYellow(init: seq<Project>, x: Project)
    requires Grouped(init) == init && GetRiskLevel(x.forecastMarginPct) == Yellow
    requires init != [] ==> ProjectRank(init[|init| - 1]) <= ProjectRank(x)
    ensures Grouped(init + [x]) == init + [x]
  {
    GroupedTail(init, x);
    var r, y := OfLevel(init, Red), OfLevel(init, Yellow);
    assert init == r + y + [];
    OfLevelSkip(init, x, Red);
    OfLevelAppend(init, x, Yellow);
    OfLevelSkip(init, x, Green);
    assert init + [x] == r + (y + [x]) + [];
  }

  /** A green project after a grouped table keeps it grouped. */
  lemma GroupedSnocGreen(init: seq<Project>, x: Project)
    requires Grouped(init) == init && GetRiskLevel(x.forecastMarginPct) == Green
    ensures Grouped(init + [x]) == init + [x]
  {
    var r, y, g := OfLevel(init, Red), OfLevel(init, Yellow), OfLevel(init, Green);
    OfLevelSkip(init, x, Red);
    OfLevelSkip(init, x, Yellow);
    OfLevelAppend(init, x, Green);
    assert init + [x] == r + y + (g + [x]);
  }

  /**
   * On the shipped table the risk order is the table order (P001 and P002
   * red, P003 and P004 yellow, P005 and P006 green), so the top five are
   * P001 to P005.
   */
  lemma ShippedQueries()
    ensures GetProjects(ShippedProjects()) == ShippedProjects()
    ensures GetTopRiskProjects(ShippedProjects()) == ShippedProjects()[..5]
  {
    var ps := ShippedProjects();
    assert ProjectRank(ps[0]) == 0 && ProjectRank(ps[1]) == 0;
    assert ProjectRank(ps[2]) == 1 && ProjectRank(ps[3]) == 1;
    assert ProjectRank(ps[4]) == 2 && ProjectRank(ps[5]) == 2;
    forall i | 0 <= i < |ps| - 1 ensures ProjectRank(ps[i]) <= ProjectRank(ps[i + 1]) {
      assert i == 0 || i == 1 || i == 2 || i == 3 || i == 4;
    }
    SortedTableIsGrouped(ps);
  }

  /** The newest pending alert of the shipped table is A001. */
  lemma ShippedLatestAlert()
    ensures GetLatestPendingAlert(ShippedAlerts()) == Some(ShippedAlerts()[0])
  {
    var alerts := ShippedAlerts();
    var l := GetLatestPendingAlert(alerts);
    assert alerts[0].status == Pending;
    assert alerts[1].createdAt < alerts[0].createdAt && alerts[2].createdAt < alerts[0].createdAt;
  }
}
