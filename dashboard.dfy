/** The analytics dashboard: its state (the analytics record, the loading flag
    and the error message), the load that refreshes the status counts, and the
    figures it derives for display (the status chart, active workers, average
    utilisation). The database query is a parameter. */
module Dashboard {
  import opened Values
  import opened Records
  import opened Metrics

  /** An equipment entry of the utilisation chart; `utilization` may be missing. */
  datatype Resource = Resource(name: string, kind: string, utilization: Option<real>, status: string)

  /** An employee entry of the workload chart; `assignments` may be missing. */
  datatype Workload = Workload(name: string, assignments: Option<int>, completed: Option<int>, department: string)

  /** A day of the production-trend chart. */
  datatype Trend = Trend(date: string, completed: int, planned: int)

  datatype Analytics = Analytics(
    totalAssignments: nat,
    completedAssignments: nat,
    inProgressAssignments: nat,
    delayedAssignments: nat,
    onTimeRate: real,
    resourceUtilization: seq<Resource>,
    employeeWorkload: seq<Workload>,
    productionTrends: seq<Trend>)

  /** The record the dashboard starts with: zero counts and fixed sample lists. */
  const InitialAnalytics := Analytics(0, 0, 0, 0, 0.0,
    [Resource("CNC Machine", "Manufacturing", Some(75.0), "available"),
     Resource("Assembly Line", "Assembly", Some(60.0), "available")],
    [Workload("John Smith", Some(0), Some(0), "Production"),
     Workload("Sarah Johnson", Some(0), Some(0), "Assembly")],
    [Trend("1/20", 8, 12), Trend("1/21", 12, 15), Trend("1/22", 10, 14), Trend("1/23", 15, 18),
     Trend("1/24", 14, 16), Trend("1/25", 16, 20), Trend("1/26", 18, 22)])

  function CountsIn(a: Analytics): Counts {
    Counts(a.totalAssignments, a.completedAssignments, a.inProgressAssignments, a.delayedAssignments)
  }

  /** The counts agree with each other and the rate is the one they give. */
  predicate Consistent(a: Analytics) {
    && a.completedAssignments + a.inProgressAssignments + a.delayedAssignments <= a.totalAssignments
    && a.onTimeRate == OnTimeRate(CountsIn(a))
  }

  /** The state updater `prev => ({ ...prev, <four counts>, onTimeRate })` for
      the rows a query returned: the counts and the rate are replaced, every
      chart list is kept. */
  function WithCounts(prev: Analytics, data: Option<seq<AssignmentRow>>): (a: Analytics)
    ensures Consistent(a)
    ensures 0.0 <= a.onTimeRate <= 100.0
    ensures a.resourceUtilization == prev.resourceUtilization
    ensures a.employeeWorkload == prev.employeeWorkload
    ensures a.productionTrends == prev.productionTrends
    ensures data.None? ==> a.totalAssignments == 0 && a.onTimeRate == 0.0
    ensures data.Some? ==> a.totalAssignments == |data.value|
  {
    var c := CountsOf(data);
    prev.(totalAssignments := c.total, completedAssignments := c.completed,
          inProgressAssignments := c.inProgress, delayedAssignments := c.delayed,
          onTimeRate := OnTimeRate(c))
  }

  class AnalyticsDashboard {
    var analytics: Analytics
    var loading: bool
    var error: Option<string>

    /** The dashboard mounts loading, with no error and the initial record. */
    constructor()
      ensures analytics == InitialAnalytics && loading && error == None
    {
      analytics := InitialAnalytics;
      loading := true;
      error := None;
    }

    /** What the dashboard renders in its current state. */
    function View(): Screen
      reads this
    {
      ScreenOf(loading, error)
    }

    /** `loadAnalytics`. A successful query replaces the counts and the rate
        and nothing else; a database error or an exception sets the message
        and leaves the analytics as they were; loading ends after every
        attempt. */
    method LoadAnalytics(q: Query<AssignmentRow>)
      modifies this
      ensures !loading
      ensures q.Fetched? ==> analytics == WithCounts(old(analytics), q.data) && error == None
      ensures q.DbError? ==>
        analytics == old(analytics) && error == Some("Failed to load assignments from database")
      ensures q.Rejected? ==>
        analytics == old(analytics) && error == Some(OrElse(q.exceptionMessage, "Unknown error occurred"))
      ensures View() == Content <==> q.Fetched?
      ensures old(Consistent(analytics)) ==> Consistent(analytics)
    {
      loading := true;
      error := None;
      if q.DbError? {
        error := Some("Failed to load assignments from database");
      } else if q.Rejected? {
        error := Some(OrElse(q.exceptionMessage, "Unknown error occurred"));
      } else {
        analytics := WithCounts(analytics, q.data);
      }
      loading := false;
    }
  }

  /* ---------------------------------------------------------- status chart */

  /** The four values of the status pie chart: completed, in progress,
      delayed and the "Scheduled" remainder clamped at zero. */
  function StatusChartData(a: Analytics): (d: seq<nat>)
    ensures |d| == 4
    ensures a.completedAssignments + a.inProgressAssignments + a.delayedAssignments <= a.totalAssignments ==>
      d[0] + d[1] + d[2] + d[3] == a.totalAssignments
  {
    [a.completedAssignments, a.inProgressAssignments, a.delayedAssignments, ScheduledSize(CountsIn(a))]
  }

  /** After a load from rows, each slice of the chart is exactly the number of
      rows that fall in it: the three named statuses, then every other row. */
  lemma {:induction false} ChartAfterLoad(prev: Analytics, rows: seq<AssignmentRow>)
    ensures StatusChartData(WithCounts(prev, Some(rows))) ==
      [StatusCount(rows, Completed), StatusCount(rows, InProgress), StatusCount(rows, Delayed), OtherCount(rows)]
  {
    SlicesSumToTotal(Some(rows));
  }

  /* ------------------------------------------------------- active workers */

  /** `(emp.assignments || 0) > 0` */
  predicate Active(w: Workload) {
    w.assignments.GetOr(0) > 0
  }

  /** `employeeWorkload.filter(emp => (emp.assignments || 0) > 0).length` */
  function ActiveWorkers(ws: seq<Workload>): (n: nat)
    ensures n <= |ws|
    ensures n == 0 <==> forall i :: 0 <= i < |ws| ==> !Active(ws[i])
    ensures n == |ws| <==> forall i :: 0 <= i < |ws| ==> Active(ws[i])
  {
    if ws == [] then 0
    else
      var last := |ws| - 1;
      var rest := ActiveWorkers(ws[..last]);
      assert forall i :: 0 <= i < last ==> ws[i] == ws[..last][i];
      rest + (if Active(ws[last]) then 1 else 0)
  }

  /** The positions of the employees with assignments. */
  ghost function ActivePositions(ws: seq<Workload>): set<int> {
    set i | 0 <= i < |ws| && Active(ws[i])
  }

  /** The positions of a list are those of its prefix, plus the last one
      when that employee has assignments. */
  lemma ActivePositionsOfLast(ws: seq<Workload>)
    requires ws != []
    ensures var last := |ws| - 1;
      ActivePositions(ws) == ActivePositions(ws[..last]) + (if Active(ws[last]) then {last} else {})
  {
    var last := |ws| - 1;
    var rhs := ActivePositions(ws[..last]) + (if Active(ws[last]) then {last} else {});
    forall i
      ensures i in ActivePositions(ws) <==> i in rhs
    {
      if 0 <= i < last {
        assert ws[i] == ws[..last][i];
      }
    }
  }

  /** The badge counts exactly the employees with assignments. */
  lemma {:induction false} ActiveWorkersCountsActive(ws: seq<Workload>)
    ensures ActiveWorkers(ws) == |ActivePositions(ws)|
  {
    if ws == [] {
      assert ActivePositions(ws) == {};
    } else {
      var last := |ws| - 1;
      var init := ws[..last];
      ActiveWorkersCountsActive(init);
      ActivePositionsOfLast(ws);
      assert last !in ActivePositions(init);
    }
  }

  /* --------------------------------------------------- average utilisation */

  /** `r.utilization || 0` */
  function UtilizationOf(r: Resource): real {
    r.utilization.GetOr(0.0)
  }

  /** `reduce((sum, r) => sum + (r.utilization || 0), 0)` */
  function UtilizationSum(rs: seq<Resource>): real {
    if rs == [] then 0.0 else UtilizationOf(rs[0]) + UtilizationSum(rs[1..])
  }

  /** The average utilisation badge: 0 for no equipment, else the sum over
      the number of entries. */
  function AverageUtilization(rs: seq<Resource>): (avg: real)
    ensures rs == [] ==> avg == 0.0
    ensures rs != [] ==> avg * |rs| as real == UtilizationSum(rs)
  {
    if |rs| > 0 then UtilizationSum(rs) / |rs| as real else 0.0
  }

  /** Bounds on every entry bound the sum. */
  lemma {:induction false} SumWithin(rs: seq<Resource>, lo: real, hi: real)
    requires forall i :: 0 <= i < |rs| ==> lo <= UtilizationOf(rs[i]) <= hi
    ensures lo * |rs| as real <= UtilizationSum(rs) <= hi * |rs| as real
  {
    if rs != [] {
      SumWithin(rs[1..], lo, hi);
      assert lo <= UtilizationOf(rs[0]) <= hi;
    }
  }

  /** The average is the arithmetic mean: it lies between the smallest and the
      largest entry, so percentages in [0, 100] average to one in [0, 100]. */
  lemma AverageWithin(rs: seq<Resource>, lo: real, hi: real)
    requires rs != []
    requires forall i :: 0 <= i < |rs| ==> lo <= UtilizationOf(rs[i]) <= hi
    ensures lo <= AverageUtilization(rs) <= hi
  {
    SumWithin(rs, lo, hi);
    var n := |rs| as real;
    var avg := AverageUtilization(rs);
    assert avg * n == UtilizationSum(rs);
    assert lo * n <= avg * n <= hi * n;
  }
}
