/** The assignment status metrics both analytics views compute from the rows of
    the `assignments` table: the per-status counts, the completion ("on-time")
    rate, and the four slices of the status pie chart. */
module Metrics {
  import opened Values
  import opened Records

  const Completed := "completed"
  const InProgress := "in_progress"
  const Delayed := "delayed"

  /* ------------------------------------------------------------ counting */

  /** `rows.filter(a => a.status === status).length` */
  function StatusCount(rows: seq<AssignmentRow>, status: string): (n: nat)
    ensures n <= |rows|
    ensures n == 0 <==> forall i :: 0 <= i < |rows| ==> rows[i].status != Some(status)
    ensures n == |rows| <==> forall i :: 0 <= i < |rows| ==> rows[i].status == Some(status)
  {
    if rows == [] then 0
    else
      var rest := StatusCount(rows[1..], status);
      assert forall i :: 1 <= i < |rows| ==> rows[i] == rows[1..][i - 1];
      rest + (if rows[0].status == Some(status) then 1 else 0)
  }

  /** The status of every row, in order. */
  function Statuses(rows: seq<AssignmentRow>): (s: seq<Option<string>>)
    ensures |s| == |rows| && forall i :: 0 <= i < |rows| ==> s[i] == rows[i].status
  {
    seq(|rows|, i requires 0 <= i < |rows| => rows[i].status)
  }

  /** The count is exactly the number of rows carrying that status. */
  lemma {:induction false} StatusCountIsMultiplicity(rows: seq<AssignmentRow>, status: string)
    ensures StatusCount(rows, status) == multiset(Statuses(rows))[Some(status)]
  {
    if rows != [] {
      StatusCountIsMultiplicity(rows[1..], status);
      assert Statuses(rows) == [rows[0].status] + Statuses(rows[1..]);
    }
  }

  /** Rows whose status is none of the three named ones (null included): the
      rows that fall in the chart's "Scheduled" slice. */
  function OtherCount(rows: seq<AssignmentRow>): (n: nat)
    ensures n <= |rows|
  {
    if rows == [] then 0
    else
      OtherCount(rows[1..])
      + (if SliceOf(rows[0].status) == ScheduledSlice then 1 else 0)
  }

  /** Every row is counted exactly once: as completed, in progress, delayed or
      other. */
  lemma {:induction false} StatusesPartitionRows(rows: seq<AssignmentRow>)
    ensures StatusCount(rows, Completed) + StatusCount(rows, InProgress) + StatusCount(rows, Delayed)
            + OtherCount(rows) == |rows|
  {
    if rows != [] {
      StatusesPartitionRows(rows[1..]);
    }
  }

  /** The counts the dashboard keeps. */
  datatype Counts = Counts(total: nat, completed: nat, inProgress: nat, delayed: nat)

  /** `assignments?.length || 0` and `assignments?.filter(...).length || 0` for
      the three statuses: a null list counts as no rows. */
  function CountsOf(data: Option<seq<AssignmentRow>>): (c: Counts)
    ensures data.None? ==> c == Counts(0, 0, 0, 0)
    ensures c.completed + c.inProgress + c.delayed <= c.total
  {
    match data
    case None => Counts(0, 0, 0, 0)
    case Some(rows) =>
      StatusesPartitionRows(rows);
      Counts(|rows|, StatusCount(rows, Completed), StatusCount(rows, InProgress), StatusCount(rows, Delayed))
  }

  /* ---------------------------------------------------------------- rate */

  /** `total > 0 ? (completed / total) * 100 : 0` */
  function OnTimeRate(c: Counts): (r: real)
    ensures c.total == 0 ==> r == 0.0
    ensures 0.0 <= r
    ensures c.completed <= c.total ==> r <= 100.0
    ensures c.total > 0 ==> (r == 100.0 <==> c.completed == c.total)
    ensures r == 0.0 <==> c.total == 0 || c.completed == 0
  {
    if c.total > 0 then
      var q := c.completed as real / c.total as real;
      assert q * c.total as real == c.completed as real;
      q * 100.0
    else 0.0
  }

  /** On real rows the rate lies in [0, 100]; it is 100 exactly when there are
      rows and every one is completed, and 0 exactly when none is. */
  lemma RateOfRows(rows: seq<AssignmentRow>)
    ensures var r := OnTimeRate(CountsOf(Some(rows)));
      && 0.0 <= r <= 100.0
      && (r == 100.0 <==> |rows| > 0 && forall i :: 0 <= i < |rows| ==> rows[i].status == Some(Completed))
      && (r == 0.0 <==> forall i :: 0 <= i < |rows| ==> rows[i].status != Some(Completed))
  {
    var c := CountsOf(Some(rows));
    assert c.completed == StatusCount(rows, Completed);
  }

  /* -------------------------------------------------------- status chart */

  /** The slices of the status pie chart, in the chart's order. */
  datatype Slice = CompletedSlice | InProgressSlice | DelayedSlice | ScheduledSlice

  /** The slice a row with this status is counted in: the three named statuses
      have their own slice and every other status falls in "Scheduled". */
  function SliceOf(status: Option<string>): Slice {
    if status == Some(Completed) then CompletedSlice
    else if status == Some(InProgress) then InProgressSlice
    else if status == Some(Delayed) then DelayedSlice
    else ScheduledSlice
  }

  /** The chart's `backgroundColor` for each slice. */
  function SliceColour(s: Slice): string {
    match s
    case CompletedSlice => "#10B981"
    case InProgressSlice => "#F59E0B"
    case DelayedSlice => "#EF4444"
    case ScheduledSlice => "#3B82F6"
  }

  /** `Math.max(0, total - completed - inProgress - delayed)` */
  function ScheduledSize(c: Counts): (s: nat)
    ensures c.completed + c.inProgress + c.delayed + s >= c.total
    ensures c.completed + c.inProgress + c.delayed <= c.total ==>
      c.completed + c.inProgress + c.delayed + s == c.total
    ensures c.completed + c.inProgress + c.delayed >= c.total ==> s == 0
  {
    var rest := c.total - c.completed - c.inProgress - c.delayed;
    if rest > 0 then rest else 0
  }

  /** The four slices computed from rows sum to the number of rows, and the
      "Scheduled" slice is exactly the rows with any other status. */
  lemma {:induction false} SlicesSumToTotal(data: Option<seq<AssignmentRow>>)
    ensures var c := CountsOf(data);
      c.completed + c.inProgress + c.delayed + ScheduledSize(c) == c.total
    ensures data.Some? ==> ScheduledSize(CountsOf(data)) == OtherCount(data.value)
  {
    if data.Some? {
      StatusesPartitionRows(data.value);
    }
  }

  /* ---------------------------------------------------------- render gate */

  /** What an analytics view renders. */
  datatype Screen = Spinner | ErrorScreen(message: string) | Content

  /** `if (loading) ... if (error) ...`: both analytics views show the spinner
      while loading, then the error card while there is a non-empty message,
      and only otherwise their figures. */
  function ScreenOf(loading: bool, error: Option<string>): (v: Screen)
    ensures v == Spinner <==> loading
    ensures v == Content <==> !loading && (error.None? || error.value == "")
    ensures v.ErrorScreen? ==> !loading && error == Some(v.message) && v.message != ""
  {
    if loading then Spinner
    else if error.Some? && error.value != "" then ErrorScreen(error.value)
    else Content
  }
}
