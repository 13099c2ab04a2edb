/** The simple analytics view: its state (the assignment rows, the loading flag
    and the error message), the load that fetches the rows, the figures it
    computes from them, and the card for the last optimisation run kept in the
    browser's storage. The query, the stored text and the JSON parser are
    parameters. */
module SimpleAnalytics {
  import opened Values
  import opened Records
  import opened Metrics

  class SimpleAnalyticsView {
    var assignments: seq<AssignmentRow>
    var loading: bool
    var error: Option<string>

    /** The view mounts with no rows, loading and without an error. */
    constructor()
      ensures assignments == [] && loading && error == None
    {
      assignments := [];
      loading := true;
      error := None;
    }

    /** What the view renders in its current state. */
    function View(): Screen
      reads this
    {
      ScreenOf(loading, error)
    }

    /** `loadData`. The error is cleared first; rows that arrive replace the
        list (null becoming the empty list); a database error is rethrown and,
        like any exception, only sets the message (or "Failed to load data"
        when it has none) and keeps the rows; loading ends after every
        attempt. */
    method LoadData(q: Query<AssignmentRow>)
      modifies this
      ensures !loading
      ensures q.Fetched? ==> assignments == RowsOr(q.data) && error == None
      ensures q.DbError? ==>
        assignments == old(assignments) && error == Some(OrElse(q.dbMessage, "Failed to load data"))
      ensures q.Rejected? ==>
        assignments == old(assignments) && error == Some(OrElse(q.exceptionMessage, "Failed to load data"))
      ensures View() == Content <==> q.Fetched?
    {
      loading := true;
      error := None;
      if q.DbError? {
        error := Some(OrElse(q.dbMessage, "Failed to load data"));
      } else if q.Rejected? {
        error := Some(OrElse(q.exceptionMessage, "Failed to load data"));
      } else {
        assignments := RowsOr(q.data);
      }
      loading := false;
    }
  }

  /* ---------------------------------------------------------- the figures */

  /** The four counts and the rate shown on the cards. */
  datatype Summary = Summary(counts: Counts, onTimeRate: real)

  /** `assignments.length`, the three `filter(...).length` counts and
      `total > 0 ? (completed / total) * 100 : 0`. */
  function SummaryOf(rows: seq<AssignmentRow>): (s: Summary)
    ensures s.counts.total == |rows|
    ensures s.counts.completed + s.counts.inProgress + s.counts.delayed <= s.counts.total
    ensures 0.0 <= s.onTimeRate <= 100.0
    ensures rows == [] ==> s.onTimeRate == 0.0
  {
    var c := CountsOf(Some(rows));
    Summary(c, OnTimeRate(c))
  }

  /** Each figure counts exactly the rows of its status, and the rows of no
      named status make up the rest of the total. */
  lemma {:induction false} SummaryCountsRows(rows: seq<AssignmentRow>)
    ensures var c := SummaryOf(rows).counts;
      && c.completed == multiset(Statuses(rows))[Some(Completed)]
      && c.inProgress == multiset(Statuses(rows))[Some(InProgress)]
      && c.delayed == multiset(Statuses(rows))[Some(Delayed)]
      && c.completed + c.inProgress + c.delayed + OtherCount(rows) == c.total
  {
    StatusCountIsMultiplicity(rows, Completed);
    StatusCountIsMultiplicity(rows, InProgress);
    StatusCountIsMultiplicity(rows, Delayed);
    StatusesPartitionRows(rows);
  }

  /* ------------------------------------------------ the optimisation card */

  /** The card shown for the last optimisation run. */
  datatype OptimizationCard = ResultsCard(stats: Json) | NoOptimizationCard

  /** `optimizationStats` is the stored text (`None` when nothing is stored)
      and `parse` is `JSON.parse` (`None` when it throws). The text is parsed
      only when it is a non-empty string; a parse failure is caught and leaves
      `stats` null; the results card needs both stored text and truthy stats. */
  function OptimizationCardFor(optimizationStats: Option<string>, parse: string -> Option<Json>): (card: OptimizationCard)
    ensures (optimizationStats.None? || optimizationStats == Some("")) ==> card == NoOptimizationCard
    ensures optimizationStats.Some? && parse(optimizationStats.value).None? ==> card == NoOptimizationCard
    ensures card.ResultsCard? ==>
      && optimizationStats.Some? && optimizationStats.value != ""
      && parse(optimizationStats.value) == Some(card.stats)
      && Truthy(card.stats)
    ensures (optimizationStats.Some? && optimizationStats.value != "" && parse(optimizationStats.value).Some?
             && Truthy(parse(optimizationStats.value).value)) ==> card.ResultsCard?
  {
    var hasOptimization := optimizationStats.Some? && optimizationStats.value != "";
    var stats: Option<Json> := if hasOptimization then parse(optimizationStats.value) else None;
    if hasOptimization && TruthyOpt(stats) then ResultsCard(stats.value) else NoOptimizationCard
  }
}
