/** The due check of `QueryScheduler`: which enabled queries should run now,
    given the recorded last runs and a cron evaluator.

    NCrontab is an input: whether an expression parses, and the next
    occurrence strictly after a given time. */
module Scheduler {
  import opened Base
  import opened Config
  import opened StateManager

  datatype Cron = Cron(parses: string -> bool, nextOccurrence: (string, Time) -> Time)

  /** `IsQueryDue`: the cron expression is parsed first, and a parse failure
      is caught and reported as "not due". A query that never ran is due
      exactly when it runs on start-up; otherwise it is due once `now` has
      reached the first occurrence after its last run. The state is only read. */
  function IsQueryDue(q: QueryConfig, st: QueryState, now: Time, cron: Cron): (r: bool)
    ensures !cron.parses(q.cron) ==> !r
    ensures cron.parses(q.cron) && q.name !in st.lastRunTimes ==> (r <==> q.runOnStartup)
    ensures cron.parses(q.cron) && q.name in st.lastRunTimes ==>
      (r <==> now >= cron.nextOccurrence(q.cron, st.lastRunTimes[q.name]))
  {
    if !cron.parses(q.cron) then false
    else
      match GetLastRun(st, q.name)
      case None => q.runOnStartup
      case Some(last) => now >= cron.nextOccurrence(q.cron, last)
  }

  /** `GetNextRun`: the next occurrence after the clock reading `clockNow`,
      whatever the last run was. The parse is not guarded: a malformed
      expression raises. */
  function GetNextRun(q: QueryConfig, cron: Cron, clockNow: Time): (r: Result<Time>)
    ensures r.Ok? <==> cron.parses(q.cron)
    ensures r.Ok? ==> r.value == cron.nextOccurrence(q.cron, clockNow)
  {
    if cron.parses(q.cron) then Ok(cron.nextOccurrence(q.cron, clockNow))
    else Err(Raise(Other("CrontabException"), "invalid cron expression '" + q.cron + "'"))
  }

  /** `a` is `b` with some elements left out, in the same order. */
  predicate IsSubsequence<T(==)>(a: seq<T>, b: seq<T>)
    decreases |b|
  {
    |a| == 0 || (|b| > 0 && ((a[0] == b[0] && IsSubsequence(a[1..], b[1..])) || IsSubsequence(a, b[1..])))
  }

  /** Only enabled queries are examined. */
  predicate IsDueNow(q: QueryConfig, st: QueryState, now: Time, cron: Cron) {
    q.enabled && IsQueryDue(q, st, now, cron)
  }

  /** `GetDueQueriesAsync` over the configured queries, with the single clock
      reading `now` used for every due check. A query that is not due has its
      next run computed (only for the log, so the clock reading it takes does
      not matter here), and that computation raises on a malformed cron
      expression, aborting the whole scan. */
  function GetDueQueries(queries: seq<QueryConfig>, st: QueryState, now: Time, cron: Cron): (r: Result<seq<QueryConfig>>)
    ensures r.Err? <==> exists i :: 0 <= i < |queries| && queries[i].enabled && !cron.parses(queries[i].cron)
    ensures r.Ok? ==> IsSubsequence(r.value, queries)
    ensures r.Ok? ==> forall x :: x in r.value ==> IsDueNow(x, st, now, cron)
    ensures r.Ok? ==> forall i :: 0 <= i < |queries| && IsDueNow(queries[i], st, now, cron) ==> queries[i] in r.value
    decreases |queries|
  {
    if |queries| == 0 then Ok([])
    else
      var q := queries[0];
      var rest := GetDueQueries(queries[1..], st, now, cron);
      assert forall i :: 1 <= i < |queries| ==> queries[i] == queries[1..][i - 1];
      if !q.enabled then rest
      else if IsQueryDue(q, st, now, cron) then
        match rest
        case Err(e) => Err(e)
        case Ok(due) => Ok([q] + due)
      else
        match GetNextRun(q, cron, now)
        case Err(e) => Err(e)
        case Ok(_) => rest
  }

  /** The listed properties of a due scan that succeeded, for one query that
      never ran: with a well-formed cron it is in the list exactly when it is
      enabled and runs on start-up. */
  lemma NeverRunQueryDueOnStartup(queries: seq<QueryConfig>, st: QueryState, now: Time, cron: Cron, i: nat)
    requires i < |queries|
    requires cron.parses(queries[i].cron) && queries[i].name !in st.lastRunTimes
    requires GetDueQueries(queries, st, now, cron).Ok?
    ensures queries[i].enabled && queries[i].runOnStartup ==> queries[i] in GetDueQueries(queries, st, now, cron).value
    ensures queries[i] in GetDueQueries(queries, st, now, cron).value ==> queries[i].enabled && queries[i].runOnStartup
  {
  }
}
