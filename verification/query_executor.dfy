/** `QueryExecutor`: one scheduled run of a query. Each attempt resolves the
    query text, substitutes its variables, runs it, delivers the rows and,
    when all of that succeeded, records the run time and saves the state.
    A failed attempt is retried after the endpoint's backoff delay unless its
    error marks the query itself as invalid; when every attempt failed, the
    query's failure policy decides what happens.

    Everything an attempt reads from outside is an input indexed by the
    attempt number: the query file, the database, the variable inputs, the
    HTTP answers, the clock at the recording and the outcome of the save.
    The failure policy's own reading of the query text uses index 0. */
module QueryExecutor {
  import opened Base
  import opened Text
  import opened Config
  import opened Backoff
  import opened StateManager
  import opened HttpService
  import opened AlertService
  import opened VariableReplacer
  import opened DatabaseService
  import opened QueryText

  // ------------------------------------------------------ invalid queries

  /** `IsInvalidQuery`: the lower-cased message contains one of the markers. */
  function IsInvalidQuery(ex: Exception): bool {
    var m := Lower(ex.message);
    || Contains(m, "syntax error")
    || (Contains(m, "table") && Contains(m, "doesn't exist"))
    || (Contains(m, "column") && Contains(m, "doesn't exist"))
    || Contains(m, "unknown column")
    || Contains(m, "unknown table")
    || Contains(m, "invalid object name")
    || Contains(m, "incorrect syntax")
    || (Contains(m, "driver") && Contains(m, "not found"))
  }

  /** The same test stated with substring occurrence. */
  ghost predicate InvalidQueryMessage(m: string) {
    || Occurs(m, "syntax error")
    || (Occurs(m, "table") && Occurs(m, "doesn't exist"))
    || (Occurs(m, "column") && Occurs(m, "doesn't exist"))
    || Occurs(m, "unknown column")
    || Occurs(m, "unknown table")
    || Occurs(m, "invalid object name")
    || Occurs(m, "incorrect syntax")
    || (Occurs(m, "driver") && Occurs(m, "not found"))
  }

  /** An error marks the query invalid exactly when its lower-cased message
      has one of the marker substrings (or marker pairs). */
  lemma IsInvalidQueryMeansMarker(ex: Exception)
    ensures IsInvalidQuery(ex) <==> InvalidQueryMessage(Lower(ex.message))
  {
    var m := Lower(ex.message);
    ContainsMeansOccurs(m, "syntax error");
    ContainsMeansOccurs(m, "table");
    ContainsMeansOccurs(m, "doesn't exist");
    ContainsMeansOccurs(m, "column");
    ContainsMeansOccurs(m, "unknown column");
    ContainsMeansOccurs(m, "unknown table");
    ContainsMeansOccurs(m, "invalid object name");
    ContainsMeansOccurs(m, "incorrect syntax");
    ContainsMeansOccurs(m, "driver");
    ContainsMeansOccurs(m, "not found");
  }

  lemma {:induction false} LowerIdempotent(s: string)
    ensures Lower(Lower(s)) == Lower(s)
  {
    var l := Lower(s);
    assert forall i :: 0 <= i < |l| ==> Lower(l)[i] == LowerChar(l[i]) == l[i];
  }

  /** The test ignores the case of ASCII letters. */
  lemma InvalidQueryIgnoresCase(ex: Exception, ex': Exception)
    requires Lower(ex.message) == Lower(ex'.message)
    ensures IsInvalidQuery(ex) == IsInvalidQuery(ex')
  {
  }

  /** Lower-casing the message first does not change the verdict. */
  lemma InvalidQueryOfLowered(ex: Exception)
    ensures IsInvalidQuery(ex) == IsInvalidQuery(ex.(message := Lower(ex.message)))
  {
    LowerIdempotent(ex.message);
  }

  // -------------------------------------------------------------- inputs

  /** The inputs of the failure alerts. */
  datatype AlertInputs = AlertInputs(
    now: Time,
    sentAt: Time,
    stamp: string,
    saveFault: SaveFault,
    post: SlackMessage -> Response,
    htmlEncode: string -> string,
    send: EmailMessage -> Option<Exception>)

  /** The outside world as seen by attempt `k` of a run. */
  datatype World<!V> = World(
    readFile: nat -> FileReader,
    variables: nat -> Inputs,
    run: nat -> QueryRunner<V>,
    json: Json<Row<V>>,
    respond: nat -> ((nat, nat) -> Response),
    clock: nat -> Time,
    saveFault: nat -> SaveFault,
    alert: AlertInputs)

  /** The settings the services read and where the state is kept. */
  datatype Context = Context(settings: Settings, file: StateFile)

  predicate ValidContext(ctx: Context) {
    forall j :: 0 <= j < |ctx.settings.endpoints| ==> RetryPolicyInRange(ctx.settings.endpoints[j])
  }

  ghost predicate ValidWorld<V>(world: World<V>) {
    forall k :: IsDateTime(world.variables(k).now)
  }

  /** The in-memory state and the disk. */
  datatype Store = Store(st: QueryState, disk: Disk)

  // ----------------------------------------------------- a single attempt

  /** What the body of one attempt did: the delivery, when it got that far. */
  datatype AttemptBody<V> = AttemptBody(delivery: Option<Delivery<Row<V>>>, result: Result<Unit>)

  /** `ExecuteSingleAttemptAsync`: text, variables, rows, then delivery,
      which is skipped for an empty result unless the endpoint asks for it. */
  function SingleAttempt<V>(q: QueryConfig, e: EndpointConfig, ctx: Context, st: QueryState, world: World<V>, k: nat): (r: AttemptBody<V>)
    requires ValidContext(ctx) && ValidWorld(world)
    ensures r.delivery.Some? ==> r.result == r.delivery.value.result
    ensures r.result.Ok? && r.delivery.None? ==> !e.sendRequestIfNoResults
  {
    match GetQueryText(q, world.readFile(k))
    case Err(x) => AttemptBody(None, Err(x))
    case Ok(text) =>
      match Replace(text, q.name, st, world.variables(k))
      case Err(x) => AttemptBody(None, Err(x))
      case Ok(processed) =>
        match DatabaseService.ExecuteQuery(ctx.settings.databases, q.database, processed, q.timeoutSeconds, q.maxRows, world.run(k))
        case Err(x) => AttemptBody(None, Err(x))
        case Ok(rows) =>
          if |rows| == 0 && !e.sendRequestIfNoResults then AttemptBody(None, Ok(Unit))
          else
            var d := SendData(ctx.settings.endpoints, q.endpoint, rows, q.payloadFormat, world.json, world.respond(k));
            AttemptBody(Some(d), d.result)
  }

  /** An empty result is delivered exactly when the endpoint asks for it. */
  lemma EmptyResultSkipsDelivery<V>(q: QueryConfig, e: EndpointConfig, ctx: Context, st: QueryState, world: World<V>, k: nat, text: string, processed: string)
    requires ValidContext(ctx) && ValidWorld(world)
    requires GetQueryText(q, world.readFile(k)) == Ok(text)
    requires Replace(text, q.name, st, world.variables(k)) == Ok(processed)
    requires DatabaseService.ExecuteQuery(ctx.settings.databases, q.database, processed, q.timeoutSeconds, q.maxRows, world.run(k)) == Ok([])
    ensures SingleAttempt(q, e, ctx, st, world, k).delivery.None? <==> !e.sendRequestIfNoResults
    ensures !e.sendRequestIfNoResults ==> SingleAttempt(q, e, ctx, st, world, k).result.Ok?
  {
  }

  /** The inside of the `try` for one attempt: the body, the store after it,
      and the attempt's outcome (a successful body followed by a failing save
      is a failed attempt). */
  datatype Step<V> = Step(body: AttemptBody<V>, store: Store, outcome: Result<Unit>)

  /** The body, then on success the run time is set in memory and the state
      is saved. */
  function TryAttempt<V>(q: QueryConfig, e: EndpointConfig, ctx: Context, store: Store, world: World<V>, k: nat): (r: Step<V>)
    requires ValidContext(ctx) && ValidWorld(world)
    ensures r.body == SingleAttempt(q, e, ctx, store.st, world, k)
    ensures r.body.result.Err? ==> r.store == store && r.outcome == r.body.result
    ensures r.body.result.Ok? ==> r.store.st == SetLastRun(store.st, q.name, world.clock(k))
    ensures r.body.result.Ok? ==> r.outcome == Save(r.store.st, store.disk, ctx.file, world.saveFault(k)).result
  {
    var body := SingleAttempt(q, e, ctx, store.st, world, k);
    if body.result.Err? then Step(body, store, body.result)
    else
      var st' := SetLastRun(store.st, q.name, world.clock(k));
      var saved := Save(st', store.disk, ctx.file, world.saveFault(k));
      Step(body, Store(st', saved.disk), saved.result)
  }

  /** A failure that the loop retries while attempts remain. */
  predicate Retryable(outcome: Result<Unit>) {
    outcome.Err? && !IsInvalidQuery(outcome.error)
  }

  /** Whether the loop stops after attempt `k` with this outcome. */
  predicate Final(e: EndpointConfig, outcome: Result<Unit>, k: nat) {
    !Retryable(outcome) || k > e.retryAttempts
  }

  /** One attempt of the retry loop, as recorded: its number, the store it
      started from, what it did, and the wait taken after it. */
  datatype AttemptTrace<V> = AttemptTrace(attempt: nat, before: Store, step: Step<V>, waitAfter: Option<int>)

  datatype AttemptsRun<V> = AttemptsRun(attempts: seq<AttemptTrace<V>>, store: Store, result: Result<Unit>)

  /** What a run of the loop from attempt `k` and store `store` looks like:
      at most the attempts left, numbered on from `k`, each the body applied
      to the store the previous one left; every attempt but the last failed
      with a retryable error and was followed by its backoff delay; the run
      ends with the last attempt's outcome and store, and a failed run ended
      on a terminal error or on the final attempt. */
  ghost predicate LoopRun<V>(e: EndpointConfig, tryAt: (Store, nat) --> Step<V>, store: Store, k: nat, r: AttemptsRun<V>)
    requires RetryPolicyInRange(e) && 1 <= k
    requires forall s, j :: tryAt.requires(s, j)
  {
    && 1 <= |r.attempts| <= e.retryAttempts + 2 - k
    && r.attempts[0].before == store
    && (forall i :: 0 <= i < |r.attempts| ==>
          r.attempts[i].attempt == k + i && r.attempts[i].step == tryAt(r.attempts[i].before, k + i))
    && (forall i :: 1 <= i < |r.attempts| ==> r.attempts[i].before == r.attempts[i - 1].step.store)
    && (forall i :: 0 <= i < |r.attempts| - 1 ==>
          && Retryable(r.attempts[i].step.outcome)
          && r.attempts[i].waitAfter == Some(CalculateDelay(e.retryStrategy, e.backOffSeconds, k + i)))
    && r.attempts[|r.attempts| - 1].waitAfter.None?
    && r.result == r.attempts[|r.attempts| - 1].step.outcome
    && r.store == r.attempts[|r.attempts| - 1].step.store
    && (r.result.Err? ==> IsInvalidQuery(r.result.error) || r.attempts[|r.attempts| - 1].attempt == e.retryAttempts + 1)
  }

  /** A retried attempt in front of a run from the next attempt is a run
      from this attempt. */
  lemma PrependRetry<V>(e: EndpointConfig, tryAt: (Store, nat) --> Step<V>, store: Store, k: nat, rest: AttemptsRun<V>)
    requires RetryPolicyInRange(e) && 1 <= k <= e.retryAttempts
    requires forall s, j :: tryAt.requires(s, j)
    requires !Final(e, tryAt(store, k).outcome, k)
    requires LoopRun(e, tryAt, tryAt(store, k).store, k + 1, rest)
    ensures var t := AttemptTrace(k, store, tryAt(store, k), Some(CalculateDelay(e.retryStrategy, e.backOffSeconds, k)));
            LoopRun(e, tryAt, store, k, AttemptsRun([t] + rest.attempts, rest.store, rest.result))
  {
    var t := AttemptTrace(k, store, tryAt(store, k), Some(CalculateDelay(e.retryStrategy, e.backOffSeconds, k)));
    var out := [t] + rest.attempts;
    forall i | 1 <= i < |out| ensures out[i] == rest.attempts[i - 1] {}
    forall i | 0 <= i < |out| ensures out[i].attempt == k + i && out[i].step == tryAt(out[i].before, k + i) {
      if i > 0 { assert out[i] == rest.attempts[i - 1]; }
    }
    forall i | 1 <= i < |out| ensures out[i].before == out[i - 1].step.store {
      if i > 1 { assert out[i - 1] == rest.attempts[i - 2]; }
    }
    forall i | 0 <= i < |out| - 1
      ensures Retryable(out[i].step.outcome) && out[i].waitAfter == Some(CalculateDelay(e.retryStrategy, e.backOffSeconds, k + i))
    {
      if i > 0 { assert out[i] == rest.attempts[i - 1]; }
    }
    assert out[|out| - 1] == rest.attempts[|rest.attempts| - 1];
  }

  /** The `while` loop from attempt `k` on, for any attempt body `tryAt`:
      stop at the first successful attempt or at an invalid-query error;
      after any other failure wait the backoff delay if attempts remain,
      else give up with that error. Each attempt starts from the store the
      previous one left. */
  function AttemptsFrom<V>(e: EndpointConfig, tryAt: (Store, nat) --> Step<V>, store: Store, k: nat): (r: AttemptsRun<V>)
    requires RetryPolicyInRange(e) && 1 <= k <= e.retryAttempts + 1
    requires forall s, j :: tryAt.requires(s, j)
    ensures LoopRun(e, tryAt, store, k, r)
    decreases e.retryAttempts + 1 - k
  {
    var step := tryAt(store, k);
    if Final(e, step.outcome, k) then
      AttemptsRun([AttemptTrace(k, store, step, None)], step.store, step.outcome)
    else
      var rest := AttemptsFrom(e, tryAt, step.store, k + 1);
      PrependRetry(e, tryAt, store, k, rest);
      AttemptsRun([AttemptTrace(k, store, step, Some(CalculateDelay(e.retryStrategy, e.backOffSeconds, k)))] + rest.attempts,
                  rest.store, rest.result)
  }

  /** The attempt body of a query run. */
  function QueryAttempt<V>(q: QueryConfig, e: EndpointConfig, ctx: Context, world: World<V>): (r: (Store, nat) --> Step<V>)
    requires ValidContext(ctx) && ValidWorld(world)
    ensures forall s, j :: r.requires(s, j) && r(s, j) == TryAttempt(q, e, ctx, s, world, j)
  {
    (s: Store, j: nat) => TryAttempt(q, e, ctx, s, world, j)
  }

  // --------------------------------------------------------- the failure

  datatype AlertSent = SlackSent(slack: SlackMessage) | EmailSent(email: EmailMessage)

  datatype FailureRun = FailureRun(alert: Option<AlertSent>, store: Store, result: Result<Unit>)

  /** What an alert call reads at the time of the failure: the current
      alert settings, the state file and the alert clock. */
  function AlertEnvOf(ctx: Context, a: AlertInputs): AlertEnv {
    AlertEnv(ctx.settings.alerts, ctx.file, a.now, a.sentAt, a.stamp, a.saveFault)
  }

  /** `HandleQueryFailureAsync`: the query text is read again (the raw text,
      before variable substitution; this read may itself raise), then the
      failure policy applies: an alert on the chosen channel, `Halt` rethrows
      the last error, and any other policy only logs. */
  function HandleQueryFailure<V>(q: QueryConfig, ex: Exception, ctx: Context, store: Store, world: World<V>): (r: FailureRun)
    requires ValidContext(ctx)
    ensures GetQueryText(q, world.readFile(0)).Err? ==> r == FailureRun(None, store, GetQueryText(q, world.readFile(0)).PropagateFailure())
    ensures GetQueryText(q, world.readFile(0)).Ok? && q.onFailure.Halt? ==> r == FailureRun(None, store, Err(ex))
    ensures GetQueryText(q, world.readFile(0)).Ok? && (q.onFailure.LogAndContinue? || q.onFailure.UnlistedAction?) ==>
      r == FailureRun(None, store, Ok(Unit))
    ensures GetQueryText(q, world.readFile(0)).Ok? && q.onFailure.SlackAlert? ==>
      var s := SendSlackAlert(q, GetQueryText(q, world.readFile(0)).value, ex, store.st, store.disk,
                              AlertEnvOf(ctx, world.alert), world.alert.post);
      && (r.alert.Some? <==> s.sent.Some?)
      && (s.sent.Some? ==> r.alert.value == SlackSent(s.sent.value))
      && r.store == Store(s.st, s.disk) && r.result == s.result
    ensures GetQueryText(q, world.readFile(0)).Ok? && q.onFailure.EmailAlert? ==>
      var m := SendEmailAlert(q, GetQueryText(q, world.readFile(0)).value, ex, store.st, store.disk,
                              AlertEnvOf(ctx, world.alert), world.alert.htmlEncode, world.alert.send);
      && (r.alert.Some? <==> m.sent.Some?)
      && (m.sent.Some? ==> r.alert.value == EmailSent(m.sent.value))
      && r.store == Store(m.st, m.disk) && r.result == m.result
    ensures r.alert.Some? && r.alert.value.SlackSent? ==> q.onFailure.SlackAlert?
    ensures r.alert.Some? && r.alert.value.EmailSent? ==> q.onFailure.EmailAlert?
    ensures r.alert.Some? ==> GetQueryText(q, world.readFile(0)).Ok?
  {
    match GetQueryText(q, world.readFile(0))
    case Err(x) => FailureRun(None, store, Err(x))
    case Ok(text) =>
      var a := world.alert;
      var env := AlertEnvOf(ctx, a);
      match q.onFailure
      case SlackAlert =>
        var s := SendSlackAlert(q, text, ex, store.st, store.disk, env, a.post);
        FailureRun(if s.sent.Some? then Some(SlackSent(s.sent.value)) else None, Store(s.st, s.disk), s.result)
      case EmailAlert =>
        var m := SendEmailAlert(q, text, ex, store.st, store.disk, env, a.htmlEncode, a.send);
        FailureRun(if m.sent.Some? then Some(EmailSent(m.sent.value)) else None, Store(m.st, m.disk), m.result)
      case Halt => FailureRun(None, store, Err(ex))
      case _ => FailureRun(None, store, Ok(Unit))
  }

  /** Alerts carry the query text as written, not as substituted. */
  lemma AlertCarriesRawText<V>(q: QueryConfig, ex: Exception, ctx: Context, store: Store, world: World<V>)
    requires ValidContext(ctx)
    requires HandleQueryFailure(q, ex, ctx, store, world).alert.Some?
    requires HandleQueryFailure(q, ex, ctx, store, world).alert.value.SlackSent?
    ensures var text := GetQueryText(q, world.readFile(0)).value;
            HandleQueryFailure(q, ex, ctx, store, world).alert.value.slack.querySection == "*Query:*\n```sql\n" + text + "\n```"
  {
  }

  // ------------------------------------------------------------- the run

  datatype ExecutionRun<V> = ExecutionRun(attempts: seq<AttemptTrace<V>>, alert: Option<AlertSent>, store: Store, result: Result<Unit>)

  /** The attempts of a run on endpoint `e`, from attempt 1. */
  function QueryAttempts<V>(q: QueryConfig, e: EndpointConfig, ctx: Context, store: Store, world: World<V>): AttemptsRun<V>
    requires ValidContext(ctx) && ValidWorld(world) && RetryPolicyInRange(e)
  {
    AttemptsFrom(e, QueryAttempt(q, e, ctx, world), store, 1)
  }

  /** `ExecuteQueryAsync`: an unknown endpoint raises before any attempt;
      otherwise the attempts run, and if none succeeded the failure is
      handled with the last attempt's error. */
  function ExecuteQuery<V>(q: QueryConfig, ctx: Context, store: Store, world: World<V>): (r: ExecutionRun<V>)
    requires ValidContext(ctx) && ValidWorld(world)
    ensures FindEndpoint(ctx.settings.endpoints, q.endpoint).None? ==>
      r == ExecutionRun([], None, store, Err(Raise(InvalidOperation, "Endpoint '" + q.endpoint + "' not found")))
    ensures FindEndpoint(ctx.settings.endpoints, q.endpoint).Some? ==>
      var e := FindEndpoint(ctx.settings.endpoints, q.endpoint).value;
      && RetryPolicyInRange(e)
      && var run := QueryAttempts(q, e, ctx, store, world);
      && r.attempts == run.attempts
      && (run.result.Ok? ==> r == ExecutionRun(run.attempts, None, run.store, Ok(Unit)))
      && (run.result.Err? ==>
            var f := HandleQueryFailure(q, run.result.error, ctx, run.store, world);
            r == ExecutionRun(run.attempts, f.alert, f.store, f.result))
  {
    match FindEndpoint(ctx.settings.endpoints, q.endpoint)
    case None => ExecutionRun([], None, store, Err(Raise(InvalidOperation, "Endpoint '" + q.endpoint + "' not found")))
    case Some(e) =>
      assert e in ctx.settings.endpoints;
      var run := QueryAttempts(q, e, ctx, store, world);
      if run.result.Ok? then ExecutionRun(run.attempts, None, run.store, Ok(Unit))
      else
        var f := HandleQueryFailure(q, run.result.error, ctx, run.store, world);
        ExecutionRun(run.attempts, f.alert, f.store, f.result)
  }

  // ---------------------------------------------------------- properties

  /** The retry budget: at most `RetryAttempts + 1` attempts, numbered from
      1, each failed attempt before the last followed by the backoff delay;
      the run gives up early only on an invalid-query error. */
  lemma RetryBudget<V>(q: QueryConfig, ctx: Context, store: Store, world: World<V>)
    requires ValidContext(ctx) && ValidWorld(world)
    requires FindEndpoint(ctx.settings.endpoints, q.endpoint).Some?
    ensures var e := FindEndpoint(ctx.settings.endpoints, q.endpoint).value;
            var r := ExecuteQuery(q, ctx, store, world);
            && 1 <= |r.attempts| <= e.retryAttempts + 1
            && (forall i :: 0 <= i < |r.attempts| ==> r.attempts[i].attempt == i + 1)
            && (forall i :: 0 <= i < |r.attempts| - 1 ==>
                  r.attempts[i].waitAfter == Some(CalculateDelay(e.retryStrategy, e.backOffSeconds, i + 1)))
            && (r.attempts[|r.attempts| - 1].step.outcome.Err? && |r.attempts| < e.retryAttempts + 1 ==>
                  IsInvalidQuery(r.attempts[|r.attempts| - 1].step.outcome.error))
  {
  }

  /** Every attempt after the first starts from the state the previous one
      left: a successful attempt's run time is visible to the next attempt's
      `{LastRun}`. */
  lemma AttemptsChainState<V>(q: QueryConfig, e: EndpointConfig, ctx: Context, store: Store, world: World<V>, i: nat)
    requires ValidContext(ctx) && ValidWorld(world) && RetryPolicyInRange(e)
    requires 1 <= i < |QueryAttempts(q, e, ctx, store, world).attempts|
    ensures var a := QueryAttempts(q, e, ctx, store, world).attempts;
            a[i].step.body == SingleAttempt(q, e, ctx, a[i - 1].step.store.st, world, i + 1)
  {
    var a := QueryAttempts(q, e, ctx, store, world).attempts;
    assert a[i].step == QueryAttempt(q, e, ctx, world)(a[i].before, 1 + i);
  }

  /** When the attempts succeed the run time of the successful attempt is
      recorded, and no alert is sent. */
  lemma SuccessRecordsRunTime<V>(q: QueryConfig, ctx: Context, store: Store, world: World<V>)
    requires ValidContext(ctx) && ValidWorld(world)
    requires FindEndpoint(ctx.settings.endpoints, q.endpoint).Some?
    requires RetryPolicyInRange(FindEndpoint(ctx.settings.endpoints, q.endpoint).value)
    ensures var e := FindEndpoint(ctx.settings.endpoints, q.endpoint).value;
            var r := ExecuteQuery(q, ctx, store, world);
            QueryAttempts(q, e, ctx, store, world).result.Ok? ==>
              && r.alert.None?
              && GetLastRun(r.store.st, q.name) == Some(world.clock(|r.attempts|))
  {
    var e := FindEndpoint(ctx.settings.endpoints, q.endpoint).value;
    var run := QueryAttempts(q, e, ctx, store, world);
    if run.result.Ok? {
      var n := |run.attempts|;
      var last := run.attempts[n - 1];
      assert last.step == TryAttempt(q, e, ctx, last.before, world, n);
    }
  }

  /** A run that gives up under `Halt` raises the last attempt's error and
      sends no alert. */
  lemma HaltRethrowsLastError<V>(q: QueryConfig, ctx: Context, store: Store, world: World<V>)
    requires ValidContext(ctx) && ValidWorld(world)
    requires q.onFailure.Halt?
    requires FindEndpoint(ctx.settings.endpoints, q.endpoint).Some?
    requires GetQueryText(q, world.readFile(0)).Ok?
    ensures var r := ExecuteQuery(q, ctx, store, world);
            r.result.Err? ==> r.alert.None? && r.attempts[|r.attempts| - 1].step.outcome == r.result
  {
    var e := FindEndpoint(ctx.settings.endpoints, q.endpoint).value;
    var run := QueryAttempts(q, e, ctx, store, world);
    if run.result.Err? {
      var f := HandleQueryFailure(q, run.result.error, ctx, run.store, world);
      assert f == FailureRun(None, run.store, Err(run.result.error));
    }
  }

  /** Attempts whose bodies all failed hand each other the store they were
      given: the run ends with the store it started from. */
  lemma {:induction false} FailedBodiesKeepStore<V>(q: QueryConfig, e: EndpointConfig, ctx: Context, store: Store, world: World<V>)
    requires ValidContext(ctx) && ValidWorld(world) && RetryPolicyInRange(e)
    ensures var r := QueryAttempts(q, e, ctx, store, world);
            (forall i :: 0 <= i < |r.attempts| ==> r.attempts[i].step.body.result.Err?) ==> r.store == store
  {
    var r := QueryAttempts(q, e, ctx, store, world);
    if forall i :: 0 <= i < |r.attempts| ==> r.attempts[i].step.body.result.Err? {
      var i := 0;
      while i < |r.attempts|
        invariant 0 <= i <= |r.attempts|
        invariant i > 0 ==> r.attempts[i - 1].step.store == store
        invariant i == 0 || i == |r.attempts| || r.attempts[i].before == store
      {
        assert r.attempts[i].before == store;
        assert r.attempts[i].step == TryAttempt(q, e, ctx, r.attempts[i].before, world, 1 + i);
        i := i + 1;
      }
    }
  }

  /** The run times are written only on the success path of an attempt: a
      run in which no attempt's body succeeded leaves every query's last run
      as it was, alerts and all. */
  lemma FailedRunKeepsRunTimes<V>(q: QueryConfig, ctx: Context, store: Store, world: World<V>)
    requires ValidContext(ctx) && ValidWorld(world)
    ensures var r := ExecuteQuery(q, ctx, store, world);
            (forall i :: 0 <= i < |r.attempts| ==> r.attempts[i].step.body.result.Err?) ==>
              r.store.st.lastRunTimes == store.st.lastRunTimes
  {
    var r := ExecuteQuery(q, ctx, store, world);
    if FindEndpoint(ctx.settings.endpoints, q.endpoint).Some? {
      var e := FindEndpoint(ctx.settings.endpoints, q.endpoint).value;
      var run := QueryAttempts(q, e, ctx, store, world);
      FailedBodiesKeepStore(q, e, ctx, store, world);
      if run.result.Err? {
        FailurePolicyKeepsRunTimes(q, run.result.error, ctx, run.store, world);
      }
      if (forall i :: 0 <= i < |r.attempts| ==> r.attempts[i].step.body.result.Err?) {
        var last := run.attempts[|run.attempts| - 1];
        assert last.step == TryAttempt(q, e, ctx, last.before, world, |run.attempts|);
        assert run.result.Err?;
      }
    }
  }

  /** The failure policy writes alert times only: every query's last run
      is as it was. */
  lemma FailurePolicyKeepsRunTimes<V>(q: QueryConfig, ex: Exception, ctx: Context, store: Store, world: World<V>)
    requires ValidContext(ctx)
    ensures HandleQueryFailure(q, ex, ctx, store, world).store.st.lastRunTimes == store.st.lastRunTimes
  {
  }

  /** A delivery that succeeded but whose state save failed counts as a
      failed attempt, so with a retry left the query runs and delivers again. */
  lemma SaveFailureRepeatsDelivery<V>(q: QueryConfig, e: EndpointConfig, ctx: Context, store: Store, world: World<V>, msg: string)
    requires ValidContext(ctx) && ValidWorld(world) && RetryPolicyInRange(e)
    requires e.retryAttempts >= 1
    requires SingleAttempt(q, e, ctx, store.st, world, 1).result.Ok?
    requires world.saveFault(1) == WriteFails(msg)
    requires !IsInvalidQuery(Raise(IO, msg))
    ensures var r := QueryAttempts(q, e, ctx, store, world);
            && |r.attempts| >= 2
            && r.attempts[0].step.body.result.Ok?
            && r.attempts[0].step.outcome == Err(Raise(IO, msg))
            && r.attempts[0].step.store.st == SetLastRun(store.st, q.name, world.clock(1))
            && r.attempts[1].attempt == 2
            && r.attempts[1].before.st == SetLastRun(store.st, q.name, world.clock(1))
            && r.attempts[1].step == TryAttempt(q, e, ctx, r.attempts[1].before, world, 2)
  {
    var r := QueryAttempts(q, e, ctx, store, world);
    assert r.attempts[0].step == TryAttempt(q, e, ctx, store, world, 1);
  }
}
