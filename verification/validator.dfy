/** `ConfigurationValidator`: every configured object is checked against its
    data annotations, each database connection is probed, every query's
    references are checked, and all problems are collected, in visiting
    order, before a single `ValidationException` lists them.

    The ODBC connection probe, `File.Exists` and the `[Url]`/`[EmailAddress]`
    shape checks are inputs. */
module Validator {
  import opened Base
  import opened Text
  import opened Config
  import opened Backoff

  /** `Environment.NewLine` on the hosts QueryPush targets. */
  const NewLine: string := "\n"

  const FailureHeader: string := "Configuration validation failed:"

  /** The problems `ValidateQueryReferences` can report about one query. */
  datatype ReferenceError =
    | UnknownDatabase(query: string, database: string)
    | UnknownEndpoint(query: string, endpoint: string)
    | SlackMissing(query: string)
    | EmailMissing(query: string)
    | NoQuerySource(query: string)
    | BothQuerySources(query: string)
    | QueryFileMissing(query: string, file: string)

  /** One collected `ValidationResult`. */
  datatype ValidationError =
    | Annotation(field: FieldError)
    | DriverProblem(database: string, message: string)
    | ConnectionProblem(database: string, message: string)
    | Reference(ref: ReferenceError)

  /** The validation inputs: the annotation shape checks, opening an ODBC
      connection (the exception it raised, if any) and `File.Exists`. */
  datatype Probes = Probes(shapes: Shapes, openOdbc: DatabaseConfig -> Option<Exception>, fileExists: string -> bool)

  // --------------------------------------------------------------- messages

  /** The `ErrorMessage` of each result: the .NET default texts for the
      annotations, and the validator's own texts for the rest. */
  function FieldMessage(f: FieldError): string {
    match f
    case Required(n) => "The " + n + " field is required."
    case OutOfRange(n, lo, hi) => "The field " + n + " must be between " + IntToString(lo) + " and " + IntToString(hi) + "."
    case NotUrl(n) => "The " + n + " field is not a valid fully-qualified http, https, or ftp URL."
    case NotEmail(n) => "The " + n + " field is not a valid e-mail address."
    case TooFewItems(_, m) => m
  }

  function ReferenceMessage(r: ReferenceError): string {
    match r
    case UnknownDatabase(q, d) => "Query '" + q + "' references unknown database '" + d + "'"
    case UnknownEndpoint(q, e) => "Query '" + q + "' references unknown endpoint '" + e + "'"
    case SlackMissing(q) => "Query '" + q + "' uses SlackAlert but Slack configuration is missing"
    case EmailMissing(q) => "Query '" + q + "' uses EmailAlert but Email configuration is missing"
    case NoQuerySource(q) => "Query '" + q + "' must specify either QueryText or QueryFile"
    case BothQuerySources(q) => "Query '" + q + "' cannot specify both QueryText and QueryFile"
    case QueryFileMissing(q, f) => "Query '" + q + "' QueryFile '" + f + "' not found"
  }

  function Message(e: ValidationError): string {
    match e
    case Annotation(f) => FieldMessage(f)
    case DriverProblem(d, m) => "ODBC driver missing or invalid for database '" + d + "': " + m
    case ConnectionProblem(d, m) => "Cannot connect to database '" + d + "': " + m
    case Reference(r) => ReferenceMessage(r)
  }

  function Messages(errors: seq<ValidationError>): (r: seq<string>)
    ensures |r| == |errors|
    ensures forall i :: 0 <= i < |r| ==> r[i] == Message(errors[i])
  {
    if |errors| == 0 then [] else [Message(errors[0])] + Messages(errors[1..])
  }

  function Annotations(fs: seq<FieldError>): (r: seq<ValidationError>)
    ensures |r| == |fs|
  {
    if |fs| == 0 then [] else [Annotation(fs[0])] + Annotations(fs[1..])
  }

  /** The results of visiting each item in turn, appended. */
  function FlatMap<T, E>(xs: seq<T>, f: T -> seq<E>): seq<E>
    decreases |xs|
  {
    if |xs| == 0 then [] else f(xs[0]) + FlatMap(xs[1..], f)
  }

  // ------------------------------------------------------------ the checks

  /** `ValidateDatabaseConnection`: a connection that opens adds nothing; a
      failure whose message mentions "driver" in any letter case is reported
      as a driver problem, any other failure as a connection problem. */
  function ConnectionErrors(d: DatabaseConfig, openOdbc: DatabaseConfig -> Option<Exception>): (r: seq<ValidationError>)
    ensures openOdbc(d).None? <==> r == []
    ensures openOdbc(d).Some? ==>
      var m := openOdbc(d).value.message;
      && |r| == 1
      && (r[0].DriverProblem? <==> Occurs(Lower(m), "driver"))
      && (r[0].DriverProblem? || r[0].ConnectionProblem?)
      && r[0].database == d.name && r[0].message == m
  {
    match openOdbc(d)
    case None => []
    case Some(ex) =>
      ContainsMeansOccurs(Lower(ex.message), "driver");
      if Contains(Lower(ex.message), "driver") then [DriverProblem(d.name, ex.message)]
      else [ConnectionProblem(d.name, ex.message)]
  }

  /** One check's contribution: its error when the check fails. */
  function When(failed: bool, err: ReferenceError): (r: seq<ReferenceError>)
    ensures forall x :: x in r <==> failed && x == err
  {
    if failed then [err] else []
  }

  /** `ValidateQueryReferences`: seven independent checks, in order. */
  function ReferenceErrors(q: QueryConfig, s: Settings, fileExists: string -> bool): seq<ReferenceError> {
    When(FindDatabase(s.databases, q.database).None?, UnknownDatabase(q.name, q.database))
    + When(FindEndpoint(s.endpoints, q.endpoint).None?, UnknownEndpoint(q.name, q.endpoint))
    + When(q.onFailure.SlackAlert? && s.alerts.slack.None?, SlackMissing(q.name))
    + When(q.onFailure.EmailAlert? && s.alerts.email.None?, EmailMissing(q.name))
    + When(!HasText(q.queryText) && !HasText(q.queryFile), NoQuerySource(q.name))
    + When(HasText(q.queryText) && HasText(q.queryFile), BothQuerySources(q.name))
    + When(HasText(q.queryFile) && !fileExists(q.queryFile.value), QueryFileMissing(q.name, q.queryFile.GetOr("")))
  }

  function References(rs: seq<ReferenceError>): (r: seq<ValidationError>)
    ensures |r| == |rs|
  {
    if |rs| == 0 then [] else [Reference(rs[0])] + References(rs[1..])
  }

  /** One database: its annotations, then the connection probe. */
  function DatabaseItemErrors(d: DatabaseConfig, p: Probes): seq<ValidationError> {
    Annotations(DatabaseErrors(d)) + ConnectionErrors(d, p.openOdbc)
  }

  /** One endpoint: its annotations, then each header's. */
  function EndpointItemErrors(e: EndpointConfig, p: Probes): seq<ValidationError> {
    Annotations(EndpointErrors(e, p.shapes)) + HeadersErrors(e.headers)
  }

  function HeadersErrors(hs: seq<Header>): seq<ValidationError> {
    FlatMap(hs, HeaderVisit())
  }

  function HeaderVisit(): (f: Header -> seq<ValidationError>)
    ensures forall h :: f(h) == Annotations(HeaderErrors(h))
  {
    (h: Header) => Annotations(HeaderErrors(h))
  }

  /** One query: its annotations, then its references. */
  function QueryItemErrors(q: QueryConfig, s: Settings, p: Probes): seq<ValidationError> {
    Annotations(QueryErrors(q)) + References(ReferenceErrors(q, s, p.fileExists))
  }

  function DatabasesErrors(ds: seq<DatabaseConfig>, p: Probes): seq<ValidationError> {
    FlatMap(ds, DatabaseVisit(p))
  }

  function DatabaseVisit(p: Probes): (f: DatabaseConfig -> seq<ValidationError>)
    ensures forall d :: f(d) == DatabaseItemErrors(d, p)
  {
    (d: DatabaseConfig) => DatabaseItemErrors(d, p)
  }

  function EndpointsErrors(es: seq<EndpointConfig>, p: Probes): seq<ValidationError> {
    FlatMap(es, EndpointVisit(p))
  }

  function EndpointVisit(p: Probes): (f: EndpointConfig -> seq<ValidationError>)
    ensures forall e :: f(e) == EndpointItemErrors(e, p)
  {
    (e: EndpointConfig) => EndpointItemErrors(e, p)
  }

  function QueriesErrors(qs: seq<QueryConfig>, s: Settings, p: Probes): seq<ValidationError> {
    FlatMap(qs, QueryVisit(s, p))
  }

  function QueryVisit(s: Settings, p: Probes): (f: QueryConfig -> seq<ValidationError>)
    ensures forall q :: f(q) == QueryItemErrors(q, s, p)
  {
    (q: QueryConfig) => QueryItemErrors(q, s, p)
  }

  /** The Slack and Email records are validated only when configured. */
  function AlertErrors(a: AlertConfig, shapes: Shapes): (r: seq<ValidationError>)
    ensures r == [] <==>
      && (a.slack.Some? ==> SlackConstraints(a.slack.value, shapes))
      && (a.email.Some? ==> EmailConstraints(a.email.value, shapes))
  {
    (if a.slack.Some? then SlackErrorsExact(a.slack.value, shapes); Annotations(SlackErrors(a.slack.value, shapes)) else [])
    + (if a.email.Some? then EmailErrorsExact(a.email.value, shapes); Annotations(EmailErrors(a.email.value, shapes)) else [])
  }

  /** Everything the validator collects, in visiting order: the settings
      object, each database, each endpoint, the alert channels, each query. */
  function CollectErrors(s: Settings, p: Probes): seq<ValidationError> {
    Sections(Annotations(SettingsErrors(s)), DatabasesErrors(s.databases, p), EndpointsErrors(s.endpoints, p),
             AlertErrors(s.alerts, p.shapes), QueriesErrors(s.queries, s, p))
  }

  /** Five lists of results, in order. */
  function Sections<E>(a: seq<E>, b: seq<E>, c: seq<E>, d: seq<E>, e: seq<E>): seq<E> {
    a + (b + (c + (d + e)))
  }

  /** The exception message: the header, then every message on a line of its own. */
  function Report(errors: seq<ValidationError>): string {
    FailureHeader + NewLine + Join(NewLine, Messages(errors))
  }

  /** `ValidateConfiguration`: raise when anything was collected, listing
      every message under the header. */
  function ValidateConfiguration(s: Settings, p: Probes): (r: Result<Unit>)
    ensures r.Ok? <==> CollectErrors(s, p) == []
    ensures r.Err? ==> r.error == Raise(Validation, Report(CollectErrors(s, p)))
  {
    var errors := CollectErrors(s, p);
    if |errors| == 0 then Ok(Unit)
    else Err(Raise(Validation, Report(errors)))
  }

  // ------------------------------------------------------------ properties

  /** The report lists the collected problems one per line under the
      header, when no message itself spans lines. */
  lemma ReportListsEveryError(errors: seq<ValidationError>)
    requires errors != []
    requires forall i :: 0 <= i < |errors| ==> '\n' !in Message(errors[i])
    ensures Split(Report(errors), '\n') == [FailureHeader] + Messages(errors)
  {
    HeaderThenLines(Messages(errors));
  }

  lemma HeaderThenLines(msgs: seq<string>)
    requires msgs != []
    requires forall i :: 0 <= i < |msgs| ==> '\n' !in msgs[i]
    ensures Split(FailureHeader + NewLine + Join(NewLine, msgs), '\n') == [FailureHeader] + msgs
  {
    var parts := [FailureHeader] + msgs;
    JoinInFront(NewLine, FailureHeader, msgs);
    HeaderIsOneLine();
    forall i | 0 <= i < |parts| ensures '\n' !in parts[i] {
      if i > 0 { assert parts[i] == msgs[i - 1]; }
    }
    assert NewLine == ['\n'];
    SplitJoin(parts, '\n');
  }

  lemma HeaderIsOneLine()
    ensures '\n' !in FailureHeader
  {
    assert forall i :: 0 <= i < |FailureHeader| ==> FailureHeader[i] != '\n';
  }

  /** Visiting a list is visiting each part in turn: nothing stops the
      collection early. */
  lemma {:induction false} FlatMapAppend<T, E>(a: seq<T>, b: seq<T>, f: T -> seq<E>)
    ensures FlatMap(a + b, f) == FlatMap(a, f) + FlatMap(b, f)
    decreases |a|
  {
    if |a| > 0 {
      assert (a + b)[0] == a[0];
      assert (a + b)[1..] == a[1..] + b;
      FlatMapAppend(a[1..], b, f);
    } else {
      assert a + b == b;
    }
  }

  /** Each item's results appear, contiguously, in the whole. */
  lemma FlatMapItem<T, E>(xs: seq<T>, f: T -> seq<E>, i: nat) returns (m: nat)
    requires i < |xs|
    ensures AppearsAt(f(xs[i]), FlatMap(xs, f), m)
  {
    assert xs == xs[..i] + [xs[i]] + xs[i + 1..];
    FlatMapAppend(xs[..i] + [xs[i]], xs[i + 1..], f);
    FlatMapAppend(xs[..i], [xs[i]], f);
    assert FlatMap([xs[i]], f) == f(xs[i]) + FlatMap([xs[i]][1..], f);
    assert FlatMap([xs[i]], f) == f(xs[i]);
    m := |FlatMap(xs[..i], f)|;
    SliceOfLeft(FlatMap(xs[..i], f) + f(xs[i]), FlatMap(xs[i + 1..], f), m, |f(xs[i])|);
    SliceOfRight(FlatMap(xs[..i], f), f(xs[i]), 0, |f(xs[i])|);
  }

  /** `item` appears, contiguously, in `all` from position `m`. */
  ghost predicate AppearsAt<E>(item: seq<E>, all: seq<E>, m: nat) {
    m + |item| <= |all| && all[m..m + |item|] == item
  }

  /** A slice within the left part of a concatenation. */
  lemma SliceOfLeft<T>(x: seq<T>, y: seq<T>, m: nat, n: nat)
    requires m + n <= |x|
    ensures (x + y)[m..m + n] == x[m..m + n]
  {
  }

  /** A slice within the right part of a concatenation. */
  lemma SliceOfRight<T>(x: seq<T>, y: seq<T>, m: nat, n: nat)
    requires m + n <= |y|
    ensures (x + y)[|x| + m..|x| + m + n] == y[m..m + n]
  {
    forall k | |x| + m <= k < |x| + m + n ensures (x + y)[k] == y[k - |x|] {
    }
  }

  /** A slice within the last of five nested parts. */
  lemma SliceOfLast<T>(a: seq<T>, b: seq<T>, c: seq<T>, d: seq<T>, e: seq<T>, j: nat, n: nat)
    requires j + n <= |e|
    ensures var m := |a| + |b| + |c| + |d| + j;
      (a + (b + (c + (d + e))))[m..m + n] == e[j..j + n]
  {
    SliceOfRight(d, e, j, n);
    SliceOfRight(c, d + e, |d| + j, n);
    SliceOfRight(b, c + (d + e), |c| + |d| + j, n);
    SliceOfRight(a, b + (c + (d + e)), |b| + |c| + |d| + j, n);
  }

  /** Every database's problems are reported, whatever the others' are. */
  lemma EveryDatabaseReported(s: Settings, p: Probes, i: nat) returns (m: nat)
    requires i < |s.databases|
    ensures AppearsAt(DatabaseItemErrors(s.databases[i], p), CollectErrors(s, p), m)
  {
    m := ItemInSecondPart(Annotations(SettingsErrors(s)), s.databases, DatabaseVisit(p), EndpointsErrors(s.endpoints, p),
                          AlertErrors(s.alerts, p.shapes), QueriesErrors(s.queries, s, p), i);
  }

  /** Every endpoint's problems, its headers' included, are reported,
      whatever the others' are. */
  lemma EveryEndpointReported(s: Settings, p: Probes, i: nat) returns (m: nat)
    requires i < |s.endpoints|
    ensures AppearsAt(EndpointItemErrors(s.endpoints[i], p), CollectErrors(s, p), m)
  {
    m := ItemInThirdPart(Annotations(SettingsErrors(s)), DatabasesErrors(s.databases, p), s.endpoints, EndpointVisit(p),
                         AlertErrors(s.alerts, p.shapes), QueriesErrors(s.queries, s, p), i);
  }

  /** An item's results within the third of five nested parts. */
  lemma ItemInThirdPart<T, E>(a: seq<E>, b: seq<E>, xs: seq<T>, f: T -> seq<E>, d: seq<E>, e: seq<E>, i: nat) returns (m: nat)
    requires i < |xs|
    ensures AppearsAt(f(xs[i]), Sections(a, b, FlatMap(xs, f), d, e), m)
  {
    var n := |f(xs[i])|;
    var j := FlatMapItem(xs, f, i);
    var c := FlatMap(xs, f);
    SliceOfLeft(c, d + e, j, n);
    SliceOfRight(b, c + (d + e), j, n);
    SliceOfRight(a, b + (c + (d + e)), |b| + j, n);
    m := |a| + |b| + j;
  }

  /** An item's results within the second of five nested parts. */
  lemma ItemInSecondPart<T, E>(a: seq<E>, xs: seq<T>, f: T -> seq<E>, c: seq<E>, d: seq<E>, e: seq<E>, i: nat) returns (m: nat)
    requires i < |xs|
    ensures AppearsAt(f(xs[i]), Sections(a, FlatMap(xs, f), c, d, e), m)
  {
    var n := |f(xs[i])|;
    var j := FlatMapItem(xs, f, i);
    var b := FlatMap(xs, f);
    SliceOfLeft(b, c + (d + e), j, n);
    SliceOfRight(a, b + (c + (d + e)), j, n);
    m := |a| + j;
  }

  /** Every query's problems are reported, whatever the others' are. */
  lemma EveryQueryReported(s: Settings, p: Probes, i: nat) returns (m: nat)
    requires i < |s.queries|
    ensures AppearsAt(QueryItemErrors(s.queries[i], s, p), CollectErrors(s, p), m)
  {
    m := ItemInLastPart(Annotations(SettingsErrors(s)), DatabasesErrors(s.databases, p), EndpointsErrors(s.endpoints, p),
                        AlertErrors(s.alerts, p.shapes), s.queries, QueryVisit(s, p), i);
  }

  /** An item's results within the last of five nested parts. */
  lemma ItemInLastPart<T, E>(a: seq<E>, b: seq<E>, c: seq<E>, d: seq<E>, xs: seq<T>, f: T -> seq<E>, i: nat) returns (m: nat)
    requires i < |xs|
    ensures AppearsAt(f(xs[i]), Sections(a, b, c, d, FlatMap(xs, f)), m)
  {
    var j := FlatMapItem(xs, f, i);
    SliceOfLast(a, b, c, d, FlatMap(xs, f), j, |f(xs[i])|);
    m := |a| + |b| + |c| + |d| + j;
  }

  /** The errors of one query, stated check by check: an error is reported
      exactly when it is the error of a check that fails. */
  lemma ReferenceMembership(q: QueryConfig, s: Settings, fileExists: string -> bool, x: ReferenceError)
    ensures x in ReferenceErrors(q, s, fileExists) <==>
      || (FindDatabase(s.databases, q.database).None? && x == UnknownDatabase(q.name, q.database))
      || (FindEndpoint(s.endpoints, q.endpoint).None? && x == UnknownEndpoint(q.name, q.endpoint))
      || (q.onFailure.SlackAlert? && s.alerts.slack.None? && x == SlackMissing(q.name))
      || (q.onFailure.EmailAlert? && s.alerts.email.None? && x == EmailMissing(q.name))
      || (!HasText(q.queryText) && !HasText(q.queryFile) && x == NoQuerySource(q.name))
      || (HasText(q.queryText) && HasText(q.queryFile) && x == BothQuerySources(q.name))
      || (HasText(q.queryFile) && !fileExists(q.queryFile.value) && x == QueryFileMissing(q.name, q.queryFile.value))
  {
    var w1 := When(FindDatabase(s.databases, q.database).None?, UnknownDatabase(q.name, q.database));
    var w2 := When(FindEndpoint(s.endpoints, q.endpoint).None?, UnknownEndpoint(q.name, q.endpoint));
    var w3 := When(q.onFailure.SlackAlert? && s.alerts.slack.None?, SlackMissing(q.name));
    var w4 := When(q.onFailure.EmailAlert? && s.alerts.email.None?, EmailMissing(q.name));
    var w5 := When(!HasText(q.queryText) && !HasText(q.queryFile), NoQuerySource(q.name));
    var w6 := When(HasText(q.queryText) && HasText(q.queryFile), BothQuerySources(q.name));
    var w7 := When(HasText(q.queryFile) && !fileExists(q.queryFile.value), QueryFileMissing(q.name, q.queryFile.GetOr("")));
    assert ReferenceErrors(q, s, fileExists) == w1 + w2 + w3 + w4 + w5 + w6 + w7;
    assert x in w1 + w2 + w3 + w4 + w5 + w6 + w7 <==>
      x in w1 || x in w2 || x in w3 || x in w4 || x in w5 || x in w6 || x in w7;
  }

  /** The two lookups are reported exactly when the name is not configured. */
  lemma ReferenceLookupErrors(q: QueryConfig, s: Settings, fileExists: string -> bool)
    ensures var r := ReferenceErrors(q, s, fileExists);
      && (UnknownDatabase(q.name, q.database) in r <==> forall j :: 0 <= j < |s.databases| ==> s.databases[j].name != q.database)
      && (UnknownEndpoint(q.name, q.endpoint) in r <==> forall j :: 0 <= j < |s.endpoints| ==> s.endpoints[j].name != q.endpoint)
  {
    ReferenceMembership(q, s, fileExists, UnknownDatabase(q.name, q.database));
    ReferenceMembership(q, s, fileExists, UnknownEndpoint(q.name, q.endpoint));
  }

  /** An alerting policy is reported exactly when its channel is not configured. */
  lemma ReferenceChannelErrors(q: QueryConfig, s: Settings, fileExists: string -> bool)
    ensures var r := ReferenceErrors(q, s, fileExists);
      && (SlackMissing(q.name) in r <==> q.onFailure.SlackAlert? && s.alerts.slack.None?)
      && (EmailMissing(q.name) in r <==> q.onFailure.EmailAlert? && s.alerts.email.None?)
  {
    ReferenceMembership(q, s, fileExists, SlackMissing(q.name));
    ReferenceMembership(q, s, fileExists, EmailMissing(q.name));
  }

  /** The query-text source: neither, both, or a file that does not exist. */
  lemma ReferenceSourceErrors(q: QueryConfig, s: Settings, fileExists: string -> bool)
    ensures var r := ReferenceErrors(q, s, fileExists);
      && (NoQuerySource(q.name) in r <==> !HasText(q.queryText) && !HasText(q.queryFile))
      && (BothQuerySources(q.name) in r <==> HasText(q.queryText) && HasText(q.queryFile))
  {
    ReferenceMembership(q, s, fileExists, NoQuerySource(q.name));
    ReferenceMembership(q, s, fileExists, BothQuerySources(q.name));
  }

  lemma ReferenceFileErrors(q: QueryConfig, s: Settings, fileExists: string -> bool)
    ensures var r := ReferenceErrors(q, s, fileExists);
      && (HasText(q.queryFile) ==> (QueryFileMissing(q.name, q.queryFile.value) in r <==> !fileExists(q.queryFile.value)))
      && (forall k :: 0 <= k < |r| && r[k].QueryFileMissing? ==> HasText(q.queryFile))
  {
    var r := ReferenceErrors(q, s, fileExists);
    if HasText(q.queryFile) {
      ReferenceMembership(q, s, fileExists, QueryFileMissing(q.name, q.queryFile.value));
    }
    forall k | 0 <= k < |r| && r[k].QueryFileMissing? ensures HasText(q.queryFile) {
      ReferenceMembership(q, s, fileExists, r[k]);
    }
  }

  /** "Neither source" and "both sources" never fire for the same query. */
  lemma QuerySourceErrorsExclusive(q: QueryConfig, s: Settings, fileExists: string -> bool)
    ensures !(NoQuerySource(q.name) in ReferenceErrors(q, s, fileExists) && BothQuerySources(q.name) in ReferenceErrors(q, s, fileExists))
  {
    ReferenceSourceErrors(q, s, fileExists);
  }

  /** Settings without any database never pass. */
  lemma EmptyDatabasesFail(s: Settings, p: Probes)
    requires |s.databases| == 0
    ensures ValidateConfiguration(s, p).Err?
    ensures Annotation(TooFewItems("Databases", "At least one database configuration is required")) in CollectErrors(s, p)
  {
    assert CollectErrors(s, p)[0] == Annotation(TooFewItems("Databases", "At least one database configuration is required"));
  }

  /** A configuration that passes has both lists non-empty, every database
      connection opens, and every query meets its constraints and resolves
      its references. */
  lemma ValidMeansAllChecksPass(s: Settings, p: Probes)
    requires ValidateConfiguration(s, p).Ok?
    ensures |s.databases| > 0 && |s.endpoints| > 0
    ensures forall i :: 0 <= i < |s.databases| ==> p.openOdbc(s.databases[i]).None?
    ensures forall i :: 0 <= i < |s.endpoints| ==>
      EndpointConstraints(s.endpoints[i], p.shapes) && RetryPolicyInRange(s.endpoints[i]) && HeadersFilled(s.endpoints[i].headers)
    ensures s.alerts.slack.Some? ==> SlackConstraints(s.alerts.slack.value, p.shapes)
    ensures s.alerts.email.Some? ==> EmailConstraints(s.alerts.email.value, p.shapes)
    ensures forall i :: 0 <= i < |s.queries| ==> QueryConstraints(s.queries[i]) && ReferenceErrors(s.queries[i], s, p.fileExists) == []
  {
    AlertsPassWhenValid(s, p);
    forall i | 0 <= i < |s.endpoints|
      ensures EndpointConstraints(s.endpoints[i], p.shapes) && RetryPolicyInRange(s.endpoints[i]) && HeadersFilled(s.endpoints[i].headers)
    {
      EndpointPassesWhenValid(s, p, i);
    }
    forall i | 0 <= i < |s.databases| ensures p.openOdbc(s.databases[i]).None? {
      DatabasePassesWhenValid(s, p, i);
    }
    forall i | 0 <= i < |s.queries|
      ensures QueryConstraints(s.queries[i]) && ReferenceErrors(s.queries[i], s, p.fileExists) == []
    {
      QueryPassesWhenValid(s, p, i);
    }
  }

  lemma DatabasePassesWhenValid(s: Settings, p: Probes, i: nat)
    requires ValidateConfiguration(s, p).Ok? && i < |s.databases|
    ensures p.openOdbc(s.databases[i]).None?
  {
    var m := EveryDatabaseReported(s, p, i);
    assert |DatabaseItemErrors(s.databases[i], p)| == 0;
  }

  lemma QueryPassesWhenValid(s: Settings, p: Probes, i: nat)
    requires ValidateConfiguration(s, p).Ok? && i < |s.queries|
    ensures QueryConstraints(s.queries[i]) && ReferenceErrors(s.queries[i], s, p.fileExists) == []
  {
    var m := EveryQueryReported(s, p, i);
    assert |QueryItemErrors(s.queries[i], s, p)| == 0;
    QueryErrorsExact(s.queries[i]);
  }

  /** Every header has a name and a value. */
  predicate HeadersFilled(hs: seq<Header>) {
    forall k :: 0 <= k < |hs| ==> !IsBlank(hs[k].name) && !IsBlank(hs[k].value)
  }

  lemma EndpointPassesWhenValid(s: Settings, p: Probes, i: nat)
    requires ValidateConfiguration(s, p).Ok? && i < |s.endpoints|
    ensures EndpointConstraints(s.endpoints[i], p.shapes) && RetryPolicyInRange(s.endpoints[i])
    ensures HeadersFilled(s.endpoints[i].headers)
  {
    var e := s.endpoints[i];
    var m := EveryEndpointReported(s, p, i);
    assert |EndpointItemErrors(e, p)| == 0;
    EndpointErrorsExact(e, p.shapes);
    forall k | 0 <= k < |e.headers| ensures !IsBlank(e.headers[k].name) && !IsBlank(e.headers[k].value) {
      var n := FlatMapItem(e.headers, HeaderVisit(), k);
      assert |HeaderErrors(e.headers[k])| == 0;
    }
  }

  lemma AlertsPassWhenValid(s: Settings, p: Probes)
    requires ValidateConfiguration(s, p).Ok?
    ensures s.alerts.slack.Some? ==> SlackConstraints(s.alerts.slack.value, p.shapes)
    ensures s.alerts.email.Some? ==> EmailConstraints(s.alerts.email.value, p.shapes)
  {
    var a := Annotations(SettingsErrors(s));
    var b := DatabasesErrors(s.databases, p);
    var c := EndpointsErrors(s.endpoints, p);
    var d := AlertErrors(s.alerts, p.shapes);
    var e := QueriesErrors(s.queries, s, p);
    assert |Sections(a, b, c, d, e)| == |a| + |b| + |c| + |d| + |e|;
  }
}
