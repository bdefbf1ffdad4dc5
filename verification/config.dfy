/** The configuration records QueryPush binds from its settings file, their
    defaults (what `new XConfig()` produces), the data-annotation
    constraints declared on their properties, and the by-name lookups the
    services perform over them.

    A C# enum property can hold a number outside its declared members; the
    `Unlisted…` constructors stand for such values, which the services'
    `_ =>` switch arms handle. */
module Config {
  import opened Base
  import opened Text

  datatype HttpMethod = GET | POST | PUT | PATCH | DELETE | HEAD | OPTIONS | UnlistedMethod(code: int)
  datatype RetryStrategy = Delay | ExponentialBackoff | UnlistedStrategy(code: int)
  datatype PayloadFormat = JsonArray | JsonLines | UnlistedFormat(code: int)
  datatype FailureAction = LogAndContinue | Halt | SlackAlert | EmailAlert | UnlistedAction(code: int)

  datatype Header = Header(name: string, value: string)

  datatype EndpointConfig = EndpointConfig(
    name: string,
    httpMethod: HttpMethod,
    url: string,
    headers: seq<Header>,
    retryAttempts: int,
    retryStrategy: RetryStrategy,
    backOffSeconds: int,
    sendRequestIfNoResults: bool,
    payloadSize: int,
    requestDelay: int)

  datatype DatabaseConfig = DatabaseConfig(name: string, connectionString: string, provider: string)

  datatype QueryConfig = QueryConfig(
    name: string,
    cron: string,
    database: string,
    endpoint: string,
    enabled: bool,
    runOnStartup: bool,
    timeoutSeconds: int,
    maxRows: int,
    payloadFormat: PayloadFormat,
    onFailure: FailureAction,
    queryText: Option<string>,
    queryFile: Option<string>)

  datatype SlackAlertConfig = SlackAlertConfig(
    isDefault: bool,
    webhookUrl: string,
    channel: string,
    username: string,
    alertCooldownMinutes: int)

  datatype EmailAlertConfig = EmailAlertConfig(
    smtpHost: string,
    smtpPort: int,
    useSsl: bool,
    from: string,
    to: string,
    username: string,
    password: string,
    alertCooldownMinutes: int)

  datatype AlertConfig = AlertConfig(slack: Option<SlackAlertConfig>, email: Option<EmailAlertConfig>)

  datatype Settings = Settings(
    databases: seq<DatabaseConfig>,
    endpoints: seq<EndpointConfig>,
    alerts: AlertConfig,
    queries: seq<QueryConfig>)

  // ---------------------------------------------------------------- defaults

  function NewHeader(): Header { Header("", "") }

  function NewEndpointConfig(): EndpointConfig {
    EndpointConfig("", POST, "", [], 3, Delay, 15, false, IntMax, 500)
  }

  function NewDatabaseConfig(): DatabaseConfig { DatabaseConfig("", "", "odbc") }

  function NewQueryConfig(): QueryConfig {
    QueryConfig("", "", "", "", true, true, 30, IntMax, JsonArray, LogAndContinue, None, None)
  }

  function NewSlackAlertConfig(): SlackAlertConfig {
    SlackAlertConfig(false, "", "#alerts", "QueryPush", 60)
  }

  function NewEmailAlertConfig(): EmailAlertConfig {
    EmailAlertConfig("", 587, true, "", "", "", "", 60)
  }

  function NewSettings(): Settings {
    Settings([], [], AlertConfig(None, None), [])
  }

  /** `string.IsNullOrEmpty` negated, for the two nullable query-text fields. */
  predicate HasText(s: Option<string>) {
    s.Some? && |s.value| > 0
  }

  // ------------------------------------------------------- data annotations

  /** One failed data annotation on one property. */
  datatype FieldError =
    | Required(field: string)
    | OutOfRange(field: string, min: int, max: int)
    | NotUrl(field: string)
    | NotEmail(field: string)
    | TooFewItems(field: string, message: string)

  /** The `[Url]` and `[EmailAddress]` attribute checks belong to the .NET
      library and are taken as given. */
  datatype Shapes = Shapes(isUrl: string -> bool, isEmail: string -> bool)

  /** `[Required]` on a string (empty and white-space-only strings fail);
      when it fails, the property's other attributes are not evaluated. */
  function RequiredText(field: string, v: string): (r: seq<FieldError>)
    ensures r == [] <==> !IsBlank(v)
  {
    if IsBlank(v) then [Required(field)] else []
  }

  function RequiredShaped(field: string, v: string, shape: string -> bool, bad: FieldError): (r: seq<FieldError>)
    ensures r == [] <==> !IsBlank(v) && shape(v)
  {
    if IsBlank(v) then [Required(field)] else if !shape(v) then [bad] else []
  }

  /** `[Range(lo, hi)]` on an integer property. */
  function InRange(field: string, v: int, lo: int, hi: int): (r: seq<FieldError>)
    ensures r == [] <==> lo <= v <= hi
  {
    if lo <= v <= hi then [] else [OutOfRange(field, lo, hi)]
  }

  /** The errors `Validator.TryValidateObject` reports for each record,
      property by property in declaration order. */
  function HeaderErrors(h: Header): seq<FieldError> {
    RequiredText("Name", h.name) + RequiredText("Value", h.value)
  }

  function EndpointErrors(e: EndpointConfig, shapes: Shapes): seq<FieldError> {
    RequiredText("Name", e.name)
    + RequiredShaped("Url", e.url, shapes.isUrl, NotUrl("Url"))
    + InRange("RetryAttempts", e.retryAttempts, 0, 10)
    + InRange("BackOffSeconds", e.backOffSeconds, 1, 300)
    + InRange("PayloadSize", e.payloadSize, 1, IntMax)
    + InRange("RequestDelay", e.requestDelay, 0, 10000)
  }

  function DatabaseErrors(d: DatabaseConfig): seq<FieldError> {
    RequiredText("Name", d.name) + RequiredText("ConnectionString", d.connectionString)
  }

  function QueryErrors(q: QueryConfig): seq<FieldError> {
    RequiredText("Name", q.name)
    + RequiredText("Cron", q.cron)
    + RequiredText("Database", q.database)
    + RequiredText("Endpoint", q.endpoint)
    + InRange("TimeoutSeconds", q.timeoutSeconds, 1, 3600)
    + InRange("MaxRows", q.maxRows, 1, IntMax)
  }

  function SlackErrors(s: SlackAlertConfig, shapes: Shapes): seq<FieldError> {
    RequiredShaped("WebhookUrl", s.webhookUrl, shapes.isUrl, NotUrl("WebhookUrl"))
    + InRange("AlertCooldownMinutes", s.alertCooldownMinutes, 1, 1440)
  }

  function EmailErrors(m: EmailAlertConfig, shapes: Shapes): seq<FieldError> {
    RequiredText("SmtpHost", m.smtpHost)
    + InRange("SmtpPort", m.smtpPort, 1, 65535)
    + RequiredShaped("From", m.from, shapes.isEmail, NotEmail("From"))
    + RequiredShaped("To", m.to, shapes.isEmail, NotEmail("To"))
    + InRange("AlertCooldownMinutes", m.alertCooldownMinutes, 1, 1440)
  }

  /** The settings object's own properties: both lists are `[Required]`
      (never null here) and `[MinLength(1)]` with a custom message. */
  function SettingsErrors(s: Settings): seq<FieldError> {
    (if |s.databases| == 0 then [TooFewItems("Databases", "At least one database configuration is required")] else [])
    + (if |s.endpoints| == 0 then [TooFewItems("Endpoints", "At least one endpoint configuration is required")] else [])
  }

  // ------------------------------------------- declarative constraint sets

  /** The endpoint's declared constraints, stated directly. */
  predicate EndpointConstraints(e: EndpointConfig, shapes: Shapes) {
    && !IsBlank(e.name)
    && !IsBlank(e.url) && shapes.isUrl(e.url)
    && 0 <= e.retryAttempts <= 10
    && 1 <= e.backOffSeconds <= 300
    && 1 <= e.payloadSize <= IntMax
    && 0 <= e.requestDelay <= 10000
  }

  predicate QueryConstraints(q: QueryConfig) {
    && !IsBlank(q.name) && !IsBlank(q.cron) && !IsBlank(q.database) && !IsBlank(q.endpoint)
    && 1 <= q.timeoutSeconds <= 3600
    && 1 <= q.maxRows <= IntMax
  }

  predicate SlackConstraints(s: SlackAlertConfig, shapes: Shapes) {
    !IsBlank(s.webhookUrl) && shapes.isUrl(s.webhookUrl) && 1 <= s.alertCooldownMinutes <= 1440
  }

  predicate EmailConstraints(m: EmailAlertConfig, shapes: Shapes) {
    && !IsBlank(m.smtpHost)
    && 1 <= m.smtpPort <= 65535
    && !IsBlank(m.from) && shapes.isEmail(m.from)
    && !IsBlank(m.to) && shapes.isEmail(m.to)
    && 1 <= m.alertCooldownMinutes <= 1440
  }

  lemma EndpointErrorsExact(e: EndpointConfig, shapes: Shapes)
    ensures EndpointErrors(e, shapes) == [] <==> EndpointConstraints(e, shapes)
  {
  }

  lemma QueryErrorsExact(q: QueryConfig)
    ensures QueryErrors(q) == [] <==> QueryConstraints(q)
  {
  }

  lemma SlackErrorsExact(s: SlackAlertConfig, shapes: Shapes)
    ensures SlackErrors(s, shapes) == [] <==> SlackConstraints(s, shapes)
  {
  }

  lemma EmailErrorsExact(m: EmailAlertConfig, shapes: Shapes)
    ensures EmailErrors(m, shapes) == [] <==> EmailConstraints(m, shapes)
  {
  }

  /** A freshly constructed endpoint fails only its two required strings:
      every numeric default lies inside its declared range. */
  lemma DefaultEndpointErrors(shapes: Shapes)
    ensures EndpointErrors(NewEndpointConfig(), shapes) == [Required("Name"), Required("Url")]
  {
  }

  lemma DefaultQueryErrors()
    ensures QueryErrors(NewQueryConfig()) ==
      [Required("Name"), Required("Cron"), Required("Database"), Required("Endpoint")]
  {
  }

  lemma DefaultSlackErrors(shapes: Shapes)
    ensures SlackErrors(NewSlackAlertConfig(), shapes) == [Required("WebhookUrl")]
  {
  }

  lemma DefaultEmailErrors(shapes: Shapes)
    ensures EmailErrors(NewEmailAlertConfig(), shapes) ==
      [Required("SmtpHost"), Required("From"), Required("To")]
  {
  }

  lemma DefaultDatabaseErrors()
    ensures DatabaseErrors(NewDatabaseConfig()) == [Required("Name"), Required("ConnectionString")]
  {
  }

  // ----------------------------------------------------------------- lookup

  /** `FirstOrDefault(x => nameOf(x) == name)`, as an index. */
  function FirstNamed<T>(xs: seq<T>, nameOf: T -> string, name: string): (r: Option<nat>)
    ensures r.Some? ==> r.value < |xs| && nameOf(xs[r.value]) == name
    ensures r.Some? ==> forall j :: 0 <= j < r.value ==> nameOf(xs[j]) != name
    ensures r.None? <==> forall j :: 0 <= j < |xs| ==> nameOf(xs[j]) != name
    decreases |xs|
  {
    if |xs| == 0 then None
    else if nameOf(xs[0]) == name then Some(0)
    else
      match FirstNamed(xs[1..], nameOf, name)
      case None => None
      case Some(i) => Some(i + 1)
  }

  function FindEndpoint(endpoints: seq<EndpointConfig>, name: string): (r: Option<EndpointConfig>)
    ensures r.Some? ==> r.value in endpoints && r.value.name == name
    ensures r.Some? ==> exists i :: 0 <= i < |endpoints| && endpoints[i] == r.value && forall j :: 0 <= j < i ==> endpoints[j].name != name
    ensures r.None? <==> forall j :: 0 <= j < |endpoints| ==> endpoints[j].name != name
  {
    match FirstNamed(endpoints, (e: EndpointConfig) => e.name, name)
    case None => None
    case Some(i) => Some(endpoints[i])
  }

  function FindDatabase(databases: seq<DatabaseConfig>, name: string): (r: Option<DatabaseConfig>)
    ensures r.Some? ==> r.value in databases && r.value.name == name
    ensures r.Some? ==> exists i :: 0 <= i < |databases| && databases[i] == r.value && forall j :: 0 <= j < i ==> databases[j].name != name
    ensures r.None? <==> forall j :: 0 <= j < |databases| ==> databases[j].name != name
  {
    match FirstNamed(databases, (d: DatabaseConfig) => d.name, name)
    case None => None
    case Some(i) => Some(databases[i])
  }

  function FindQuery(queries: seq<QueryConfig>, name: string): (r: Option<QueryConfig>)
    ensures r.Some? ==> r.value in queries && r.value.name == name
    ensures r.Some? ==> exists i :: 0 <= i < |queries| && queries[i] == r.value && forall j :: 0 <= j < i ==> queries[j].name != name
    ensures r.None? <==> forall j :: 0 <= j < |queries| ==> queries[j].name != name
  {
    match FirstNamed(queries, (q: QueryConfig) => q.name, name)
    case None => None
    case Some(i) => Some(queries[i])
  }
}
