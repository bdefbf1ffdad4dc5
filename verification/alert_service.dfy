/** `AlertService`: failure alerts to a Slack webhook or by e-mail, each
    channel throttled per query by a cooldown measured from its last
    successful alert.

    The clock readings, the rendering of the time of day, the HTTP and SMTP
    transports, HTML encoding and the outcome of saving the state file are
    inputs. The messages are kept as records of their parts; the JSON
    serializer and the fixed HTML markup around the parts are not modelled. */
module AlertService {
  import opened Base
  import opened Config
  import opened StateManager
  import opened HttpService

  const SlackChannel: string := "Slack"
  const EmailChannel: string := "Email"

  /** The cooldown applied when the channel has no configuration. */
  const DefaultCooldownMinutes: int := 60

  /** The cooldown of a channel: Slack's for "Slack", the e-mail one for any
      other alert type, 60 minutes when that channel is not configured. */
  function CooldownMinutes(alerts: AlertConfig, alertType: string): (r: int)
    ensures alertType == SlackChannel && alerts.slack.Some? ==> r == alerts.slack.value.alertCooldownMinutes
    ensures alertType != SlackChannel && alerts.email.Some? ==> r == alerts.email.value.alertCooldownMinutes
    ensures (if alertType == SlackChannel then alerts.slack.None? else alerts.email.None?) ==> r == DefaultCooldownMinutes
  {
    if alertType == SlackChannel then
      match alerts.slack
      case Some(s) => s.alertCooldownMinutes
      case None => DefaultCooldownMinutes
    else
      match alerts.email
      case Some(m) => m.alertCooldownMinutes
      case None => DefaultCooldownMinutes
  }

  /** `CanSendAlert`: an alert is allowed when this query never had one on
      this channel, or when `now` is strictly past the end of the cooldown
      that followed the last one. */
  function CanSendAlert(st: QueryState, alerts: AlertConfig, queryName: string, alertType: string, now: Time): (r: Result<bool>)
    ensures GetLastAlert(st, queryName, alertType).None? ==> r == Ok(true)
    ensures GetLastAlert(st, queryName, alertType).Some? ==>
      var until := GetLastAlert(st, queryName, alertType).value + CooldownMinutes(alerts, alertType) * TicksPerMinute;
      && (r.Ok? <==> IsDateTime(until))
      && (r.Ok? ==> (r.value <==> now > until))
  {
    match GetLastAlert(st, queryName, alertType)
    case None => Ok(true)
    case Some(last) =>
      var until :- AddTicks(last, CooldownMinutes(alerts, alertType) * TicksPerMinute);
      Ok(now > until)
  }

  /** Once an alert is allowed it stays allowed as time goes on. */
  lemma CanSendAlertMonotone(st: QueryState, alerts: AlertConfig, queryName: string, alertType: string, now: Time, later: Time)
    requires now <= later
    requires CanSendAlert(st, alerts, queryName, alertType, now) == Ok(true)
    ensures CanSendAlert(st, alerts, queryName, alertType, later) == Ok(true)
  {
  }

  /** Recording an alert on one channel blocks that channel for the whole
      cooldown (and, when the cooldown is positive, for the instant of the
      alert itself), and leaves the other channel's permission as it was. */
  lemma RecordedAlertStartsCooldown(st: QueryState, alerts: AlertConfig, queryName: string, sentAt: Time, now: Time)
    requires now <= sentAt + CooldownMinutes(alerts, SlackChannel) * TicksPerMinute
    ensures CanSendAlert(SetLastAlert(st, queryName, SlackChannel, sentAt), alerts, queryName, SlackChannel, now) != Ok(true)
    ensures CanSendAlert(SetLastAlert(st, queryName, SlackChannel, sentAt), alerts, queryName, EmailChannel, now) ==
            CanSendAlert(st, alerts, queryName, EmailChannel, now)
  {
    assert AlertKey(queryName, EmailChannel) != AlertKey(queryName, SlackChannel) by {
      var k1 := AlertKey(queryName, EmailChannel);
      var k2 := AlertKey(queryName, SlackChannel);
      assert k1[|queryName| + 1] == 'E';
      assert k2[|queryName| + 1] == 'S';
    }
  }

  // ------------------------------------------------------------- messages

  /** The Slack message: header, the four detail fields, the query and error
      sections and the exception-type context line. */
  datatype SlackMessage = SlackMessage(
    webhookUrl: string,
    channel: string,
    username: string,
    title: string,
    fields: seq<string>,
    querySection: string,
    errorSection: string,
    context: string)

  /** The parts of the HTML alert mail that vary. */
  datatype EmailBody = EmailBody(
    title: string,
    database: string,
    endpoint: string,
    schedule: string,
    failureTime: string,
    query: string,
    exceptionType: string,
    message: string,
    stackTrace: Option<string>)

  datatype EmailMessage = EmailMessage(
    smtpHost: string,
    smtpPort: int,
    useSsl: bool,
    username: string,
    password: string,
    from: string,
    to: string,
    subject: string,
    body: EmailBody)

  const Siren: string := "\U{1F6A8}"

  function FailureTitle(q: QueryConfig): string {
    Siren + " QueryPush Failure: " + q.name
  }

  function BuildSlackMessage(s: SlackAlertConfig, q: QueryConfig, queryText: string, ex: Exception, stamp: string): (r: SlackMessage)
    ensures r.webhookUrl == s.webhookUrl && r.channel == s.channel && r.username == s.username
    ensures |r.fields| == 4
  {
    SlackMessage(
      s.webhookUrl, s.channel, s.username,
      FailureTitle(q),
      ["*Database:*\n" + q.database, "*Endpoint:*\n" + q.endpoint, "*Schedule:*\n`" + q.cron + "`", "*Time:*\n" + stamp],
      "*Query:*\n```sql\n" + queryText + "\n```",
      "*Error:*\n```\n" + ex.message + "\n```",
      "Exception Type: `" + ex.kind.TypeName() + "`")
  }

  /** The query text, the exception message and its stack trace pass through
      `HtmlEncode`; the stack-trace section exists only when there is one. */
  function BuildEmailMessage(m: EmailAlertConfig, q: QueryConfig, queryText: string, ex: Exception, stamp: string,
                             htmlEncode: string -> string): (r: EmailMessage)
    ensures r.from == m.from && r.to == m.to && r.smtpHost == m.smtpHost && r.smtpPort == m.smtpPort
    ensures r.body.query == htmlEncode(queryText) && r.body.message == htmlEncode(ex.message)
    ensures r.body.stackTrace.Some? <==> ex.stackTrace.Some?
    ensures ex.stackTrace.Some? ==> r.body.stackTrace.value == htmlEncode(ex.stackTrace.value)
    ensures r.subject == "QueryPush Failure for " + q.name + " Query"
  {
    var stack := match ex.stackTrace
      case Some(t) => Some(htmlEncode(t))
      case None => None;
    var body := EmailBody(FailureTitle(q), q.database, q.endpoint, q.cron, stamp,
                          htmlEncode(queryText), ex.kind.TypeName(), htmlEncode(ex.message), stack);
    EmailMessage(m.smtpHost, m.smtpPort, m.useSsl, m.username, m.password, m.from, m.to,
                 "QueryPush Failure for " + q.name + " Query", body)
  }

  // --------------------------------------------------------------- sending

  /** Everything an alert call reads besides its arguments: the settings at
      the time of the call, the state file, the clock at the cooldown check
      (`now`) and at the recording (`sentAt`), the time text shown in the
      message, and whether the state save fails. */
  datatype AlertEnv = AlertEnv(
    alerts: AlertConfig,
    file: StateFile,
    now: Time,
    sentAt: Time,
    stamp: string,
    saveFault: SaveFault)

  /** The message handed to the transport, if any, and the state and disk
      after the call. */
  datatype AlertRun<M> = AlertRun(sent: Option<M>, st: QueryState, disk: Disk, result: Result<Unit>)

  /** The records of a successful alert: the alert time is set in memory, then
      the state is saved; a failing save is rethrown. */
  function RecordAlert<M>(msg: M, st: QueryState, disk: Disk, env: AlertEnv, queryName: string, alertType: string): (r: AlertRun<M>)
    ensures r.sent == Some(msg) && r.st == SetLastAlert(st, queryName, alertType, env.sentAt)
    ensures var saved := Save(r.st, disk, env.file, env.saveFault); r.disk == saved.disk && r.result == saved.result
  {
    var st' := SetLastAlert(st, queryName, alertType, env.sentAt);
    var saved := Save(st', disk, env.file, env.saveFault);
    AlertRun(Some(msg), st', saved.disk, saved.result)
  }

  /** `SendSlackAlertAsync`. The cooldown is checked first (its date
      arithmetic can raise), then the Slack configuration must be present.
      A success status records the alert; any other status is only logged;
      a transport exception is rethrown. */
  function SendSlackAlert(q: QueryConfig, queryText: string, ex: Exception, st: QueryState, disk: Disk, env: AlertEnv,
                          post: SlackMessage -> Response): (r: AlertRun<SlackMessage>)
    ensures r.sent.Some? <==> CanSendAlert(st, env.alerts, q.name, SlackChannel, env.now) == Ok(true) && env.alerts.slack.Some?
    ensures r.sent.Some? ==> r.sent.value == BuildSlackMessage(env.alerts.slack.value, q, queryText, ex, env.stamp)
    ensures r.st != st ==> r.sent.Some? && IsSuccessStatus(post(r.sent.value))
    ensures r.sent.Some? && IsSuccessStatus(post(r.sent.value)) ==> r.st == SetLastAlert(st, q.name, SlackChannel, env.sentAt)
    ensures r.sent.Some? && IsSuccessStatus(post(r.sent.value)) ==>
      var saved := Save(r.st, disk, env.file, env.saveFault); r.disk == saved.disk && r.result == saved.result
    ensures r.sent.Some? && post(r.sent.value).Status? && !IsSuccessStatus(post(r.sent.value)) ==>
      r.st == st && r.disk == disk && r.result == Ok(Unit)
    ensures r.sent.Some? && post(r.sent.value).Thrown? ==> r.result == Err(post(r.sent.value).ex) && r.disk == disk
    ensures r.sent.None? ==> r.disk == disk && (r.result.Err? <==> CanSendAlert(st, env.alerts, q.name, SlackChannel, env.now).Err?)
  {
    match CanSendAlert(st, env.alerts, q.name, SlackChannel, env.now)
    case Err(e) => AlertRun(None, st, disk, Err(e))
    case Ok(allowed) =>
      if !allowed then AlertRun(None, st, disk, Ok(Unit))
      else
        match env.alerts.slack
        case None => AlertRun(None, st, disk, Ok(Unit))
        case Some(s) =>
          var msg := BuildSlackMessage(s, q, queryText, ex, env.stamp);
          match post(msg)
          case Thrown(e) => AlertRun(Some(msg), st, disk, Err(e))
          case Status(code, reason) =>
            if IsSuccessStatus(post(msg)) then RecordAlert(msg, st, disk, env, q.name, SlackChannel)
            else AlertRun(Some(msg), st, disk, Ok(Unit))
  }

  /** `SendEmailAlertAsync`, with `send` answering `None` when the SMTP
      server accepted the mail and the exception otherwise. */
  function SendEmailAlert(q: QueryConfig, queryText: string, ex: Exception, st: QueryState, disk: Disk, env: AlertEnv,
                          htmlEncode: string -> string, send: EmailMessage -> Option<Exception>): (r: AlertRun<EmailMessage>)
    ensures r.sent.Some? <==> CanSendAlert(st, env.alerts, q.name, EmailChannel, env.now) == Ok(true) && env.alerts.email.Some?
    ensures r.sent.Some? ==> r.sent.value == BuildEmailMessage(env.alerts.email.value, q, queryText, ex, env.stamp, htmlEncode)
    ensures r.sent.Some? && send(r.sent.value).None? ==> r.st == SetLastAlert(st, q.name, EmailChannel, env.sentAt)
    ensures r.sent.Some? && send(r.sent.value).None? ==>
      var saved := Save(r.st, disk, env.file, env.saveFault); r.disk == saved.disk && r.result == saved.result
    ensures r.sent.Some? && send(r.sent.value).Some? ==> r.st == st && r.disk == disk && r.result == Err(send(r.sent.value).value)
    ensures r.sent.None? ==> r.st == st && r.disk == disk && (r.result.Err? <==> CanSendAlert(st, env.alerts, q.name, EmailChannel, env.now).Err?)
  {
    match CanSendAlert(st, env.alerts, q.name, EmailChannel, env.now)
    case Err(e) => AlertRun(None, st, disk, Err(e))
    case Ok(allowed) =>
      if !allowed then AlertRun(None, st, disk, Ok(Unit))
      else
        match env.alerts.email
        case None => AlertRun(None, st, disk, Ok(Unit))
        case Some(m) =>
          var msg := BuildEmailMessage(m, q, queryText, ex, env.stamp, htmlEncode);
          match send(msg)
          case Some(e) => AlertRun(Some(msg), st, disk, Err(e))
          case None => RecordAlert(msg, st, disk, env, q.name, EmailChannel)
  }

  /** A second Slack alert for the same query within the cooldown of one the
      webhook accepted is not sent, whatever the outcome of saving the state. */
  lemma SlackAlertThrottled(q: QueryConfig, queryText: string, ex: Exception, st: QueryState, disk: Disk, env: AlertEnv,
                            post: SlackMessage -> Response, env2: AlertEnv)
    requires env2.alerts == env.alerts
    requires env2.now <= env.sentAt + CooldownMinutes(env.alerts, SlackChannel) * TicksPerMinute
    requires var r := SendSlackAlert(q, queryText, ex, st, disk, env, post); r.sent.Some? && IsSuccessStatus(post(r.sent.value))
    ensures var r := SendSlackAlert(q, queryText, ex, st, disk, env, post);
            SendSlackAlert(q, queryText, ex, r.st, r.disk, env2, post).sent.None?
  {
    var r := SendSlackAlert(q, queryText, ex, st, disk, env, post);
    RecordedAlertStartsCooldown(st, env.alerts, q.name, env.sentAt, env2.now);
  }
}
