# QueryPush, modelled in Dafny

QueryPush runs configured SQL queries on a cron schedule and pushes the rows to
HTTP endpoints. It retries failed attempts with a fixed or exponential backoff.
After the last failure it applies the query's failure policy: a Slack alert, an
e-mail alert, halt, or log-and-continue. Alerts are throttled by a cooldown. A
small JSON state file remembers the last run of every query and the last alert
of every (query, channel) pair.

This project models that decision engine as pure Dafny functions over immutable
datatypes. Anything that touches the outside world is a function-valued
parameter (an oracle):

- the clock;
- the cron evaluator;
- the database reader;
- the HTTP and SMTP transports;
- the file system;
- the JSON and HTML encoders;
- `DateTime.ToString` and `TimeSpan.Parse`;
- the environment.

Retry loops are recursive functions. Each returns a trace of the attempts it
made and the waits it took.

Modules, following the program's structure:

| file | module | models |
|---|---|---|
| `base.dfy` | `Base` | `Option`, `Result`, exceptions, `DateTime` ticks |
| `text.dfy` | `Text` | lower-casing, ordinal `Contains`, `Split`/`Join`, decimal printing |
| `config.dfy` | `Config` | the configuration records, their defaults and data annotations, lookup by name |
| `state_manager.dfy` | `StateManager` | `StateManager` and `QueryState` |
| `scheduler.dfy` | `Scheduler` | `QueryScheduler` |
| `backoff.dfy` | `Backoff` | the two identical `CalculateDelay` methods |
| `http_service.dfy` | `HttpService` | `HttpService` |
| `alert_service.dfy` | `AlertService` | `AlertService` |
| `variable_replacer.dfy` | `VariableReplacer` | `VariableReplacer` |
| `query_text.dfy` | `QueryText` | `QueryTextResolver` |
| `database_service.dfy` | `DatabaseService` | `DatabaseService` |
| `query_executor.dfy` | `QueryExecutor` | `QueryExecutor` |
| `query_job.dfy` | `QueryJob` | `QueryJob` |
| `validator.dfy` | `Validator` | `ConfigurationValidator` |

Time is a `DateTime` tick count (an `int`). A delay is an `int` of
milliseconds. C# enums carry an extra constructor for numeric values outside
their declared members, because the source's `_ =>` arms handle those values.

Behaviours of the code worth noting:

- The alert cooldown is strict. At exactly `lastAlert + cooldown` no alert may be sent.
- Loading with no state file keeps the in-memory state. It does not reset it.
- Saving deletes the old file before moving the temporary file into place. This is not an atomic swap: a failed move loses the state file.
- A malformed cron expression on an enabled query makes the whole due scan raise, through `GetNextRun`.
- Alerts carry the raw query text, not the text after variable substitution.
- A save that fails after a successful attempt makes that attempt fail. The last run time was already set in memory, so it stays advanced while the attempt is retried and the data is sent again.

## Model

| member | source | states |
|---|---|---|
| Scheduler.IsQueryDue | QueryPush/Services/QueryScheduler.cs:61-90 | A cron that does not parse makes the query not due, without raising. A never-run query is due exactly when RunOnStartup is set. Otherwise it is due exactly when now is at or after the next occurrence following the last run. |
| Scheduler.GetNextRun | QueryPush/Services/QueryScheduler.cs:55-59 | Raises exactly when the cron does not parse. Otherwise it is the next occurrence after the current clock, independent of the last run. |
| Scheduler.GetDueQueries | QueryPush/Services/QueryScheduler.cs:20-53 | Raises exactly when some enabled query has a cron that does not parse. Otherwise the result is a subsequence of the configured queries. It holds only enabled queries that are due at the single `now`, and every such query. |
| Scheduler.NeverRunQueryDueOnStartup | QueryPush/Services/QueryScheduler.cs:66-74 | A never-run query with a valid cron appears in the due list if and only if it is enabled and runs on startup. |
| StateManager.GetLastRun | QueryPush/Services/StateManager.cs:28-31 | No timestamp exactly when the name was never set; otherwise the stored one. |
| StateManager.SetLastRun | QueryPush/Services/StateManager.cs:33-37 | Afterwards the name reads back the new time. Every other name's entry and the whole alert map are unchanged. |
| StateManager.GetLastAlert | QueryPush/Services/StateManager.cs:39-43 | Reads the entry under the key `queryName + ":" + alertType`; no timestamp exactly when that key is absent. |
| StateManager.SetLastAlert | QueryPush/Services/StateManager.cs:45-50 | Afterwards the pair reads back the new time. Pairs with a different composite key and the run map are unchanged. |
| StateManager.AlertKeysCanCollide | QueryPush/Services/StateManager.cs:39-50 | Two different (query, type) pairs with the same concatenated key share one entry: writing one is read back through the other. |
| StateManager.Load | QueryPush/Services/StateManager.cs:52-78 | A missing file keeps the in-memory state. A file that is unreadable, fails to parse or parses to null resets the state to empty. A parsed file replaces the state. |
| StateManager.TempPath | QueryPush/Services/StateManager.cs:85 | The temporary file is never the state file itself. |
| StateManager.Save | QueryPush/Services/StateManager.cs:80-104 | Succeeds exactly when no step fails, or when only the delete fails and there was no file to delete. On success the file holds the encoded state and no temporary file is left. No other path on the disk changes. A failed write leaves the disk untouched. |
| StateManager.SaveThenLoad | QueryPush/Services/StateManager.cs:52-104 | If the serialiser round-trips, loading after a successful save restores exactly the saved state, whatever was in memory before. |
| StateManager.FailedMoveLosesStateFile | QueryPush/Services/StateManager.cs:85-99 | When the move fails after the old file was deleted, the save raises and the state file is gone, so the next load keeps an empty state. |
| Backoff.CalculateDelay | QueryPush/Services/QueryExecutor.cs:117-129 | The fixed strategy, and any unlisted strategy value, waits BackOffSeconds·1000 ms on every attempt. No strategy waits less. |
| Backoff.FixedDelayIsConstant | QueryPush/Services/HttpService.cs:106-118 | With the fixed strategy every attempt waits the same time. |
| Backoff.ExponentialDelayDoubles | QueryPush/Services/HttpService.cs:106-118 | With exponential backoff the first retry waits the base time, and each later retry waits twice as long as the one before. |
| Backoff.DelayFitsInInt32 | QueryPush/Configuration/EndpointConfig.cs:17-23 | Within the validated ranges every delay is between 1 s and 300·1000·2^9 ms, so the source's cast to a 32-bit `int` is exact. |
| Backoff.Pow2Monotone | QueryPush/Services/QueryExecutor.cs:121 | The power of two used for exponential backoff never decreases with the attempt number. |
| QueryExecutor.IsInvalidQueryMeansMarker | QueryPush/Services/QueryExecutor.cs:82-93 | An error is terminal exactly when its lower-cased message contains one of the marker phrases, or one of the marker pairs. |
| QueryExecutor.InvalidQueryIgnoresCase | QueryPush/Services/QueryExecutor.cs:84 | Two messages that differ only in letter case are classified alike. |
| QueryExecutor.InvalidQueryOfLowered | QueryPush/Services/QueryExecutor.cs:84 | Lower-casing a message before classifying it changes nothing. |
| QueryExecutor.SingleAttempt | QueryPush/Services/QueryExecutor.cs:95-115 | When a delivery is made, the attempt's outcome is the delivery's. An attempt can succeed without delivering only when the endpoint does not ask for empty results to be sent. |
| QueryExecutor.EmptyResultSkipsDelivery | QueryPush/Services/QueryExecutor.cs:106-111 | For an empty result, no delivery is made exactly when SendRequestIfNoResults is false, and then the attempt succeeds. |
| QueryExecutor.TryAttempt | QueryPush/Services/QueryExecutor.cs:36-44 | A failed attempt leaves the state and the disk untouched and reports its error. A successful attempt records the clock as the query's last run, and its outcome is the outcome of saving the state. |
| QueryExecutor.AttemptsFrom | QueryPush/Services/QueryExecutor.cs:30-69 | At most RetryAttempts+1 attempts, numbered consecutively. Each starts from the store the previous one left. Every attempt before the last failed with a retryable error and was followed by that attempt's backoff delay. The last attempt has no wait after it. A failed run ended on a terminal error or on attempt RetryAttempts+1. |
| QueryExecutor.PrependRetry | QueryPush/Services/QueryExecutor.cs:46-68 | A retryable failure before the last attempt, followed by its backoff delay and then a valid run from the next attempt, is a valid run from this attempt. |
| QueryExecutor.HandleQueryFailure | QueryPush/Services/QueryExecutor.cs:131-153 | Re-reading the query text can itself fail, and that error is raised. Halt rethrows the last error. Log-and-continue, and any unlisted policy, does nothing. Once the text is read, the Slack policy does exactly what `SendSlackAlert` does with that text and the last error: its alert, its state, its disk and its outcome. The e-mail policy does the same with `SendEmailAlert`. |
| QueryExecutor.AlertCarriesRawText | QueryPush/Services/QueryExecutor.cs:136 | The Slack alert's query section holds the resolver's text without variable substitution. |
| QueryExecutor.ExecuteQuery | QueryPush/Services/QueryExecutor.cs:23-72 | An unknown endpoint raises before any attempt, and no policy runs. Otherwise the attempts are the retry loop's. A successful loop returns with no policy action. A failed loop hands its last error and its store to the failure policy. |
| QueryExecutor.RetryBudget | QueryPush/Services/QueryExecutor.cs:33-69 | Between 1 and RetryAttempts+1 attempts, numbered from 1. Attempt k is followed by the delay for k whenever another attempt follows. Stopping early on a failure means the error was terminal. |
| QueryExecutor.AttemptsChainState | QueryPush/Services/QueryExecutor.cs:38-44 | Each later attempt runs against the state the previous attempt left. |
| QueryExecutor.SuccessRecordsRunTime | QueryPush/Services/QueryExecutor.cs:38-44 | A successful run sends no alert and leaves the clock reading of its final attempt as the query's last run. |
| QueryExecutor.HaltRethrowsLastError | QueryPush/Services/QueryExecutor.cs:146-148 | Under the Halt policy a failed execution raises the last attempt's own error and sends no alert. |
| QueryExecutor.SaveFailureRepeatsDelivery | QueryPush/Services/QueryExecutor.cs:38-54 | A failed state save after a successful delivery counts as a failed attempt, so the loop runs the whole attempt body again, with delivery, as attempt 2. The last run time set before the failed save stays in memory and is the state attempt 2 starts from. |
| QueryExecutor.FailedBodiesKeepStore | QueryPush/Services/QueryExecutor.cs:33-69 | When every attempt's body failed, the loop leaves the state and the disk as it found them. |
| QueryExecutor.FailedRunKeepsRunTimes | QueryPush/Services/QueryExecutor.cs:23-72 | When every attempt's body failed, no last run time changes, whatever the failure policy then does. |
| QueryExecutor.FailurePolicyKeepsRunTimes | QueryPush/Services/QueryExecutor.cs:131-153 | Whatever the policy does, no query's last run time changes. |
| HttpService.FixedChunks | QueryPush/Services/HttpService.cs:128-140 | The chunks concatenate back to the input, and each holds between 1 and the chunk size rows. |
| HttpService.FixedChunksShape | QueryPush/Services/HttpService.cs:128-140 | Empty input gives no chunks. Every chunk but the last is full. The chunk count is the input length divided by the size, rounded up. |
| HttpService.ChunkData | QueryPush/Services/HttpService.cs:120-141 | A payload size of `int.MaxValue` gives exactly one chunk holding all rows, even when there are none. Any other size gives the fixed-size chunking. |
| HttpService.ChunkDataProperties | QueryPush/Services/HttpService.cs:120-141 | For every validated payload size, the chunks concatenate back to the input. Each chunk but the last is full, and the count is minimal. |
| HttpService.FormatPayload | QueryPush/Services/HttpService.cs:143-150 | JSON-array format, and any unlisted format, serialises the whole chunk as one array. |
| HttpService.RowLines | QueryPush/Services/HttpService.cs:148 | JSON lines has one serialised row per row, in order. |
| HttpService.JsonLinesSplitsIntoRows | QueryPush/Services/HttpService.cs:148 | A JSON-lines body splits at newlines back into the row serialisations, and ends with the last row (no trailing newline). |
| HttpService.ConvertMethod | QueryPush/Services/HttpService.cs:172-182 | Each listed method maps to itself, and an unlisted value becomes POST. The result is always a listed method. |
| HttpService.SendChunkFrom | QueryPush/Services/HttpService.cs:52-104 | Every attempt sends the same request. Every attempt before the last got a non-success answer and was followed by the backoff delay. The last has no wait after it. The chunk succeeds exactly when the last answer is a success status. On failure, the last attempt was RetryAttempts+1, and the error raised is the last answer's. |
| HttpService.PrependChunkRetry | QueryPush/Services/HttpService.cs:84-101 | A failed answer before the last attempt, followed by its backoff delay and then a valid run from the next attempt, is a valid run from this attempt. |
| HttpService.ChunkRetryBudget | QueryPush/Services/HttpService.cs:58-103 | A chunk is attempted at most RetryAttempts+1 times. It succeeds exactly when some attempt within the budget gets a success status, and it stops at the first one. A failed chunk used the whole budget. |
| HttpService.SendChunks | QueryPush/Services/HttpService.cs:36-47 | Chunks are sent in order with 1-based indices. The first chunk that fails ends the delivery with its error, and nothing after it is sent. A pause of RequestDelay follows a chunk only when the delay is positive, the chunk succeeded and it is not the last. |
| HttpService.PauseAfter | QueryPush/Services/HttpService.cs:42-46 | The pause is RequestDelay exactly when the delay is positive and another chunk follows. |
| HttpService.PrependChunk | QueryPush/Services/HttpService.cs:36-47 | A chunk that went through, followed by the delivery of the chunks after it, is the delivery from that chunk on. Indices stay consecutive and the pause rule still holds. |
| HttpService.SendData | QueryPush/Services/HttpService.cs:23-28 | An unknown endpoint raises InvalidOperationException and sends nothing. |
| HttpService.DeliveryProperties | QueryPush/Services/HttpService.cs:21-50 | Chunk j is sent with the endpoint's retry policy as chunk number j+1. Every chunk before the last one sent went through. A successful delivery sent every chunk and all went through. A failed delivery raises the last chunk's error. There are at most chunkCount−1 pauses. |
| HttpService.PausesBound | QueryPush/Services/HttpService.cs:42-46 | Pauses that only follow non-final chunks number at most one less than the chunks. |
| AlertService.CooldownMinutes | QueryPush/Services/AlertService.cs:207-209 | Slack's cooldown for the type "Slack", e-mail's for any other type, and 60 minutes when that channel is not configured. |
| AlertService.CanSendAlert | QueryPush/Services/AlertService.cs:198-221 | True when no alert was recorded for the pair. Otherwise true exactly when now is strictly after the last alert plus the cooldown. It raises only when that sum leaves the `DateTime` range. |
| AlertService.CanSendAlertMonotone | QueryPush/Services/AlertService.cs:211 | Once an alert may be sent, it may still be sent at any later time. |
| AlertService.RecordedAlertStartsCooldown | QueryPush/Services/AlertService.cs:198-221 | A Slack alert recorded at t blocks Slack alerts up to and including t + cooldown, and leaves the e-mail decision as it was. |
| AlertService.BuildSlackMessage | QueryPush/Services/AlertService.cs:41-82 | The message goes to the configured webhook, channel and user name, and carries the four detail fields. |
| AlertService.BuildEmailMessage | QueryPush/Services/AlertService.cs:125-182 | The mail goes from and to the configured addresses through the configured server. The query text, the message and the stack trace (when present) are HTML-encoded. The subject names the query. |
| AlertService.RecordAlert | QueryPush/Services/AlertService.cs:93-94 | A sent alert is recorded under its channel at the send time, and the outcome is that of saving the state. |
| AlertService.SendSlackAlert | QueryPush/Services/AlertService.cs:24-106 | A message is posted exactly when the cooldown allows it and Slack is configured. After a success status the alert is recorded and the state is saved; the disk and the outcome are those of that save. A non-success status leaves state and disk unchanged and raises nothing. A transport exception is rethrown with the disk untouched. |
| AlertService.SendEmailAlert | QueryPush/Services/AlertService.cs:108-196 | A mail is sent exactly when the cooldown allows it and e-mail is configured. A successful send records the alert and saves the state; the disk and the outcome are those of that save. A failed send is rethrown with state and disk untouched. |
| AlertService.SlackAlertThrottled | QueryPush/Services/AlertService.cs:26-30 | After a successful Slack alert, no second one is posted for the same query until the cooldown has passed. |
| VariableReplacer.Scan | QueryPush/Services/VariableReplacer.cs:13 | Every token found is one or more characters containing no closing brace. |
| VariableReplacer.ScanRoundTrip | QueryPush/Services/VariableReplacer.cs:19-26 | Printing the scanned tokens and literal characters back gives the input. Scanning loses nothing and invents nothing. |
| VariableReplacer.NoBraceNoTokens | QueryPush/Services/VariableReplacer.cs:13 | Text with no opening brace is all literal characters. |
| VariableReplacer.EmptyBracesAreText | QueryPush/Services/VariableReplacer.cs:13 | `{}` is not a token, and its brace is copied as text. |
| VariableReplacer.MatchOffset | QueryPush/Services/VariableReplacer.cs:14 | The offset shape `base\|±dd:dd:dd\|fmt` matches exactly when some split of the token fits it. The parts are a non-empty base, a well-shaped offset and a non-empty format. |
| VariableReplacer.MatchFormat | QueryPush/Services/VariableReplacer.cs:15 | The format shape `base\|fmt` matches exactly when some split fits it, with a non-empty base and format. |
| VariableReplacer.FormatSplitsAtFirstBar | QueryPush/Services/VariableReplacer.cs:15 | The lazy base stops at the first bar. |
| VariableReplacer.OffsetSplitsAtFirstBar | QueryPush/Services/VariableReplacer.cs:14 | A base without a bar, a well-shaped offset and a format split into exactly those three parts. |
| VariableReplacer.NoBarNoShape | QueryPush/Services/VariableReplacer.cs:14-15 | A token without a bar matches neither shape. |
| VariableReplacer.TailGroup | QueryPush/Services/VariableReplacer.cs:14-15 | The trailing group is the rest of the token less at most one final newline, and holds no newline. |
| VariableReplacer.BaseValue | QueryPush/Services/VariableReplacer.cs:65-78 | `LastRun` is a date exactly when the query has run, and is that time. `Env:NAME` is the variable NAME, or null. Any name outside the table is null. |
| VariableReplacer.FixedNamesAreNotEnv | QueryPush/Services/VariableReplacer.cs:67-76 | No fixed table name starts with `Env:`, so the arms of the switch never overlap. |
| VariableReplacer.DateOf | QueryPush/Services/VariableReplacer.cs:71 | The date part of a time is the midnight at or before it, less than a day earlier. |
| VariableReplacer.Render | QueryPush/Services/VariableReplacer.cs:62 | Null renders as the empty string and text as itself. |
| VariableReplacer.OffsetForm | QueryPush/Services/VariableReplacer.cs:39-49 | No match falls through. An offset that fails to parse raises. A result is produced only for a date base. |
| VariableReplacer.FormatForm | QueryPush/Services/VariableReplacer.cs:51-60 | No match falls through. A result, or an error, comes only from a match, and a result only for a date base. |
| VariableReplacer.ReplaceVariable | QueryPush/Services/VariableReplacer.cs:37-63 | When neither shape applies, the whole token is looked up and rendered. An offset that fails to parse aborts the token. |
| VariableReplacer.Substitute | QueryPush/Services/VariableReplacer.cs:19-26 | Pieces holding no token are printed back unchanged, whatever the callback. |
| VariableReplacer.Replace | QueryPush/Services/VariableReplacer.cs:17-35 | Input holding no token is returned unchanged. |
| VariableReplacer.NoBraceUnchanged | QueryPush/Services/VariableReplacer.cs:19-34 | Input with no opening brace is returned unchanged. |
| VariableReplacer.Then | QueryPush/Services/VariableReplacer.cs:19-26 | Two results in sequence succeed exactly when both do, joining their texts. Otherwise the first error is the result. |
| VariableReplacer.SubstituteLiteral | QueryPush/Services/VariableReplacer.cs:19-26 | A character outside any token is copied as it is. |
| VariableReplacer.SubstituteToken | QueryPush/Services/VariableReplacer.cs:19-25 | A token becomes what the callback returns for its name and ordinal, error included. |
| VariableReplacer.SubstituteAppend | QueryPush/Services/VariableReplacer.cs:19-26 | Substituting a concatenation substitutes the first part and then the second, which numbers its tokens after those of the first. The first error aborts. |
| VariableReplacer.ScanAfterPlain | QueryPush/Services/VariableReplacer.cs:13 | Text before the first opening brace is all literal characters. |
| VariableReplacer.ScanToken | QueryPush/Services/VariableReplacer.cs:13 | `{n}`, for a non-empty n without a closing brace, is one token at the head of the text. |
| VariableReplacer.LiteralsSubstitute | QueryPush/Services/VariableReplacer.cs:19-26 | Literal characters come back unchanged, whatever the callback. |
| VariableReplacer.ReplaceFirstToken | QueryPush/Services/VariableReplacer.cs:17-26 | The text before the first token is copied. The token becomes `ReplaceVariable` of its name with ordinal 0. The rest is replaced with ordinals from 1. The first error aborts the whole replacement. |
| VariableReplacer.LiteralsThenToken | QueryPush/Services/VariableReplacer.cs:19-26 | Literals, then a token, then any pieces: the literals are copied and the token is resolved with ordinal 0, before the rest from ordinal 1. |
| VariableReplacer.UnknownNameIsEmpty | QueryPush/Services/VariableReplacer.cs:62-77 | A bar-free token outside the table becomes the empty string. |
| VariableReplacer.FormatFormBehaviour | QueryPush/Services/VariableReplacer.cs:51-62 | `base\|fmt` with a date base is that date formatted by fmt. With any other base, the whole token text is looked up instead, so `{MachineName\|x}` gives "". |
| VariableReplacer.SingleBarNoOffset | QueryPush/Services/VariableReplacer.cs:14 | A token with at most one bar never has the offset shape. |
| VariableReplacer.OffsetFormBehaviour | QueryPush/Services/VariableReplacer.cs:39-49 | `base\|±hh:mm:ss\|fmt` with a date base is (base + offset) formatted by fmt. |
| VariableReplacer.NeverRunLastRunIsEmpty | QueryPush/Services/VariableReplacer.cs:37-72 | For a never-run query, `{LastRun}` becomes "". `{LastRun\|fmt}` becomes "" whenever it does not raise, and always when fmt holds no bar. |
| VariableReplacer.PlainFormatHasNoOffset | QueryPush/Services/VariableReplacer.cs:14 | `LastRun\|fmt` with a bar-free fmt never has the offset shape. |
| VariableReplacer.NeverRunOffsetFormIsNone | QueryPush/Services/VariableReplacer.cs:37-49 | For a never-run query, the offset shape of any text that starts with `LastRun` yields nothing or raises, because its base is never a timestamp. |
| VariableReplacer.NeverRunFormatFormIsNone | QueryPush/Services/VariableReplacer.cs:51-60 | For a never-run query, `LastRun\|fmt` has the format shape with a null base, so that shape yields nothing. |
| VariableReplacer.LastRunPrefixIsNull | QueryPush/Services/VariableReplacer.cs:62-77 | For a never-run query, any name starting with `LastRun` resolves to null. |
| VariableReplacer.EnvNameIncludesFormat | QueryPush/Services/VariableReplacer.cs:62-75 | `{Env:X\|fmt}` reads the variable named `X\|fmt`, because the fallback strips exactly four characters. |
| QueryText.GetQueryText | QueryPush/Services/QueryTextResolver.cs:13-30 | A non-empty inline text is returned verbatim, even when a file is also set. Otherwise a non-empty file path is read. With neither, InvalidOperationException is raised. |
| QueryText.InlineTextIgnoresFile | QueryPush/Services/QueryTextResolver.cs:15-19 | With an inline text the file system is never consulted. |
| QueryText.MissingSourceIsTheOnlyOwnError | QueryPush/Services/QueryTextResolver.cs:15-29 | The resolver fails only when no inline text is given. Its own error is the missing-source one; any other error comes from reading the file. |
| DatabaseService.Assign | QueryPush/Services/DatabaseService.cs:78 | The dictionary write keeps the keys distinct. An existing key keeps its place and takes the new value, and a new key is appended. |
| DatabaseService.CellOf | QueryPush/Services/DatabaseService.cs:78 | `DBNull` becomes null and nothing else does. |
| DatabaseService.BuildRowKeys | QueryPush/Services/DatabaseService.cs:74-79 | The row's keys are exactly the column names, with `Column{i}` standing for an unnamed column i. |
| DatabaseService.BuildRowLastWins | QueryPush/Services/DatabaseService.cs:74-79 | Each key holds the value of the last column with that name. |
| DatabaseService.ReadResults | QueryPush/Services/DatabaseService.cs:66-86 | The result is the first min(available, maxRows) reader rows, in reader order, each turned into its dictionary. There are none when maxRows is not positive. |
| DatabaseService.ExecuteQuery | QueryPush/Services/DatabaseService.cs:18-49 | An unknown database raises InvalidOperationException before connecting. A failure to connect or read is rethrown unchanged. Otherwise the rows read are returned. |
| DatabaseService.UnnamedColumnKey | QueryPush/Services/DatabaseService.cs:77 | An unnamed column is keyed `Column{i}` by its position. |
| DatabaseService.DuplicateColumnLastWins | QueryPush/Services/DatabaseService.cs:77-78 | Two columns with the same name leave one entry holding the later value. |
| QueryJob.Encode | QueryPush/Services/QueryJob.cs:51 | Base64 output is four characters for every started group of three bytes. |
| QueryJob.UrlSafe | QueryPush/Services/QueryJob.cs:52-53 | Every `/` becomes `_`, every `+` becomes `-`, and every other character is kept. |
| QueryJob.GroupRoundTrip | QueryPush/Services/QueryJob.cs:51-53 | Every three bytes, Base64-encoded and made URL-safe, decode back to those bytes. |
| QueryJob.ShortIdIsTwoGroups | QueryPush/Services/QueryJob.cs:49-55 | The short id is the URL-safe encoding of the GUID's first six bytes. |
| QueryJob.ShortIdShape | QueryPush/Services/QueryJob.cs:49-55 | The correlation id is always 8 characters from the URL-safe alphabet. It never contains `/`, `+` or padding. |
| QueryJob.ShortIdDecodes | QueryPush/Services/QueryJob.cs:49-55 | The correlation id decodes back to the first six bytes of the GUID, so it is a prefix of the GUID's Base64 form. |
| QueryJob.Execute | QueryPush/Services/QueryJob.cs:15-47 | An unknown query name runs nothing and changes nothing. A known query gets a correlation id and one execution, whose store is kept. The job itself never fails. |
| QueryJob.HaltIsContained | QueryPush/Services/QueryJob.cs:31-45 | An execution that raises, including the Halt rethrow, is contained by the job, and the store it left is kept. |
| Config.RequiredText | QueryPush/Configuration/QueryConfig.cs:7-17 | `[Required]` on a string fails exactly for blank text. |
| Config.InRange | QueryPush/Configuration/QueryConfig.cs:23-27 | `[Range]` fails exactly outside the inclusive bounds. |
| Config.EndpointErrorsExact | QueryPush/Configuration/EndpointConfig.cs:7-31 | An endpoint has no annotation errors exactly when it has a name, a URL-shaped URL, 0–10 retries, 1–300 s backoff, a positive payload size and a 0–10000 ms request delay. |
| Config.QueryErrorsExact | QueryPush/Configuration/QueryConfig.cs:7-35 | A query has no annotation errors exactly when it has a name, cron, database and endpoint, a timeout of 1–3600 s and a positive row limit. QueryText and QueryFile carry no annotation. |
| Config.SlackErrorsExact | QueryPush/Configuration/SlackAlertConfig.cs:7-16 | A Slack config has no errors exactly when its webhook is URL-shaped and its cooldown is 1–1440 minutes. |
| Config.EmailErrorsExact | QueryPush/Configuration/EmailAlertConfig.cs:7-25 | An e-mail config has no errors exactly when it has a host, a port of 1–65535, address-shaped From and To, and a cooldown of 1–1440 minutes. |
| Config.DefaultEndpointErrors | QueryPush/Configuration/EndpointConfig.cs:7-31 | A default endpoint lacks only its name and URL. Its default numbers (3 retries, 15 s, `int.MaxValue`, 500 ms) are all in range. |
| Config.DefaultQueryErrors | QueryPush/Configuration/QueryConfig.cs:7-35 | A default query lacks only its name, cron, database and endpoint. The 30 s timeout and `int.MaxValue` row limit are in range. |
| Config.DefaultSlackErrors | QueryPush/Configuration/SlackAlertConfig.cs:7-16 | A default Slack config lacks only its webhook. |
| Config.DefaultEmailErrors | QueryPush/Configuration/EmailAlertConfig.cs:7-25 | A default e-mail config lacks only its host and addresses. Port 587 and 60 minutes are in range. |
| Config.DefaultDatabaseErrors | QueryPush/Configuration/DatabaseConfig.cs:7-17 | A default database lacks only its name and connection string. The provider is not validated. |
| Config.FirstNamed | QueryPush/Services/QueryExecutor.cs:76 | `FirstOrDefault` by name: the first element with the name, or none exactly when no element has it. |
| Config.FindEndpoint | QueryPush/Services/QueryExecutor.cs:74-80 | `FirstOrDefault` by name: the endpoint found is the first one carrying the name asked for. None is found exactly when no endpoint has it. |
| Config.FindDatabase | QueryPush/Services/DatabaseService.cs:20 | `FirstOrDefault` by name: the database found is the first one carrying the name asked for. None is found exactly when no database has it. |
| Config.FindQuery | QueryPush/Services/QueryJob.cs:18 | `FirstOrDefault` by name: the query found is the first one carrying the name asked for. None is found exactly when no query has it. |
| Validator.ConnectionErrors | QueryPush/Services/ConfigurationValidator.cs:60-76 | A database that opens adds nothing. One that fails adds exactly one error carrying its name and the message. That error is the driver kind exactly when the message mentions "driver" in any case. |
| Validator.Messages | QueryPush/Services/ConfigurationValidator.cs:50 | One message per collected error, in order. |
| Validator.AlertErrors | QueryPush/Services/ConfigurationValidator.cs:36-40 | The alert configs add nothing exactly when each channel that is present meets its constraints. An absent channel is not checked. |
| Validator.ValidateConfiguration | QueryPush/Services/ConfigurationValidator.cs:15-53 | Raises exactly when at least one error was collected. The ValidationException's message is the header followed by every collected message. |
| Validator.ReportListsEveryError | QueryPush/Services/ConfigurationValidator.cs:48-52 | The report splits at newlines into the header line and then each error's message, in order. |
| Validator.EveryDatabaseReported | QueryPush/Services/ConfigurationValidator.cs:23-27 | Every database's annotation and connection errors appear, contiguously, in the collected list. There is no early exit. |
| Validator.EveryQueryReported | QueryPush/Services/ConfigurationValidator.cs:42-46 | Every query's annotation and reference errors appear, contiguously, in the collected list. |
| Validator.ReferenceLookupErrors | QueryPush/Services/ConfigurationValidator.cs:80-84 | An unknown-database error is reported exactly when no database has the query's database name. The same holds for endpoints. |
| Validator.ReferenceChannelErrors | QueryPush/Services/ConfigurationValidator.cs:86-90 | A missing-Slack error is reported exactly for the Slack policy without a Slack config. The same holds for e-mail. |
| Validator.ReferenceSourceErrors | QueryPush/Services/ConfigurationValidator.cs:92-96 | "Neither" is reported exactly when both sources are empty, and "both" exactly when both are set. |
| Validator.ReferenceFileErrors | QueryPush/Services/ConfigurationValidator.cs:98-99 | For a non-empty QueryFile, a missing-file error is reported exactly when the file does not exist. No such error arises without a QueryFile. |
| Validator.ReferenceMembership | QueryPush/Services/ConfigurationValidator.cs:78-102 | An error is among a query's reference errors exactly when one of the seven checks fails and that error is the one the check reports. |
| Validator.QuerySourceErrorsExclusive | QueryPush/Services/ConfigurationValidator.cs:92-96 | "Neither" and "both" never fire for the same query. |
| Validator.EmptyDatabasesFail | QueryPush.Tests/ConfigurationValidatorTests.cs:12-27 | Settings with no databases fail validation with the custom MinLength message. |
| Validator.ValidMeansAllChecksPass | QueryPush/Services/ConfigurationValidator.cs:15-53 | A configuration that passes has at least one database and one endpoint. Every database opens. Every endpoint meets its constraints, so its retry policy is in range, and every header has a name and a value. A configured Slack or e-mail channel meets its constraints. Every query meets its constraints and has no reference error. |
| Validator.DatabasePassesWhenValid | QueryPush/Services/ConfigurationValidator.cs:23-27 | In a configuration that passes, every database's connection probe succeeded. |
| Validator.QueryPassesWhenValid | QueryPush/Services/ConfigurationValidator.cs:42-46 | In a configuration that passes, every query meets its constraints and its references resolve. |
| Validator.EveryEndpointReported | QueryPush/Services/ConfigurationValidator.cs:29-34 | Every endpoint's problems, its headers' included, appear together in the collected list, whatever the others' are. |
| Validator.EndpointPassesWhenValid | QueryPush/Services/ConfigurationValidator.cs:29-34 | In a configuration that passes, every endpoint meets its constraints, its retry policy is in range and every header is filled in. |
| Validator.AlertsPassWhenValid | QueryPush/Services/ConfigurationValidator.cs:36-40 | In a configuration that passes, a configured Slack or e-mail channel meets its constraints. |
| Text.ContainsMeansOccurs | QueryPush/Services/QueryExecutor.cs:85-92 | Ordinal `Contains` is true exactly when the phrase occurs at some position. |
| Base.AddTicks | QueryPush/Services/VariableReplacer.cs:48 | `DateTime.Add` succeeds exactly when the sum stays in the `DateTime` range, and then moves the time by exactly the offset. |

## Left out

- Logging, Serilog and the correlation id's log context: they have no effect on behaviour.
- `Program.cs` (host and dependency setup), `QuartzSchedulerService.cs` (Quartz glue, rescheduling on reload) and the connection factory files: these are framework and driver wiring.
- `LoggingConfig.cs`: the validator never visits it.
- Concurrency: the state lock, `[DisallowConcurrentExecution]` and asynchronous waits. A delay is a value in the attempt trace, not a real wait.
- Cron parsing and next-occurrence computation, `DateTime.ToString(format)`, `TimeSpan.Parse`, JSON serialisation and HTML encoding: these are oracles.
- The `[Url]` and `[EmailAddress]` checks: these are oracles too.
- The exact Slack block layout and HTML page: only the fields that depend on the inputs are modelled.
- The clock, the GUID, the machine name and environment variables: each is an input. `Guid` and `UtcNow` values are rendered by an oracle.
- Lower-casing (`ToLowerInvariant`, `OrdinalIgnoreCase`) covers ASCII letters only. Non-ASCII case mappings are not modelled.
- The regex class `\d` is modelled as the ASCII digits only.
- `Environment.NewLine` is modelled as "\n".
- The ODBC connection probe and `File.Exists` in the validator: these are oracles.
- Backoff.CalculateDelay: defined only for the validated ranges (BackOffSeconds 1–300, attempt 1–10). Outside them the source's `double`-to-`int` conversion is not modelled.
- QueryExecutor.ExecuteQuery and HttpService.SendData: both require every endpoint's retry policy to be in range, which validation at start-up establishes (Validator.ValidMeansAllChecksPass). The host reloads `appsettings.json` on change (`Program.cs` line 36) and reschedules the jobs without validating again (`QuartzSchedulerService.cs` line 27). A reloaded RetryAttempts of −1 would therefore make no attempt at all and then run the failure policy with a null exception. That path is not modelled.
- HttpService.SendData: its own contract covers only the unknown endpoint. The properties of a delivery are stated by HttpService.DeliveryProperties.
- AlertService.BuildSlackMessage: states the addressing and the field count. The texts of the blocks are not restated.
