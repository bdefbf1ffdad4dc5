/** The delivery pipeline of `HttpService`: split the rows into chunks, send
    each chunk with its own retry loop, pause between chunks, and shape the
    body as one JSON array or as JSON lines.

    The JSON serializer and the HTTP transport are inputs. The transport's
    answer to attempt `a` of chunk `c` is `respond(c, a)`; waits are not
    performed but recorded in the returned trace. */
module HttpService {
  import opened Base
  import opened Text
  import opened Config
  import opened Backoff

  /** `JsonSerializer.Serialize` of one row and of a list of rows. */
  datatype Json<!T> = Json(row: T -> string, rows: seq<T> -> string)

  datatype Request = Request(httpMethod: HttpMethod, url: string, headers: seq<Header>, body: string)

  /** What `HttpClient.SendAsync` produced: a status line, or an exception. */
  datatype Response = Status(code: int, reason: string) | Thrown(ex: Exception)

  predicate IsSuccessStatus(resp: Response) {
    resp.Status? && 200 <= resp.code <= 299
  }

  /** The exception a failed attempt leaves behind: a non-success status is
      turned into an `HttpRequestException`. */
  function FailureOf(resp: Response): Exception {
    match resp
    case Thrown(ex) => ex
    case Status(code, reason) => Raise(HttpRequest, "HTTP " + IntToString(code) + " " + reason)
  }

  // -------------------------------------------------------------- chunking

  function Concat<T>(chunks: seq<seq<T>>): seq<T>
    decreases |chunks|
  {
    if |chunks| == 0 then [] else chunks[0] + Concat(chunks[1..])
  }

  /** Consecutive slices of `size` rows, the last one holding the rest. */
  function FixedChunks<T>(data: seq<T>, size: nat): (r: seq<seq<T>>)
    requires size >= 1
    ensures Concat(r) == data
    ensures forall i :: 0 <= i < |r| ==> 1 <= |r[i]| <= size
    decreases |data|
  {
    if |data| == 0 then []
    else if |data| <= size then
      assert Concat([data]) == data + Concat([data][1..]);
      [data]
    else
      var rest := FixedChunks(data[size..], size);
      assert data[..size] + data[size..] == data;
      assert ([data[..size]] + rest)[1..] == rest;
      [data[..size]] + rest
  }

  /** All chunks but the last are full, and there are `ceil(|data| / size)`
      of them: the fewest chunks of `size` rows that hold the data. */
  lemma {:induction false} FixedChunksShape<T>(data: seq<T>, size: nat)
    requires size >= 1
    ensures var r := FixedChunks(data, size);
      && (|r| == 0 <==> |data| == 0)
      && (|r| - 1) * size < |data| <= |r| * size
      && (forall i :: 0 <= i < |r| - 1 ==> |r[i]| == size)
    decreases |data|
  {
    if |data| > size {
      var rest := FixedChunks(data[size..], size);
      FixedChunksShape(data[size..], size);
      assert (|rest| + 1) * size == |rest| * size + size;
      assert |rest| * size == (|rest| - 1) * size + size;
    }
  }

  /** `ChunkData`: `int.MaxValue` means a single chunk holding every row,
      even when there are none. Otherwise rows are collected until the chunk
      holds `chunkSize` of them; a size below 1 closes a chunk after every row. */
  function ChunkData<T>(data: seq<T>, chunkSize: int): (r: seq<seq<T>>)
    ensures chunkSize == IntMax ==> r == [data]
    ensures chunkSize != IntMax ==> r == FixedChunks(data, if chunkSize < 1 then 1 else chunkSize)
  {
    if chunkSize == IntMax then [data]
    else FixedChunks(data, if chunkSize < 1 then 1 else chunkSize)
  }

  /** The properties of chunking, for a validated payload size. */
  lemma ChunkDataProperties<T>(data: seq<T>, chunkSize: int)
    requires 1 <= chunkSize <= IntMax
    ensures Concat(ChunkData(data, chunkSize)) == data
    ensures chunkSize == IntMax ==> |ChunkData(data, chunkSize)| == 1
    ensures chunkSize != IntMax ==>
      var r := ChunkData(data, chunkSize);
      && (|r| == 0 <==> |data| == 0)
      && (|r| - 1) * chunkSize < |data| <= |r| * chunkSize
      && (forall i :: 0 <= i < |r| - 1 ==> |r[i]| == chunkSize)
      && (forall i :: 0 <= i < |r| ==> 1 <= |r[i]| <= chunkSize)
  {
    if chunkSize == IntMax {
      assert Concat([data]) == data + Concat([data][1..]);
    } else {
      FixedChunksShape(data, chunkSize);
    }
  }

  // --------------------------------------------------------- body shaping

  /** `FormatPayload`: JSON lines are the rows' serialisations joined by a
      newline; JSON array and any unlisted format give one array. */
  function FormatPayload<T>(rows: seq<T>, format: PayloadFormat, json: Json<T>): (r: string)
    ensures !format.JsonLines? ==> r == json.rows(rows)
  {
    match format
    case JsonLines => Join("\n", RowLines(rows, json))
    case _ => json.rows(rows)
  }

  function RowLines<T>(rows: seq<T>, json: Json<T>): (r: seq<string>)
    ensures |r| == |rows|
    ensures forall i :: 0 <= i < |rows| ==> r[i] == json.row(rows[i])
  {
    seq(|rows|, i requires 0 <= i < |rows| => json.row(rows[i]))
  }

  /** A JSON-lines body splits back into one serialised row per line, and the
      last line is the last row's text, so there is no trailing newline. */
  lemma JsonLinesSplitsIntoRows<T>(rows: seq<T>, json: Json<T>)
    requires |rows| > 0
    requires forall i :: 0 <= i < |rows| ==> '\n' !in json.row(rows[i])
    ensures Split(FormatPayload(rows, JsonLines, json), '\n') == RowLines(rows, json)
    ensures var body := FormatPayload(rows, JsonLines, json);
            var last := json.row(rows[|rows| - 1]);
            |last| <= |body| && body[|body| - |last|..] == last
  {
    var lines := RowLines(rows, json);
    assert FormatPayload(rows, JsonLines, json) == Join("\n", lines);
    assert "\n" == ['\n'];
    assert forall i :: 0 <= i < |lines| ==> '\n' !in lines[i];
    SplitJoin(lines, '\n');
    JoinEndsWithLastPart("\n", lines);
    assert lines[|lines| - 1] == json.row(rows[|rows| - 1]);
  }

  // ------------------------------------------------------------- requests

  /** `ConvertToHttpMethod`: an unlisted method value is sent as POST. */
  function ConvertMethod(m: HttpMethod): (r: HttpMethod)
    ensures !r.UnlistedMethod?
    ensures !m.UnlistedMethod? ==> r == m
    ensures m.UnlistedMethod? ==> r == POST
  {
    if m.UnlistedMethod? then POST else m
  }

  function CreateHttpRequest(e: EndpointConfig, content: string): Request {
    Request(ConvertMethod(e.httpMethod), e.url, e.headers, content)
  }

  // ------------------------------------------------------ per-chunk retry

  /** One attempt: the request sent, the answer, and the wait taken after it. */
  datatype AttemptRecord = AttemptRecord(attempt: nat, request: Request, response: Response, waitAfter: Option<int>)

  datatype ChunkRun = ChunkRun(attempts: seq<AttemptRecord>, result: Result<Unit>)

  /** What a run of attempts from attempt `k` on looks like: consecutive
      attempts with the same request; every attempt but the last failed and
      waited the backoff delay; the result is the last answer's, and a
      failure means the budget is spent. */
  ghost predicate ChunkRunFrom(e: EndpointConfig, chunkIndex: nat, req: Request, respond: (nat, nat) -> Response, k: nat, r: ChunkRun)
    requires RetryPolicyInRange(e) && 1 <= k
  {
    && 1 <= |r.attempts| <= e.retryAttempts + 2 - k
    && (forall i :: 0 <= i < |r.attempts| ==>
          r.attempts[i] == AttemptRecord(k + i, req, respond(chunkIndex, k + i), r.attempts[i].waitAfter))
    && (forall i :: 0 <= i < |r.attempts| - 1 ==>
          !IsSuccessStatus(r.attempts[i].response)
          && r.attempts[i].waitAfter == Some(CalculateDelay(e.retryStrategy, e.backOffSeconds, k + i)))
    && r.attempts[|r.attempts| - 1].waitAfter.None?
    && (r.result.Ok? <==> IsSuccessStatus(r.attempts[|r.attempts| - 1].response))
    && (r.result.Err? ==>
          && r.attempts[|r.attempts| - 1].attempt == e.retryAttempts + 1
          && r.result.error == FailureOf(r.attempts[|r.attempts| - 1].response))
  }

  /** A failed attempt that waited, in front of a run from the next attempt,
      is a run from this attempt. */
  lemma PrependChunkRetry(e: EndpointConfig, chunkIndex: nat, req: Request, respond: (nat, nat) -> Response, k: nat, rest: ChunkRun)
    requires RetryPolicyInRange(e)
    requires 1 <= k <= e.retryAttempts
    requires !IsSuccessStatus(respond(chunkIndex, k))
    requires ChunkRunFrom(e, chunkIndex, req, respond, k + 1, rest)
    ensures var a := AttemptRecord(k, req, respond(chunkIndex, k), Some(CalculateDelay(e.retryStrategy, e.backOffSeconds, k)));
            ChunkRunFrom(e, chunkIndex, req, respond, k, ChunkRun([a] + rest.attempts, rest.result))
  {
    var a := AttemptRecord(k, req, respond(chunkIndex, k), Some(CalculateDelay(e.retryStrategy, e.backOffSeconds, k)));
    var out := [a] + rest.attempts;
    forall i | 1 <= i < |out| ensures out[i] == rest.attempts[i - 1] {}
    forall i | 0 <= i < |out| ensures out[i] == AttemptRecord(k + i, req, respond(chunkIndex, k + i), out[i].waitAfter) {
      if i > 0 { assert out[i] == rest.attempts[i - 1]; }
    }
    forall i | 0 <= i < |out| - 1
      ensures !IsSuccessStatus(out[i].response) && out[i].waitAfter == Some(CalculateDelay(e.retryStrategy, e.backOffSeconds, k + i))
    {
      if i > 0 { assert out[i] == rest.attempts[i - 1]; }
    }
    assert out[|out| - 1] == rest.attempts[|rest.attempts| - 1];
  }

  /** `SendChunkWithRetryAsync` from attempt `k` on: send; stop at the first
      success status; after a failed attempt `k <= RetryAttempts` wait the
      backoff delay and try again; after the final attempt raise its error. */
  function SendChunkFrom(e: EndpointConfig, chunkIndex: nat, req: Request, respond: (nat, nat) -> Response, k: nat): (r: ChunkRun)
    requires RetryPolicyInRange(e)
    requires 1 <= k <= e.retryAttempts + 1
    ensures ChunkRunFrom(e, chunkIndex, req, respond, k, r)
    decreases e.retryAttempts + 1 - k
  {
    var resp := respond(chunkIndex, k);
    if IsSuccessStatus(resp) then ChunkRun([AttemptRecord(k, req, resp, None)], Ok(Unit))
    else if k <= e.retryAttempts then
      var rest := SendChunkFrom(e, chunkIndex, req, respond, k + 1);
      PrependChunkRetry(e, chunkIndex, req, respond, k, rest);
      ChunkRun([AttemptRecord(k, req, resp, Some(CalculateDelay(e.retryStrategy, e.backOffSeconds, k)))] + rest.attempts, rest.result)
    else ChunkRun([AttemptRecord(k, req, resp, None)], Err(FailureOf(resp)))
  }

  function SendChunkWithRetry<T>(e: EndpointConfig, chunk: seq<T>, format: PayloadFormat, json: Json<T>,
                                 chunkIndex: nat, respond: (nat, nat) -> Response): ChunkRun
    requires RetryPolicyInRange(e)
  {
    SendChunkFrom(e, chunkIndex, CreateHttpRequest(e, FormatPayload(chunk, format, json)), respond, 1)
  }

  /** A chunk is tried at most `RetryAttempts + 1` times; it succeeds exactly
      when some attempt within that budget got a success status, and then its
      last attempt is the first such one. A failed chunk used the whole budget. */
  lemma {:induction false} ChunkRetryBudget(e: EndpointConfig, chunkIndex: nat, req: Request, respond: (nat, nat) -> Response)
    requires RetryPolicyInRange(e)
    ensures var r := SendChunkFrom(e, chunkIndex, req, respond, 1);
      && |r.attempts| <= e.retryAttempts + 1
      && (r.result.Ok? <==> exists a :: 1 <= a <= e.retryAttempts + 1 && IsSuccessStatus(respond(chunkIndex, a)))
      && (r.result.Ok? ==> forall a :: 1 <= a < |r.attempts| ==> !IsSuccessStatus(respond(chunkIndex, a)))
      && (r.result.Err? ==> |r.attempts| == e.retryAttempts + 1)
  {
    var r := SendChunkFrom(e, chunkIndex, req, respond, 1);
    var n := |r.attempts|;
    assert r.attempts[n - 1].attempt == n;
    forall a | 1 <= a < n ensures !IsSuccessStatus(respond(chunkIndex, a)) {
      assert r.attempts[a - 1].response == respond(chunkIndex, a);
    }
    if r.result.Ok? {
      assert IsSuccessStatus(respond(chunkIndex, n));
    } else {
      assert n == e.retryAttempts + 1;
      forall a | 1 <= a <= e.retryAttempts + 1 ensures !IsSuccessStatus(respond(chunkIndex, a)) {
        assert r.attempts[a - 1].response == respond(chunkIndex, a);
      }
    }
  }

  // ------------------------------------------------------------ SendData

  /** One chunk's delivery and the pause taken after it. */
  datatype ChunkRecord<T> = ChunkRecord(index: nat, rows: seq<T>, run: ChunkRun, pauseAfter: Option<int>)

  datatype Delivery<T> = Delivery(chunks: seq<ChunkRecord<T>>, result: Result<Unit>)

  /** Sends `chunks[i..]` (chunk numbers are 1-based); stops at the first
      chunk that exhausts its retries and raises its error. `runs[k]` is what
      the retry loop does with chunk `k`; it depends on nothing but the chunk
      and its number, so the chunks after a failure are simply not recorded. */
  function SendChunks<T>(e: EndpointConfig, chunks: seq<seq<T>>, runs: seq<ChunkRun>, i: nat): (r: Delivery<T>)
    requires |runs| == |chunks| && i <= |chunks|
    ensures DeliveryFrom(e, chunks, runs, i, r)
    decreases |chunks| - i
  {
    if i == |chunks| then Delivery([], Ok(Unit))
    else if runs[i].result.Err? then Delivery([ChunkRecord(i + 1, chunks[i], runs[i], None)], runs[i].result)
    else
      var rest := SendChunks(e, chunks, runs, i + 1);
      PrependChunk(e, chunks, runs, i, rest);
      Delivery([ChunkRecord(i + 1, chunks[i], runs[i], PauseAfter(e, chunks, i))] + rest.chunks, rest.result)
  }

  /** The pause after a chunk that went through: `RequestDelay` when it is
      positive and more chunks follow. */
  function PauseAfter<T>(e: EndpointConfig, chunks: seq<seq<T>>, i: nat): (r: Option<int>)
    ensures r.Some? <==> e.requestDelay > 0 && i + 1 < |chunks|
    ensures r.Some? ==> r.value == e.requestDelay
  {
    if e.requestDelay > 0 && i + 1 < |chunks| then Some(e.requestDelay) else None
  }

  /** What the chunks from `i` on yield: the chunks in order, numbered from
      `i + 1`, up to and including the first that failed, whose error is the
      result; a pause follows each chunk that went through and has a
      successor. */
  ghost predicate DeliveryFrom<T>(e: EndpointConfig, chunks: seq<seq<T>>, runs: seq<ChunkRun>, i: nat, r: Delivery<T>)
    requires |runs| == |chunks| && i <= |chunks|
  {
    && |r.chunks| <= |chunks| - i
    && (r.result.Ok? ==> |r.chunks| == |chunks| - i)
    && (r.result.Err? ==> |r.chunks| >= 1 && r.result == r.chunks[|r.chunks| - 1].run.result)
    && (forall j :: 0 <= j < |r.chunks| ==>
          r.chunks[j].index == i + j + 1 && r.chunks[j].rows == chunks[i + j] && r.chunks[j].run == runs[i + j])
    && (forall j :: 0 <= j < |r.chunks| ==> (r.chunks[j].run.result.Err? <==> r.result.Err? && j == |r.chunks| - 1))
    && (forall j :: 0 <= j < |r.chunks| ==>
          r.chunks[j].pauseAfter == if e.requestDelay > 0 && i + j + 1 < |chunks| && r.chunks[j].run.result.Ok?
                                    then Some(e.requestDelay) else None)
  }

  /** A chunk that went through, in front of what the chunks after it
      yield, is what the chunks from it on yield. */
  lemma PrependChunk<T>(e: EndpointConfig, chunks: seq<seq<T>>, runs: seq<ChunkRun>, i: nat, rest: Delivery<T>)
    requires |runs| == |chunks| && i < |chunks|
    requires runs[i].result.Ok?
    requires DeliveryFrom(e, chunks, runs, i + 1, rest)
    ensures DeliveryFrom(e, chunks, runs, i,
              Delivery([ChunkRecord(i + 1, chunks[i], runs[i], PauseAfter(e, chunks, i))] + rest.chunks, rest.result))
  {
    var out := [ChunkRecord(i + 1, chunks[i], runs[i], PauseAfter(e, chunks, i))] + rest.chunks;
    forall j | 1 <= j < |out| ensures out[j] == rest.chunks[j - 1] {}
  }

  /** The retry loop of every chunk, numbered from 1. */
  function ChunkRuns<T>(e: EndpointConfig, chunks: seq<seq<T>>, format: PayloadFormat, json: Json<T>,
                        respond: (nat, nat) -> Response): (r: seq<ChunkRun>)
    requires RetryPolicyInRange(e)
    ensures |r| == |chunks|
    ensures forall k :: 0 <= k < |chunks| ==> r[k] == SendChunkWithRetry(e, chunks[k], format, json, k + 1, respond)
  {
    seq(|chunks|, k requires 0 <= k < |chunks| => SendChunkWithRetry(e, chunks[k], format, json, k + 1, respond))
  }

  /** `SendDataAsync`: an unknown endpoint name raises before anything is
      sent; otherwise the chunks are delivered in order. */
  function SendData<T>(endpoints: seq<EndpointConfig>, endpointName: string, data: seq<T>, format: PayloadFormat,
                       json: Json<T>, respond: (nat, nat) -> Response): (r: Delivery<T>)
    requires forall j :: 0 <= j < |endpoints| ==> RetryPolicyInRange(endpoints[j])
    ensures FindEndpoint(endpoints, endpointName).None? ==> r.chunks == [] && r.result.Err? && r.result.error.kind == InvalidOperation
  {
    match FindEndpoint(endpoints, endpointName)
    case None => Delivery([], Err(Raise(InvalidOperation, "Endpoint '" + endpointName + "' not found")))
    case Some(e) =>
      var chunks := ChunkData(data, e.payloadSize);
      SendChunks(e, chunks, ChunkRuns(e, chunks, format, json, respond), 0)
  }

  function CountPauses<T>(chunks: seq<ChunkRecord<T>>): nat {
    if |chunks| == 0 then 0
    else (if chunks[0].pauseAfter.Some? then 1 else 0) + CountPauses(chunks[1..])
  }

  lemma {:induction false} PausesBound<T>(chunks: seq<ChunkRecord<T>>, last: nat)
    requires forall j :: 0 <= j < |chunks| && chunks[j].pauseAfter.Some? ==> j + 1 < last
    ensures CountPauses(chunks) <= if last == 0 then 0 else last - 1
    decreases |chunks|
  {
    if |chunks| > 0 {
      PausesBound(chunks[1..], if last == 0 then 0 else last - 1);
    }
  }

  /** Delivery of a known endpoint: the chunks sent are a prefix of the
      chunking, each sent by its own retry loop; every chunk but the last
      sent went through, and the delivery fails exactly when the last chunk
      sent failed, raising that chunk's error; there is at most one pause
      fewer than there are chunks. */
  lemma DeliveryProperties<T>(endpoints: seq<EndpointConfig>, endpointName: string, data: seq<T>,
                              format: PayloadFormat, json: Json<T>, respond: (nat, nat) -> Response)
    requires forall j :: 0 <= j < |endpoints| ==> RetryPolicyInRange(endpoints[j])
    requires FindEndpoint(endpoints, endpointName).Some?
    ensures var e := FindEndpoint(endpoints, endpointName).value;
            var chunks := ChunkData(data, e.payloadSize);
            var r := SendData(endpoints, endpointName, data, format, json, respond);
            && |r.chunks| <= |chunks|
            && (r.result.Ok? ==> |r.chunks| == |chunks|)
            && CountPauses(r.chunks) <= (if |chunks| == 0 then 0 else |chunks| - 1)
            && (forall j :: 0 <= j < |r.chunks| ==>
                  r.chunks[j].rows == chunks[j]
                  && r.chunks[j].run == SendChunkWithRetry(e, chunks[j], format, json, j + 1, respond))
            && (forall j :: 0 <= j < |r.chunks| - 1 ==> r.chunks[j].run.result.Ok?)
            && (r.result.Ok? ==> forall j :: 0 <= j < |r.chunks| ==> r.chunks[j].run.result.Ok?)
            && (r.result.Err? ==> |r.chunks| >= 1 && r.result == r.chunks[|r.chunks| - 1].run.result)
  {
    var e := FindEndpoint(endpoints, endpointName).value;
    var chunks := ChunkData(data, e.payloadSize);
    var runs := ChunkRuns(e, chunks, format, json, respond);
    var r := SendChunks(e, chunks, runs, 0);
    PausesBound(r.chunks, |chunks|);
    DeliveredBeforeLast(e, chunks, runs, 0, r);
  }

  /** Every chunk recorded before the last went through, and all of them
      did when the delivery succeeded. */
  lemma DeliveredBeforeLast<T>(e: EndpointConfig, chunks: seq<seq<T>>, runs: seq<ChunkRun>, i: nat, r: Delivery<T>)
    requires |runs| == |chunks| && i <= |chunks|
    requires DeliveryFrom(e, chunks, runs, i, r)
    ensures forall j :: 0 <= j < |r.chunks| - 1 ==> r.chunks[j].run.result.Ok?
    ensures r.result.Ok? ==> forall j :: 0 <= j < |r.chunks| ==> r.chunks[j].run.result.Ok?
  {
  }
}
