/** The `/ask-ai` endpoint of the query server (server.py:481-619): query the metrics view
    with the request's filters, pivot the rows, replace the period by the one the data
    actually covers, send the payload to the backend endpoint the mode selects, and relay
    the backend's answer or failure.

    The database, the backend and the clock are parameters: `fetch` answers the
    parameterised query, `send` is the backend's outcome for an endpoint and payload, and the
    request id and timestamp are given. */
module AskAi {
  import opened Wrappers
  import opened Strings
  import opened FilterValues
  import opened QueryBuilder
  import opened Pivot
  import opened Payload
  import opened Mappings

  /** Where the backend lives (server.py:33-37). */
  datatype Config = Config(baseUrl: string, prefix: string)

  const DefaultBaseUrl: string := "http://localhost:7071"
  const DefaultPrefix: string := "/api/v1"
  const AssistantMode: string := "AI Assistant"

  /** `os.getenv(name, default)`: a variable that is set, even to `""`, wins. */
  function EnvOr(value: Option<string>, default: string): (r: string)
    ensures value.Some? ==> r == value.value
    ensures value.None? ==> r == default
  {
    if value.Some? then value.value else default
  }

  /** The configuration read from the environment at import time. */
  function ConfigFrom(baseUrlEnv: Option<string>, prefixEnv: Option<string>): (c: Config)
    ensures c.baseUrl == if baseUrlEnv.Some? then baseUrlEnv.value else DefaultBaseUrl
    ensures c.prefix == if prefixEnv.Some? then prefixEnv.value else DefaultPrefix
  {
    Config(EnvOr(baseUrlEnv, DefaultBaseUrl), EnvOr(prefixEnv, DefaultPrefix))
  }

  /** `ANALYSIS_API_ENDPOINT`: the configured base and prefix, then `/analysis`. */
  function AnalysisEndpoint(c: Config): (url: string)
    ensures c.baseUrl + c.prefix <= url
    ensures |url| == |c.baseUrl| + |c.prefix| + 9 && url[|url| - 9..] == "/analysis"
  {
    c.baseUrl + c.prefix + "/analysis"
  }

  /** `ASSISTANT_API_ENDPOINT`: the configured base and prefix, then `/assistant`. */
  function AssistantEndpoint(c: Config): (url: string)
    ensures c.baseUrl + c.prefix <= url
    ensures |url| == |c.baseUrl| + |c.prefix| + 10 && url[|url| - 10..] == "/assistant"
  {
    c.baseUrl + c.prefix + "/assistant"
  }

  /** With neither variable set, the endpoints are the local Functions host's. */
  lemma DefaultEndpoints()
    ensures AnalysisEndpoint(ConfigFrom(None, None)) == "http://localhost:7071/api/v1/analysis"
    ensures AssistantEndpoint(ConfigFrom(None, None)) == "http://localhost:7071/api/v1/assistant"
  {
  }

  /** The two endpoints of a configuration are never the same URL. */
  lemma EndpointsDiffer(c: Config)
    ensures AnalysisEndpoint(c) != AssistantEndpoint(c)
  {
    var p := c.baseUrl + c.prefix;
    assert AnalysisEndpoint(c)[|p| + 2] == 'n';
    assert AssistantEndpoint(c)[|p| + 2] == 's';
  }

  /** `request_data.mode_type or request_data.request_meta.mode_type` (server.py:537). */
  function EffectiveMode(request: Request): (m: Option<string>)
    ensures TruthyText(request.modeType) ==> m == request.modeType
    ensures !TruthyText(request.modeType) && request.requestMeta.Some? ==> m == request.requestMeta.value.modeType
    ensures !TruthyText(request.modeType) && request.requestMeta.None? ==> m == None
  {
    if TruthyText(request.modeType) then request.modeType
    else if request.requestMeta.Some? then request.requestMeta.value.modeType
    else None
  }

  /** Endpoint selection (server.py:537-541): the assistant for "AI Assistant", the analysis
      endpoint for any other mode or none. */
  function SelectEndpoint(request: Request, c: Config): (endpoint: string)
    ensures EffectiveMode(request) == Some(AssistantMode) <==> endpoint == AssistantEndpoint(c)
    ensures EffectiveMode(request) != Some(AssistantMode) <==> endpoint == AnalysisEndpoint(c)
  {
    EndpointsDiffer(c);
    if EffectiveMode(request) == Some(AssistantMode) then AssistantEndpoint(c) else AnalysisEndpoint(c)
  }

  /** The non-empty `date` of each record, in record order. */
  function RecordDateList(records: seq<MetricsRecord>): (ds: seq<string>)
    ensures forall d :: d in ds <==> d != "" && exists i :: 0 <= i < |records| && records[i].date == d
  {
    if records == [] then []
    else
      var rest := RecordDateList(records[1..]);
      assert forall i :: 1 <= i < |records| ==> records[i] == records[1..][i - 1];
      (if records[0].date != "" then [records[0].date] else []) + rest
  }

  /** The period sent to the backend (server.py:521-531): the request's period, replaced by the
      earliest and latest record date whenever some record has a date. */
  function EffectivePeriod(period: Option<Period>, records: seq<MetricsRecord>): (r: Period)
    ensures RecordDateList(records) == [] ==>
      r == Period(if period.Some? then period.value.startDate else None,
                  if period.Some? then period.value.endDate else None)
    ensures RecordDateList(records) != [] ==>
      && r.startDate.Some? && r.startDate.value in RecordDateList(records)
      && r.endDate.Some? && r.endDate.value in RecordDateList(records)
      && (forall d :: d in RecordDateList(records) ==> LessEq(r.startDate.value, d) && LessEq(d, r.endDate.value))
  {
    var dates := RecordDateList(records);
    if dates == [] then
      Period(if period.Some? then period.value.startDate else None,
             if period.Some? then period.value.endDate else None)
    else
      var sorted := SortedSet(dates);
      assert dates[0] in sorted;
      SortedBounds(sorted);
      Period(Some(sorted[0]), Some(sorted[|sorted| - 1]))
  }

  lemma SortedBounds(s: seq<string>)
    requires StrictlySorted(s) && s != []
    ensures forall d :: d in s ==> LessEq(s[0], d) && LessEq(d, s[|s| - 1])
  {
  }

  /** For the pivot's records, whose dates ascend strictly and are never empty, the period is
      the first record's date to the last one's. */
  lemma PeriodOfAscendingRecords(period: Option<Period>, records: seq<MetricsRecord>)
    requires records != []
    requires forall i :: 0 <= i < |records| ==> records[i].date != ""
    requires forall i, j :: 0 <= i < j < |records| ==> Less(records[i].date, records[j].date)
    ensures EffectivePeriod(period, records) == Period(Some(records[0].date), Some(records[|records| - 1].date))
  {
    var first, last := records[0].date, records[|records| - 1].date;
    var r := EffectivePeriod(period, records);
    assert first in RecordDateList(records);
    var s, e := r.startDate.value, r.endDate.value;
    var i :| 0 <= i < |records| && records[i].date == s;
    var j :| 0 <= j < |records| && records[j].date == e;
    if i != 0 {
      LessIrreflexive(first);
      LessAsymmetric(first, s);
      assert false;
    }
    if j != |records| - 1 {
      assert last in RecordDateList(records);
      LessIrreflexive(last);
      LessAsymmetric(e, last);
      assert false;
    }
  }

  /** A backend body: a JSON object with or without a string `message`, or any other JSON. */
  datatype Body = JsonObject(message: Option<string>) | JsonOther

  /** What one POST to the backend came to: a response (its status, its body when that parses
      as JSON, and its raw text), a timeout, or a connection failure with its reason. */
  datatype Outcome = Responded(status: int, json: Option<Body>, text: string) | TimedOut | Unreachable(reason: string)

  /** How `call_backend_api` fails: an `HTTPException` with a status and detail, or the error
      raised when a 200 body is not JSON. */
  datatype CallError = Http(status: int, detail: string) | Malformed

  /** `call_backend_api` (server.py:428-473) on the outcome of its POST. */
  function CallBackend(o: Outcome): (r: Result<Body, CallError>)
    ensures r.Success? <==> o.Responded? && o.status == 200 && o.json.Some?
    ensures o.Responded? && o.status != 200 ==> r == Failure(Http(o.status, "Backend API error: " + o.text))
    ensures o.TimedOut? ==> r == Failure(Http(504, "Backend API timeout"))
    ensures o.Unreachable? ==> r == Failure(Http(503, "Cannot connect to Backend API: " + o.reason))
  {
    match o
    case Responded(status, json, text) =>
      if status == 200 then
        if json.Some? then Success(json.value) else Failure(Malformed)
      else Failure(Http(status, "Backend API error: " + text))
    case TimedOut => Failure(Http(504, "Backend API timeout"))
    case Unreachable(reason) => Failure(Http(503, "Cannot connect to Backend API: " + reason))
  }

  /** The three backend failures stay apart. The status alone cannot tell them apart (a
      backend may itself answer 503 or 504), but the detail, which is all the caller sees,
      always can. */
  lemma FailureKindsDistinct(status: int, json: Option<Body>, text: string, reason: string)
    requires status != 200
    ensures CallBackend(Responded(status, json, text)).error.status == status
    ensures CallBackend(TimedOut).error.status == 504
    ensures CallBackend(Unreachable(reason)).error.status == 503
    ensures CallBackend(TimedOut).error.detail != CallBackend(Unreachable(reason)).error.detail
    ensures CallBackend(Responded(status, json, text)).error.detail != CallBackend(TimedOut).error.detail
    ensures CallBackend(Responded(status, json, text)).error.detail != CallBackend(Unreachable(reason)).error.detail
  {
    var http := "Backend API error: " + text;
    var timeout, unreachable := "Backend API timeout", "Cannot connect to Backend API: " + reason;
    assert http[12] == 'e' && timeout[12] == 't';
    assert http[0] == 'B' && timeout[0] == 'B' && unreachable[0] == 'C';
  }

  /** What the endpoint answers, with its HTTP status. */
  datatype ReplyBody =
    | Answer(message: string, data: Body)          // the backend's `message` (or "") and its body
    | NoData                                       // the "no metrics data" notice, `metrics_records: 0`
    | RelayedError(endpoint: string, detail: string)  // a backend failure, shown with its endpoint
    | SystemError                                  // any other exception, status 500

  datatype Reply = Reply(status: int, body: ReplyBody)

  /** `backend_message or ''`. */
  function MessageOf(b: Body): (m: string)
    ensures b.JsonObject? && b.message.Some? ==> m == b.message.value
    ensures !(b.JsonObject? && b.message.Some?) ==> m == ""
  {
    if b.JsonObject? && b.message.Some? then b.message.value else ""
  }

  /** The reply for a backend call (server.py:550-619): a body becomes the answer; an
      `HTTPException` is recovered into a status-200 error naming the endpoint; anything else
      reaches the catch-all and becomes a 500. */
  function Relay(endpoint: string, r: Result<Body, CallError>): (reply: Reply)
    ensures r.Success? ==> reply == Reply(200, Answer(MessageOf(r.value), r.value))
    ensures r.Failure? && r.error.Http? ==> reply == Reply(200, RelayedError(endpoint, r.error.detail))
    ensures r.Failure? && r.error.Malformed? ==> reply.status == 500
  {
    match r
    case Success(body) => Reply(200, Answer(MessageOf(body), body))
    case Failure(Http(_, detail)) => Reply(200, RelayedError(endpoint, detail))
    case Failure(Malformed) => Reply(500, SystemError)
  }

  /** A backend answering 500 with the body "boom": the caller still gets status 200, with the
      failing endpoint and a detail that contains "boom". */
  lemma BoomIsRelayed(endpoint: string, json: Option<Body>)
    ensures Relay(endpoint, CallBackend(Responded(500, json, "boom")))
         == Reply(200, RelayedError(endpoint, "Backend API error: " + "boom"))
    ensures Contains("Backend API error: " + "boom", "boom")
  {
    var detail := "Backend API error: " + "boom";
    assert OccursAt(detail, "boom", 19) by {
      assert detail[19..23] == "boom";
    }
    ContainsAt(detail, "boom");
  }

  /** `/ask-ai` end to end. `sent` is the backend call made, when one is made. */
  method AskAi(request: Request, c: Config,
               fetch: (string, seq<string>) -> Result<seq<EavRow>, string>,
               norm: string -> string, coerce: string -> Option<real>,
               send: (string, BackendPayload) -> Outcome,
               requestId: string, timestamp: string)
    returns (reply: Reply, sent: Option<(string, BackendPayload)>)
    ensures
      var pStart := if request.period.Some? then request.period.value.startDate else None;
      var pEnd := if request.period.Some? then request.period.value.endDate else None;
      var clauses := QueryClauses(request.filters, pStart, pEnd);
      var fetched := fetch(Sql(clauses), Params(clauses));
      if fetched.Failure? then reply == Reply(500, SystemError) && sent == None
      else
        var records := MetricsRecords(fetched.value, Conversion(MetricValueMapping, norm, coerce));
        if records == [] then reply == Reply(200, NoData) && sent == None
        else
          && sent.Some?
          && sent.value.0 == SelectEndpoint(request, c)
          && sent.value.1.period == EffectivePeriod(request.period, records)
          && sent.value.1.metricsData == records
          && sent.value.1.filters == BackendFilters(RenamedFilters(request.filters))
          && sent.value.1.requestMeta == PayloadMeta(requestId, timestamp, request.modeType)
          && (sent.value.1.userQuestion.Some? <==> TruthyText(request.userQuestion))
          && (sent.value.1.userQuestion.Some? ==> sent.value.1.userQuestion == request.userQuestion)
          && reply == Relay(sent.value.0, CallBackend(send(sent.value.0, sent.value.1)))
  {
    var pStart := if request.period.Some? then request.period.value.startDate else None;
    var pEnd := if request.period.Some? then request.period.value.endDate else None;
    var sql, params := BuildQuery(request.filters, pStart, pEnd);
    var fetched := fetch(sql, params);
    if fetched.Failure? {
      return Reply(500, SystemError), None;
    }
    var records := ProcessDataToMetrics(fetched.value, norm, coerce);
    if records == [] {
      return Reply(200, NoData), None;
    }
    var actualPeriod := EffectivePeriod(request.period, records);
    var payload := BuildBackendPayload(request, records, actualPeriod, requestId, timestamp);
    var endpoint := SelectEndpoint(request, c);
    sent := Some((endpoint, payload));
    reply := Relay(endpoint, CallBackend(send(endpoint, payload)));
  }
}
