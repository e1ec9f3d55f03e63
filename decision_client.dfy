/** The decision-engine client: URL construction, the retry loop around every
    request, reading a decision out of the engine's answer, batch evaluation,
    and the management calls. The HTTP transport is an oracle that answers the
    n-th attempt of a request. */
module DecisionClient {
  import opened Basics
  import opened Json
  import opened Errors

  // ---------------------------------------------------------------------------
  // Decisions, the client's configuration, requests and the transport

  datatype PolicyDecision = PolicyDecision(
    allow: bool,
    decisionId: Option<string>,
    result: map<string, Json>,
    violations: seq<string>,
    metadata: map<string, Json>)

  /** `PolicyDecision(allow=False, violations=violations)`. */
  function DenyDecision(violations: seq<string>): PolicyDecision
  {
    PolicyDecision(false, None, map[], violations, map[])
  }

  /** `OPAClient`: its configuration never changes after construction. */
  datatype OpaClient = OpaClient(url: string, timeout: real, maxRetries: int, verifySsl: bool, headers: map<string, string>)

  /** `OPAClient(url, timeout, max_retries, auth_token, verify_ssl)`. */
  function NewClient(url: string, timeout: real, maxRetries: int, authToken: Option<string>, verifySsl: bool): (c: OpaClient)
    ensures |c.url| <= |url| && c.url == url[..|c.url|] && (c.url == [] || c.url[|c.url| - 1] != '/')
    ensures forall i :: |c.url| <= i < |url| ==> url[i] == '/'
    ensures c.maxRetries == maxRetries && c.timeout == timeout && c.verifySsl == verifySsl
    ensures "Content-Type" in c.headers && c.headers["Content-Type"] == "application/json"
    ensures "Authorization" in c.headers <==> authToken.Some? && authToken.value != ""
    ensures "Authorization" in c.headers ==> c.headers["Authorization"] == "Bearer " + authToken.value
  {
    var base := map["Content-Type" := "application/json"];
    var headers := if authToken.Some? && authToken.value != "" then base["Authorization" := "Bearer " + authToken.value] else base;
    OpaClient(RStrip(url, '/'), timeout, maxRetries, verifySsl, headers)
  }

  datatype Body = NoBody | JsonBody(json: Json) | TextBody(text: string)

  datatype HttpRequest = HttpRequest(verb: string, url: string, params: map<string, string>, headers: map<string, string>, body: Body)

  /** A response; `body` is `None` when it is not JSON. */
  datatype HttpResponse = HttpResponse(status: int, body: Option<Json>)

  /** What one attempt gives: a response, or a transport exception. */
  datatype Outcome = Answered(response: HttpResponse) | Failed(error: Exception)

  /** The transport: the outcome of attempt `n` of a request. */
  type Transport = (HttpRequest, nat) -> Outcome

  /** `raise_for_status` lets only 2xx responses through. */
  predicate Success(status: int)
  {
    200 <= status < 300
  }

  // ---------------------------------------------------------------------------
  // The retry loop

  /** A run of `_make_request`: its result, how many times the transport was
      called, and the back-off waits in seconds, in order. */
  datatype Run = Run(result: Result<HttpResponse, Exception>, calls: nat, waits: seq<nat>)

  /** The exception raised once every attempt failed transiently. */
  function ExhaustedError(maxRetries: int, url: string, last: Option<Exception>): Exception
  {
    OpaConnectionError(
      "Failed to connect to OPA after " + IntToString(maxRetries + 1) + " attempts: "
        + (if last.None? then "None" else Text(last.value)),
      Some(url))
  }

  /** The reference definition of `_make_request` from attempt `attempt` on,
      `last` being the last transient exception seen. */
  function Retry(maxRetries: int, t: Transport, req: HttpRequest, attempt: nat, last: Option<Exception>): Run
    decreases if maxRetries + 1 > attempt then maxRetries + 1 - attempt else 0
  {
    if attempt > maxRetries then Run(Err(ExhaustedError(maxRetries, req.url, last)), 0, [])
    else match t(req, attempt)
      case Answered(resp) =>
        Run(if Success(resp.status) then Ok(resp) else Err(HttpStatusError(resp.status, resp.body)), 1, [])
      case Failed(e) =>
        if !Transient(e) then Run(Err(e), 1, [])
        else
          var rest := Retry(maxRetries, t, req, attempt + 1, Some(e));
          Run(rest.result, rest.calls + 1, if attempt < maxRetries then [Pow2(attempt)] + rest.waits else rest.waits)
  }

  /** The run `r`, preceded by `calls` transport calls that produced `waits`. */
  function After(calls: nat, waits: seq<nat>, r: Run): Run
  {
    Run(r.result, calls + r.calls, waits + r.waits)
  }

  /** `_make_request`: tries up to `max_retries + 1` times, sleeping `2 ** attempt`
      seconds after a transient failure unless it was the last attempt. */
  method MakeRequest(c: OpaClient, t: Transport, req: HttpRequest) returns (result: Result<HttpResponse, Exception>, calls: nat, waits: seq<nat>)
    ensures Run(result, calls, waits) == Retry(c.maxRetries, t, req, 0, None)
  {
    var last: Option<Exception> := None;
    calls := 0;
    waits := [];
    var attempt: nat := 0;
    while attempt <= c.maxRetries
      invariant calls == attempt
      invariant Retry(c.maxRetries, t, req, 0, None) == After(calls, waits, Retry(c.maxRetries, t, req, attempt, last))
      decreases c.maxRetries + 1 - attempt
    {
      var outcome := t(req, attempt);
      calls := calls + 1;
      match outcome {
        case Answered(resp) =>
          if Success(resp.status) {
            result := Ok(resp);
          } else {
            result := Err(HttpStatusError(resp.status, resp.body));
          }
          return;
        case Failed(e) =>
          if !Transient(e) {
            result := Err(e);
            return;
          }
          last := Some(e);
          if attempt < c.maxRetries {
            waits := waits + [Pow2(attempt)];
          }
      }
      attempt := attempt + 1;
    }
    result := Err(ExhaustedError(c.maxRetries, req.url, last));
  }

  /** The attempt budget: at most `max_retries + 1` calls, one wait between
      consecutive calls and none after the last, the i-th wait being `2 ** i`. */
  lemma {:induction false} RetryBudget(maxRetries: int, t: Transport, req: HttpRequest, attempt: nat, last: Option<Exception>)
    ensures var r := Retry(maxRetries, t, req, attempt, last);
      && r.calls <= (if maxRetries + 1 > attempt then maxRetries + 1 - attempt else 0)
      && |r.waits| == (if r.calls > 0 then r.calls - 1 else 0)
      && forall i :: 0 <= i < |r.waits| ==> r.waits[i] == Pow2(attempt + i)
    decreases if maxRetries + 1 > attempt then maxRetries + 1 - attempt else 0
  {
    if attempt <= maxRetries {
      match t(req, attempt)
      case Answered(_) =>
      case Failed(e) =>
        if Transient(e) {
          RetryBudget(maxRetries, t, req, attempt + 1, Some(e));
          var rest := Retry(maxRetries, t, req, attempt + 1, Some(e));
          if attempt < maxRetries {
            var w := [Pow2(attempt)] + rest.waits;
            forall i | 0 <= i < |w|
              ensures w[i] == Pow2(attempt + i)
            {
              if i > 0 {
                assert w[i] == rest.waits[i - 1];
              }
            }
          }
        }
    }
  }

  /** What a run can end with: a 2xx response, an HTTP status error for a
      non-2xx one, the transport's own non-transient exception, or the
      connection error once attempts run out. */
  lemma {:induction false} RetryResultKinds(maxRetries: int, t: Transport, req: HttpRequest, attempt: nat, last: Option<Exception>)
    ensures var r := Retry(maxRetries, t, req, attempt, last);
      (r.result.Ok? ==> Success(r.result.value.status))
      && (r.result.Err? ==>
            r.result.error.HttpStatusError? || r.result.error.OpaConnectionError? || !Transient(r.result.error))
    decreases if maxRetries + 1 > attempt then maxRetries + 1 - attempt else 0
  {
    if attempt <= maxRetries {
      match t(req, attempt)
      case Answered(_) =>
      case Failed(e) =>
        if Transient(e) {
          RetryResultKinds(maxRetries, t, req, attempt + 1, Some(e));
        }
    }
  }

  /** The outcomes of attempts `from` to `k - 1` were all transient failures. */
  predicate TransientUpTo(t: Transport, req: HttpRequest, from: nat, k: nat)
  {
    forall i :: from <= i < k ==> t(req, i).Failed? && Transient(t(req, i).error)
  }

  /** A run that returns a response got it on some attempt within the budget,
      after transient failures only, and the response is a 2xx one. */
  lemma {:induction false} RetryOkWitness(maxRetries: int, t: Transport, req: HttpRequest, attempt: nat, last: Option<Exception>)
    requires Retry(maxRetries, t, req, attempt, last).result.Ok?
    ensures var resp := Retry(maxRetries, t, req, attempt, last).result.value;
      exists k :: attempt <= k <= maxRetries && TransientUpTo(t, req, attempt, k)
                && t(req, k) == Answered(resp) && Success(resp.status)
    decreases if maxRetries + 1 > attempt then maxRetries + 1 - attempt else 0
  {
    var resp := Retry(maxRetries, t, req, attempt, last).result.value;
    match t(req, attempt)
    case Answered(_) =>
      assert TransientUpTo(t, req, attempt, attempt);
    case Failed(e) =>
      RetryOkWitness(maxRetries, t, req, attempt + 1, Some(e));
      var k :| attempt + 1 <= k <= maxRetries && TransientUpTo(t, req, attempt + 1, k)
               && t(req, k) == Answered(resp) && Success(resp.status);
      assert TransientUpTo(t, req, attempt, k);
  }

  /** The `n` waits of consecutive retries starting at attempt `from`. */
  function Backoff(from: nat, n: nat): (w: seq<nat>)
    ensures |w| == n && forall i :: 0 <= i < n ==> w[i] == Pow2(from + i)
    decreases n
  {
    if n == 0 then [] else [Pow2(from)] + Backoff(from + 1, n - 1)
  }

  /** Success on attempt `k` (counting from 0) after transient failures: the
      response is returned after exactly `k + 1` calls and the waits 1, 2, 4, ... */
  lemma {:induction false} RetrySucceedsAt(maxRetries: int, t: Transport, req: HttpRequest, attempt: nat, last: Option<Exception>, k: nat, resp: HttpResponse)
    requires attempt <= k <= maxRetries
    requires TransientUpTo(t, req, attempt, k)
    requires t(req, k) == Answered(resp) && Success(resp.status)
    ensures Retry(maxRetries, t, req, attempt, last) == Run(Ok(resp), k - attempt + 1, Backoff(attempt, k - attempt))
    decreases k - attempt
  {
    if attempt < k {
      RetrySucceedsAt(maxRetries, t, req, attempt + 1, Some(t(req, attempt).error), k, resp);
    }
  }

  /** Transient failures on every attempt: `max_retries + 1` calls, then the
      connection error naming the URL and the last failure. */
  lemma {:induction false} RetryExhausted(maxRetries: int, t: Transport, req: HttpRequest, attempt: nat, last: Option<Exception>)
    requires attempt <= maxRetries
    requires TransientUpTo(t, req, attempt, maxRetries + 1)
    ensures var r := Retry(maxRetries, t, req, attempt, last);
      r.result == Err(ExhaustedError(maxRetries, req.url, Some(t(req, maxRetries).error)))
      && r.calls == maxRetries + 1 - attempt
    decreases maxRetries - attempt
  {
    if attempt < maxRetries {
      RetryExhausted(maxRetries, t, req, attempt + 1, Some(t(req, attempt).error));
    }
  }

  /** A negative retry budget makes no call at all. */
  lemma RetryNoBudget(maxRetries: int, t: Transport, req: HttpRequest)
    requires maxRetries < 0
    ensures Retry(maxRetries, t, req, 0, None) == Run(Err(ExhaustedError(maxRetries, req.url, None)), 0, [])
  {
  }

  /** A non-2xx answer is never retried. */
  lemma StatusErrorNotRetried(maxRetries: int, t: Transport, req: HttpRequest, attempt: nat, last: Option<Exception>)
    requires attempt <= maxRetries && t(req, attempt).Answered? && !Success(t(req, attempt).response.status)
    ensures var resp := t(req, attempt).response;
      Retry(maxRetries, t, req, attempt, last) == Run(Err(HttpStatusError(resp.status, resp.body)), 1, [])
  {
  }

  // ---------------------------------------------------------------------------
  // Reading a decision

  /** The Python type name `AttributeError` reports for a value without `.get`. */
  function TypeName(j: Json): string
  {
    match j
    case JNull => "NoneType"
    case JBool(_) => "bool"
    case JInt(_) => "int"
    case JStr(_) => "str"
    case JArr(_) => "list"
    case JObj(_) => "dict"
  }

  function NoGetError(j: Json): Exception
  {
    OtherError("'" + TypeName(j) + "' object has no attribute 'get'")
  }

  /** Stands for the JSON decoder's and the record validator's exceptions,
      whose text this model does not reproduce. */
  const InvalidJson: Exception := OtherError("response body is not JSON")
  const InvalidDecision: Exception := OtherError("validation error for PolicyDecision")

  /** The lax boolean conversion a `bool` field of a record applies; `None`
      when the value is rejected. */
  function AsBool(j: Json): (r: Option<bool>)
    ensures j.JBool? ==> r == Some(j.b)
    ensures j.JNull? || j.JArr? || j.JObj? ==> r.None?
  {
    match j
    case JBool(b) => Some(b)
    case JInt(i) => if i == 0 then Some(false) else if i == 1 then Some(true) else None
    case JStr(s) =>
      if Upper(s) in {"0", "OFF", "F", "FALSE", "N", "NO"} then Some(false)
      else if Upper(s) in {"1", "ON", "T", "TRUE", "Y", "YES"} then Some(true)
      else None
    case _ => None
  }

  /** The violations coercion: a string is one violation, a list is kept (its
      items must be strings), anything else means none. */
  function AsViolations(j: Json): (r: Option<seq<string>>)
    ensures j.JStr? ==> r == Some([j.s])
    ensures !j.JStr? && !j.JArr? ==> r == Some([])
    ensures j.JArr? ==> (r.Some? <==> forall i :: 0 <= i < |j.items| ==> j.items[i].JStr?)
    ensures j.JArr? && r.Some? ==> |r.value| == |j.items| && forall i :: 0 <= i < |j.items| ==> j.items[i] == JStr(r.value[i])
  {
    match j
    case JStr(s) => Some([s])
    case JArr(_) => AsStrList(j)
    case _ => Some([])
  }

  /** The decision `evaluate_policy` reads out of a response body. */
  function ParseDecision(body: Json, path: string): Result<PolicyDecision, Exception>
  {
    if !body.JObj? then Err(NoGetError(body))
    else
      var decisionResult := Get(body.fields, "result", JObj(map[]));
      if !decisionResult.JObj? then Err(NoGetError(decisionResult))
      else
        var allow := AsBool(Get(decisionResult.fields, "allow", JBool(false)));
        var violations := AsViolations(Get(decisionResult.fields, "violations", JArr([])));
        if allow.None? || violations.None? then Err(InvalidDecision)
        else Ok(PolicyDecision(allow.value, None, body.fields, violations.value,
                  map["policy_path" := JStr(path),
                      "metrics" := Get(body.fields, "metrics", JObj(map[])),
                      "trace" := Get(body.fields, "explanation", JArr([]))]))
  }

  /** The engine's answer for a decision with this `allow` and these violations. */
  function DecisionBody(allow: bool, violations: seq<string>): Json
  {
    JObj(map["result" := JObj(map["allow" := JBool(allow), "violations" := StrList(violations)])])
  }

  /** Reading an answer gives back the decision the engine stated, keeping the
      whole body and recording the policy path. */
  lemma {:induction false} ParseDecisionBody(allow: bool, violations: seq<string>, path: string)
    ensures var r := ParseDecision(DecisionBody(allow, violations), path);
      r.Ok? && r.value.allow == allow && r.value.violations == violations && r.value.decisionId.None?
      && r.value.result == DecisionBody(allow, violations).fields
      && "policy_path" in r.value.metadata && r.value.metadata["policy_path"] == JStr(path)
  {
    StrListRoundTrip(violations);
  }

  /** A missing `result`, or a `result` without `allow` and `violations`, reads
      as a denial without violations. */
  lemma ParseDecisionDefaults(fields: map<string, Json>, path: string)
    requires "result" !in fields || fields["result"] == JObj(map[])
    ensures var r := ParseDecision(JObj(fields), path);
      r.Ok? && !r.value.allow && r.value.violations == []
  {
  }

  /** The violations a decision carries, whatever their shape in the answer. */
  lemma ParseDecisionViolations(fields: map<string, Json>, decisionFields: map<string, Json>, path: string)
    requires "result" in fields && fields["result"] == JObj(decisionFields)
    requires "allow" in decisionFields && decisionFields["allow"].JBool?
    ensures var r := ParseDecision(JObj(fields), path);
      && ("violations" !in decisionFields ==> r.Ok? && r.value.violations == [])
      && ("violations" in decisionFields && decisionFields["violations"].JStr? ==>
            r.Ok? && r.value.violations == [decisionFields["violations"].s])
      && ("violations" in decisionFields && !decisionFields["violations"].JStr? && !decisionFields["violations"].JArr? ==>
            r.Ok? && r.value.violations == [])
      && (r.Ok? ==> r.value.allow == decisionFields["allow"].b)
  {
  }

  // ---------------------------------------------------------------------------
  // evaluate_policy

  function EvaluateUrl(c: OpaClient, path: string): (u: string)
    ensures u == c.url + "/v1/data/" + ReplaceChar(path, '.', '/')
  {
    c.url + "/v1/data/" + ReplaceChar(path, '.', '/')
  }

  /** The dotted policy path becomes a URL path: every '.' becomes '/', no
      '.' is left and every other character stays in place. */
  lemma EvaluateUrlShape(c: OpaClient, path: string)
    ensures var u := EvaluateUrl(c, path); var tail := u[|c.url + "/v1/data/"|..];
      StartsWith(u, c.url + "/v1/data/") && |tail| == |path|
      && (forall i :: 0 <= i < |tail| ==> tail[i] != '.')
      && (forall i :: 0 <= i < |tail| && path[i] == '.' ==> tail[i] == '/')
      && (forall i :: 0 <= i < |tail| && path[i] != '.' ==> tail[i] == path[i])
  {
    var u := EvaluateUrl(c, path);
    assert u[..|c.url + "/v1/data/"|] == c.url + "/v1/data/";
  }

  /** The query parameters: `metrics` and `explain` only when asked for. */
  function EvaluateParams(includeMetrics: bool, includeTrace: bool): (p: map<string, string>)
    ensures "metrics" in p <==> includeMetrics
    ensures "explain" in p <==> includeTrace
    ensures includeMetrics ==> p["metrics"] == "true"
    ensures includeTrace ==> p["explain"] == "full"
    ensures p.Keys <= {"metrics", "explain"}
  {
    var m: map<string, string> := if includeMetrics then map["metrics" := "true"] else map[];
    if includeTrace then m["explain" := "full"] else m
  }

  function EvaluateRequest(c: OpaClient, path: string, input: map<string, Json>, includeMetrics: bool, includeTrace: bool): HttpRequest
  {
    HttpRequest("POST", EvaluateUrl(c, path), EvaluateParams(includeMetrics, includeTrace), c.headers,
                JsonBody(JObj(map["input" := JObj(input)])))
  }

  /** The text `evaluate_policy` appends for a status error: the body's
      `message`, when the body is a JSON object. */
  function StatusDetail(body: Option<Json>): string
  {
    if body.Some? && body.value.JObj? then " - " + PyStr(Get(body.value.fields, "message", JStr(""))) else ""
  }

  /** `evaluate_policy`'s two handlers: every exception, the connection error
      included, becomes a `PolicyEvaluationError`. */
  function WrapFailure(path: string, input: map<string, Json>, e: Exception): (w: Exception)
    ensures w.PolicyEvaluationError? && w.path == Some(path) && w.inputData == Some(JObj(input))
    ensures e.HttpStatusError? ==>
      w.message == "Policy evaluation failed: " + IntToString(e.status) + StatusDetail(e.body)
    ensures !e.HttpStatusError? ==> w.message == "Policy evaluation failed: " + Text(e) && w.opaError == Str(e)
  {
    match e
    case HttpStatusError(status, body) =>
      PolicyEvaluationError("Policy evaluation failed: " + IntToString(status) + StatusDetail(body), Some(path), Some(JObj(input)), Str(e))
    case _ =>
      PolicyEvaluationError("Policy evaluation failed: " + Text(e), Some(path), Some(JObj(input)), Str(e))
  }

  /** What `evaluate_policy` makes of the outcome of its request. */
  function Interpret(path: string, input: map<string, Json>, result: Result<HttpResponse, Exception>): Result<PolicyDecision, Exception>
  {
    match result
    case Err(e) => Err(WrapFailure(path, input, e))
    case Ok(resp) =>
      if resp.body.None? then Err(WrapFailure(path, input, InvalidJson))
      else match ParseDecision(resp.body.value, path)
        case Ok(d) => Ok(d)
        case Err(e) => Err(WrapFailure(path, input, e))
  }

  /** The result `evaluate_policy` gives for a path and an input. */
  function Evaluation(c: OpaClient, t: Transport, path: string, input: map<string, Json>, includeMetrics: bool, includeTrace: bool): Result<PolicyDecision, Exception>
  {
    Interpret(path, input, Retry(c.maxRetries, t, EvaluateRequest(c, path, input, includeMetrics, includeTrace), 0, None).result)
  }

  /** `evaluate_policy`. */
  method EvaluatePolicy(c: OpaClient, t: Transport, path: string, input: map<string, Json>, includeMetrics: bool, includeTrace: bool)
    returns (r: Result<PolicyDecision, Exception>)
    ensures r == Evaluation(c, t, path, input, includeMetrics, includeTrace)
  {
    var req := EvaluateRequest(c, path, input, includeMetrics, includeTrace);
    var result, _, _ := MakeRequest(c, t, req);
    r := Interpret(path, input, result);
  }

  /** The only exception `evaluate_policy` raises is a `PolicyEvaluationError`
      for the path and input it was given; a decision always records the path. */
  lemma EvaluationOutcomes(c: OpaClient, t: Transport, path: string, input: map<string, Json>, includeMetrics: bool, includeTrace: bool)
    ensures var r := Evaluation(c, t, path, input, includeMetrics, includeTrace);
      && (r.Err? ==> r.error.PolicyEvaluationError? && r.error.path == Some(path) && r.error.inputData == Some(JObj(input)))
      && (r.Ok? ==> "policy_path" in r.value.metadata && r.value.metadata["policy_path"] == JStr(path))
  {
  }

  /** An answer with a non-2xx status is reported, after one call, with its
      status code in the message. */
  lemma EvaluationStatusError(c: OpaClient, t: Transport, path: string, input: map<string, Json>, status: int, body: Option<Json>)
    requires c.maxRetries >= 0
    requires t(EvaluateRequest(c, path, input, false, false), 0) == Answered(HttpResponse(status, body)) && !Success(status)
    ensures Evaluation(c, t, path, input, false, false)
         == Err(PolicyEvaluationError("Policy evaluation failed: " + IntToString(status) + StatusDetail(body),
                                      Some(path), Some(JObj(input)), None))
  {
  }

  /** The engine's decision comes back unchanged once some attempt reaches it. */
  lemma EvaluationAfterRetries(c: OpaClient, t: Transport, path: string, input: map<string, Json>, k: nat, allow: bool, violations: seq<string>)
    requires k <= c.maxRetries
    requires TransientUpTo(t, EvaluateRequest(c, path, input, false, false), 0, k)
    requires t(EvaluateRequest(c, path, input, false, false), k) == Answered(HttpResponse(200, Some(DecisionBody(allow, violations))))
    ensures var r := Evaluation(c, t, path, input, false, false);
      r.Ok? && r.value.allow == allow && r.value.violations == violations
  {
    var req := EvaluateRequest(c, path, input, false, false);
    RetrySucceedsAt(c.maxRetries, t, req, 0, None, k, HttpResponse(200, Some(DecisionBody(allow, violations))));
    ParseDecisionBody(allow, violations, path);
  }

  /** As written, exhausting the retries does not surface the connection
      error: `evaluate_policy` re-wraps it into a `PolicyEvaluationError`. */
  lemma ExhaustedRetriesRewrapped(c: OpaClient, t: Transport, path: string, input: map<string, Json>)
    requires c.maxRetries >= 0
    requires TransientUpTo(t, EvaluateRequest(c, path, input, false, false), 0, c.maxRetries + 1)
    ensures var r := Evaluation(c, t, path, input, false, false);
      var req := EvaluateRequest(c, path, input, false, false);
      var conn := ExhaustedError(c.maxRetries, req.url, Some(t(req, c.maxRetries).error));
      r.Err? && !r.error.OpaConnectionError?
      && r.error == PolicyEvaluationError("Policy evaluation failed: " + conn.message, Some(path), Some(JObj(input)), Some(conn.message))
  {
    RetryExhausted(c.maxRetries, t, EvaluateRequest(c, path, input, false, false), 0, None);
  }

  /** The evidently intended handler: a connection error passes through
      unchanged, every other exception is wrapped as before. */
  function InterpretCorrected(path: string, input: map<string, Json>, result: Result<HttpResponse, Exception>): Result<PolicyDecision, Exception>
  {
    if result.Err? && result.error.OpaConnectionError? then Err(result.error)
    else Interpret(path, input, result)
  }

  function EvaluationCorrected(c: OpaClient, t: Transport, path: string, input: map<string, Json>, includeMetrics: bool, includeTrace: bool): Result<PolicyDecision, Exception>
  {
    InterpretCorrected(path, input, Retry(c.maxRetries, t, EvaluateRequest(c, path, input, includeMetrics, includeTrace), 0, None).result)
  }

  /** With the corrected handler, exhausted retries raise the connection
      error itself, naming the engine URL; nothing else changes. */
  lemma ExhaustedRetriesSurfaceCorrected(c: OpaClient, t: Transport, path: string, input: map<string, Json>)
    requires c.maxRetries >= 0
    requires TransientUpTo(t, EvaluateRequest(c, path, input, false, false), 0, c.maxRetries + 1)
    ensures var r := EvaluationCorrected(c, t, path, input, false, false);
      r.Err? && r.error.OpaConnectionError? && r.error.url == Some(EvaluateUrl(c, path))
  {
    RetryExhausted(c.maxRetries, t, EvaluateRequest(c, path, input, false, false), 0, None);
  }

  lemma CorrectedAgreesElsewhere(path: string, input: map<string, Json>, result: Result<HttpResponse, Exception>)
    requires !(result.Err? && result.error.OpaConnectionError?)
    ensures InterpretCorrected(path, input, result) == Interpret(path, input, result)
  {
  }

  // ---------------------------------------------------------------------------
  // batch_evaluate

  datatype EvaluationRequest = EvaluationRequest(policyPath: string, inputData: map<string, Json>)

  /** One entry of the batch: the decision, or a denial carrying the error text. */
  function BatchEntry(r: Result<PolicyDecision, Exception>): (d: PolicyDecision)
    ensures r.Ok? ==> d == r.value
    ensures r.Err? ==> !d.allow && d.violations == [Text(r.error)]
  {
    match r
    case Ok(d) => d
    case Err(e) => DenyDecision([Text(e)])
  }

  /** `batch_evaluate`: the requests run one after the other (the concurrent
      gather keeps the order of its inputs). */
  method BatchEvaluate(c: OpaClient, t: Transport, evaluations: seq<EvaluationRequest>) returns (decisions: seq<PolicyDecision>)
    ensures |decisions| == |evaluations|
    ensures forall i :: 0 <= i < |evaluations| ==>
      decisions[i] == BatchEntry(Evaluation(c, t, evaluations[i].policyPath, evaluations[i].inputData, false, false))
  {
    decisions := [];
    var i := 0;
    while i < |evaluations|
      invariant 0 <= i <= |evaluations|
      invariant |decisions| == i
      invariant forall j :: 0 <= j < i ==>
        decisions[j] == BatchEntry(Evaluation(c, t, evaluations[j].policyPath, evaluations[j].inputData, false, false))
    {
      var r := EvaluatePolicy(c, t, evaluations[i].policyPath, evaluations[i].inputData, false, false);
      decisions := decisions + [BatchEntry(r)];
      i := i + 1;
    }
  }

  /** A failed batch entry is a denial whose only violation is the
      evaluation error's message. */
  lemma BatchFailureIsDenial(c: OpaClient, t: Transport, e: EvaluationRequest)
    requires Evaluation(c, t, e.policyPath, e.inputData, false, false).Err?
    ensures var d := BatchEntry(Evaluation(c, t, e.policyPath, e.inputData, false, false));
      !d.allow && d.violations == [Evaluation(c, t, e.policyPath, e.inputData, false, false).error.message]
  {
  }

  // ---------------------------------------------------------------------------
  // Management calls

  function PutPolicyRequest(c: OpaClient, path: string, content: string): HttpRequest
  {
    HttpRequest("PUT", c.url + "/v1/policies/" + path, map[], c.headers["Content-Type" := "text/plain"], TextBody(content))
  }

  function DeletePolicyRequest(c: OpaClient, path: string): HttpRequest
  {
    HttpRequest("DELETE", c.url + "/v1/policies/" + path, map[], c.headers, NoBody)
  }

  function ListPoliciesRequest(c: OpaClient): HttpRequest
  {
    HttpRequest("GET", c.url + "/v1/policies", map[], c.headers, NoBody)
  }

  function PutDataRequest(c: OpaClient, path: string, data: map<string, Json>): HttpRequest
  {
    HttpRequest("PUT", c.url + "/v1/data/" + path, map[], c.headers, JsonBody(JObj(data)))
  }

  function HealthRequest(c: OpaClient): HttpRequest
  {
    HttpRequest("GET", c.url + "/health", map[], c.headers, NoBody)
  }

  /** The request, tried with retries, was answered with exactly this status. */
  predicate AnsweredWith(c: OpaClient, t: Transport, req: HttpRequest, status: int)
  {
    exists k :: 0 <= k <= c.maxRetries && TransientUpTo(t, req, 0, k)
             && t(req, k).Answered? && t(req, k).response.status == status
  }

  /** Reading a management call's boolean: true exactly when some attempt,
      after transient failures only, got the expected (2xx) status. */
  lemma {:induction false} StatusResultIff(c: OpaClient, t: Transport, req: HttpRequest, status: int)
    requires Success(status)
    ensures (var r := Retry(c.maxRetries, t, req, 0, None).result; r.Ok? && r.value.status == status)
        <==> AnsweredWith(c, t, req, status)
  {
    var r := Retry(c.maxRetries, t, req, 0, None).result;
    if r.Ok? && r.value.status == status {
      RetryOkWitness(c.maxRetries, t, req, 0, None);
    }
    if AnsweredWith(c, t, req, status) {
      var k :| 0 <= k <= c.maxRetries && TransientUpTo(t, req, 0, k)
               && t(req, k).Answered? && t(req, k).response.status == status;
      RetrySucceedsAt(c.maxRetries, t, req, 0, None, k, t(req, k).response);
    }
  }

  /** `upload_policy`: true iff the engine answered 200. */
  method UploadPolicy(c: OpaClient, t: Transport, path: string, content: string) returns (ok: bool)
    ensures ok <==> AnsweredWith(c, t, PutPolicyRequest(c, path, content), 200)
  {
    var req := PutPolicyRequest(c, path, content);
    var result, _, _ := MakeRequest(c, t, req);
    ok := result.Ok? && result.value.status == 200;
    StatusResultIff(c, t, req, 200);
  }

  /** `delete_policy`: true iff the engine answered 200. */
  method DeletePolicy(c: OpaClient, t: Transport, path: string) returns (ok: bool)
    ensures ok <==> AnsweredWith(c, t, DeletePolicyRequest(c, path), 200)
  {
    var req := DeletePolicyRequest(c, path);
    var result, _, _ := MakeRequest(c, t, req);
    ok := result.Ok? && result.value.status == 200;
    StatusResultIff(c, t, req, 200);
  }

  /** `upload_data`: true iff the engine answered 204. */
  method UploadData(c: OpaClient, t: Transport, path: string, data: map<string, Json>) returns (ok: bool)
    ensures ok <==> AnsweredWith(c, t, PutDataRequest(c, path, data), 204)
  {
    var req := PutDataRequest(c, path, data);
    var result, _, _ := MakeRequest(c, t, req);
    ok := result.Ok? && result.value.status == 204;
    StatusResultIff(c, t, req, 204);
  }

  /** The policy ids a `get_policies` answer lists; anything unexpected gives none. */
  function PolicyIds(result: Result<HttpResponse, Exception>): (ids: set<string>)
    ensures result.Err? ==> ids == {}
  {
    if result.Err? || result.value.body.None? || !result.value.body.value.JObj? then {}
    else
      var listed := Get(result.value.body.value.fields, "result", JObj(map[]));
      if listed.JObj? then listed.fields.Keys else {}
  }

  /** `get_policies`: the keys of the answer's `result` object, as a set. */
  method GetPolicies(c: OpaClient, t: Transport) returns (ids: set<string>)
    ensures ids == PolicyIds(Retry(c.maxRetries, t, ListPoliciesRequest(c), 0, None).result)
  {
    var result, _, _ := MakeRequest(c, t, ListPoliciesRequest(c));
    ids := PolicyIds(result);
  }

  /** A listing answer returns exactly the policies it names. */
  lemma PolicyIdsOfListing(status: int, policies: map<string, Json>)
    ensures PolicyIds(Ok(HttpResponse(status, Some(JObj(map["result" := JObj(policies)]))))) == policies.Keys
  {
  }

  /** `health_check`: one plain request, no retry and no status check; true
      iff the answer is 200, false for any exception. */
  function HealthCheck(c: OpaClient, t: Transport): (healthy: bool)
    ensures healthy <==> t(HealthRequest(c), 0).Answered? && t(HealthRequest(c), 0).response.status == 200
  {
    match t(HealthRequest(c), 0)
    case Answered(resp) => resp.status == 200
    case Failed(_) => false
  }
}
