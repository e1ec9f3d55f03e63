/** The policy-enforcing request handler: it authorizes every A2A operation
    against the decision engine before delegating to the wrapped handler. The
    engine (through its client) and the wrapped handler are oracles. */
module Handler {
  import opened Basics
  import opened Json
  import opened Errors
  import opened Context
  import opened Policies
  import opened DecisionClient

  /** `evaluate_policy(policy_path, input)` of the configured client. */
  type Evaluator = (string, Json) -> Result<PolicyDecision, Exception>

  /** A call the wrapped handler receives: the operation, its parameters and
      the server call context. */
  datatype Call = Call(op: string, params: Params, server: Option<ServerContext>)

  /** What a wrapped operation produces: a value, or the exception it raised. */
  datatype Reply = Returned(value: Json) | Raised(error: Exception)

  /** The wrapped handler's unary operations and its event streams. */
  type Backend = Call -> Reply
  type StreamBackend = Call -> seq<Json>

  // ---------------------------------------------------------------------------
  // The authorization procedure

  const DefaultReason: string := "Request denied by policy"

  /** The reasons a denial reports: the violations, or the default reason. */
  function Reasons(violations: seq<string>): (r: seq<string>)
    ensures r != []
    ensures violations != [] ==> r == violations
    ensures violations == [] ==> r == [DefaultReason]
  {
    if violations == [] then [DefaultReason] else violations
  }

  function DenyMessage(op: string, violations: seq<string>): string
  {
    "Request " + op + " denied: " + Join(Reasons(violations), ", ")
  }

  /** The error raised for an explicit denial. */
  function DenyError(op: string, path: string, d: PolicyDecision, ctx: A2AContext): Exception
  {
    PolicyViolationError(DenyMessage(op, d.violations), path, JObj(d.result), ToOpaInput(ctx))
  }

  /** The error raised, failing closed, when evaluation itself failed. */
  function EvaluationFailure(op: string, path: string): Exception
  {
    PolicyViolationError("Policy evaluation failed for " + op, path, JObj(map[]), JObj(map[]))
  }

  /** The denial message names the method and mentions every reason. */
  lemma DenyMessageMentions(op: string, violations: seq<string>)
    ensures StartsWith(DenyMessage(op, violations), "Request " + op + " denied: ")
    ensures forall k :: 0 <= k < |Reasons(violations)| ==> Contains(DenyMessage(op, violations), Reasons(violations)[k])
    ensures violations == [] ==> DenyMessage(op, violations) == "Request " + op + " denied: " + DefaultReason
  {
    var prefix := "Request " + op + " denied: ";
    var joined := Join(Reasons(violations), ", ");
    assert DenyMessage(op, violations) == prefix + joined;
    assert (prefix + joined)[..|prefix|] == prefix;
    forall k | 0 <= k < |Reasons(violations)|
      ensures Contains(DenyMessage(op, violations), Reasons(violations)[k])
    {
      JoinContainsEach(Reasons(violations), ", ", k);
      ContainsRight(prefix, joined, Reasons(violations)[k]);
    }
  }

  /** The reference definition of `_authorize_request`, the route map being
      `mappings` and the fail-open switch `failOpen`. A failing-open call
      re-extracts the context without the additional data. */
  function Authorization(cx: ContextExtractor, mappings: map<string, string>, failOpen: bool, evaluate: Evaluator,
                         op: string, params: Params, server: Option<ServerContext>,
                         additional: Option<map<string, Json>>, now: string): Result<A2AContext, Exception>
  {
    var ctx := Extracted(cx, op, params, server, additional, now);
    var path := Resolve(mappings, op);
    var reextracted := Extracted(cx, op, params, server, None, now);
    match evaluate(path, ToOpaInput(ctx))
    case Ok(d) =>
      if d.allow then Ok(ctx)
      else if failOpen then Ok(reextracted)
      else Err(DenyError(op, path, d, ctx))
    case Err(e) =>
      if failOpen then Ok(reextracted)
      else if e.PolicyEvaluationError? then Err(EvaluationFailure(op, path))
      else Err(e)
  }

  /** An allowing decision authorizes the request with the extracted context. */
  lemma AuthorizationAllows(cx: ContextExtractor, mappings: map<string, string>, failOpen: bool, evaluate: Evaluator,
                            op: string, params: Params, server: Option<ServerContext>, additional: Option<map<string, Json>>, now: string)
    requires var ctx := Extracted(cx, op, params, server, additional, now);
      evaluate(Resolve(mappings, op), ToOpaInput(ctx)).Ok? && evaluate(Resolve(mappings, op), ToOpaInput(ctx)).value.allow
    ensures Authorization(cx, mappings, failOpen, evaluate, op, params, server, additional, now)
         == Ok(Extracted(cx, op, params, server, additional, now))
  {
  }

  /** Failing closed, a denial raises a `PolicyViolationError` for the method's
      policy path, carrying the engine's result and the context, whose message
      mentions every violation (or the default reason). */
  lemma AuthorizationDenies(cx: ContextExtractor, mappings: map<string, string>, evaluate: Evaluator,
                            op: string, params: Params, server: Option<ServerContext>, additional: Option<map<string, Json>>, now: string)
    requires var ctx := Extracted(cx, op, params, server, additional, now);
      evaluate(Resolve(mappings, op), ToOpaInput(ctx)).Ok? && !evaluate(Resolve(mappings, op), ToOpaInput(ctx)).value.allow
    ensures var ctx := Extracted(cx, op, params, server, additional, now);
      var d := evaluate(Resolve(mappings, op), ToOpaInput(ctx)).value;
      var r := Authorization(cx, mappings, false, evaluate, op, params, server, additional, now);
      && r.Err? && r.error.PolicyViolationError?
      && r.error.policyPath == Resolve(mappings, op)
      && r.error.decision == JObj(d.result)
      && r.error.context == ToOpaInput(ctx)
      && (forall k :: 0 <= k < |d.violations| ==> Contains(r.error.message, d.violations[k]))
      && (d.violations == [] ==> r.error.message == "Request " + op + " denied: " + DefaultReason)
  {
    var ctx := Extracted(cx, op, params, server, additional, now);
    var d := evaluate(Resolve(mappings, op), ToOpaInput(ctx)).value;
    DenyMessageMentions(op, d.violations);
  }

  /** Failing closed, an evaluation error becomes a `PolicyViolationError` for
      the method's policy path with an empty decision and context. */
  lemma AuthorizationEvaluationErrorClosed(cx: ContextExtractor, mappings: map<string, string>, evaluate: Evaluator,
                                           op: string, params: Params, server: Option<ServerContext>, additional: Option<map<string, Json>>, now: string)
    requires var ctx := Extracted(cx, op, params, server, additional, now);
      var out := evaluate(Resolve(mappings, op), ToOpaInput(ctx));
      out.Err? && out.error.PolicyEvaluationError?
    ensures Authorization(cx, mappings, false, evaluate, op, params, server, additional, now)
         == Err(PolicyViolationError("Policy evaluation failed for " + op, Resolve(mappings, op), JObj(map[]), JObj(map[])))
  {
  }

  /** As written, failing closed, any other exception is re-raised unchanged:
      a generic failure does not become a `PolicyViolationError`. */
  lemma AuthorizationOtherErrorReraised(cx: ContextExtractor, mappings: map<string, string>, evaluate: Evaluator,
                                        op: string, params: Params, server: Option<ServerContext>, additional: Option<map<string, Json>>, now: string)
    requires var ctx := Extracted(cx, op, params, server, additional, now);
      var out := evaluate(Resolve(mappings, op), ToOpaInput(ctx));
      out.Err? && !out.error.PolicyEvaluationError?
    ensures var ctx := Extracted(cx, op, params, server, additional, now);
      var r := Authorization(cx, mappings, false, evaluate, op, params, server, additional, now);
      r == Err(evaluate(Resolve(mappings, op), ToOpaInput(ctx)).error)
      && (r.error.OtherError? ==> !r.error.PolicyViolationError?)
  {
  }

  /** Failing open, anything but an allowing decision (an explicit denial
      included) authorizes the request with the context extracted again. */
  lemma AuthorizationFailsOpen(cx: ContextExtractor, mappings: map<string, string>, evaluate: Evaluator,
                               op: string, params: Params, server: Option<ServerContext>, additional: Option<map<string, Json>>, now: string)
    requires var ctx := Extracted(cx, op, params, server, additional, now);
      var out := evaluate(Resolve(mappings, op), ToOpaInput(ctx));
      !(out.Ok? && out.value.allow)
    ensures Authorization(cx, mappings, true, evaluate, op, params, server, additional, now)
         == Ok(Extracted(cx, op, params, server, None, now))
  {
  }

  /** Authorization succeeds only on an allowing decision or when failing open;
      failing closed, it either authorizes with the extracted context or fails. */
  lemma AuthorizationCases(cx: ContextExtractor, mappings: map<string, string>, failOpen: bool, evaluate: Evaluator,
                           op: string, params: Params, server: Option<ServerContext>, additional: Option<map<string, Json>>, now: string)
    ensures var ctx := Extracted(cx, op, params, server, additional, now);
      var out := evaluate(Resolve(mappings, op), ToOpaInput(ctx));
      var r := Authorization(cx, mappings, failOpen, evaluate, op, params, server, additional, now);
      && (r.Ok? <==> failOpen || (out.Ok? && out.value.allow))
      && (r.Err? ==> !failOpen)
      && (!failOpen && r.Ok? ==> r.value == ctx)
  {
  }

  /** The denial that fails open: an explicit denial authorizes the request. */
  lemma FailOpenAdmitsDenial(cx: ContextExtractor, mappings: map<string, string>, evaluate: Evaluator,
                             op: string, params: Params, server: Option<ServerContext>, now: string)
    requires var ctx := Extracted(cx, op, params, server, None, now);
      evaluate(Resolve(mappings, op), ToOpaInput(ctx)) == Ok(DenyDecision(["Access denied"]))
    ensures Authorization(cx, mappings, true, evaluate, op, params, server, None, now).Ok?
  {
  }

  /** The evidently intended procedure: a denial is always raised, failing open
      only covers failures of the evaluation itself, and failing closed every
      failure becomes a `PolicyViolationError`. */
  function AuthorizationCorrected(cx: ContextExtractor, mappings: map<string, string>, failOpen: bool, evaluate: Evaluator,
                                  op: string, params: Params, server: Option<ServerContext>,
                                  additional: Option<map<string, Json>>, now: string): Result<A2AContext, Exception>
  {
    var ctx := Extracted(cx, op, params, server, additional, now);
    var path := Resolve(mappings, op);
    match evaluate(path, ToOpaInput(ctx))
    case Ok(d) =>
      if d.allow then Ok(ctx) else Err(DenyError(op, path, d, ctx))
    case Err(e) =>
      if failOpen then Ok(Extracted(cx, op, params, server, None, now))
      else if e.PolicyEvaluationError? then Err(EvaluationFailure(op, path))
      else Err(PolicyViolationError("Authorization error for " + op, path, JObj(map[]), JObj(map[])))
  }

  /** With the corrected procedure, a denial is never let through, and failing
      closed every failure is a `PolicyViolationError` for the method's path. */
  lemma CorrectedAuthorizationEnforces(cx: ContextExtractor, mappings: map<string, string>, failOpen: bool, evaluate: Evaluator,
                                       op: string, params: Params, server: Option<ServerContext>, additional: Option<map<string, Json>>, now: string)
    ensures var ctx := Extracted(cx, op, params, server, additional, now);
      var out := evaluate(Resolve(mappings, op), ToOpaInput(ctx));
      var r := AuthorizationCorrected(cx, mappings, failOpen, evaluate, op, params, server, additional, now);
      && (out.Ok? && !out.value.allow ==> r.Err? && r.error.PolicyViolationError?)
      && (!failOpen && r.Err? ==> r.error.PolicyViolationError? && r.error.policyPath == Resolve(mappings, op))
      && (out.Ok? && out.value.allow ==> r == Ok(ctx))
  {
    var ctx := Extracted(cx, op, params, server, additional, now);
    var path := Resolve(mappings, op);
    var out := evaluate(path, ToOpaInput(ctx));
    var r := AuthorizationCorrected(cx, mappings, failOpen, evaluate, op, params, server, additional, now);
    if out.Ok? {
      assert r == if out.value.allow then Ok(ctx) else Err(DenyError(op, path, out.value, ctx));
    } else if failOpen {
      assert r.Ok?;
    } else if out.error.PolicyEvaluationError? {
      assert r == Err(EvaluationFailure(op, path));
    } else {
      assert r.error.policyPath == path;
    }
  }

  // ---------------------------------------------------------------------------
  // Pass-through filters and stream forwarding

  /** `_filter_task_response`: a falsy task becomes `None`. */
  function FilterTask(task: Json): (r: Json)
    ensures Truthy(task) ==> r == task
    ensures !Truthy(task) ==> r == JNull
  {
    if Truthy(task) then task else JNull
  }

  /** The task filter applied to what the wrapped `on_get_task` returned. */
  function FilterTaskReply(r: Reply): (f: Reply)
    ensures r.Raised? ==> f == r
    ensures r.Returned? ==> f == Returned(FilterTask(r.value))
  {
    if r.Returned? then Returned(FilterTask(r.value)) else r
  }

  /** The events a stream forwards: the truthy ones, in order. */
  function KeepTruthy(events: seq<Json>): seq<Json>
  {
    if events == [] then []
    else KeepTruthy(events[..|events| - 1]) + (if Truthy(events[|events| - 1]) then [events[|events| - 1]] else [])
  }

  /** Forwarding drops exactly the falsy events and keeps the others in order. */
  lemma {:induction false} KeepTruthyMembers(events: seq<Json>)
    ensures var out := KeepTruthy(events);
      |out| <= |events|
      && (forall e :: e in out <==> e in events && Truthy(e))
      && ((forall i :: 0 <= i < |events| ==> Truthy(events[i])) ==> out == events)
  {
    if events != [] {
      KeepTruthyMembers(events[..|events| - 1]);
      assert events == events[..|events| - 1] + [events[|events| - 1]];
    }
  }

  /** The forwarding loop of the stream wrappers: each event passes the
      identity filter and is yielded when truthy. */
  method ForwardStream(events: seq<Json>) returns (out: seq<Json>)
    ensures out == KeepTruthy(events)
  {
    out := [];
    var i := 0;
    while i < |events|
      invariant 0 <= i <= |events|
      invariant out == KeepTruthy(events[..i])
    {
      assert events[..i + 1][..i] == events[..i];
      var filtered := events[i];
      if Truthy(filtered) {
        out := out + [filtered];
      }
      i := i + 1;
    }
    assert events[..i] == events;
  }

  // ---------------------------------------------------------------------------
  // The handler

  /** Operation names the wrappers authorize with. */
  const GetTaskOp: string := "tasks/get"
  const CancelTaskOp: string := "tasks/cancel"
  const SendOp: string := "message/send"
  const StreamOp: string := "message/stream"
  const ResubscribeOp: string := "tasks/resubscribe"
  const SetPushConfigOp: string := "tasks/pushNotificationConfig/set"
  const GetPushConfigOp: string := "tasks/pushNotificationConfig/get"
  const ListPushConfigOp: string := "tasks/pushNotificationConfig/list"
  const DeletePushConfigOp: string := "tasks/pushNotificationConfig/delete"

  class OpaRequestHandler {
    const backend: Backend
    const streams: StreamBackend
    const evaluate: Evaluator
    const extractor: ContextExtractor
    const policies: PolicyManager
    const defaultDeny: bool
    const auditDecisions: bool
    const failOpen: bool

    /** `OPARequestHandler(...)`: a missing extractor or policy manager is
        replaced by a default one. */
    constructor (backend: Backend, streams: StreamBackend, evaluate: Evaluator,
                 extractor: Option<ContextExtractor>, policies: Option<PolicyManager>,
                 defaultDeny: bool, auditDecisions: bool, failOpen: bool)
      ensures this.backend == backend && this.streams == streams && this.evaluate == evaluate
      ensures this.extractor == (if extractor.Some? then extractor.value else NewContextExtractor(None, None))
      ensures policies.Some? ==> this.policies == policies.value
      ensures policies.None? ==> fresh(this.policies) && this.policies.mappings == DefaultMappings()
      ensures this.defaultDeny == defaultDeny && this.auditDecisions == auditDecisions && this.failOpen == failOpen
    {
      this.backend := backend;
      this.streams := streams;
      this.evaluate := evaluate;
      this.extractor := if extractor.Some? then extractor.value else NewContextExtractor(None, None);
      if policies.Some? {
        this.policies := policies.value;
      } else {
        this.policies := new PolicyManager(None);
      }
      this.defaultDeny := defaultDeny;
      this.auditDecisions := auditDecisions;
      this.failOpen := failOpen;
    }

    /** The authorization outcome of a call under the current route map. */
    function Authorized(op: string, params: Params, server: Option<ServerContext>,
                        additional: Option<map<string, Json>>, now: string): Result<A2AContext, Exception>
      reads policies
    {
      Authorization(extractor, policies.mappings, failOpen, evaluate, op, params, server, additional, now)
    }

    /** `_authorize_request`: the denial raised inside the `try` is handled by
        the same `except` clauses as the evaluation's own exceptions. */
    method AuthorizeRequest(op: string, params: Params, server: Option<ServerContext>,
                            additional: Option<map<string, Json>>, now: string) returns (r: Result<A2AContext, Exception>)
      ensures r == Authorized(op, params, server, additional, now)
    {
      var ctx := ExtractContext(extractor, op, params, server, additional, now);
      var path := policies.GetPolicyPath(op);
      var outcome := evaluate(path, ToOpaInput(ctx));
      var raised: Exception;
      if outcome.Err? {
        raised := outcome.error;
      } else if outcome.value.allow {
        return Ok(ctx);
      } else {
        raised := DenyError(op, path, outcome.value, ctx);
      }
      if raised.PolicyEvaluationError? {
        if failOpen {
          var again := ExtractContext(extractor, op, params, server, None, now);
          r := Ok(again);
        } else {
          r := Err(EvaluationFailure(op, policies.GetPolicyPath(op)));
        }
      } else {
        if failOpen {
          var again := ExtractContext(extractor, op, params, server, None, now);
          r := Ok(again);
        } else {
          r := Err(raised);
        }
      }
    }

    /** A guarded unary call: when authorization fails its exception is the
        reply and the wrapped handler is never called; otherwise the wrapped
        handler is called exactly once with the same parameters. */
    predicate Guards(op: string, params: Params, server: Option<ServerContext>, now: string, reply: Reply, calls: seq<Call>)
      reads policies
    {
      var a := Authorized(op, params, server, None, now);
      && (a.Err? ==> reply == Raised(a.error) && calls == [])
      && (a.Ok? ==> calls == [Call(op, params, server)] && reply == backend(Call(op, params, server)))
    }

    method Guarded(op: string, params: Params, server: Option<ServerContext>, now: string) returns (reply: Reply, calls: seq<Call>)
      ensures Guards(op, params, server, now, reply, calls)
    {
      var auth := AuthorizeRequest(op, params, server, None, now);
      if auth.Err? {
        return Raised(auth.error), [];
      }
      var call := Call(op, params, server);
      reply := backend(call);
      calls := [call];
    }

    /** `on_get_task`: the wrapped handler's result passes the task filter. */
    method OnGetTask(params: Params, server: Option<ServerContext>, now: string) returns (reply: Reply, calls: seq<Call>)
      ensures var a := Authorized(GetTaskOp, params, server, None, now);
        && (a.Err? ==> reply == Raised(a.error) && calls == [])
        && (a.Ok? ==> calls == [Call(GetTaskOp, params, server)]
                      && reply == FilterTaskReply(backend(Call(GetTaskOp, params, server))))
    {
      var inner;
      inner, calls := Guarded(GetTaskOp, params, server, now);
      reply := if calls == [] then inner else FilterTaskReply(inner);
    }

    method OnCancelTask(params: Params, server: Option<ServerContext>, now: string) returns (reply: Reply, calls: seq<Call>)
      ensures Guards(CancelTaskOp, params, server, now, reply, calls)
    {
      reply, calls := Guarded(CancelTaskOp, params, server, now);
    }

    /** `on_message_send`: the parameter and response filters pass values through. */
    method OnMessageSend(params: Params, server: Option<ServerContext>, now: string) returns (reply: Reply, calls: seq<Call>)
      ensures Guards(SendOp, params, server, now, reply, calls)
    {
      reply, calls := Guarded(SendOp, params, server, now);
    }

    method OnSetPushConfig(params: Params, server: Option<ServerContext>, now: string) returns (reply: Reply, calls: seq<Call>)
      ensures Guards(SetPushConfigOp, params, server, now, reply, calls)
    {
      reply, calls := Guarded(SetPushConfigOp, params, server, now);
    }

    method OnGetPushConfig(params: Params, server: Option<ServerContext>, now: string) returns (reply: Reply, calls: seq<Call>)
      ensures Guards(GetPushConfigOp, params, server, now, reply, calls)
    {
      reply, calls := Guarded(GetPushConfigOp, params, server, now);
    }

    method OnListPushConfig(params: Params, server: Option<ServerContext>, now: string) returns (reply: Reply, calls: seq<Call>)
      ensures Guards(ListPushConfigOp, params, server, now, reply, calls)
    {
      reply, calls := Guarded(ListPushConfigOp, params, server, now);
    }

    method OnDeletePushConfig(params: Params, server: Option<ServerContext>, now: string) returns (reply: Reply, calls: seq<Call>)
      ensures Guards(DeletePushConfigOp, params, server, now, reply, calls)
    {
      reply, calls := Guarded(DeletePushConfigOp, params, server, now);
    }

    /** A guarded stream: authorized once before the first event; on failure no
        event is produced and the wrapped stream is never opened. */
    method GuardedStream(op: string, params: Params, server: Option<ServerContext>, now: string)
      returns (events: seq<Json>, error: Option<Exception>, subscribed: seq<Call>)
      ensures var a := Authorized(op, params, server, None, now);
        && (a.Err? ==> error == Some(a.error) && events == [] && subscribed == [])
        && (a.Ok? ==> error.None? && subscribed == [Call(op, params, server)]
                      && events == KeepTruthy(streams(Call(op, params, server))))
    {
      var auth := AuthorizeRequest(op, params, server, None, now);
      if auth.Err? {
        return [], Some(auth.error), [];
      }
      var call := Call(op, params, server);
      events := ForwardStream(streams(call));
      error := None;
      subscribed := [call];
    }

    method OnMessageSendStream(params: Params, server: Option<ServerContext>, now: string)
      returns (events: seq<Json>, error: Option<Exception>, subscribed: seq<Call>)
      ensures var a := Authorized(StreamOp, params, server, None, now);
        && (a.Err? ==> error == Some(a.error) && events == [] && subscribed == [])
        && (a.Ok? ==> error.None? && subscribed == [Call(StreamOp, params, server)]
                      && events == KeepTruthy(streams(Call(StreamOp, params, server))))
    {
      events, error, subscribed := GuardedStream(StreamOp, params, server, now);
    }

    method OnResubscribeToTask(params: Params, server: Option<ServerContext>, now: string)
      returns (events: seq<Json>, error: Option<Exception>, subscribed: seq<Call>)
      ensures var a := Authorized(ResubscribeOp, params, server, None, now);
        && (a.Err? ==> error == Some(a.error) && events == [] && subscribed == [])
        && (a.Ok? ==> error.None? && subscribed == [Call(ResubscribeOp, params, server)]
                      && events == KeepTruthy(streams(Call(ResubscribeOp, params, server))))
    {
      events, error, subscribed := GuardedStream(ResubscribeOp, params, server, now);
    }
  }
}
