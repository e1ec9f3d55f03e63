/** The client-side interceptor: before a call leaves for another agent it
    builds the agent-card discovery context, asks the policy engine, and
    either refuses the call or lets it go unchanged, noting the decision in
    the caller's call context. */
module Interceptor {
  import opened Basics
  import opened Json
  import opened Errors
  import opened Discovery
  import opened CardPolicy

  /** `ClientCallContext`: the state dictionary shared with the caller. */
  class CallContext {
    var state: map<string, Json>

    constructor(state: map<string, Json>)
      ensures this.state == state
    {
      this.state := state;
    }
  }

  function StateOf(ctx: Option<CallContext>): Option<map<string, Json>>
    reads if ctx.Some? then {ctx.value} else {}
  {
    if ctx.Some? then Some(ctx.value.state) else None
  }

  const ClientMetadataKeys: seq<string> := ["client_version", "client_type", "environment"]
  const RequestParamKeys: seq<string> := ["priority", "timeout", "streaming"]

  /** `into` with every key of `keys` that `src` holds copied over, in order. */
  function Copied(into: map<string, Json>, src: map<string, Json>, keys: seq<string>): map<string, Json>
  {
    if keys == [] then into
    else
      var m := Copied(into, src, keys[..|keys| - 1]);
      var k := keys[|keys| - 1];
      if k in src then m[k := src[k]] else m
  }

  /** The copy holds exactly the keys of `into` and the listed keys `src`
      holds, each listed one with its value in `src`. */
  lemma {:induction false} CopiedIff(into: map<string, Json>, src: map<string, Json>, keys: seq<string>, k: string)
    ensures k in Copied(into, src, keys) <==> k in into || (k in src && k in keys)
    ensures k in src && k in keys ==> Copied(into, src, keys)[k] == src[k]
    ensures k in into && !(k in src && k in keys) ==> Copied(into, src, keys)[k] == into[k]
    decreases |keys|
  {
    if keys != [] {
      var init := keys[..|keys| - 1];
      CopiedIff(into, src, init, k);
      assert keys == init + [keys[|keys| - 1]];
      assert k in keys <==> k in init || k == keys[|keys| - 1];
    }
  }

  /** `_extract_client_metadata`, as a value: empty without a call context. */
  function ClientMetadata(state: Option<map<string, Json>>): map<string, Json>
  {
    if state.None? then map[] else Copied(map[], state.value, ClientMetadataKeys)
  }

  /** `_extract_request_metadata`, as a value. */
  function RequestMetadata(payload: map<string, Json>): map<string, Json>
  {
    var base: map<string, Json> := if "id" in payload then map["request_id" := payload["id"]] else map[];
    if "params" in payload && payload["params"].JObj? then Copied(base, payload["params"].fields, RequestParamKeys)
    else base
  }

  /** The client metadata is exactly the three client keys the state holds,
      with their values. */
  lemma ClientMetadataKeysOnly(state: map<string, Json>, k: string)
    ensures k in ClientMetadata(Some(state)) <==> k in state && k in ClientMetadataKeys
    ensures k in ClientMetadata(Some(state)) ==> ClientMetadata(Some(state))[k] == state[k]
  {
    CopiedIff(map[], state, ClientMetadataKeys, k);
  }

  /** The request id becomes "request_id"; "priority", "timeout" and
      "streaming" are taken from the params only when those are an object. */
  lemma RequestMetadataFields(payload: map<string, Json>, k: string)
    ensures "request_id" in RequestMetadata(payload) <==> "id" in payload
    ensures "id" in payload ==> RequestMetadata(payload)["request_id"] == payload["id"]
    ensures k in RequestParamKeys ==>
              (k in RequestMetadata(payload) <==> "params" in payload && payload["params"].JObj? && k in payload["params"].fields)
    ensures k in RequestMetadata(payload) ==> k == "request_id" || k in RequestParamKeys
    ensures k in RequestParamKeys && k in RequestMetadata(payload) ==> RequestMetadata(payload)[k] == payload["params"].fields[k]
  {
    var base: map<string, Json> := if "id" in payload then map["request_id" := payload["id"]] else map[];
    if "params" in payload && payload["params"].JObj? {
      CopiedIff(base, payload["params"].fields, RequestParamKeys, k);
      CopiedIff(base, payload["params"].fields, RequestParamKeys, "request_id");
    }
  }

  /** `_extract_target_url`: the card's URL first, then the state's
      "target_agent_url" (a null there is no URL), else none. */
  function TargetUrl(cardUrl: Option<string>, state: Option<map<string, Json>>): (r: Option<string>)
    ensures cardUrl.Some? ==> r == cardUrl
    ensures cardUrl.None? && state.Some? && "target_agent_url" in state.value ==>
              (state.value["target_agent_url"] == JNull <==> r.None?)
              && (r.Some? ==> r.value == PyStr(state.value["target_agent_url"]))
    ensures cardUrl.None? && (state.None? || "target_agent_url" !in state.value) ==> r.None?
  {
    if cardUrl.Some? then cardUrl
    else if state.Some? && "target_agent_url" in state.value then
      var u := state.value["target_agent_url"];
      if u != JNull then Some(PyStr(u)) else None
    else None
  }

  /** Text standing for the validation error raised when the "headers"
      argument is not a dictionary of strings. */
  const InvalidHeaders: string := "request_headers: Input should be a valid dictionary"

  /** `http_kwargs.get("headers", {})` as the discovery context validates it:
      a falsy value is no headers, a string dictionary is kept, anything else
      fails validation. */
  function HeadersOf(httpKwargs: map<string, Json>): (r: Result<map<string, string>, Exception>)
    ensures "headers" !in httpKwargs ==> r == Ok(map[])
    ensures "headers" in httpKwargs && !Truthy(httpKwargs["headers"]) ==> r == Ok(map[])
    ensures "headers" in httpKwargs && Truthy(httpKwargs["headers"]) ==>
              (r.Ok? <==> AsStrMap(httpKwargs["headers"]).Some?)
              && (r.Ok? ==> StrMap(r.value) == httpKwargs["headers"])
  {
    var h := Get(httpKwargs, "headers", JObj(map[]));
    if !Truthy(h) then Ok(map[])
    else match AsStrMap(h)
      case Some(m) => (StrMapOfAsStrMap(h); Ok(m))
      case None => Err(OtherError(InvalidHeaders))
  }

  lemma StrMapOfAsStrMap(j: Json)
    requires AsStrMap(j).Some?
    ensures StrMap(AsStrMap(j).value) == j
  {
    var m := AsStrMap(j).value;
    assert StrMap(m).fields == j.fields;
  }

  /** What one interception comes to. */
  datatype Interception =
    | Skipped                          // no target URL: no evaluation
    | Proceeded(dc: DiscoveryContext)  // the call goes on, with this context
    | Raised(error: Exception)         // the call is refused

  const PolicyEvaluatedKey: string := "opa_policy_evaluated"
  const DiscoveryContextKey: string := "opa_discovery_context"

  /** The state once the call proceeds: the decision noted in it. */
  function Annotated(state: map<string, Json>, dc: DiscoveryContext): (s: map<string, Json>)
    ensures s.Keys == state.Keys + {PolicyEvaluatedKey, DiscoveryContextKey}
    ensures s[PolicyEvaluatedKey] == JBool(true) && s[DiscoveryContextKey] == Dump(dc)
    ensures forall k :: k in state && k != PolicyEvaluatedKey && k != DiscoveryContextKey ==> s[k] == state[k]
  {
    state[PolicyEvaluatedKey := JBool(true)][DiscoveryContextKey := Dump(dc)]
  }

  /** `OPAClientInterceptor`. */
  class OpaClientInterceptor {
    const query: RuleQuery
    const clientIdentity: string
    const packagePath: string
    const ruleName: string
    const failClosed: bool
    const logDecisions: bool

    constructor(query: RuleQuery, clientIdentity: string, packagePath: string, ruleName: string,
                failClosed: bool := true, logDecisions: bool := true)
      ensures this.query == query && this.clientIdentity == clientIdentity
      ensures this.packagePath == packagePath && this.ruleName == ruleName
      ensures this.failClosed == failClosed && this.logDecisions == logDecisions
    {
      this.query := query;
      this.clientIdentity := clientIdentity;
      this.packagePath := packagePath;
      this.ruleName := ruleName;
      this.failClosed := failClosed;
      this.logDecisions := logDecisions;
    }

    /** The discovery context of a call, or the validation error building it
      raises; none when there is no target URL. */
    function Prepared(methodName: string, payload: map<string, Json>, httpKwargs: map<string, Json>,
                      cardUrl: Option<string>, state: Option<map<string, Json>>, now: string)
      : (p: Option<Result<DiscoveryContext, Exception>>)
      ensures p.None? <==> TargetUrl(cardUrl, state).None? || TargetUrl(cardUrl, state).value == ""
      ensures p.Some? ==> (p.value.Err? <==> HeadersOf(httpKwargs).Err?)
      ensures p.Some? && p.value.Err? ==> p.value.error.OtherError?
      ensures p.Some? && p.value.Ok? ==>
                var dc := p.value.value;
                dc.targetAgentUrl == TargetUrl(cardUrl, state).value
                && dc.clientIdentity == clientIdentity && dc.methodName == methodName
                && dc.operationType == OperationTypeOf(methodName)
                && dc.clientMetadata == ClientMetadata(state)
                && dc.requestHeaders == HeadersOf(httpKwargs).value
                && dc.requestMetadata == RequestMetadata(payload)
                && dc.discoveryTimestamp == now && dc.state == map[]
    {
      var url := TargetUrl(cardUrl, state);
      if url.None? || url.value == "" then None
      else match HeadersOf(httpKwargs)
        case Err(e) => Some(Err(e))
        case Ok(headers) =>
          Some(Ok(FromClientCall(clientIdentity, url.value, methodName, None, Some(ClientMetadata(state)),
                                 Some(headers), Some(RequestMetadata(payload)), now)))
    }

    /** The engine's verdict on a discovery context. */
    function PolicyOutcome(dc: DiscoveryContext): Result<bool, Exception>
    {
      EvaluateAgentCardPolicy(query, Discovery.ToOpaInput(dc).fields, packagePath, ruleName)
    }

    /** The refusal raised when the engine denies. */
    function Denial(dc: DiscoveryContext): (e: Exception)
      ensures e.PolicyViolationError? && e.policyPath == packagePath + "." + ruleName
      ensures e.decision == JObj(map["allowed" := JBool(false)]) && e.context == Dump(dc)
      ensures e.message == "Agent Card discovery denied by policy for " + dc.targetAgentUrl
    {
      PolicyViolationError("Agent Card discovery denied by policy for " + dc.targetAgentUrl,
                           packagePath + "." + ruleName, JObj(map["allowed" := JBool(false)]), Dump(dc))
    }

    /** What the engine's verdict on a prepared discovery context makes of the
      call: it goes on when allowed, or when the evaluation failed and the
      interceptor fails open; a denial raises `Denial`. */
    function PolicyVerdict(dc: DiscoveryContext): (v: Interception)
      ensures !v.Skipped?
      ensures v.Proceeded? <==> PolicyOutcome(dc) == Ok(true) || (PolicyOutcome(dc).Err? && !failClosed)
      ensures v.Proceeded? ==> v.dc == dc
      ensures PolicyOutcome(dc) == Ok(false) ==> v == Raised(Denial(dc))
      ensures PolicyOutcome(dc).Err? && failClosed ==> v == Raised(PolicyOutcome(dc).error) && v.error.PolicyEvaluationError?
    {
      match PolicyOutcome(dc)
      case Ok(allowed) => if allowed then Proceeded(dc) else Raised(Denial(dc))
      case Err(e) => if e.PolicyEvaluationError? && !failClosed then Proceeded(dc) else Raised(e)
    }

    /** `intercept`, as a value: what happens to a call. */
    function Verdict(methodName: string, payload: map<string, Json>, httpKwargs: map<string, Json>,
                     cardUrl: Option<string>, state: Option<map<string, Json>>, now: string): (v: Interception)
      ensures var p := Prepared(methodName, payload, httpKwargs, cardUrl, state, now);
              (v.Skipped? <==> p.None?)
              && (p.Some? && p.value.Err? ==> v == Raised(p.value.error))
              && (p.Some? && p.value.Ok? ==> v == PolicyVerdict(p.value.value))
    {
      match Prepared(methodName, payload, httpKwargs, cardUrl, state, now)
      case None => Skipped
      case Some(Err(e)) => Raised(e)
      case Some(Ok(dc)) => PolicyVerdict(dc)
    }

    /** A policy violation is raised only when the engine answered and denied,
      and then it carries this interceptor's rule path and the full context. */
    lemma ViolationOnlyOnDenial(methodName: string, payload: map<string, Json>, httpKwargs: map<string, Json>,
                                cardUrl: Option<string>, state: Option<map<string, Json>>, now: string)
      requires Verdict(methodName, payload, httpKwargs, cardUrl, state, now).Raised?
      requires Verdict(methodName, payload, httpKwargs, cardUrl, state, now).error.PolicyViolationError?
      ensures var p := Prepared(methodName, payload, httpKwargs, cardUrl, state, now);
              p.Some? && p.value.Ok? && PolicyOutcome(p.value.value) == Ok(false)
              && Verdict(methodName, payload, httpKwargs, cardUrl, state, now).error.policyPath == packagePath + "." + ruleName
    {
    }

    /** Under fail-open every call with a target URL and valid headers goes
      on unless the engine explicitly denies it. */
    lemma FailOpenProceedsUnlessDenied(methodName: string, payload: map<string, Json>, httpKwargs: map<string, Json>,
                                       cardUrl: Option<string>, state: Option<map<string, Json>>, now: string)
      requires !failClosed
      requires var p := Prepared(methodName, payload, httpKwargs, cardUrl, state, now);
               p.Some? && p.value.Ok? && PolicyOutcome(p.value.value) != Ok(false)
      ensures Verdict(methodName, payload, httpKwargs, cardUrl, state, now).Proceeded?
    {
      var dc := Prepared(methodName, payload, httpKwargs, cardUrl, state, now).value.value;
      assert PolicyOutcome(dc).Ok? ==> PolicyOutcome(dc) == Ok(true);
    }

    /** The policy input the engine sees for a prepared call reads back as
      that call's discovery context. */
    lemma PolicyInputIsDiscoveryContext(methodName: string, payload: map<string, Json>, httpKwargs: map<string, Json>,
                                        cardUrl: Option<string>, state: Option<map<string, Json>>, now: string)
      requires var p := Prepared(methodName, payload, httpKwargs, cardUrl, state, now);
               p.Some? && p.value.Ok?
      ensures var dc := Prepared(methodName, payload, httpKwargs, cardUrl, state, now).value.value;
              FromOpaInput(Discovery.ToOpaInput(dc)) == Some(dc)
              && dc.targetAgentUrl == TargetUrl(cardUrl, state).value
    {
      var dc := Prepared(methodName, payload, httpKwargs, cardUrl, state, now).value.value;
      Discovery.OpaInputRoundTrip(dc);
    }

    /** `_extract_client_metadata`: the loop over the three client keys. */
    method ExtractClientMetadata(ctx: Option<CallContext>) returns (metadata: map<string, Json>)
      ensures metadata == ClientMetadata(StateOf(ctx))
    {
      if ctx.None? {
        return map[];
      }
      metadata := map[];
      var i := 0;
      while i < |ClientMetadataKeys|
        invariant 0 <= i <= |ClientMetadataKeys|
        invariant metadata == Copied(map[], ctx.value.state, ClientMetadataKeys[..i])
      {
        var key := ClientMetadataKeys[i];
        assert ClientMetadataKeys[..i + 1][..i] == ClientMetadataKeys[..i];
        if key in ctx.value.state {
          metadata := metadata[key := ctx.value.state[key]];
        }
        i := i + 1;
      }
      assert ClientMetadataKeys[..i] == ClientMetadataKeys;
    }

    /** `_extract_request_metadata`: the request id, then the loop over the
      three parameter keys. */
    method ExtractRequestMetadata(payload: map<string, Json>) returns (metadata: map<string, Json>)
      ensures metadata == RequestMetadata(payload)
    {
      metadata := map[];
      if "id" in payload {
        metadata := metadata["request_id" := payload["id"]];
      }
      if "params" in payload {
        var params := payload["params"];
        if params.JObj? {
          var base := metadata;
          var i := 0;
          while i < |RequestParamKeys|
            invariant 0 <= i <= |RequestParamKeys|
            invariant metadata == Copied(base, params.fields, RequestParamKeys[..i])
          {
            var key := RequestParamKeys[i];
            assert RequestParamKeys[..i + 1][..i] == RequestParamKeys[..i];
            if key in params.fields {
              metadata := metadata[key := params.fields[key]];
            }
            i := i + 1;
          }
          assert RequestParamKeys[..i] == RequestParamKeys;
        }
      }
    }

    /** The policy step of `intercept` on a prepared discovery context: the
      refusal it raises, if any, and the caller's state annotated exactly when
      the call goes on. */
    method Enforce(dc: DiscoveryContext, ctx: Option<CallContext>) returns (refusal: Option<Exception>)
      modifies if ctx.Some? then {ctx.value} else {}
      ensures var v := PolicyVerdict(dc);
              (v.Raised? ==> refusal == Some(v.error)) && (!v.Raised? ==> refusal.None?)
      ensures var v := PolicyVerdict(dc);
              ctx.Some? ==>
                ctx.value.state == if v.Proceeded? then Annotated(old(ctx.value.state), dc) else old(ctx.value.state)
    {
      var outcome := EvaluateAgentCardPolicy(query, Discovery.ToOpaInput(dc).fields, packagePath, ruleName);
      if outcome.Ok? && !outcome.value {
        return Some(Denial(dc));
      }
      if outcome.Err? && !(outcome.error.PolicyEvaluationError? && !failClosed) {
        return Some(outcome.error);
      }
      if ctx.Some? {
        ctx.value.state := ctx.value.state[PolicyEvaluatedKey := JBool(true)];
        ctx.value.state := ctx.value.state[DiscoveryContextKey := Dump(dc)];
      }
      return None;
    }

    /** `intercept`: the payload and keyword arguments come back unchanged
      unless the call is refused; the caller's state is annotated exactly when
      the call proceeds. */
    method Intercept(methodName: string, payload: map<string, Json>, httpKwargs: map<string, Json>,
                     cardUrl: Option<string>, ctx: Option<CallContext>, now: string)
      returns (r: Result<(map<string, Json>, map<string, Json>), Exception>)
      modifies if ctx.Some? then {ctx.value} else {}
      ensures var v := Verdict(methodName, payload, httpKwargs, cardUrl, old(StateOf(ctx)), now);
              (v.Raised? ==> r == Err(v.error)) && (!v.Raised? ==> r == Ok((payload, httpKwargs)))
      ensures var v := Verdict(methodName, payload, httpKwargs, cardUrl, old(StateOf(ctx)), now);
              ctx.Some? ==>
                ctx.value.state == if v.Proceeded? then Annotated(old(ctx.value.state), v.dc) else old(ctx.value.state)
    {
      ghost var state := StateOf(ctx);
      ghost var v := Verdict(methodName, payload, httpKwargs, cardUrl, state, now);
      var url := TargetUrl(cardUrl, StateOf(ctx));
      if url.None? || url.value == "" {
        assert v.Skipped?;
        return Ok((payload, httpKwargs));
      }
      var clientMetadata := ExtractClientMetadata(ctx);
      var headers := HeadersOf(httpKwargs);
      var requestMetadata := ExtractRequestMetadata(payload);
      if headers.Err? {
        assert v == Raised(headers.error);
        return Err(headers.error);
      }
      var dc := FromClientCall(clientIdentity, url.value, methodName, None, Some(clientMetadata),
                               Some(headers.value), Some(requestMetadata), now);
      assert Prepared(methodName, payload, httpKwargs, cardUrl, state, now) == Some(Ok(dc));
      var refusal := Enforce(dc, ctx);
      if refusal.Some? {
        return Err(refusal.value);
      }
      return Ok((payload, httpKwargs));
    }
  }
}
