# a2a-opa, modelled in Dafny

This project models a2a-opa, the policy-enforcement layer that puts Open Policy
Agent (OPA) decisions in front of an A2A (agent-to-agent) request handler.
It proves properties of the model. The model covers the following parts:

- **Server-side context extraction** (`context.dfy`):
  - who the requester is, looked up by the `X-Agent-ID` header or the metadata `agent_id` in an agent registry;
  - how a message is classified: its parts, its joined text, sensitive patterns, and confidential/internal/public;
  - what each A2A method adds to the context;
  - the policy input built from the context, which is proved to read back as the context itself.
- **Policy routing** (`policies.dfy`): `PolicyManager` is a class whose method → policy-path table is updated in place.
  It has the eleven default routes, the `a2a.default_authorization` fallback, and the template names.
- **The decision client** (`decision_client.dfy`):
  - the retry loop, with its `2^attempt` back-off and its `max_retries + 1` attempt budget;
  - decision parsing, and the wrapping of every failure of `evaluate_policy`;
  - batch evaluation;
  - the policy/data management calls and the health check.
- **The enforcing request handler** (`handler.dfy`):
  - `_authorize_request`, with its allow, deny, fail-closed and fail-open paths;
  - the per-operation wrappers, which call the wrapped handler once and only after authorization;
  - the stream forwarding loops.
- **The client-side interceptor** (`discovery.dfy`, `card_policy.dfy`, `interceptor.dfy`):
  - the agent-card discovery context, with the URL split into authority and path as in sections 3.2 and 3.3 of RFC 3986;
  - the truthiness reading of the rule's answer;
  - the interception, which refuses a call or lets it go unchanged and notes the decision in the caller's `ClientCallContext.state`.

JSON values are the `Json` datatype, with Python truthiness (`json.dfy`). The library's
exceptions, and the transport exceptions they wrap, are the `Errors.Exception` datatype.

The following become parameters:

- the HTTP transport: a function from a request and an attempt number to a response or an exception;
- the OPA rule query;
- the wrapped handler and its event streams;
- the current time: the timestamp's ISO text.

Stateful code is imperative Dafny:

- `PolicyManager` and `ClientCallContext` are classes whose fields the methods update;
- the retry loop, the batch loop, the stream forwarding loops, message classification and the metadata extraction loops are `while` loops, each proved equal to a function that specifies it.

The model follows the code as written. Where the code looks unintended, the
behaviour as written is what the rest of the model uses. A corrected definition is
proved beside it (see "## Findings").

## Model

| member | source | states |
|---|---|---|
| Policies.PolicyManager.constructor | src/a2a_opa/policies.py:30-37 | a non-empty custom table replaces the defaults wholesale (no merge); an absent or empty one gives the built-in table |
| Policies.DefaultMappings | src/a2a_opa/policies.py:39-60 | the built-in table routes the message, task and agent operations |
| Policies.DefaultTableKeys | src/a2a_opa/policies.py:39-60 | the built-in table has exactly the eleven listed method names |
| Policies.Resolve | src/a2a_opa/policies.py:62-72 | a mapped method gets its path; any other gets "a2a.default_authorization" |
| Policies.PolicyManager.GetPolicyPath | src/a2a_opa/policies.py:62-72 | the same lookup on the manager's current table |
| Policies.PolicyManager.AddPolicyMapping | src/a2a_opa/policies.py:74-83 | the table gains or overwrites one entry; that method now resolves to the new path; every other method resolves as before |
| Policies.PolicyManager.RemovePolicyMapping | src/a2a_opa/policies.py:85-94 | the entry is removed (an absent one leaves the table unchanged); that method resolves to the fallback; every other method resolves as before |
| Policies.PolicyManager.GetAllMappings | src/a2a_opa/policies.py:96-98 | returns a value equal to the table, each entry agreeing with the lookup; being a value, later updates of the manager do not reach it |
| Policies.RouteLifecycle | src/a2a_opa/policies.py:62-94 | for a method outside the defaults: fallback, then the added path, then the fallback again after removal |
| Policies.LocalName | src/a2a_opa/policies.py:100-116 | strips the "a2a." prefix when present and only then |
| Policies.LocalNameOfQualified | src/a2a_opa/policies.py:39-60 | stripping the prefix from a qualified path gives back the name |
| Policies.TemplatesCoverDefaultRoutes | src/a2a_opa/policies.py:39-116 | every default route and the fallback, prefix stripped, names one of the eight templates |
| Context.NewExtractor | src/a2a_opa/context.py:136-152 | an absent registry is empty; an absent or empty pattern list is the eight default patterns; given ones are kept |
| Context.NewContextExtractor | src/a2a_opa/context.py:315-328 | absent extractor and environment fall back to the default extractor and {} |
| Context.ExtractAgentInfo | src/a2a_opa/context.py:154-189 | no server context gives the empty agent; the header id wins, the metadata id is used only when the header's is absent or empty; a registered id gives the registry entry unchanged, an unregistered one an agent with only that id, none the empty agent |
| Context.HeaderShadowsMetadata | src/a2a_opa/context.py:173-179 | with a header id the metadata does not affect the requester |
| Context.AnyOccursIff | src/a2a_opa/context.py:245 | `any(p in text ...)` holds iff some pattern is a substring |
| Context.SensitiveIff | src/a2a_opa/context.py:242-245 | sensitive iff some pattern is a substring of the upper-cased content |
| Context.ClassifyData | src/a2a_opa/context.py:247-254 | "confidential" iff sensitive; else "internal" iff INTERNAL or PRIVATE occurs in the upper-cased content; else "public" (each label both ways) |
| Context.PartEntry | src/a2a_opa/context.py:211-229 | every part descriptor carries its "type" |
| Context.TextsOfMembers | src/a2a_opa/context.py:211-216 | the collected texts are exactly the texts of the text parts |
| Context.ClassifiedParts | src/a2a_opa/context.py:208-233 | one descriptor per part, in order; data payloads replaced by "<binary_data>" |
| Context.ClassifiedContent | src/a2a_opa/context.py:231-233 | the content is absent iff no part is text, and otherwise contains every text part |
| Context.ClassifiedFlags | src/a2a_opa/context.py:235-238 | with no or empty text the flags stay false/"public"; otherwise "confidential" iff sensitive; the label is one of the three |
| Context.ClassifyMessage | src/a2a_opa/context.py:191-240 | the loop over the parts yields exactly the classification specified by `Classified` |
| Context.ExtractTaskInfo | src/a2a_opa/context.py:256-280 | no task gives none; otherwise id, status and timestamps are copied |
| Context.ExtractRequestInfo | src/a2a_opa/context.py:282-307 | method and timestamp set; remote address, headers and User-Agent taken from the server context when it has them |
| Context.ExtractMethodContext | src/a2a_opa/context.py:376-407 | the step-by-step enrichment yields exactly the specified context |
| Context.ExtractContext | src/a2a_opa/context.py:330-374 | the step-by-step construction yields exactly the specified context |
| Context.MethodContextKeeps | src/a2a_opa/context.py:376-407 | enrichment never touches requester, target, request, data or environment |
| Context.ExtractedCommon | src/a2a_opa/context.py:349-369 | requester extracted, target empty, request for this method, data the additional data, environment the configured one |
| Context.ExtractedMessage | src/a2a_opa/context.py:384-391 | message methods with message params: classified message, resource "message", task only for a non-empty task id |
| Context.ExtractedTaskGet | src/a2a_opa/context.py:393-396 | "tasks/get" sets the task and resource "task" |
| Context.ExtractedTaskCancel | src/a2a_opa/context.py:398-402 | "tasks/cancel" also sets operation "task_cancel" |
| Context.ExtractedPushConfig | src/a2a_opa/context.py:404-407 | push-config methods set resource "push_notification"; a task exactly when the params have a `task_id` attribute, with its value even when that is None |
| Context.PushConfigNullTaskIdInput | src/a2a_opa/context.py:404-407 | a push-config call whose `task_id` is None sends the policy a task object with a null id, not a null task |
| Context.ExtractedUnenriched | src/a2a_opa/context.py:384-407 | every other call leaves resource, message and task absent and the operation the method |
| Context.ToOpaInputKeys | src/a2a_opa/context.py:84-101 | the policy input has exactly the nine keys requester, target, message, task, request, operation, resource, data, environment |
| Context.ToOpaInputRecords | src/a2a_opa/context.py:91-95 | requester, target and request are the dumps of those records |
| Context.ToOpaInputOptionals | src/a2a_opa/context.py:93-97 | an absent message or task becomes null, a present one its dump; the resource is a string or null |
| Context.ToOpaInputValues | src/a2a_opa/context.py:96-100 | operation, data and environment are copied as they are |
| Context.FromFieldsOf | src/a2a_opa/context.py:84-101 | fields holding the dumps of a context's parts read back as that context |
| Context.AgentRoundTrip | src/a2a_opa/context.py:22-32 | an agent record reads back from its dump |
| Context.MessageRoundTrip | src/a2a_opa/context.py:34-44 | a message record reads back from its dump |
| Context.TaskRoundTrip | src/a2a_opa/context.py:46-54 | a task record reads back from its dump |
| Context.RequestRoundTrip | src/a2a_opa/context.py:56-64 | a request record reads back from its dump |
| Context.OpaInputRoundTrip | src/a2a_opa/context.py:84-101 | the whole context reads back from its policy input: nothing is lost |
| Context.LowercasePatternNeverMatches | src/a2a_opa/context.py:242-245 | as written, a pattern holding a lower-case letter never matches upper-cased content |
| Context.LowercasePatternMissesItsOwnText | src/a2a_opa/context.py:242-245 | the pattern "secret" misses "my secret", which contains it |
| Context.FoldedDetectsEveryPattern | src/a2a_opa/context.py:242-245 | corrected: any pattern the content contains is detected, whatever its letter case |
| Context.FoldedAgreesOnUpperPatterns | src/a2a_opa/context.py:149-152 | corrected and as written agree on upper-case patterns, the defaults among them |
| DecisionClient.NewClient | src/a2a_opa/client.py:34-66 | trailing '/' stripped from the URL (and nothing else); JSON content type; a bearer header iff the token is non-empty |
| DecisionClient.MakeRequest | src/a2a_opa/client.py:308-354 | the retry loop computes exactly the run `Retry` specifies: result, attempts made and waits |
| DecisionClient.RetryBudget | src/a2a_opa/client.py:330-344 | at most max_retries+1 attempts; one wait fewer than attempts; wait i is 2^(attempt+i) |
| DecisionClient.RetryResultKinds | src/a2a_opa/client.py:330-348 | a result is a 2xx response, a status error, the exhaustion error, or a non-transient exception |
| DecisionClient.RetryOkWitness | src/a2a_opa/client.py:330-334 | a success is a 2xx answer at some attempt after only transient failures |
| DecisionClient.RetrySucceedsAt | src/a2a_opa/client.py:330-344 | success at attempt k after transient failures means exactly k+1 calls and waits 1, 2, …, 2^(k-1) |
| DecisionClient.RetryExhausted | src/a2a_opa/client.py:350-354 | all attempts transient: the connection error naming the URL and the last exception, after max_retries+1 calls |
| DecisionClient.RetryNoBudget | src/a2a_opa/client.py:328-354 | a negative budget makes no call and reports "None" as the last exception |
| DecisionClient.StatusErrorNotRetried | src/a2a_opa/client.py:346-348 | a non-2xx answer ends the loop after that one call, as a status error |
| DecisionClient.AsBool | src/a2a_opa/client.py:135-146 | a boolean `allow` is itself; null, lists and objects do not validate |
| DecisionClient.AsViolations | src/a2a_opa/client.py:138-142 | a string becomes a one-element list, a string list is kept, any other non-list becomes [] |
| DecisionClient.ParseDecisionBody | src/a2a_opa/client.py:129-157 | a well-formed answer yields its allow and violations, the full result, and the policy path in the metadata |
| DecisionClient.ParseDecisionDefaults | src/a2a_opa/client.py:134-135 | a missing or empty result means deny with no violations |
| DecisionClient.ParseDecisionViolations | src/a2a_opa/client.py:138-148 | the violations coercion seen through the whole parse |
| DecisionClient.EvaluateUrl | src/a2a_opa/client.py:117 | base + "/v1/data/" + path with '.' replaced by '/' |
| DecisionClient.EvaluateUrlShape | src/a2a_opa/client.py:117 | the URL starts with base + "/v1/data/"; the tail has the path's length, every '.' becomes '/', no '.' is left and every other character stays in place |
| DecisionClient.EvaluateParams | src/a2a_opa/client.py:123-127 | "metrics"/"explain" present iff their flag is set, with "true"/"full" |
| DecisionClient.WrapFailure | src/a2a_opa/client.py:159-180 | every failure becomes a PolicyEvaluationError with path and input; its message carries the status and detail, or the exception text |
| DecisionClient.EvaluatePolicy | src/a2a_opa/client.py:94-180 | evaluation computes exactly the specified outcome |
| DecisionClient.EvaluationOutcomes | src/a2a_opa/client.py:129-180 | only PolicyEvaluationError escapes, with path and input; a decision carries its policy path |
| DecisionClient.EvaluationStatusError | src/a2a_opa/client.py:159-172 | a status error is not retried and becomes "Policy evaluation failed: <status>…" |
| DecisionClient.EvaluationAfterRetries | src/a2a_opa/client.py:129-157 | an answer after transient failures still yields its decision |
| DecisionClient.ExhaustedRetriesRewrapped | src/a2a_opa/client.py:174-180 | as written, exhausted retries surface as PolicyEvaluationError, not OPAConnectionError |
| DecisionClient.ExhaustedRetriesSurfaceCorrected | src/a2a_opa/client.py:174-180 | corrected: exhausted retries surface as OPAConnectionError with the evaluate URL |
| DecisionClient.CorrectedAgreesElsewhere | src/a2a_opa/client.py:159-180 | the correction changes nothing but the connection-error case |
| DecisionClient.BatchEntry | src/a2a_opa/client.py:206-212 | a decision is kept; a failure becomes deny with its text as the only violation |
| DecisionClient.BatchEvaluate | src/a2a_opa/client.py:182-213 | same length and order as the input; entry i is evaluation i or its denial |
| DecisionClient.BatchFailureIsDenial | src/a2a_opa/client.py:209-212 | a failed evaluation is a denial listing the error message |
| DecisionClient.StatusResultIff | src/a2a_opa/client.py:330-334 | the loop returns a given 2xx status iff some attempt answers it after only transient failures (both directions) |
| DecisionClient.UploadPolicy | src/a2a_opa/client.py:215-243 | true iff the request is answered with 200 |
| DecisionClient.DeletePolicy | src/a2a_opa/client.py:245-263 | true iff the request is answered with 200 |
| DecisionClient.UploadData | src/a2a_opa/client.py:283-306 | true iff the request is answered with 204 |
| DecisionClient.PolicyIds | src/a2a_opa/client.py:265-281 | any failure gives no ids |
| DecisionClient.GetPolicies | src/a2a_opa/client.py:265-281 | the ids read from the listing the loop obtains |
| DecisionClient.PolicyIdsOfListing | src/a2a_opa/client.py:276-277 | the ids are exactly the keys of "result" |
| DecisionClient.HealthCheck | src/a2a_opa/client.py:80-92 | healthy iff the single health request is answered with 200 |
| Handler.Reasons | src/a2a_opa/handler.py:239 | never empty; the violations, or the single default reason |
| Handler.DenyMessageMentions | src/a2a_opa/handler.py:238-245 | the denial message starts "Request <method> denied: " and contains every reason |
| Handler.AuthorizationAllows | src/a2a_opa/handler.py:215-247 | an allowing decision returns the extracted context |
| Handler.AuthorizationDenies | src/a2a_opa/handler.py:237-245 | fail-closed, a denial raises PolicyViolationError with the policy path, the decision's result and the context, naming every violation |
| Handler.AuthorizationEvaluationErrorClosed | src/a2a_opa/handler.py:249-261 | fail-closed, an evaluation error becomes PolicyViolationError with decision {} and context {} |
| Handler.AuthorizationOtherErrorReraised | src/a2a_opa/handler.py:263-270 | as written, fail-closed, any other exception is re-raised unchanged |
| Handler.AuthorizationFailsOpen | src/a2a_opa/handler.py:249-268 | fail-open, anything short of an allow returns the context re-extracted without additional data |
| Handler.AuthorizationCases | src/a2a_opa/handler.py:215-270 | the call proceeds iff fail-open or allowed; errors only when fail-closed |
| Handler.FailOpenAdmitsDenial | src/a2a_opa/handler.py:238-268 | as written, fail-open lets an explicit denial through |
| Handler.CorrectedAuthorizationEnforces | src/a2a_opa/handler.py:215-270 | corrected: a denial is always refused; fail-closed refusals are always PolicyViolationError |
| Handler.FilterTask | src/a2a_opa/handler.py:312-331 | a falsy task becomes None; any other is returned unchanged |
| Handler.FilterTaskReply | src/a2a_opa/handler.py:71-85 | exceptions pass through; a returned task is filtered |
| Handler.KeepTruthyMembers | src/a2a_opa/handler.py:133-137 | the forwarded events are exactly the truthy ones; all truthy means all forwarded |
| Handler.ForwardStream | src/a2a_opa/handler.py:133-137 | the forwarding loop yields exactly the truthy events, in order |
| Handler.OpaRequestHandler.constructor | src/a2a_opa/handler.py:41-69 | an absent extractor or manager is replaced by a default one (a fresh manager with the default table) |
| Handler.OpaRequestHandler.AuthorizeRequest | src/a2a_opa/handler.py:193-270 | the try/except chain computes exactly `Authorized` |
| Handler.OpaRequestHandler.Guarded | src/a2a_opa/handler.py:87-98 | refused: the exception, no call; authorized: one call with the same params and its reply |
| Handler.OpaRequestHandler.OnGetTask | src/a2a_opa/handler.py:71-85 | as Guarded for "tasks/get", the task filtered |
| Handler.OpaRequestHandler.OnCancelTask | src/a2a_opa/handler.py:87-98 | as Guarded for "tasks/cancel" |
| Handler.OpaRequestHandler.OnMessageSend | src/a2a_opa/handler.py:100-117 | as Guarded for "message/send" |
| Handler.OpaRequestHandler.OnSetPushConfig | src/a2a_opa/handler.py:139-147 | as Guarded for "tasks/pushNotificationConfig/set" |
| Handler.OpaRequestHandler.OnGetPushConfig | src/a2a_opa/handler.py:149-157 | as Guarded for "tasks/pushNotificationConfig/get" |
| Handler.OpaRequestHandler.OnListPushConfig | src/a2a_opa/handler.py:173-181 | as Guarded for "tasks/pushNotificationConfig/list" |
| Handler.OpaRequestHandler.OnDeletePushConfig | src/a2a_opa/handler.py:183-191 | as Guarded for "tasks/pushNotificationConfig/delete" |
| Handler.OpaRequestHandler.GuardedStream | src/a2a_opa/handler.py:119-137 | authorized once before any event: refused gives no subscription; otherwise the truthy events of the one stream, in order |
| Handler.OpaRequestHandler.OnMessageSendStream | src/a2a_opa/handler.py:119-137 | as GuardedStream for "message/stream" |
| Handler.OpaRequestHandler.OnResubscribeToTask | src/a2a_opa/handler.py:159-171 | as GuardedStream for "tasks/resubscribe" |
| Discovery.OperationTypeOf | src/a2a_opa/client/context.py:83-85 | the method name before its first '/', or all of it without one |
| Discovery.SplitUrlOfParts | src/a2a_opa/client/context.py:78-81 | a URL built from scheme, authority and path splits back into that authority and path |
| Discovery.FromClientCall | src/a2a_opa/client/context.py:53-96 | URL kept verbatim, domain and path from the split, explicit operation type wins, absent maps become {}, source "client" |
| Discovery.ToOpaInput | src/a2a_opa/client/context.py:99-126 | exactly the four groups client, target_agent, request, discovery |
| Discovery.OpaInputRoundTrip | src/a2a_opa/client/context.py:99-126 | every leaf is its field: the context reads back from its policy input |
| Discovery.Dump | src/a2a_opa/client/interceptor.py:137 | the flat dump carries the target URL |
| CardPolicy.CardAllowed | src/a2a_opa/client/opa_client.py:52-57 | an object with "result" gives that value's truthiness; an object without it allows iff non-empty; anything else its own truthiness |
| CardPolicy.EvaluateAgentCardPolicy | src/a2a_opa/client/opa_client.py:36-65 | an answer gives its reading; every exception becomes PolicyEvaluationError with path package.rule, the input and str(e) |
| CardPolicy.EvaluateWithDefaults | src/a2a_opa/client/opa_client.py:15-20 | the defaults name the rule "a2a.client.agent_card_discovery_allow" |
| CardPolicy.FailureMessageNamesRuleAndCause | src/a2a_opa/client/opa_client.py:59-65 | the wrapped message names the rule path and the original exception's text |
| CardPolicy.FailureCarriesDiscoveryContext | src/a2a_opa/client/opa_client.py:59-65 | the discovery context reads back from the input a failure carries |
| Interceptor.CopiedIff | src/a2a_opa/client/interceptor.py:172-174 | the copy loop keeps what was there and adds exactly the listed keys the source holds, with their values |
| Interceptor.ClientMetadataKeysOnly | src/a2a_opa/client/interceptor.py:161-176 | client metadata is exactly those of client_version/client_type/environment in the state |
| Interceptor.RequestMetadataFields | src/a2a_opa/client/interceptor.py:178-199 | "id" becomes "request_id"; priority/timeout/streaming copied only from object params; nothing else |
| Interceptor.TargetUrl | src/a2a_opa/client/interceptor.py:141-159 | the card's URL first, then the state's target_agent_url (null is none), else none |
| Interceptor.HeadersOf | src/a2a_opa/client/interceptor.py:93 | falsy headers are {}; a string dictionary is kept; anything else fails validation |
| Interceptor.Annotated | src/a2a_opa/client/interceptor.py:134-137 | the state gains opa_policy_evaluated = true and the dumped context; every other key is kept |
| Interceptor.OpaClientInterceptor.constructor | src/a2a_opa/client/interceptor.py:28-53 | fail_closed and log_decisions default to true |
| Interceptor.OpaClientInterceptor.Prepared | src/a2a_opa/client/interceptor.py:80-95 | no (or empty) URL: nothing; invalid headers: a validation error; otherwise the discovery context of this call |
| Interceptor.OpaClientInterceptor.Denial | src/a2a_opa/client/interceptor.py:115-121 | PolicyViolationError with package.rule, decision {"allowed": false} and the dumped context |
| Interceptor.OpaClientInterceptor.PolicyVerdict | src/a2a_opa/client/interceptor.py:97-132 | proceeds iff allowed or (evaluation error and fail-open); a denial raises the denial; fail-closed re-raises the evaluation error |
| Interceptor.OpaClientInterceptor.Verdict | src/a2a_opa/client/interceptor.py:80-132 | skipped iff no URL; invalid headers raise their validation error; otherwise the policy verdict on the call's discovery context |
| Interceptor.OpaClientInterceptor.ViolationOnlyOnDenial | src/a2a_opa/client/interceptor.py:115-125 | a PolicyViolationError comes only from an explicit denial |
| Interceptor.OpaClientInterceptor.FailOpenProceedsUnlessDenied | src/a2a_opa/client/interceptor.py:127-132 | fail-open, every prepared call not explicitly denied proceeds |
| Interceptor.OpaClientInterceptor.PolicyInputIsDiscoveryContext | src/a2a_opa/client/interceptor.py:97-104 | the engine's input reads back as the call's discovery context |
| Interceptor.OpaClientInterceptor.ExtractClientMetadata | src/a2a_opa/client/interceptor.py:161-176 | the loop yields exactly the client metadata; none without a context |
| Interceptor.OpaClientInterceptor.ExtractRequestMetadata | src/a2a_opa/client/interceptor.py:178-199 | the loop yields exactly the request metadata |
| Interceptor.OpaClientInterceptor.Enforce | src/a2a_opa/client/interceptor.py:97-137 | the refusal is exactly the policy verdict's error; the state gains the annotation exactly when the call proceeds and is otherwise untouched |
| Interceptor.OpaClientInterceptor.Intercept | src/a2a_opa/client/interceptor.py:55-139 | payload and kwargs returned unchanged unless refused; the state is annotated exactly when the call proceeds (fail-open included) and is untouched otherwise |

## Left out

- HTTP, the OPA server and the rule query are parameters. So are the wrapped handler and its streams. Closing the client and the async context manager are not modelled.
- `asyncio.gather` is sequential, and `asyncio.sleep` is only the list of computed waits. The model has no concurrency.
- Logging and audit lines are not modelled. The `default_deny`, `audit_decisions` and `log_decisions` flags are kept as fields and have no other effect, as in the code.
- Rego template bodies, `generate_policy_bundle` and `_generate_sample_data` (file I/O) are not modelled; only the template names are.
- Timestamps are ISO text parameters, and one `now` serves both context extractions of a fail-open call. The dumps keep `datetime` objects, and the model does not capture that `json` would refuse them.
- `str.upper` is modelled for ASCII letters only.
- `Discovery.SplitUrl`: a simplified `urlparse`: no `;params`, no scheme lower-casing, no whitespace stripping. It never fails, while `urlparse` raises `ValueError` for an authority with an unbalanced '[' or ']' or an invalid bracketed host.
- `Interceptor.OpaClientInterceptor.Verdict` and `Interceptor.OpaClientInterceptor.Intercept`: for such a target URL ("http://[::1/agent") the source raises that `ValueError` while building the discovery context, before any policy query and without touching the caller's state. The model instead builds the context, queries the policy and may annotate the state.
- `Context.ExtractAgentInfo`: a non-string metadata `agent_id` is not modelled (metadata values are strings).
- Exceptions raised during context extraction or by a custom extractor are not modelled. Only the default extractor is modelled.
- `Errors.Str`: the text httpx gives an HTTP status error is not modelled. The `opa_error` of a status failure is therefore None.
- `DecisionClient.ParseDecision`: the texts of JSON decode errors and pydantic validation errors are placeholders. Of pydantic's coercions only the lax boolean one is modelled.
- `Json.PyStr` renders lists and objects as placeholders.
- Batch entries are typed records, so the KeyError for a missing "policy_path" or "input_data" cannot arise.
- `DecisionClient.GetPolicies` returns the key set; the list order is not modelled.
- `Policies.PolicyManager.constructor` copies a custom table by value, so aliasing with the caller's dict is not modelled.
- `Interceptor.HeadersOf`: the validation error's text is a placeholder.
- Exceptions from a wrapped stream part-way through iteration are not modelled.
- `Interceptor.OpaClientInterceptor.Intercept` treats any given agent card as truthy with a `url`, and any given call context as truthy, as pydantic models are.

## Findings

The rest of the model follows the code as written. Each corrected member is proved beside its as-written counterpart.

| source | as written | input that shows it | evidently intended | confidence | as-written member | corrected member |
|---|---|---|---|---|---|---|
| src/a2a_opa/client.py:174-180 | the catch-all in `evaluate_policy` re-wraps the `OPAConnectionError` of exhausted retries as `PolicyEvaluationError` | a transport failing with a connect error on every attempt | exhausted retries raise `OPAConnectionError`, as the docstring and tests/test_client.py:160-166 say | high, not executed | DecisionClient.ExhaustedRetriesRewrapped | DecisionClient.ExhaustedRetriesSurfaceCorrected |
| src/a2a_opa/handler.py:263-270 | fail-closed, an exception other than `PolicyEvaluationError` is re-raised unchanged | an evaluator raising a generic exception, fail_open false | it becomes `PolicyViolationError`, as tests/test_handler.py:221-247 expect | medium, not executed | Handler.AuthorizationOtherErrorReraised | Handler.CorrectedAuthorizationEnforces |
| src/a2a_opa/handler.py:238-268 | fail-open, the catch-all also catches the `PolicyViolationError` of an explicit denial and lets the call through | a decision with allow false, fail_open true | fail-open covers evaluation failures only; a denial is refused | high, not executed | Handler.FailOpenAdmitsDenial | Handler.CorrectedAuthorizationEnforces |
| src/a2a_opa/context.py:242-245 | patterns are compared with upper-cased content without being upper-cased themselves | pattern "secret", content "my secret" | patterns folded like the content | high, not executed | Context.LowercasePatternMissesItsOwnText | Context.FoldedDetectsEveryPattern |
