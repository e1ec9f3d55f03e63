/** Server-side context extraction: the records that make up the policy input
    for one inbound A2A call, how the requester is resolved, how a message is
    classified, how each method enriches the context, and the policy-input
    encoding of the whole. */
module Context {
  import opened Basics
  import opened Json

  // ---------------------------------------------------------------------------
  // Records of the policy input

  datatype AgentInfo = AgentInfo(
    agentId: Option<string>,
    name: Option<string>,
    capabilities: seq<string>,
    permissions: seq<string>,
    role: Option<string>,
    clearanceLevel: int,
    metadata: map<string, Json>)

  /** `AgentInfo()`: every field at its default. */
  const EmptyAgent: AgentInfo := AgentInfo(None, None, [], [], None, 0, map[])

  datatype MessageInfo = MessageInfo(
    messageId: Option<string>,
    content: Option<string>,
    messageType: string,
    parts: seq<map<string, string>>,
    metadata: map<string, Json>,
    containsSensitiveData: bool,
    dataClassification: string)

  /** Timestamps are carried as their ISO text. */
  datatype TaskInfo = TaskInfo(
    taskId: Option<string>,
    status: Option<string>,
    createdAt: Option<string>,
    updatedAt: Option<string>,
    metadata: map<string, Json>)

  /** `TaskInfo(task_id=id)`. */
  function TaskWithId(id: Option<string>): TaskInfo
  {
    TaskInfo(id, None, None, None, map[])
  }

  datatype RequestInfo = RequestInfo(
    methodName: string,
    timestamp: string,
    remoteAddr: Option<string>,
    userAgent: Option<string>,
    headers: map<string, string>)

  datatype A2AContext = A2AContext(
    requester: AgentInfo,
    target: AgentInfo,
    message: Option<MessageInfo>,
    task: Option<TaskInfo>,
    request: RequestInfo,
    operation: string,
    resource: Option<string>,
    data: map<string, Json>,
    environment: map<string, Json>)

  // ---------------------------------------------------------------------------
  // What an inbound call carries

  /** A message part, selected by its kind. An `Option` field is `None` when the
      part has no such attribute. */
  datatype Part =
    | TextPart(text: string)
    | FilePart(name: Option<string>, mimeType: Option<string>)
    | DataPart(mimeType: Option<string>)

  datatype Message = Message(id: Option<string>, parts: seq<Part>)

  datatype Task = Task(id: Option<string>, status: Option<string>, createdAt: Option<string>, updatedAt: Option<string>)

  /** The server call context; a `None` field is an attribute the context lacks. */
  datatype ServerContext = ServerContext(
    headers: Option<map<string, string>>,
    metadata: Option<map<string, string>>,
    remoteAddr: Option<string>)

  /** The parameter objects of the A2A methods, as far as extraction inspects them.
      A `task_id` attribute of type `Option<Option<string>>` is `None` when the
      object has no such attribute and `Some(None)` when it holds `None`. */
  datatype Params =
    | MessageSendParams(message: Message, taskId: Option<Option<string>>)
    | TaskQueryParams(queryTaskId: string)
    | TaskIdParams(idTaskId: string)
    | OtherParams(otherTaskId: Option<Option<string>>)

  /** `hasattr(params, 'task_id')`, with the attribute's value when it has one. */
  function TaskIdAttribute(params: Params): (t: Option<Option<string>>)
    ensures params.TaskQueryParams? ==> t == Some(Some(params.queryTaskId))
    ensures params.TaskIdParams? ==> t == Some(Some(params.idTaskId))
  {
    match params
    case MessageSendParams(_, t) => t
    case TaskQueryParams(t) => Some(Some(t))
    case TaskIdParams(t) => Some(Some(t))
    case OtherParams(t) => t
  }

  /** The truthiness of a `task_id` attribute: present, not `None`, not empty. */
  predicate TruthyTaskId(t: Option<Option<string>>)
  {
    t.Some? && t.value.Some? && t.value.value != ""
  }

  // ---------------------------------------------------------------------------
  // The extractors' configuration

  const DefaultPatterns: seq<string> :=
    ["SECRET", "CONFIDENTIAL", "PASSWORD", "TOKEN", "API_KEY", "PRIVATE_KEY", "SSN", "CREDIT_CARD"]

  /** `DefaultContextExtractor`: the agent registry and the sensitive patterns. */
  datatype Extractor = Extractor(registry: map<string, AgentInfo>, patterns: seq<string>)

  /** `DefaultContextExtractor(agent_registry, sensitive_patterns)`: a missing or
      empty argument takes the default. */
  function NewExtractor(registry: Option<map<string, AgentInfo>>, patterns: Option<seq<string>>): (x: Extractor)
    ensures registry.Some? ==> x.registry == registry.value
    ensures registry.None? ==> x.registry == map[]
    ensures patterns.Some? && patterns.value != [] ==> x.patterns == patterns.value
    ensures patterns.None? || patterns.value == [] ==> x.patterns == DefaultPatterns
  {
    Extractor(
      if registry.Some? then registry.value else map[],
      if patterns.Some? && patterns.value != [] then patterns.value else DefaultPatterns)
  }

  /** `ContextExtractor`: the per-call extractor and the static environment data. */
  datatype ContextExtractor = ContextExtractor(extractor: Extractor, environment: map<string, Json>)

  function NewContextExtractor(extractor: Option<Extractor>, environment: Option<map<string, Json>>): (cx: ContextExtractor)
    ensures extractor.Some? ==> cx.extractor == extractor.value
    ensures extractor.None? ==> cx.extractor == NewExtractor(None, None)
    ensures environment.Some? ==> cx.environment == environment.value
    ensures environment.None? ==> cx.environment == map[]
  {
    ContextExtractor(
      if extractor.Some? then extractor.value else NewExtractor(None, None),
      if environment.Some? then environment.value else map[])
  }

  // ---------------------------------------------------------------------------
  // Requester resolution

  /** The agent id the `X-Agent-ID` header gives, when it is there and non-empty. */
  function HeaderId(sc: ServerContext): Option<string>
  {
    if sc.headers.Some? && "X-Agent-ID" in sc.headers.value && sc.headers.value["X-Agent-ID"] != ""
    then Some(sc.headers.value["X-Agent-ID"]) else None
  }

  /** The agent id the context metadata gives, when it is there and non-empty. */
  function MetadataId(sc: ServerContext): Option<string>
  {
    if sc.metadata.Some? && "agent_id" in sc.metadata.value && sc.metadata.value["agent_id"] != ""
    then Some(sc.metadata.value["agent_id"]) else None
  }

  /** `extract_agent_info`: the header wins over the metadata; a registered id
      gives its registry entry, an unregistered one an `AgentInfo` carrying
      only the id, and no id at all the empty `AgentInfo`. */
  function ExtractAgentInfo(x: Extractor, server: Option<ServerContext>): (r: AgentInfo)
    ensures server.None? ==> r == EmptyAgent
    ensures server.Some? && HeaderId(server.value).Some? ==>
      var id := HeaderId(server.value).value;
      r == if id in x.registry then x.registry[id] else EmptyAgent.(agentId := Some(id))
    ensures server.Some? && HeaderId(server.value).None? && MetadataId(server.value).Some? ==>
      var id := MetadataId(server.value).value;
      r == if id in x.registry then x.registry[id] else EmptyAgent.(agentId := Some(id))
    ensures server.Some? && HeaderId(server.value).None? && MetadataId(server.value).None? ==> r == EmptyAgent
  {
    if server.None? then EmptyAgent
    else
      var id := if HeaderId(server.value).Some? then HeaderId(server.value) else MetadataId(server.value);
      if id.Some? && id.value in x.registry then x.registry[id.value]
      else if id.Some? then EmptyAgent.(agentId := id)
      else EmptyAgent
  }

  /** While the header names an agent, the metadata is never consulted. */
  lemma HeaderShadowsMetadata(x: Extractor, sc: ServerContext, otherMetadata: Option<map<string, string>>)
    requires HeaderId(sc).Some?
    ensures ExtractAgentInfo(x, Some(sc)) == ExtractAgentInfo(x, Some(sc.(metadata := otherMetadata)))
  {
  }

  // ---------------------------------------------------------------------------
  // Message classification

  /** Python `any(p in text for p in patterns)`. */
  function AnyOccurs(patterns: seq<string>, text: string): bool
  {
    if patterns == [] then false
    else Contains(text, patterns[0]) || AnyOccurs(patterns[1..], text)
  }

  lemma {:induction false} AnyOccursIff(patterns: seq<string>, text: string)
    ensures AnyOccurs(patterns, text) <==> exists i :: 0 <= i < |patterns| && Contains(text, patterns[i])
  {
    if patterns != [] {
      AnyOccursIff(patterns[1..], text);
      if AnyOccurs(patterns[1..], text) {
        var i :| 0 <= i < |patterns[1..]| && Contains(text, patterns[1..][i]);
        assert Contains(text, patterns[i + 1]);
      }
      if exists i :: 0 <= i < |patterns| && Contains(text, patterns[i]) {
        var i :| 0 <= i < |patterns| && Contains(text, patterns[i]);
        if i > 0 {
          assert Contains(text, patterns[1..][i - 1]);
        }
      }
    }
  }

  /** `_contains_sensitive_data`: the content is upper-cased, the patterns are not. */
  function ContainsSensitiveData(patterns: seq<string>, content: string): bool
  {
    AnyOccurs(patterns, Upper(content))
  }

  /** `_contains_sensitive_data` holds iff some pattern occurs in the upper-cased content. */
  lemma SensitiveIff(patterns: seq<string>, content: string)
    ensures ContainsSensitiveData(patterns, content)
        <==> exists i :: 0 <= i < |patterns| && Contains(Upper(content), patterns[i])
  {
    AnyOccursIff(patterns, Upper(content));
  }

  /** No character of upper-cased text is a lower-case ASCII letter. */
  lemma UpperHasNoLower(s: string, j: int)
    requires 0 <= j < |s|
    ensures !('a' <= Upper(s)[j] <= 'z')
  {
  }

  /** As written, a pattern holding a lower-case letter is compared with
      upper-cased content and so never matches, even where the content
      spells it out exactly. */
  lemma LowercasePatternNeverMatches(content: string, p: string, k: nat)
    requires k < |p| && 'a' <= p[k] <= 'z'
    ensures !Contains(Upper(content), p)
  {
    var u := Upper(content);
    forall i | 0 <= i <= |u| - |p|
      ensures !OccursAt(u, p, i)
    {
      UpperHasNoLower(content, i + k);
      assert u[i..i + |p|][k] != p[k];
    }
  }

  /** The concrete case: the custom pattern "secret" misses "my secret". */
  lemma LowercasePatternMissesItsOwnText()
    ensures Contains("my secret", "secret")
    ensures !ContainsSensitiveData(["secret"], "my secret")
  {
    assert OccursAt("my secret", "secret", 3);
    LowercasePatternNeverMatches("my secret", "secret", 0);
  }

  function UpperAll(patterns: seq<string>): (r: seq<string>)
    ensures |r| == |patterns|
    ensures forall i :: 0 <= i < |patterns| ==> r[i] == Upper(patterns[i])
  {
    seq(|patterns|, i requires 0 <= i < |patterns| => Upper(patterns[i]))
  }

  /** The evidently intended test: patterns and content folded alike. */
  function ContainsSensitiveDataFolded(patterns: seq<string>, content: string): bool
  {
    AnyOccurs(UpperAll(patterns), Upper(content))
  }

  /** Upper-casing keeps a substring a substring. */
  lemma UpperKeepsContains(s: string, p: string)
    requires Contains(s, p)
    ensures Contains(Upper(s), Upper(p))
  {
    var i :| 0 <= i <= |s| - |p| && OccursAt(s, p, i);
    assert Upper(s)[i..i + |p|] == Upper(s[i..i + |p|]);
    assert OccursAt(Upper(s), Upper(p), i);
  }

  /** Folded, every pattern the content contains, in any letter case, is
      detected. */
  lemma FoldedDetectsEveryPattern(patterns: seq<string>, content: string, k: nat)
    requires k < |patterns| && Contains(content, patterns[k])
    ensures ContainsSensitiveDataFolded(patterns, content)
  {
    UpperKeepsContains(content, patterns[k]);
    AnyOccursIff(UpperAll(patterns), Upper(content));
  }

  /** For patterns already in upper case (the defaults among them) the folded
      test and the test as written agree. */
  lemma FoldedAgreesOnUpperPatterns(patterns: seq<string>, content: string)
    requires forall i :: 0 <= i < |patterns| ==> Upper(patterns[i]) == patterns[i]
    ensures ContainsSensitiveDataFolded(patterns, content) == ContainsSensitiveData(patterns, content)
  {
    assert UpperAll(patterns) == patterns;
  }

  const InternalMarkers: seq<string> := ["INTERNAL", "PRIVATE"]

  /** `_classify_data`. */
  function ClassifyData(patterns: seq<string>, content: string): (r: string)
    ensures r == "confidential" <==> ContainsSensitiveData(patterns, content)
    ensures r == "internal" <==> !ContainsSensitiveData(patterns, content) && AnyOccurs(InternalMarkers, Upper(content))
    ensures r == "public" <==> !ContainsSensitiveData(patterns, content) && !AnyOccurs(InternalMarkers, Upper(content))
  {
    if ContainsSensitiveData(patterns, content) then "confidential"
    else if AnyOccurs(InternalMarkers, Upper(content)) then "internal"
    else "public"
  }

  /** The descriptor `classify_message` records for one part. */
  function PartEntry(p: Part): (r: map<string, string>)
    ensures "type" in r
  {
    match p
    case TextPart(t) => map["type" := "text", "content" := t]
    case FilePart(name, mime) =>
      if name.None? then map["type" := "file"]
      else if mime.None? then map["type" := "file", "filename" := name.value]
      else map["type" := "file", "filename" := name.value, "mime_type" := mime.value]
    case DataPart(mime) =>
      if mime.None? then map["type" := "data", "data" := "<binary_data>"]
      else map["type" := "data", "data" := "<binary_data>", "mime_type" := mime.value]
  }

  /** The texts of the text parts, in order. */
  function TextsOf(parts: seq<Part>): (r: seq<string>)
    ensures |r| <= |parts|
  {
    if parts == [] then []
    else
      var last := parts[|parts| - 1];
      TextsOf(parts[..|parts| - 1]) + (if last.TextPart? then [last.text] else [])
  }

  /** A text is among `TextsOf(parts)` exactly when some part is a text part carrying it. */
  lemma {:induction false} TextsOfMembers(parts: seq<Part>, t: string)
    ensures t in TextsOf(parts) <==> exists i :: 0 <= i < |parts| && parts[i] == TextPart(t)
  {
    if parts != [] {
      var init := parts[..|parts| - 1];
      TextsOfMembers(init, t);
      if exists i :: 0 <= i < |init| && init[i] == TextPart(t) {
        var i :| 0 <= i < |init| && init[i] == TextPart(t);
        assert parts[i] == TextPart(t);
      }
      if exists i :: 0 <= i < |parts| && parts[i] == TextPart(t) {
        var i :| 0 <= i < |parts| && parts[i] == TextPart(t);
        if i < |parts| - 1 {
          assert init[i] == TextPart(t);
        }
      }
    }
  }

  /** The `MessageInfo` that `classify_message` builds for a message. */
  function Classified(patterns: seq<string>, m: Message): MessageInfo
  {
    var texts := TextsOf(m.parts);
    var content := if texts == [] then None else Some(Join(texts, " "));
    var scanned := content.Some? && content.value != "";
    MessageInfo(
      m.id,
      content,
      "text",
      seq(|m.parts|, i requires 0 <= i < |m.parts| => PartEntry(m.parts[i])),
      map[],
      scanned && ContainsSensitiveData(patterns, content.value),
      if scanned then ClassifyData(patterns, content.value) else "public")
  }

  /** One descriptor per part, in order; data payloads never appear, only the
      placeholder. */
  lemma ClassifiedParts(patterns: seq<string>, m: Message)
    ensures |Classified(patterns, m).parts| == |m.parts|
    ensures forall i :: 0 <= i < |m.parts| ==> Classified(patterns, m).parts[i] == PartEntry(m.parts[i])
    ensures forall i :: 0 <= i < |m.parts| && m.parts[i].DataPart? ==>
      Classified(patterns, m).parts[i]["data"] == "<binary_data>"
  {
  }

  /** The content holds every text part's text, and exists only when some part
      is a text part. */
  lemma ClassifiedContent(patterns: seq<string>, m: Message)
    ensures Classified(patterns, m).content.None? <==> forall i :: 0 <= i < |m.parts| ==> !m.parts[i].TextPart?
    ensures forall i :: 0 <= i < |m.parts| && m.parts[i].TextPart? ==>
      Contains(Classified(patterns, m).content.value, m.parts[i].text)
  {
    var texts := TextsOf(m.parts);
    forall i | 0 <= i < |m.parts| && m.parts[i].TextPart?
      ensures texts != [] && Contains(Join(texts, " "), m.parts[i].text)
    {
      TextsOfMembers(m.parts, m.parts[i].text);
      var k :| 0 <= k < |texts| && texts[k] == m.parts[i].text;
      JoinContainsEach(texts, " ", k);
    }
    if texts != [] {
      TextsOfMembers(m.parts, texts[0]);
    }
  }

  /** The sensitivity flag and the classification agree: for non-empty content,
      "confidential" exactly when a pattern matches; without content the
      defaults stay. */
  lemma ClassifiedFlags(patterns: seq<string>, m: Message)
    ensures var info := Classified(patterns, m);
      (info.content.None? || info.content == Some("")) ==>
        !info.containsSensitiveData && info.dataClassification == "public"
    ensures var info := Classified(patterns, m);
      info.content.Some? && info.content.value != "" ==>
        (info.dataClassification == "confidential" <==> info.containsSensitiveData)
    ensures Classified(patterns, m).dataClassification in {"public", "internal", "confidential"}
  {
  }

  /** `classify_message`: walks the parts once, collecting texts and descriptors. */
  method ClassifyMessage(x: Extractor, m: Message) returns (info: MessageInfo)
    ensures info == Classified(x.patterns, m)
  {
    var contentParts: seq<string> := [];
    var partsInfo: seq<map<string, string>> := [];
    var i := 0;
    while i < |m.parts|
      invariant 0 <= i <= |m.parts|
      invariant contentParts == TextsOf(m.parts[..i])
      invariant |partsInfo| == i
      invariant forall j :: 0 <= j < i ==> partsInfo[j] == PartEntry(m.parts[j])
    {
      var part := m.parts[i];
      assert m.parts[..i + 1][..i] == m.parts[..i];
      if part.TextPart? {
        contentParts := contentParts + [part.text];
      }
      partsInfo := partsInfo + [PartEntry(part)];
      i := i + 1;
    }
    assert m.parts[..i] == m.parts;
    ghost var spec := Classified(x.patterns, m);
    assert partsInfo == spec.parts;
    var content := if contentParts == [] then None else Some(Join(contentParts, " "));
    assert content == spec.content;
    info := MessageInfo(m.id, content, "text", partsInfo, map[], false, "public");
    if content.Some? && content.value != "" {
      info := info.(containsSensitiveData := ContainsSensitiveData(x.patterns, content.value),
                    dataClassification := ClassifyData(x.patterns, content.value));
    }
  }

  // ---------------------------------------------------------------------------
  // Task and request information

  /** `extract_task_info`; never called by `ContextExtractor`, kept for completeness. */
  function ExtractTaskInfo(task: Option<Task>): (r: Option<TaskInfo>)
    ensures r.None? <==> task.None?
    ensures task.Some? ==> r.value.taskId == task.value.id && r.value.status == task.value.status
    ensures task.Some? ==> r.value.createdAt == task.value.createdAt && r.value.updatedAt == task.value.updatedAt
    ensures task.Some? ==> r.value.metadata == map[]
  {
    match task
    case None => None
    case Some(t) => Some(TaskInfo(t.id, t.status, t.createdAt, t.updatedAt, map[]))
  }

  /** `extract_request_info`; `now` stands for `datetime.utcnow()`. */
  function ExtractRequestInfo(op: string, server: Option<ServerContext>, now: string): (r: RequestInfo)
    ensures r.methodName == op && r.timestamp == now
    ensures server.None? ==> r == RequestInfo(op, now, None, None, map[])
    ensures server.Some? ==> r.remoteAddr == server.value.remoteAddr
    ensures server.Some? && server.value.headers.Some? ==>
      r.headers == server.value.headers.value &&
      r.userAgent == (if "User-Agent" in r.headers then Some(r.headers["User-Agent"]) else None)
    ensures server.Some? && server.value.headers.None? ==> r.headers == map[] && r.userAgent.None?
  {
    var base := RequestInfo(op, now, None, None, map[]);
    match server
    case None => base
    case Some(sc) =>
      var withAddr := base.(remoteAddr := sc.remoteAddr);
      if sc.headers.None? then withAddr
      else
        var hs := sc.headers.value;
        withAddr.(headers := hs, userAgent := if "User-Agent" in hs then Some(hs["User-Agent"]) else None)
  }

  // ---------------------------------------------------------------------------
  // Method-specific enrichment and the whole context

  const PushConfigPrefix: string := "tasks/pushNotificationConfig"

  predicate IsMessageMethod(op: string)
  {
    op == "message/send" || op == "message/stream"
  }

  /** What `_extract_method_context` leaves in the context. */
  function MethodContext(patterns: seq<string>, op: string, params: Params, ctx: A2AContext): A2AContext
  {
    if IsMessageMethod(op) then
      if params.MessageSendParams? then
        var t := params.taskId;
        ctx.(message := Some(Classified(patterns, params.message)), resource := Some("message"),
             task := if TruthyTaskId(t) then Some(TaskWithId(t.value)) else ctx.task)
      else ctx
    else if op == "tasks/get" then
      if params.TaskQueryParams? then ctx.(task := Some(TaskWithId(Some(params.queryTaskId))), resource := Some("task"))
      else ctx
    else if op == "tasks/cancel" then
      if params.TaskIdParams? then
        ctx.(task := Some(TaskWithId(Some(params.idTaskId))), resource := Some("task"), operation := "task_cancel")
      else ctx
    else if StartsWith(op, PushConfigPrefix) then
      var t := TaskIdAttribute(params);
      ctx.(resource := Some("push_notification"), task := if t.Some? then Some(TaskWithId(t.value)) else ctx.task)
    else ctx
  }

  /** `_extract_method_context`: updates the context's fields one by one. */
  method ExtractMethodContext(x: Extractor, op: string, params: Params, ctx0: A2AContext) returns (ctx: A2AContext)
    ensures ctx == MethodContext(x.patterns, op, params, ctx0)
  {
    ctx := ctx0;
    if IsMessageMethod(op) {
      if params.MessageSendParams? {
        var info := ClassifyMessage(x, params.message);
        ctx := ctx.(message := Some(info));
        ctx := ctx.(resource := Some("message"));
        if TruthyTaskId(params.taskId) {
          ctx := ctx.(task := Some(TaskWithId(params.taskId.value)));
        }
      }
    } else if op == "tasks/get" {
      if params.TaskQueryParams? {
        ctx := ctx.(task := Some(TaskWithId(Some(params.queryTaskId))));
        ctx := ctx.(resource := Some("task"));
      }
    } else if op == "tasks/cancel" {
      if params.TaskIdParams? {
        ctx := ctx.(task := Some(TaskWithId(Some(params.idTaskId))));
        ctx := ctx.(resource := Some("task"));
        ctx := ctx.(operation := "task_cancel");
      }
    } else if StartsWith(op, PushConfigPrefix) {
      ctx := ctx.(resource := Some("push_notification"));
      if TaskIdAttribute(params).Some? {
        ctx := ctx.(task := Some(TaskWithId(TaskIdAttribute(params).value)));
      }
    }
  }

  /** The context `extract_context` returns. */
  function Extracted(cx: ContextExtractor, op: string, params: Params, server: Option<ServerContext>,
                     additional: Option<map<string, Json>>, now: string): A2AContext
  {
    var base := A2AContext(
      ExtractAgentInfo(cx.extractor, server), EmptyAgent, None, None,
      ExtractRequestInfo(op, server, now), op, None, map[], cx.environment);
    var withData := if additional.Some? && additional.value != map[] then base.(data := base.data + additional.value) else base;
    MethodContext(cx.extractor.patterns, op, params, withData)
  }

  /** `extract_context`. */
  method ExtractContext(cx: ContextExtractor, op: string, params: Params, server: Option<ServerContext>,
                        additional: Option<map<string, Json>>, now: string) returns (ctx: A2AContext)
    ensures ctx == Extracted(cx, op, params, server, additional, now)
  {
    var requester := ExtractAgentInfo(cx.extractor, server);
    var target := EmptyAgent;
    var requestInfo := ExtractRequestInfo(op, server, now);
    ctx := A2AContext(requester, target, None, None, requestInfo, op, None, map[], cx.environment);
    if additional.Some? && additional.value != map[] {
      ctx := ctx.(data := ctx.data + additional.value);
    }
    ctx := ExtractMethodContext(cx.extractor, op, params, ctx);
  }

  /** The method-specific step never touches the parties, the request, the
      additional data or the environment. */
  lemma MethodContextKeeps(patterns: seq<string>, op: string, params: Params, ctx: A2AContext)
    ensures var c := MethodContext(patterns, op, params, ctx);
      c.requester == ctx.requester && c.target == ctx.target && c.request == ctx.request
      && c.data == ctx.data && c.environment == ctx.environment
  {
    if IsMessageMethod(op) {
    } else if op == "tasks/get" {
    } else if op == "tasks/cancel" {
    } else if StartsWith(op, PushConfigPrefix) {
    }
  }

  /** The fields every extracted context has, whatever the method. */
  lemma ExtractedCommon(cx: ContextExtractor, op: string, params: Params, server: Option<ServerContext>,
                        additional: Option<map<string, Json>>, now: string)
    ensures var c := Extracted(cx, op, params, server, additional, now);
      && c.requester == ExtractAgentInfo(cx.extractor, server)
      && c.target == EmptyAgent
      && c.request.methodName == op
      && c.request == ExtractRequestInfo(op, server, now)
      && c.data == (if additional.Some? then additional.value else map[])
      && c.environment == cx.environment
  {
    var base := A2AContext(
      ExtractAgentInfo(cx.extractor, server), EmptyAgent, None, None,
      ExtractRequestInfo(op, server, now), op, None, map[], cx.environment);
    var withData := if additional.Some? && additional.value != map[] then base.(data := base.data + additional.value) else base;
    assert withData.data == (if additional.Some? then additional.value else map[]);
    MethodContextKeeps(cx.extractor.patterns, op, params, withData);
  }

  /** `message/send` and `message/stream`: the message is classified, the
      resource is "message", and a task appears only for a non-empty task id. */
  lemma ExtractedMessage(cx: ContextExtractor, op: string, m: Message, taskId: Option<Option<string>>,
                         server: Option<ServerContext>, additional: Option<map<string, Json>>, now: string)
    requires IsMessageMethod(op)
    ensures var c := Extracted(cx, op, MessageSendParams(m, taskId), server, additional, now);
      && c.message == Some(Classified(cx.extractor.patterns, m))
      && c.resource == Some("message")
      && c.operation == op
      && c.task == (if TruthyTaskId(taskId) then Some(TaskWithId(taskId.value)) else None)
  {
  }

  /** `tasks/get` with query parameters: the task and resource "task". */
  lemma ExtractedTaskGet(cx: ContextExtractor, id: string, server: Option<ServerContext>,
                         additional: Option<map<string, Json>>, now: string)
    ensures var c := Extracted(cx, "tasks/get", TaskQueryParams(id), server, additional, now);
      c.task == Some(TaskWithId(Some(id))) && c.resource == Some("task") && c.operation == "tasks/get" && c.message.None?
  {
  }

  /** `tasks/cancel` with id parameters: as `tasks/get`, and the operation
      becomes "task_cancel". */
  lemma ExtractedTaskCancel(cx: ContextExtractor, id: string, server: Option<ServerContext>,
                            additional: Option<map<string, Json>>, now: string)
    ensures var c := Extracted(cx, "tasks/cancel", TaskIdParams(id), server, additional, now);
      c.task == Some(TaskWithId(Some(id))) && c.resource == Some("task") && c.operation == "task_cancel"
  {
  }

  /** Every push-notification-config method: resource "push_notification", and
      a task whenever the parameters have a `task_id` attribute, holding its
      value even when that is `None`. */
  lemma ExtractedPushConfig(cx: ContextExtractor, op: string, params: Params, server: Option<ServerContext>,
                            additional: Option<map<string, Json>>, now: string)
    requires StartsWith(op, PushConfigPrefix)
    ensures var c := Extracted(cx, op, params, server, additional, now);
      && c.resource == Some("push_notification")
      && c.operation == op
      && (TaskIdAttribute(params).Some? ==> c.task == Some(TaskWithId(TaskIdAttribute(params).value)))
      && (TaskIdAttribute(params).None? ==> c.task.None?)
  {
    assert !IsMessageMethod(op) && op != "tasks/get" && op != "tasks/cancel" by {
      assert op[..|PushConfigPrefix|] == PushConfigPrefix;
    }
  }

  /** Any other method, or a parameter object of another kind: no resource, no
      message, no task, and the operation is the method itself. */
  lemma ExtractedUnenriched(cx: ContextExtractor, op: string, params: Params, server: Option<ServerContext>,
                            additional: Option<map<string, Json>>, now: string)
    requires !IsMessageMethod(op) || !params.MessageSendParams?
    requires op != "tasks/get" || !params.TaskQueryParams?
    requires op != "tasks/cancel" || !params.TaskIdParams?
    requires !StartsWith(op, PushConfigPrefix)
    ensures var c := Extracted(cx, op, params, server, additional, now);
      c.resource.None? && c.message.None? && c.task.None? && c.operation == op
  {
  }

  // ---------------------------------------------------------------------------
  // The policy input

  function AgentJson(a: AgentInfo): Json
  {
    JObj(map[
      "agent_id" := OptStr(a.agentId),
      "name" := OptStr(a.name),
      "capabilities" := StrList(a.capabilities),
      "permissions" := StrList(a.permissions),
      "role" := OptStr(a.role),
      "clearance_level" := JInt(a.clearanceLevel),
      "metadata" := JObj(a.metadata)])
  }

  function MessageJson(m: MessageInfo): Json
  {
    JObj(map[
      "message_id" := OptStr(m.messageId),
      "content" := OptStr(m.content),
      "message_type" := JStr(m.messageType),
      "parts" := JArr(seq(|m.parts|, i requires 0 <= i < |m.parts| => StrMap(m.parts[i]))),
      "metadata" := JObj(m.metadata),
      "contains_sensitive_data" := JBool(m.containsSensitiveData),
      "data_classification" := JStr(m.dataClassification)])
  }

  function TaskJson(t: TaskInfo): Json
  {
    JObj(map[
      "task_id" := OptStr(t.taskId),
      "status" := OptStr(t.status),
      "created_at" := OptStr(t.createdAt),
      "updated_at" := OptStr(t.updatedAt),
      "metadata" := JObj(t.metadata)])
  }

  function RequestJson(r: RequestInfo): Json
  {
    JObj(map[
      "method" := JStr(r.methodName),
      "timestamp" := JStr(r.timestamp),
      "remote_addr" := OptStr(r.remoteAddr),
      "user_agent" := OptStr(r.userAgent),
      "headers" := StrMap(r.headers)])
  }

  /** `A2AContext.to_opa_input`; it is also what `model_dump` gives for the context. */
  function ToOpaInput(c: A2AContext): (j: Json)
    ensures j.JObj?
  {
    JObj(map[
      "requester" := AgentJson(c.requester),
      "target" := AgentJson(c.target),
      "message" := if c.message.Some? then MessageJson(c.message.value) else JNull,
      "task" := if c.task.Some? then TaskJson(c.task.value) else JNull,
      "request" := RequestJson(c.request),
      "operation" := JStr(c.operation),
      "resource" := OptStr(c.resource),
      "data" := JObj(c.data),
      "environment" := JObj(c.environment)])
  }

  /** The policy input has exactly the nine top-level keys. */
  lemma ToOpaInputKeys(c: A2AContext)
    ensures ToOpaInput(c).fields.Keys ==
      {"requester", "target", "message", "task", "request", "operation", "resource", "data", "environment"}
  {
  }

  /** The agent and request records are dumped whole. */
  lemma ToOpaInputRecords(c: A2AContext)
    ensures var f := ToOpaInput(c).fields;
      && "requester" in f && f["requester"] == AgentJson(c.requester)
      && "target" in f && f["target"] == AgentJson(c.target)
      && "request" in f && f["request"] == RequestJson(c.request)
  {
  }

  /** An absent message or task becomes null; the resource is a string or null. */
  lemma ToOpaInputOptionals(c: A2AContext)
    ensures var f := ToOpaInput(c).fields;
      && "message" in f && f["message"] == (if c.message.None? then JNull else MessageJson(c.message.value))
      && "task" in f && f["task"] == (if c.task.None? then JNull else TaskJson(c.task.value))
      && "resource" in f && f["resource"] == OptStr(c.resource)
  {
  }

  /** A push-notification-config call whose parameters hold a `task_id` of
      `None` still reaches the policy with a task: an object whose id is null. */
  lemma PushConfigNullTaskIdInput(cx: ContextExtractor, op: string, server: Option<ServerContext>,
                                  additional: Option<map<string, Json>>, now: string)
    requires StartsWith(op, PushConfigPrefix)
    ensures var f := ToOpaInput(Extracted(cx, op, OtherParams(Some(None)), server, additional, now)).fields;
      && "task" in f && f["task"].JObj? && "task_id" in f["task"].fields && f["task"].fields["task_id"] == JNull
  {
    var c := Extracted(cx, op, OtherParams(Some(None)), server, additional, now);
    ExtractedPushConfig(cx, op, OtherParams(Some(None)), server, additional, now);
    assert c.task == Some(TaskWithId(None));
    ToOpaInputOptionals(c);
    assert ToOpaInput(c).fields["task"] == TaskJson(TaskWithId(None));
  }

  /** The operation, the data and the environment are copied. */
  lemma ToOpaInputValues(c: A2AContext)
    ensures var f := ToOpaInput(c).fields;
      && "operation" in f && f["operation"] == JStr(c.operation)
      && "data" in f && f["data"] == JObj(c.data)
      && "environment" in f && f["environment"] == JObj(c.environment)
  {
  }

  // Reading a policy input back: the inverse of the encodings above.

  function AsObj(j: Json): Option<map<string, Json>>
  {
    if j.JObj? then Some(j.fields) else None
  }

  function FieldOptStr(f: map<string, Json>, k: string): Option<Option<string>>
  {
    if k in f then AsOptStr(f[k]) else None
  }

  function AgentFromJson(j: Json): Option<AgentInfo>
  {
    if !j.JObj? then None
    else
      var f := j.fields;
      if !("agent_id" in f && "name" in f && "capabilities" in f && "permissions" in f && "role" in f
           && "clearance_level" in f && "metadata" in f) then None
      else
        var id := AsOptStr(f["agent_id"]);
        var name := AsOptStr(f["name"]);
        var caps := AsStrList(f["capabilities"]);
        var perms := AsStrList(f["permissions"]);
        var role := AsOptStr(f["role"]);
        if id.None? || name.None? || caps.None? || perms.None? || role.None?
           || !f["clearance_level"].JInt? || !f["metadata"].JObj? then None
        else Some(AgentInfo(id.value, name.value, caps.value, perms.value, role.value,
                            f["clearance_level"].i, f["metadata"].fields))
  }

  function PartsFromJson(j: Json): Option<seq<map<string, string>>>
  {
    if j.JArr? && forall i :: 0 <= i < |j.items| ==> AsStrMap(j.items[i]).Some? then
      Some(seq(|j.items|, i requires 0 <= i < |j.items| => AsStrMap(j.items[i]).value))
    else None
  }

  function MessageFromJson(j: Json): Option<MessageInfo>
  {
    if !j.JObj? then None
    else
      var f := j.fields;
      if !("message_id" in f && "content" in f && "message_type" in f && "parts" in f && "metadata" in f
           && "contains_sensitive_data" in f && "data_classification" in f) then None
      else
        var id := AsOptStr(f["message_id"]);
        var content := AsOptStr(f["content"]);
        var parts := PartsFromJson(f["parts"]);
        if id.None? || content.None? || parts.None? || !f["message_type"].JStr? || !f["metadata"].JObj?
           || !f["contains_sensitive_data"].JBool? || !f["data_classification"].JStr? then None
        else Some(MessageInfo(id.value, content.value, f["message_type"].s, parts.value, f["metadata"].fields,
                              f["contains_sensitive_data"].b, f["data_classification"].s))
  }

  function TaskFromJson(j: Json): Option<TaskInfo>
  {
    if !j.JObj? then None
    else
      var f := j.fields;
      if !("task_id" in f && "status" in f && "created_at" in f && "updated_at" in f && "metadata" in f) then None
      else
        var id := AsOptStr(f["task_id"]);
        var status := AsOptStr(f["status"]);
        var created := AsOptStr(f["created_at"]);
        var updated := AsOptStr(f["updated_at"]);
        if id.None? || status.None? || created.None? || updated.None? || !f["metadata"].JObj? then None
        else Some(TaskInfo(id.value, status.value, created.value, updated.value, f["metadata"].fields))
  }

  function RequestFromJson(j: Json): Option<RequestInfo>
  {
    if !j.JObj? then None
    else
      var f := j.fields;
      if !("method" in f && "timestamp" in f && "remote_addr" in f && "user_agent" in f && "headers" in f) then None
      else
        var addr := AsOptStr(f["remote_addr"]);
        var agent := AsOptStr(f["user_agent"]);
        var headers := AsStrMap(f["headers"]);
        if !f["method"].JStr? || !f["timestamp"].JStr? || addr.None? || agent.None? || headers.None? then None
        else Some(RequestInfo(f["method"].s, f["timestamp"].s, addr.value, agent.value, headers.value))
  }

  /** `None` for JSON null, the decoded record otherwise. */
  function OptionalFromJson<T>(j: Json, decode: Json -> Option<T>): Option<Option<T>>
  {
    if j.JNull? then Some(None)
    else match decode(j)
      case None => None
      case Some(v) => Some(Some(v))
  }

  function FromOpaInput(j: Json): Option<A2AContext>
  {
    if !j.JObj? then None else FromFields(j.fields)
  }

  /** Reads the context back from the policy input's top-level members. */
  function FromFields(f: map<string, Json>): Option<A2AContext>
  {
    if !("requester" in f && "target" in f && "message" in f && "task" in f && "request" in f
         && "operation" in f && "resource" in f && "data" in f && "environment" in f) then None
    else
      var requester := AgentFromJson(f["requester"]);
      var target := AgentFromJson(f["target"]);
      var message := OptionalFromJson(f["message"], MessageFromJson);
      var task := OptionalFromJson(f["task"], TaskFromJson);
      var request := RequestFromJson(f["request"]);
      var resource := AsOptStr(f["resource"]);
      if requester.None? || target.None? || message.None? || task.None? || request.None? || resource.None?
         || !f["operation"].JStr? || !f["data"].JObj? || !f["environment"].JObj? then None
      else Some(A2AContext(requester.value, target.value, message.value, task.value, request.value,
                           f["operation"].s, resource.value, f["data"].fields, f["environment"].fields))
  }

  lemma AgentRoundTrip(a: AgentInfo)
    ensures AgentFromJson(AgentJson(a)) == Some(a)
  {
    StrListRoundTrip(a.capabilities);
    StrListRoundTrip(a.permissions);
    OptStrRoundTrip(a.agentId);
    OptStrRoundTrip(a.name);
    OptStrRoundTrip(a.role);
  }

  lemma MessageRoundTrip(m: MessageInfo)
    ensures MessageFromJson(MessageJson(m)) == Some(m)
  {
    OptStrRoundTrip(m.messageId);
    OptStrRoundTrip(m.content);
    var items := seq(|m.parts|, i requires 0 <= i < |m.parts| => StrMap(m.parts[i]));
    forall i | 0 <= i < |items|
      ensures AsStrMap(items[i]) == Some(m.parts[i])
    {
      StrMapRoundTrip(m.parts[i]);
    }
    assert seq(|items|, i requires 0 <= i < |items| => AsStrMap(items[i]).value) == m.parts;
  }

  lemma TaskRoundTrip(t: TaskInfo)
    ensures TaskFromJson(TaskJson(t)) == Some(t)
  {
    OptStrRoundTrip(t.taskId);
    OptStrRoundTrip(t.status);
    OptStrRoundTrip(t.createdAt);
    OptStrRoundTrip(t.updatedAt);
  }

  lemma RequestRoundTrip(r: RequestInfo)
    ensures RequestFromJson(RequestJson(r)) == Some(r)
  {
    OptStrRoundTrip(r.remoteAddr);
    OptStrRoundTrip(r.userAgent);
    StrMapRoundTrip(r.headers);
  }

  /** The policy input loses nothing: reading it back gives the same context,
      so requester, target, message and task identifiers all survive. */
  /** Members that hold the dumps of a context's fields read back as that context. */
  lemma FromFieldsOf(c: A2AContext, f: map<string, Json>)
    requires "requester" in f && f["requester"] == AgentJson(c.requester)
    requires "target" in f && f["target"] == AgentJson(c.target)
    requires "request" in f && f["request"] == RequestJson(c.request)
    requires "message" in f && f["message"] == (if c.message.None? then JNull else MessageJson(c.message.value))
    requires "task" in f && f["task"] == (if c.task.None? then JNull else TaskJson(c.task.value))
    requires "resource" in f && f["resource"] == OptStr(c.resource)
    requires "operation" in f && f["operation"] == JStr(c.operation)
    requires "data" in f && f["data"] == JObj(c.data)
    requires "environment" in f && f["environment"] == JObj(c.environment)
    ensures FromFields(f) == Some(c)
  {
    AgentRoundTrip(c.requester);
    AgentRoundTrip(c.target);
    if c.message.Some? {
      MessageRoundTrip(c.message.value);
    }
    assert OptionalFromJson(f["message"], MessageFromJson) == Some(c.message);
    if c.task.Some? {
      TaskRoundTrip(c.task.value);
    }
    assert OptionalFromJson(f["task"], TaskFromJson) == Some(c.task);
    RequestRoundTrip(c.request);
    OptStrRoundTrip(c.resource);
  }

  lemma {:induction false} OpaInputRoundTrip(c: A2AContext)
    ensures FromOpaInput(ToOpaInput(c)) == Some(c)
  {
    ToOpaInputRecords(c);
    ToOpaInputOptionals(c);
    ToOpaInputValues(c);
    FromFieldsOf(c, ToOpaInput(c).fields);
  }
}
