/** The agent-card discovery context a client builds before calling another
    agent: who calls, which agent (its URL split into authority and path, as
    in sections 3.2 and 3.3 of RFC 3986), which method, and the policy input
    made of it. */
module Discovery {
  import opened Basics
  import opened Json

  datatype DiscoveryContext = DiscoveryContext(
    state: map<string, Json>,
    clientIdentity: string,
    clientMetadata: map<string, Json>,
    targetAgentUrl: string,
    targetAgentDomain: string,
    targetAgentPath: string,
    operationType: string,
    methodName: string,
    discoveryTimestamp: string,
    discoverySource: string,
    requestHeaders: map<string, string>,
    requestMetadata: map<string, Json>)

  const DefaultSource: string := "client"

  /** The default operation type: the method name up to its first '/'. */
  function OperationTypeOf(methodName: string): (r: string)
    ensures '/' !in r
    ensures '/' in methodName ==> |r| < |methodName| && methodName[..|r|] == r && methodName[|r|] == '/'
    ensures '/' !in methodName ==> r == methodName
  {
    methodName[..IndexOf(methodName, '/')]
  }

  // ---------------------------------------------------------------------------
  // The URL split (a simplified `urlparse`)

  predicate IsAlpha(c: char)
  {
    'a' <= c <= 'z' || 'A' <= c <= 'Z'
  }

  /** The characters a URL scheme may contain. */
  predicate SchemeChar(c: char)
  {
    IsAlpha(c) || '0' <= c <= '9' || c == '+' || c == '-' || c == '.'
  }

  /** The URL starts with a scheme followed by ':'. */
  predicate HasScheme(url: string)
  {
    var i := IndexOf(url, ':');
    0 < i < |url| && IsAlpha(url[0]) && forall j :: 0 <= j < i ==> SchemeChar(url[j])
  }

  /** What follows the scheme and its ':'. */
  function AfterScheme(url: string): string
  {
    if HasScheme(url) then url[IndexOf(url, ':') + 1..] else url
  }

  /** The authority (`netloc`) and the path of what follows a URL's scheme:
      the authority follows "//" up to the first '/', '?' or '#'; the path
      runs to the first '?' or '#'. */
  function SplitRest(rest: string): (string, string)
  {
    var parts :=
      if StartsWith(rest, "//") then
        var hier := rest[2..];
        var d := IndexOfAny(hier, {'/', '?', '#'});
        (hier[..d], hier[d..])
      else ("", rest);
    (parts.0, parts.1[..IndexOfAny(parts.1, {'?', '#'})])
  }

  /** The authority and the path of a URL. */
  function SplitUrl(url: string): (string, string)
  {
    SplitRest(AfterScheme(url))
  }

  /** The first character from `cs` in `a + b` is the first of `b` when `a`
      has none. */
  lemma {:induction false} IndexOfAnyConcat(a: string, b: string, cs: set<char>)
    requires forall j :: 0 <= j < |a| ==> a[j] !in cs
    requires b == [] || b[0] in cs
    ensures IndexOfAny(a + b, cs) == |a|
  {
    if a != [] {
      assert (a + b)[1..] == a[1..] + b;
      IndexOfAnyConcat(a[1..], b, cs);
    }
  }

  lemma {:induction false} IndexOfConcat(a: string, b: string, c: char)
    requires forall j :: 0 <= j < |a| ==> a[j] != c
    requires b != [] && b[0] == c
    ensures IndexOf(a + b, c) == |a|
  {
    if a != [] {
      assert (a + b)[1..] == a[1..] + b;
      IndexOfConcat(a[1..], b, c);
    }
  }

  /** What follows a well-formed scheme and its ':' is the rest of the URL. */
  lemma AfterSchemeOf(scheme: string, rest: string)
    requires scheme != [] && IsAlpha(scheme[0]) && forall j :: 0 <= j < |scheme| ==> SchemeChar(scheme[j])
    ensures AfterScheme(scheme + (":" + rest)) == rest
  {
    var url := scheme + (":" + rest);
    IndexOfConcat(scheme, ":" + rest, ':');
    assert url[..|scheme|] == scheme;
    assert HasScheme(url);
  }

  /** "//", an authority and a path split back into that authority and path. */
  lemma SplitRestOf(authority: string, path: string)
    requires forall j :: 0 <= j < |authority| ==> authority[j] !in {'/', '?', '#'}
    requires path == [] || path[0] == '/'
    requires forall j :: 0 <= j < |path| ==> path[j] !in {'?', '#'}
    ensures SplitRest("//" + authority + path) == (authority, path)
  {
    var rest := "//" + authority + path;
    assert rest[..2] == "//";
    assert rest[2..] == authority + path;
    IndexOfAnyConcat(authority, path, {'/', '?', '#'});
    assert (authority + path)[..|authority|] == authority;
    assert (authority + path)[|authority|..] == path;
    IndexOfAnyConcat(path, [], {'?', '#'});
    assert path + [] == path;
  }

  /** A URL made of a scheme, an authority and a path splits back into that
      authority and that path. */
  lemma SplitUrlOfParts(scheme: string, authority: string, path: string)
    requires scheme != [] && IsAlpha(scheme[0]) && forall j :: 0 <= j < |scheme| ==> SchemeChar(scheme[j])
    requires forall j :: 0 <= j < |authority| ==> authority[j] !in {'/', '?', '#'}
    requires path == [] || path[0] == '/'
    requires forall j :: 0 <= j < |path| ==> path[j] !in {'?', '#'}
    ensures SplitUrl(scheme + "://" + authority + path) == (authority, path)
  {
    var rest := "//" + authority + path;
    assert scheme + "://" + authority + path == scheme + (":" + rest);
    AfterSchemeOf(scheme, rest);
    SplitRestOf(authority, path);
  }

  // ---------------------------------------------------------------------------
  // Building the context and its policy input

  /** `AgentCardDiscoveryContext.from_client_call`; `now` stands for the
      discovery timestamp's text. */
  function FromClientCall(clientIdentity: string, targetAgentUrl: string, methodName: string,
                          operationType: Option<string>, clientMetadata: Option<map<string, Json>>,
                          requestHeaders: Option<map<string, string>>, requestMetadata: Option<map<string, Json>>,
                          now: string): (dc: DiscoveryContext)
    ensures dc.targetAgentUrl == targetAgentUrl
    ensures (dc.targetAgentDomain, dc.targetAgentPath) == SplitUrl(targetAgentUrl)
    ensures operationType.Some? ==> dc.operationType == operationType.value
    ensures operationType.None? ==> dc.operationType == OperationTypeOf(methodName)
    ensures clientMetadata.None? || clientMetadata.value == map[] ==> dc.clientMetadata == map[]
    ensures clientMetadata.Some? ==> dc.clientMetadata == clientMetadata.value
    ensures requestHeaders.Some? ==> dc.requestHeaders == requestHeaders.value
    ensures requestHeaders.None? ==> dc.requestHeaders == map[]
    ensures requestMetadata.Some? ==> dc.requestMetadata == requestMetadata.value
    ensures requestMetadata.None? ==> dc.requestMetadata == map[]
    ensures dc.discoverySource == DefaultSource && dc.state == map[] && dc.methodName == methodName
  {
    var split := SplitUrl(targetAgentUrl);
    DiscoveryContext(
      map[],
      clientIdentity,
      if clientMetadata.Some? then clientMetadata.value else map[],
      targetAgentUrl,
      split.0,
      split.1,
      if operationType.Some? then operationType.value else OperationTypeOf(methodName),
      methodName,
      now,
      DefaultSource,
      if requestHeaders.Some? then requestHeaders.value else map[],
      if requestMetadata.Some? then requestMetadata.value else map[])
  }

  /** `to_opa_input`: four groups, each leaf one field of the context. */
  function ToOpaInput(dc: DiscoveryContext): (j: Json)
    ensures j.JObj? && j.fields.Keys == {"client", "target_agent", "request", "discovery"}
  {
    JObj(map[
      "client" := JObj(map["identity" := JStr(dc.clientIdentity), "metadata" := JObj(dc.clientMetadata)]),
      "target_agent" := JObj(map[
        "url" := JStr(dc.targetAgentUrl),
        "domain" := JStr(dc.targetAgentDomain),
        "path" := JStr(dc.targetAgentPath)]),
      "request" := JObj(map[
        "operation_type" := JStr(dc.operationType),
        "method_name" := JStr(dc.methodName),
        "headers" := StrMap(dc.requestHeaders),
        "metadata" := JObj(dc.requestMetadata)]),
      "discovery" := JObj(map["timestamp" := JStr(dc.discoveryTimestamp), "source" := JStr(dc.discoverySource)])])
  }

  function Field(j: Json, group: string, key: string): Option<Json>
  {
    if j.JObj? && group in j.fields && j.fields[group].JObj? && key in j.fields[group].fields
    then Some(j.fields[group].fields[key]) else None
  }

  function StrField(j: Json, group: string, key: string): Option<string>
  {
    var f := Field(j, group, key);
    if f.Some? && f.value.JStr? then Some(f.value.s) else None
  }

  function ObjField(j: Json, group: string, key: string): Option<map<string, Json>>
  {
    var f := Field(j, group, key);
    if f.Some? && f.value.JObj? then Some(f.value.fields) else None
  }

  /** Reads a discovery context back from its policy input (the input has no
      `state`, so the context read back has an empty one). */
  function FromOpaInput(j: Json): Option<DiscoveryContext>
  {
    var identity := StrField(j, "client", "identity");
    var clientMetadata := ObjField(j, "client", "metadata");
    var url := StrField(j, "target_agent", "url");
    var domain := StrField(j, "target_agent", "domain");
    var path := StrField(j, "target_agent", "path");
    var opType := StrField(j, "request", "operation_type");
    var methodName := StrField(j, "request", "method_name");
    var headers := Field(j, "request", "headers");
    var requestMetadata := ObjField(j, "request", "metadata");
    var timestamp := StrField(j, "discovery", "timestamp");
    var source := StrField(j, "discovery", "source");
    if identity.None? || clientMetadata.None? || url.None? || domain.None? || path.None? || opType.None?
       || methodName.None? || headers.None? || AsStrMap(headers.value).None? || requestMetadata.None?
       || timestamp.None? || source.None? then None
    else Some(DiscoveryContext(map[], identity.value, clientMetadata.value, url.value, domain.value, path.value,
                               opType.value, methodName.value, timestamp.value, source.value,
                               AsStrMap(headers.value).value, requestMetadata.value))
  }

  /** The "client" group of the policy input reads back as its two fields. */
  lemma ClientGroupOf(dc: DiscoveryContext)
    ensures StrField(ToOpaInput(dc), "client", "identity") == Some(dc.clientIdentity)
    ensures ObjField(ToOpaInput(dc), "client", "metadata") == Some(dc.clientMetadata)
  {
    assert ToOpaInput(dc).fields["client"].fields == map["identity" := JStr(dc.clientIdentity), "metadata" := JObj(dc.clientMetadata)];
  }

  /** The "target_agent" group reads back as the URL and its two parts. */
  lemma TargetGroupOf(dc: DiscoveryContext)
    ensures StrField(ToOpaInput(dc), "target_agent", "url") == Some(dc.targetAgentUrl)
    ensures StrField(ToOpaInput(dc), "target_agent", "domain") == Some(dc.targetAgentDomain)
    ensures StrField(ToOpaInput(dc), "target_agent", "path") == Some(dc.targetAgentPath)
  {
    assert ToOpaInput(dc).fields["target_agent"].fields
        == map["url" := JStr(dc.targetAgentUrl), "domain" := JStr(dc.targetAgentDomain), "path" := JStr(dc.targetAgentPath)];
  }

  /** The "request" group reads back as the operation, the method, the
      headers and the request metadata. */
  lemma RequestGroupOf(dc: DiscoveryContext)
    ensures StrField(ToOpaInput(dc), "request", "operation_type") == Some(dc.operationType)
    ensures StrField(ToOpaInput(dc), "request", "method_name") == Some(dc.methodName)
    ensures Field(ToOpaInput(dc), "request", "headers") == Some(StrMap(dc.requestHeaders))
    ensures ObjField(ToOpaInput(dc), "request", "metadata") == Some(dc.requestMetadata)
  {
    assert ToOpaInput(dc).fields["request"].fields
        == map["operation_type" := JStr(dc.operationType), "method_name" := JStr(dc.methodName),
               "headers" := StrMap(dc.requestHeaders), "metadata" := JObj(dc.requestMetadata)];
  }

  /** The "discovery" group reads back as the timestamp and the source. */
  lemma DiscoveryGroupOf(dc: DiscoveryContext)
    ensures StrField(ToOpaInput(dc), "discovery", "timestamp") == Some(dc.discoveryTimestamp)
    ensures StrField(ToOpaInput(dc), "discovery", "source") == Some(dc.discoverySource)
  {
    assert ToOpaInput(dc).fields["discovery"].fields
        == map["timestamp" := JStr(dc.discoveryTimestamp), "source" := JStr(dc.discoverySource)];
  }

  /** Every leaf of the policy input is its field: the input read back is the
      context itself, for any context with an empty state (all those built by
      `from_client_call`). */
  lemma {:induction false} OpaInputRoundTrip(dc: DiscoveryContext)
    requires dc.state == map[]
    ensures FromOpaInput(ToOpaInput(dc)) == Some(dc)
  {
    ClientGroupOf(dc);
    TargetGroupOf(dc);
    RequestGroupOf(dc);
    DiscoveryGroupOf(dc);
    StrMapRoundTrip(dc.requestHeaders);
  }

  /** `model_dump()`: every field at the top level, including the inherited
      `state`. */
  function Dump(dc: DiscoveryContext): (j: Json)
    ensures j.JObj? && "target_agent_url" in j.fields && j.fields["target_agent_url"] == JStr(dc.targetAgentUrl)
  {
    JObj(map[
      "state" := JObj(dc.state),
      "client_identity" := JStr(dc.clientIdentity),
      "client_metadata" := JObj(dc.clientMetadata),
      "target_agent_url" := JStr(dc.targetAgentUrl),
      "target_agent_domain" := JStr(dc.targetAgentDomain),
      "target_agent_path" := JStr(dc.targetAgentPath),
      "operation_type" := JStr(dc.operationType),
      "method_name" := JStr(dc.methodName),
      "discovery_timestamp" := JStr(dc.discoveryTimestamp),
      "discovery_source" := JStr(dc.discoverySource),
      "request_headers" := StrMap(dc.requestHeaders),
      "request_metadata" := JObj(dc.requestMetadata)])
  }
}
