/** The agent-card discovery decision on the client side: one query of a
    named rule, the truthiness of what it answers, and every failure of the
    query turned into a `PolicyEvaluationError`. */
module CardPolicy {
  import opened Basics
  import opened Json
  import opened Errors
  import Discovery

  const DefaultPackage: string := "a2a.client"
  const DefaultRule: string := "agent_card_discovery_allow"

  /** The policy engine's `query_rule(input_data, package_path, rule_name)`:
      the document it answers, or the exception it raises. */
  type RuleQuery = (Json, string, string) -> Result<Json, Exception>

  /** The decision read from a rule's answer: the truthiness of its "result"
      member when it is an object holding one, else the truthiness of the
      answer itself. */
  function CardAllowed(answer: Json): (allowed: bool)
    ensures answer.JObj? && "result" in answer.fields ==> (allowed <==> Truthy(answer.fields["result"]))
    ensures answer.JObj? && "result" !in answer.fields ==> (allowed <==> answer.fields != map[])
    ensures !answer.JObj? ==> (allowed <==> Truthy(answer))
  {
    if answer.JObj? && "result" in answer.fields then Truthy(answer.fields["result"])
    else Truthy(answer)
  }

  /** The dotted rule path reported with a failure. */
  function RulePath(package: string, rule: string): string
  {
    package + "." + rule
  }

  /** `evaluate_agent_card_policy`. */
  function EvaluateAgentCardPolicy(query: RuleQuery, input: map<string, Json>, package: string, rule: string)
    : (r: Result<bool, Exception>)
    ensures r.Ok? <==> query(JObj(input), package, rule).Ok?
    ensures r.Ok? ==> r.value == CardAllowed(query(JObj(input), package, rule).value)
    ensures r.Err? ==> r.error.PolicyEvaluationError?
                       && r.error.path == Some(package + "." + rule)
                       && r.error.inputData == Some(JObj(input))
                       && r.error.opaError == Str(query(JObj(input), package, rule).error)
  {
    match query(JObj(input), package, rule)
    case Ok(answer) => Ok(CardAllowed(answer))
    case Err(e) =>
      Err(PolicyEvaluationError(
            "Failed to evaluate policy " + RulePath(package, rule) + ": " + Text(e),
            Some(RulePath(package, rule)), Some(JObj(input)), Str(e)))
  }

  /** With the default package and rule, a failure names the rule
      "a2a.client.agent_card_discovery_allow". */
  function EvaluateWithDefaults(query: RuleQuery, input: map<string, Json>): (r: Result<bool, Exception>)
    ensures r.Err? ==> r.error.PolicyEvaluationError? && r.error.path == Some("a2a.client.agent_card_discovery_allow")
    ensures var answer := query(JObj(input), "a2a.client", "agent_card_discovery_allow");
            (r.Ok? <==> answer.Ok?) && (r.Ok? ==> r.value == CardAllowed(answer.value))
  {
    assert DefaultPackage + "." + DefaultRule == "a2a.client.agent_card_discovery_allow";
    EvaluateAgentCardPolicy(query, input, DefaultPackage, DefaultRule)
  }

  /** A wrapped failure keeps the text of the exception it replaces in its
      own message, after the rule path. */
  lemma FailureMessageNamesRuleAndCause(query: RuleQuery, input: map<string, Json>, package: string, rule: string)
    requires query(JObj(input), package, rule).Err?
    ensures var r := EvaluateAgentCardPolicy(query, input, package, rule);
            r.Err? && Contains(r.error.message, RulePath(package, rule))
            && Contains(r.error.message, Text(query(JObj(input), package, rule).error))
  {
    var e := query(JObj(input), package, rule).error;
    var head := "Failed to evaluate policy ";
    var m := head + RulePath(package, rule) + ": " + Text(e);
    assert m == head + (RulePath(package, rule) + (": " + Text(e)));
    ContainsSelf(RulePath(package, rule));
    ContainsLeft(RulePath(package, rule), ": " + Text(e), RulePath(package, rule));
    ContainsRight(head, RulePath(package, rule) + (": " + Text(e)), RulePath(package, rule));
    ContainsSelf(Text(e));
    ContainsRight(head + RulePath(package, rule) + ": ", Text(e), Text(e));
  }

  /** The input a failure carries is the discovery context's policy input, so
      the context can be read back from the error. */
  lemma FailureCarriesDiscoveryContext(query: RuleQuery, dc: Discovery.DiscoveryContext, package: string, rule: string)
    requires dc.state == map[]
    requires query(Discovery.ToOpaInput(dc), package, rule).Err?
    ensures var r := EvaluateAgentCardPolicy(query, Discovery.ToOpaInput(dc).fields, package, rule);
            r.Err? && r.error.inputData.Some? && Discovery.FromOpaInput(r.error.inputData.value) == Some(dc)
  {
    Discovery.OpaInputRoundTrip(dc);
  }
}
