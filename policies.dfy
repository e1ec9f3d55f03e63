/** The policy route map: which policy path of the decision engine guards each
    A2A method, mutable at run time, with a fixed fallback path. */
module Policies {
  import opened Basics

  /** The namespace every built-in policy path lives in. */
  const Namespace: string := "a2a."

  /** The dotted path of a policy of the `a2a` namespace. */
  function Qualified(name: string): string
  {
    Namespace + name
  }

  /** The path used for every method without an explicit entry. */
  const DefaultPath: string := Qualified("default_authorization")

  /** The built-in table: one entry per A2A operation, grouped by policy. */
  function DefaultMappings(): (m: map<string, string>)
    ensures "message/send" in m && "tasks/cancel" in m && "agent/capabilities" in m
  {
    map[
      "message/send" := Qualified("message_authorization"),
      "message/stream" := Qualified("message_authorization"),
      "tasks/get" := Qualified("task_access"),
      "tasks/cancel" := Qualified("task_modification"),
      "tasks/resubscribe" := Qualified("task_access"),
      "tasks/pushNotificationConfig/set" := Qualified("notification_management"),
      "tasks/pushNotificationConfig/get" := Qualified("notification_access"),
      "tasks/pushNotificationConfig/list" := Qualified("notification_access"),
      "tasks/pushNotificationConfig/delete" := Qualified("notification_management"),
      "agent/card" := Qualified("agent_discovery"),
      "agent/capabilities" := Qualified("capability_access")
    ]
  }

  /** The names of the Rego templates the manager can generate (their bodies are
      constant text and not part of this model). */
  function TemplateNames(): set<string>
  {
    {
      "message_authorization", "task_access", "task_modification", "agent_discovery",
      "capability_access", "notification_management", "notification_access",
      "default_authorization"
    }
  }

  /** A policy path with the `a2a.` namespace removed. */
  function LocalName(path: string): (r: string)
    ensures StartsWith(path, Namespace) ==> Namespace + r == path
    ensures !StartsWith(path, Namespace) ==> r == path
  {
    if StartsWith(path, Namespace) then path[|Namespace|..] else path
  }

  lemma LocalNameOfQualified(name: string)
    ensures LocalName(Qualified(name)) == name
  {
    assert StartsWith(Qualified(name), Namespace);
  }

  /** The lookup with fallback that `get_policy_path` performs. */
  function Resolve(mappings: map<string, string>, op: string): (r: string)
    ensures op in mappings ==> r == mappings[op]
    ensures op !in mappings ==> r == DefaultPath
  {
    if op in mappings then mappings[op] else DefaultPath
  }

  /** The built-in table has exactly these eleven methods. */
  lemma DefaultTableKeys()
    ensures DefaultMappings().Keys == {
      "message/send", "message/stream", "tasks/get", "tasks/cancel", "tasks/resubscribe",
      "tasks/pushNotificationConfig/set", "tasks/pushNotificationConfig/get",
      "tasks/pushNotificationConfig/list", "tasks/pushNotificationConfig/delete",
      "agent/card", "agent/capabilities"}
  {
  }

  /** Every path the built-in table or the fallback can resolve to names a
      template once its namespace is removed: a generated bundle covers every
      default route. */
  lemma {:induction false} TemplatesCoverDefaultRoutes(op: string)
    ensures LocalName(Resolve(DefaultMappings(), op)) in TemplateNames()
  {
    LocalNameOfQualified("message_authorization");
    LocalNameOfQualified("task_access");
    LocalNameOfQualified("task_modification");
    LocalNameOfQualified("notification_management");
    LocalNameOfQualified("notification_access");
    LocalNameOfQualified("agent_discovery");
    LocalNameOfQualified("capability_access");
    LocalNameOfQualified("default_authorization");
  }

  class PolicyManager {
    /** method name -> dotted policy path */
    var mappings: map<string, string>

    /** `PolicyManager(policy_mappings)`: a missing or empty custom table falls
        back to the built-in one; a non-empty one replaces it entirely. */
    constructor (custom: Option<map<string, string>>)
      ensures custom.Some? && custom.value != map[] ==> mappings == custom.value
      ensures custom.None? || custom.value == map[] ==> mappings == DefaultMappings()
    {
      if custom.Some? && custom.value != map[] {
        mappings := custom.value;
      } else {
        mappings := DefaultMappings();
      }
    }

    /** `get_policy_path`. */
    function GetPolicyPath(op: string): (r: string)
      reads this
      ensures op in mappings ==> r == mappings[op]
      ensures op !in mappings ==> r == DefaultPath
    {
      Resolve(mappings, op)
    }

    /** `add_policy_mapping`: adds or replaces one entry. */
    method AddPolicyMapping(op: string, path: string)
      modifies this
      ensures mappings == old(mappings)[op := path]
      ensures GetPolicyPath(op) == path
      ensures forall m :: m != op ==> GetPolicyPath(m) == old(GetPolicyPath(m))
    {
      mappings := mappings[op := path];
    }

    /** `remove_policy_mapping`: removing an absent method changes nothing. */
    method RemovePolicyMapping(op: string)
      modifies this
      ensures mappings == old(mappings) - {op}
      ensures op !in old(mappings) ==> mappings == old(mappings)
      ensures GetPolicyPath(op) == DefaultPath
      ensures forall m :: m != op ==> GetPolicyPath(m) == old(GetPolicyPath(m))
    {
      if op in mappings {
        mappings := mappings - {op};
      }
    }

    /** `get_all_mappings`: a copy; maps are values here, so changing the copy
        cannot reach the manager. */
    method GetAllMappings() returns (r: map<string, string>)
      ensures r == mappings
      ensures forall m :: m in r ==> GetPolicyPath(m) == r[m]
    {
      r := mappings;
    }
  }

  /** The route-map life cycle: unknown -> default, added -> its path, removed -> default again. */
  method RouteLifecycle(op: string, path: string) returns (before: string, added: string, removed: string)
    requires op !in DefaultMappings()
    ensures before == DefaultPath && added == path && removed == DefaultPath
  {
    var pm := new PolicyManager(None);
    before := pm.GetPolicyPath(op);
    pm.AddPolicyMapping(op, path);
    added := pm.GetPolicyPath(op);
    pm.RemovePolicyMapping(op);
    removed := pm.GetPolicyPath(op);
  }
}
