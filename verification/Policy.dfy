/**
 The authorization engine (internal/policy/engine.go) over arbitrary rule lists, and the
 Enforce middleware around it (internal/policy/middleware.go).
 */
module Policy {
  import opened Identities

  datatype Action = Create | Read | Update | Delete | Cancel

  datatype ResourceType = Order | Inventory | Shipment | ApiKey | OtherType(name: string)

  datatype Resource = Resource(
    kind: ResourceType, id: string, tenant: string, region: string, owner: string, valueUSD: real)

  datatype Input = Input(actor: Identity, action: Action, resource: Resource)

  /** An effect other than allow and deny makes a rule inert. */
  datatype Effect = Allow | Deny | OtherEffect(name: string)

  datatype Rule = Rule(id: string, effect: Effect, reason: string, matches: Input -> bool)

  datatype Decision = Decision(allow: bool, rule: string, reason: string)

  const CROSS_TENANT_DENY := Decision(false, "cross_tenant_deny", "resource belongs to a different tenant")
  const DEFAULT_DENY := Decision(false, "default_deny", "no matching allow rule")
  const EVAL_TIMEOUT := Decision(false, "eval_timeout", "policy evaluation exceeded timeout")

  // ------------------------------------------------------------ specification

  predicate Fires(r: Rule, e: Effect, input: Input) {
    r.effect == e && r.matches(input)
  }

  ghost predicate Any(rules: seq<Rule>, e: Effect, input: Input) {
    exists i :: 0 <= i < |rules| && Fires(rules[i], e, input)
  }

  /** Index i holds the first rule of effect e that matches. */
  ghost predicate First(rules: seq<Rule>, e: Effect, input: Input, i: int) {
    0 <= i < |rules| && Fires(rules[i], e, input) && forall j :: 0 <= j < i ==> !Fires(rules[j], e, input)
  }

  /** Deny overrides: the decision names the first match of the deciding effect. */
  ghost predicate Decides(rules: seq<Rule>, input: Input, d: Decision) {
    if Any(rules, Deny, input) then
      exists i :: First(rules, Deny, input, i) && d == Decision(false, rules[i].id, rules[i].reason)
    else if Any(rules, Allow, input) then
      exists i :: First(rules, Allow, input, i) && d == Decision(true, rules[i].id, "")
    else
      d == DEFAULT_DENY
  }

  /** The specification determines the decision. */
  lemma {:induction false} DecisionIsUnique(rules: seq<Rule>, input: Input, d1: Decision, d2: Decision)
    requires Decides(rules, input, d1) && Decides(rules, input, d2)
    ensures d1 == d2
  {
    if Any(rules, Deny, input) {
      var i :| First(rules, Deny, input, i) && d1 == Decision(false, rules[i].id, rules[i].reason);
      var j :| First(rules, Deny, input, j) && d2 == Decision(false, rules[j].id, rules[j].reason);
      assert i == j;
    } else if Any(rules, Allow, input) {
      var i :| First(rules, Allow, input, i) && d1 == Decision(true, rules[i].id, "");
      var j :| First(rules, Allow, input, j) && d2 == Decision(true, rules[j].id, "");
      assert i == j;
    }
  }

  // ------------------------------------------------------------ the engine

  /** The two early-return passes. */
  method EvaluateRules(rules: seq<Rule>, input: Input) returns (d: Decision)
    ensures Decides(rules, input, d)
  {
    for i := 0 to |rules|
      invariant forall j :: 0 <= j < i ==> !Fires(rules[j], Deny, input)
    {
      if Fires(rules[i], Deny, input) {
        assert First(rules, Deny, input, i);
        return Decision(false, rules[i].id, rules[i].reason);
      }
    }
    for i := 0 to |rules|
      invariant forall j :: 0 <= j < i ==> !Fires(rules[j], Allow, input)
    {
      if Fires(rules[i], Allow, input) {
        assert First(rules, Allow, input, i);
        return Decision(true, rules[i].id, "");
      }
    }
    return DEFAULT_DENY;
  }

  predicate CrossTenant(input: Input) {
    input.resource.tenant != "" && input.resource.tenant != input.actor.tenant
  }

  /** Evaluate may return d: the race against the timer is a free choice when a timeout is set. */
  ghost predicate MayReturn(rules: seq<Rule>, timeout: int, input: Input, d: Decision) {
    if CrossTenant(input) then d == CROSS_TENANT_DENY
    else Decides(rules, input, d) || (timeout > 0 && d == EVAL_TIMEOUT)
  }

  /** Evaluate, with the outcome of the race as a parameter. */
  method Evaluate(rules: seq<Rule>, timeout: int, timerFirst: bool, input: Input) returns (d: Decision)
    ensures MayReturn(rules, timeout, input, d)
    ensures !CrossTenant(input) && (timeout <= 0 || !timerFirst) ==> Decides(rules, input, d)
  {
    if input.resource.tenant != "" && input.resource.tenant != input.actor.tenant {
      return CROSS_TENANT_DENY;
    }
    if timeout <= 0 {
      d := EvaluateRules(rules, input);
      return;
    }
    if timerFirst {
      return EVAL_TIMEOUT;
    }
    d := EvaluateRules(rules, input);
  }

  // ------------------------------------------------------------ deny-overrides algebra

  /** Allowed exactly when some allow rule matches and no deny rule does. */
  lemma AllowsExactlyWhen(rules: seq<Rule>, input: Input, d: Decision)
    requires Decides(rules, input, d)
    ensures d.allow <==> Any(rules, Allow, input) && !Any(rules, Deny, input)
  {}

  lemma {:induction false} FirstExists(rules: seq<Rule>, e: Effect, input: Input) returns (i: int)
    requires Any(rules, e, input)
    ensures First(rules, e, input, i)
  {
    i := 0;
    while !Fires(rules[i], e, input)
      invariant 0 <= i < |rules|
      invariant forall j :: 0 <= j < i ==> !Fires(rules[j], e, input)
      decreases |rules| - i
    {
      i := i + 1;
    }
  }

  /** There always is a decision. */
  lemma {:induction false} DecisionExists(rules: seq<Rule>, input: Input) returns (d: Decision)
    ensures Decides(rules, input, d)
  {
    if Any(rules, Deny, input) {
      var i := FirstExists(rules, Deny, input);
      d := Decision(false, rules[i].id, rules[i].reason);
    } else if Any(rules, Allow, input) {
      var i := FirstExists(rules, Allow, input);
      d := Decision(true, rules[i].id, "");
    } else {
      d := DEFAULT_DENY;
    }
  }

  /** Evaluate always has something to return: the rules' decision, unless the input crosses tenants. */
  lemma {:induction false} SomeDecision(rules: seq<Rule>, timeout: int, input: Input) returns (d: Decision)
    ensures MayReturn(rules, timeout, input, d)
    ensures !CrossTenant(input) ==> Decides(rules, input, d)
  {
    if CrossTenant(input) {
      d := CROSS_TENANT_DENY;
    } else {
      d := DecisionExists(rules, input);
    }
  }

  lemma {:induction false} AnyInMultiset(rules: seq<Rule>, e: Effect, input: Input)
    ensures Any(rules, e, input) <==> exists r :: r in multiset(rules) && Fires(r, e, input)
  {
    if i :| 0 <= i < |rules| && Fires(rules[i], e, input) {
      assert rules[i] in multiset(rules);
    }
    if r :| r in multiset(rules) && Fires(r, e, input) {
      assert r in rules;
    }
  }

  /** The order of the rules never matters to the Allow bit. */
  lemma {:induction false} OrderIsIrrelevant(
      rules: seq<Rule>, rules': seq<Rule>, input: Input, d: Decision, d': Decision)
    requires multiset(rules) == multiset(rules')
    requires Decides(rules, input, d) && Decides(rules', input, d')
    ensures d.allow == d'.allow
  {
    AnyInMultiset(rules, Allow, input);
    AnyInMultiset(rules, Deny, input);
    AnyInMultiset(rules', Allow, input);
    AnyInMultiset(rules', Deny, input);
    AllowsExactlyWhen(rules, input, d);
    AllowsExactlyWhen(rules', input, d');
  }

  function Insert(rules: seq<Rule>, k: nat, r: Rule): seq<Rule>
    requires k <= |rules|
  {
    rules[..k] + [r] + rules[k..]
  }

  lemma {:induction false} AnyAfterInsert(rules: seq<Rule>, k: nat, r: Rule, e: Effect, input: Input)
    requires k <= |rules|
    ensures Any(Insert(rules, k, r), e, input) <==> Any(rules, e, input) || Fires(r, e, input)
  {
    var more := Insert(rules, k, r);
    assert more[k] == r;
    if i :| 0 <= i < |rules| && Fires(rules[i], e, input) {
      assert more[if i < k then i else i + 1] == rules[i];
    }
    if i :| 0 <= i < |more| && Fires(more[i], e, input) {
      if i != k { assert rules[if i < k then i else i - 1] == more[i]; }
    }
  }

  /**
   Adding a rule anywhere moves the decision only in its own direction: a deny rule never turns
   deny into allow, an allow rule never turns allow into deny, and an inert rule changes nothing.
   */
  lemma {:induction false} AddingARule(rules: seq<Rule>, k: nat, r: Rule, input: Input, d: Decision, d': Decision)
    requires k <= |rules| && Decides(rules, input, d) && Decides(Insert(rules, k, r), input, d')
    ensures r.effect != Allow && !d.allow ==> !d'.allow
    ensures r.effect != Deny && d.allow ==> d'.allow
  {
    AnyAfterInsert(rules, k, r, Allow, input);
    AnyAfterInsert(rules, k, r, Deny, input);
    AllowsExactlyWhen(rules, input, d);
    AllowsExactlyWhen(Insert(rules, k, r), input, d');
  }

  /** For every rule list and every timeout, whatever Evaluate returns allows only what the rules allow. */
  lemma {:induction false} FailsClosed(rules: seq<Rule>, timeout: int, input: Input, d: Decision)
    requires MayReturn(rules, timeout, input, d) && d.allow
    ensures !CrossTenant(input) && Decides(rules, input, d)
    ensures Any(rules, Allow, input) && !Any(rules, Deny, input)
  {
    AllowsExactlyWhen(rules, input, d);
  }

  /** What a denial reports when no rule of the list decided. */
  lemma {:induction false} ReportedReasons(rules: seq<Rule>, timeout: int, input: Input, d: Decision)
    requires MayReturn(rules, timeout, input, d)
    ensures input.resource.tenant != "" && input.resource.tenant != input.actor.tenant ==>
      !d.allow && d.rule == "cross_tenant_deny"
    ensures input.resource.tenant == "" || input.resource.tenant == input.actor.tenant ==>
      || (exists i :: 0 <= i < |rules| && d.rule == rules[i].id && rules[i].matches(input))
      || (!d.allow && d.rule == "default_deny" && forall i :: 0 <= i < |rules| ==>
            !((rules[i].effect.Allow? || rules[i].effect.Deny?) && rules[i].matches(input)))
      || (!d.allow && d.rule == "eval_timeout" && timeout > 0)
  {
    if !CrossTenant(input) && !Any(rules, Deny, input) && !Any(rules, Allow, input) {
      forall i | 0 <= i < |rules|
        ensures !((rules[i].effect.Allow? || rules[i].effect.Deny?) && rules[i].matches(input))
      {
        assert !Fires(rules[i], Allow, input) && !Fires(rules[i], Deny, input);
      }
    }
  }

  // ------------------------------------------------------------ Enforce

  datatype AuditRecord = AuditRecord(
    tenant: string, actor: string, role: Role, action: Action, kind: ResourceType,
    resource: string, allow: bool, rule: string, requestId: string)

  /** The resource Enforce evaluates: the extractor's, typed by the route, defaulting to the actor's tenant. */
  function Target(actor: Identity, kind: ResourceType, extracted: Resource): Resource {
    extracted.(kind := kind, tenant := if extracted.tenant == "" then actor.tenant else extracted.tenant)
  }

  function AuditOf(input: Input, d: Decision, requestId: string): AuditRecord {
    AuditRecord(input.actor.tenant, input.actor.user, input.actor.role, input.action, input.resource.kind,
                input.resource.id, d.allow, d.rule, requestId)
  }

  class AuditLog {
    var records: seq<AuditRecord>

    constructor ()
      ensures records == []
    {
      records := [];
    }

    method Write(r: AuditRecord)
      modifies this
      ensures records == old(records) + [r]
    {
      records := records + [r];
    }
  }

  /** Enforce: exactly one audit record per decision, written before the chain continues or aborts. */
  method Enforce(rules: seq<Rule>, timeout: int, timerFirst: bool, log: AuditLog,
                 actor: Identity, action: Action, kind: ResourceType, extracted: Resource, requestId: string)
    returns (proceed: bool, d: Decision)
    modifies log
    ensures var tenant := if extracted.tenant == "" then actor.tenant else extracted.tenant;
      var resource := Resource(kind, extracted.id, tenant, extracted.region, extracted.owner, extracted.valueUSD);
      MayReturn(rules, timeout, Input(actor, action, resource), d)
    ensures proceed == d.allow
    ensures log.records == old(log.records) + [AuditRecord(
      actor.tenant, actor.user, actor.role, action, kind, extracted.id, d.allow, d.rule, requestId)]
  {
    var resource := extracted.(kind := kind);
    if resource.tenant == "" {
      resource := resource.(tenant := actor.tenant);
    }
    var input := Input(actor, action, resource);
    d := Evaluate(rules, timeout, timerFirst, input);
    log.Write(AuditOf(input, d, requestId));
    proceed := d.allow;
  }
}
