/** The static rule set (internal/policy/rules.go) and the exact access relation it defines. */
module DefaultRules {
  import opened Identities
  import opened Policy

  const HIGH_VALUE_THRESHOLD_USD := 50000.0

  predicate HighValueMutation(i: Input) {
    && i.resource.kind == Order
    && (i.action == Update || i.action == Cancel)
    && i.resource.valueUSD >= HIGH_VALUE_THRESHOLD_USD
    && i.actor.role != Admin
  }

  predicate OwnSupply(i: Input) {
    i.resource.owner != "" && i.resource.owner == i.actor.supplier
  }

  const HIGH_VALUE_DENY := Rule(
    "deny_high_value_order_mutation_non_admin", Deny, "high-value order mutation requires admin",
    (i: Input) => HighValueMutation(i))
  const ADMIN_ALLOW := Rule("allow_admin_within_tenant", Allow, "",
    (i: Input) => i.actor.role == Admin)
  const ANALYST_READ := Rule("allow_analyst_read", Allow, "",
    (i: Input) => i.actor.role == Analyst && i.action == Read)
  const MANAGER_READ_INVENTORY := Rule("allow_wm_read_inventory", Allow, "",
    (i: Input) => i.actor.role == WarehouseManager && i.resource.kind == Inventory && i.action == Read)
  const MANAGER_WRITE_OWN_REGION := Rule("allow_wm_write_own_region_inventory", Allow, "",
    (i: Input) => i.actor.role == WarehouseManager && i.resource.kind == Inventory
         && (i.action == Create || i.action == Update)
         && i.resource.region != "" && i.resource.region == i.actor.region)
  const MANAGER_ORDERS := Rule("allow_wm_orders", Allow, "",
    (i: Input) => i.actor.role == WarehouseManager && i.resource.kind == Order
         && (i.action == Read || i.action == Create))
  const SUPPLIER_SHIPMENTS := Rule("allow_supplier_own_shipments", Allow, "",
    (i: Input) => i.actor.role == Supplier && i.resource.kind == Shipment && OwnSupply(i))
  const SUPPLIER_READ_INVENTORY := Rule("allow_supplier_read_own_inventory", Allow, "",
    (i: Input) => i.actor.role == Supplier && i.resource.kind == Inventory && i.action == Read && OwnSupply(i))

  const RULES: seq<Rule> := [
    HIGH_VALUE_DENY, ADMIN_ALLOW, ANALYST_READ, MANAGER_READ_INVENTORY, MANAGER_WRITE_OWN_REGION,
    MANAGER_ORDERS, SUPPLIER_SHIPMENTS, SUPPLIER_READ_INVENTORY]

  /** Who may do what within a tenant, by role, region and ownership; no order value appears in it. */
  predicate Permitted(actor: Identity, action: Action, r: Resource) {
    match actor.role
    case Admin => true
    case Analyst => action == Read
    case WarehouseManager =>
      || (r.kind == Inventory && action == Read)
      || (r.kind == Inventory && (action == Create || action == Update) && r.region != "" && r.region == actor.region)
      || (r.kind == Order && (action == Read || action == Create))
    case Supplier =>
      r.owner != "" && r.owner == actor.supplier && (r.kind == Shipment || (r.kind == Inventory && action == Read))
    case Unknown(_) => false
  }

  lemma {:induction false} AnyAllow(i: Input)
    ensures Any(RULES, Allow, i) <==> Permitted(i.actor, i.action, i.resource)
  {
    if Permitted(i.actor, i.action, i.resource) {
      match i.actor.role {
        case Admin => assert Fires(RULES[1], Allow, i);
        case Analyst => assert Fires(RULES[2], Allow, i);
        case WarehouseManager =>
          assert Fires(RULES[3], Allow, i) || Fires(RULES[4], Allow, i) || Fires(RULES[5], Allow, i);
        case Supplier => assert Fires(RULES[6], Allow, i) || Fires(RULES[7], Allow, i);
      }
    }
    if k :| 0 <= k < |RULES| && Fires(RULES[k], Allow, i) {
      assert RULES[k] in RULES;
    }
  }

  lemma {:induction false} AnyDeny(i: Input)
    ensures Any(RULES, Deny, i) <==> HighValueMutation(i)
  {
    assert HighValueMutation(i) ==> Fires(RULES[0], Deny, i);
  }

  /** Nobody but an admin may mutate an order at all, so the high-value gate never decides alone. */
  lemma HighValueMutationsAreNotPermitted(i: Input)
    requires HighValueMutation(i)
    ensures !Permitted(i.actor, i.action, i.resource)
  {}

  /**
   The exact access relation: for every actor, action, route type and extracted resource, the
   decision of the default rules allows iff the resource is in the actor's tenant and Permitted
   holds of its own id, region, owner and value.
   */
  lemma {:induction false} ExactAccess(
      actor: Identity, action: Action, kind: ResourceType, extracted: Resource, timeout: int, d: Decision)
    requires var input := Input(actor, action, Target(actor, kind, extracted));
      MayReturn(RULES, timeout, input, d) && d != EVAL_TIMEOUT
    ensures d.allow <==>
      && (extracted.tenant == "" || extracted.tenant == actor.tenant)
      && Permitted(actor, action, Resource(
           kind, extracted.id, actor.tenant, extracted.region, extracted.owner, extracted.valueUSD))
  {
    var input := Input(actor, action, Target(actor, kind, extracted));
    if !CrossTenant(input) {
      AllowsExactlyWhen(RULES, input, d);
      AnyAllow(input);
      AnyDeny(input);
    }
  }

  /** The rule that an allow reports, by role. */
  predicate Reports(i: Input, rule: string) {
    match i.actor.role
    case Admin => rule == "allow_admin_within_tenant"
    case Analyst => rule == "allow_analyst_read"
    case WarehouseManager =>
      rule == if i.resource.kind.Order? then "allow_wm_orders"
              else if i.action.Read? then "allow_wm_read_inventory" else "allow_wm_write_own_region_inventory"
    case Supplier =>
      rule == if i.resource.kind.Shipment? then "allow_supplier_own_shipments" else "allow_supplier_read_own_inventory"
    case Unknown(_) => false
  }

  /** Every allow of the default rules reports the one rule that is for the actor's role and the resource. */
  lemma {:induction false} AllowsAreReported(i: Input, timeout: int, d: Decision)
    requires MayReturn(RULES, timeout, i, d) && d.allow
    ensures Reports(i, d.rule)
  {
    FailsClosed(RULES, timeout, i, d);
    var k :| First(RULES, Allow, i, k) && d == Decision(true, RULES[k].id, "");
    assert Fires(RULES[k], Allow, i);
  }

  lemma {:induction false} AnyAllowWithoutGate(i: Input)
    ensures Any(RULES[1..], Allow, i) <==> Any(RULES, Allow, i)
    ensures !Any(RULES[1..], Deny, i)
  {
    if k :| 0 <= k < |RULES| && Fires(RULES[k], Allow, i) {
      assert RULES[1..][k - 1] == RULES[k];
    }
  }

  /**
   Dropping the high-value rule never changes whether a request is allowed; it changes the
   reported rule exactly for high-value mutations, from the gate to the default deny.
   */
  lemma {:induction false} HighValueGateIsRedundant(i: Input, d: Decision, d': Decision)
    requires Decides(RULES, i, d) && Decides(RULES[1..], i, d')
    ensures d.allow == d'.allow
    ensures d.rule != d'.rule <==>
      && i.resource.kind == Order && (i.action == Update || i.action == Cancel)
      && i.resource.valueUSD >= 50000.0 && i.actor.role != Admin
    ensures HighValueMutation(i) ==> d.rule == HIGH_VALUE_DENY.id && d'.rule == DEFAULT_DENY.rule
  {
    AllowsExactlyWhen(RULES, i, d);
    AllowsExactlyWhen(RULES[1..], i, d');
    AnyAllow(i);
    AnyDeny(i);
    AnyAllowWithoutGate(i);
    if HighValueMutation(i) {
      HighValueMutationsAreNotPermitted(i);
      assert First(RULES, Deny, i, 0);
      assert |HIGH_VALUE_DENY.id| != |DEFAULT_DENY.rule|;
    } else if Any(RULES, Allow, i) {
      var k :| First(RULES, Allow, i, k) && d == Decision(true, RULES[k].id, "");
      var k' :| First(RULES[1..], Allow, i, k') && d' == Decision(true, RULES[1..][k'].id, "");
      assert First(RULES[1..], Allow, i, k - 1);
    }
  }
}
