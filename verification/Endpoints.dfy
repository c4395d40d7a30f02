/**
 Who may use which endpoint (internal/gateway/router.go, internal/policy/rules.go): the route
 table and the default rules put together, endpoint by endpoint.
 */
module Endpoints {
  import opened Identities
  import opened Routing
  import DefaultRules
  import Policy

  /** The supplier that owns what the request is about. */
  predicate OwnedBy(id: Identity, e: Policy.Resource) {
    e.owner != "" && e.owner == id.supplier
  }

  /** Who may use an endpoint within the own tenant. */
  predicate MayUse(verb: Verb, path: string, id: Identity, e: Policy.Resource) {
    if path == "/v1/orders" then
      verb.POST? && (id.role.Admin? || id.role.WarehouseManager?)
    else if path == "/v1/orders/:id" then
      || (verb.GET? && (id.role.Admin? || id.role.Analyst? || id.role.WarehouseManager?))
      || (verb.PUT? && id.role.Admin?)
    else if path == "/v1/inventory" then
      || (verb.GET? && (id.role.Admin? || id.role.Analyst? || id.role.WarehouseManager?
                        || (id.role.Supplier? && OwnedBy(id, e))))
      || (verb.PUT? && (id.role.Admin? || (id.role.WarehouseManager? && e.region != "" && e.region == id.region)))
    else if path == "/v1/shipments/:id" then
      verb.GET? && (id.role.Admin? || id.role.Analyst? || (id.role.Supplier? && OwnedBy(id, e)))
    else if path == "/v1/api-keys" then
      || (verb.GET? && (id.role.Admin? || id.role.Analyst?))
      || (verb.POST? && id.role.Admin?)
    else if path == "/v1/api-keys/:id/rotate" then
      verb.POST? && id.role.Admin?
    else if path == "/v1/api-keys/:id" then
      verb.DELETE? && id.role.Admin?
    else
      false
  }

  /** The resource a route has the engine evaluate for a caller of the resource's tenant. */
  function Evaluated(route: Route, id: Identity, e: Policy.Resource): Policy.Resource {
    Policy.Resource(route.kind, e.id, id.tenant, e.region, e.owner, e.valueUSD)
  }

  lemma {:induction false} StubAccess(i: nat, id: Identity, e: Policy.Resource)
    requires i < 6 && ValidRole(id.role)
    ensures DefaultRules.Permitted(id, ROUTES[i].action, Evaluated(ROUTES[i], id, e))
      <==> MayUse(ROUTES[i].verb, ROUTES[i].path, id, e)
  {}

  lemma {:induction false} KeyAccess(i: nat, id: Identity, e: Policy.Resource)
    requires 6 <= i < |ROUTES| && ValidRole(id.role)
    ensures DefaultRules.Permitted(id, ROUTES[i].action, Evaluated(ROUTES[i], id, e))
      <==> MayUse(ROUTES[i].verb, ROUTES[i].path, id, e)
  {}

  /**
   For every caller, endpoint and extracted resource, and unless the engine times out, the decision
   of the default rules allows iff the resource is in the caller's tenant and the caller may use
   the endpoint. So analysts may list API keys, although all other key routes are for admins.
   */
  lemma {:induction false} EndpointAccess(
      route: Route, id: Identity, e: Policy.Resource, timeout: int, d: Policy.Decision)
    requires route in ROUTES && ValidRole(id.role) && d != Policy.EVAL_TIMEOUT
    requires Policy.MayReturn(
      DefaultRules.RULES, timeout, Policy.Input(id, route.action, Policy.Target(id, route.kind, e)), d)
    ensures d.allow <==> (e.tenant == "" || e.tenant == id.tenant) && MayUse(route.verb, route.path, id, e)
  {
    DefaultRules.ExactAccess(id, route.action, route.kind, e, timeout, d);
    var i :| 0 <= i < |ROUTES| && route == ROUTES[i];
    if i < 6 { StubAccess(i, id, e); } else { KeyAccess(i, id, e); }
  }
}
