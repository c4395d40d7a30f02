/** The protected routes and the middleware each of them carries (internal/gateway/router.go). */
module Routing {
  import Keys
  import Policy

  datatype Verb = GET | POST | PUT | DELETE

  datatype Route = Route(
    verb: Verb, path: string, idempotent: bool, action: Policy.Action, kind: Policy.ResourceType, stub: bool)

  const ORDERS := "/v1/orders"
  const ORDER := "/v1/orders/:id"
  const INVENTORY := "/v1/inventory"
  const SHIPMENT := "/v1/shipments/:id"
  const API_KEYS := "/v1/api-keys"
  const API_KEY_ROTATION := "/v1/api-keys/:id/rotate"
  const API_KEY := "/v1/api-keys/:id"

  /** The protected routes, with the middleware each one carries. */
  const ROUTES: seq<Route> := [
    Route(POST, ORDERS, true, Policy.Create, Policy.Order, true),
    Route(GET, ORDER, false, Policy.Read, Policy.Order, true),
    Route(PUT, ORDER, false, Policy.Update, Policy.Order, true),
    Route(GET, INVENTORY, false, Policy.Read, Policy.Inventory, true),
    Route(PUT, INVENTORY, false, Policy.Update, Policy.Inventory, true),
    Route(GET, SHIPMENT, false, Policy.Read, Policy.Shipment, true),
    Route(POST, API_KEYS, false, Policy.Create, Policy.ApiKey, false),
    Route(GET, API_KEYS, false, Policy.Read, Policy.ApiKey, false),
    Route(POST, API_KEY_ROTATION, false, Policy.Update, Policy.ApiKey, false),
    Route(DELETE, API_KEY, false, Policy.Delete, Policy.ApiKey, false)]

  /** The idempotency middleware guards a single route pattern. */
  lemma {:induction false} OneIdempotentRoute(a: Route, b: Route)
    requires a in ROUTES && b in ROUTES && a.idempotent && b.idempotent
    ensures a == b
  {
    OnlyOrders(a);
    OnlyOrders(b);
  }

  lemma {:induction false} OnlyOrders(route: Route)
    requires route in ROUTES && route.idempotent
    ensures route == ROUTES[0]
  {
    var i :| 0 <= i < |ROUTES| && route == ROUTES[i];
  }

  lemma {:induction false} StubPathsArePlain()
    ensures Keys.PlainPattern(ORDERS) && Keys.PlainPattern(ORDER)
    ensures Keys.PlainPattern(INVENTORY) && Keys.PlainPattern(SHIPMENT)
  {}

  lemma {:induction false} KeyPathsArePlain()
    ensures Keys.PlainPattern(API_KEYS) && Keys.PlainPattern(API_KEY) && Keys.PlainPattern(API_KEY_ROTATION)
  {}

  /** Every route of the table is a plain pattern, and the one with idempotency records has no parameters. */
  lemma {:induction false} RoutesArePlain(route: Route)
    requires route in ROUTES
    ensures Keys.PlainPattern(route.path)
    ensures route.idempotent ==> route.path == ORDERS && Keys.FixedPattern(ORDERS)
  {
    StubPathsArePlain();
    KeyPathsArePlain();
    var i :| 0 <= i < |ROUTES| && route == ROUTES[i];
    if i <= 5 {
      assert route.path in {ORDERS, ORDER, INVENTORY, SHIPMENT};
    } else {
      assert route.path in {API_KEYS, API_KEY, API_KEY_ROTATION};
    }
  }

  /** The endpoints that need a credential. */
  predicate IsEndpoint(verb: Verb, path: string) {
    match verb
    case POST => path in {"/v1/orders", "/v1/api-keys", "/v1/api-keys/:id/rotate"}
    case GET => path in {"/v1/orders/:id", "/v1/inventory", "/v1/shipments/:id", "/v1/api-keys"}
    case PUT => path in {"/v1/orders/:id", "/v1/inventory"}
    case DELETE => path == "/v1/api-keys/:id"
  }

  ghost predicate Routed(verb: Verb, path: string) {
    exists i :: 0 <= i < |ROUTES| && ROUTES[i].verb == verb && ROUTES[i].path == path
  }

  lemma {:induction false} RouteIsEndpoint(i: nat)
    requires i < |ROUTES|
    ensures IsEndpoint(ROUTES[i].verb, ROUTES[i].path)
    ensures ROUTES[i].idempotent <==> i == 0
    ensures ROUTES[i].stub <==> ROUTES[i].path !in {"/v1/api-keys", "/v1/api-keys/:id", "/v1/api-keys/:id/rotate"}
  {}

  lemma {:induction false} EndpointIsRouted(verb: Verb, path: string)
    requires IsEndpoint(verb, path)
    ensures Routed(verb, path)
  {
    match verb {
      case POST => assert ROUTES[0].verb == ROUTES[6].verb == ROUTES[8].verb == POST;
      case GET => assert ROUTES[1].verb == ROUTES[3].verb == ROUTES[5].verb == ROUTES[7].verb == GET;
      case PUT => assert ROUTES[2].verb == ROUTES[4].verb == PUT;
      case DELETE => assert ROUTES[9].verb == DELETE;
    }
  }

  /**
   The table routes exactly the endpoints, deduplicates the one that creates orders, and has stubs
   behind all but the key routes.
   */
  lemma {:induction false} EndpointsAreRouted(verb: Verb, path: string)
    ensures Routed(verb, path) <==> IsEndpoint(verb, path)
    ensures forall i :: 0 <= i < |ROUTES| && ROUTES[i].idempotent ==>
      ROUTES[i].verb.POST? && ROUTES[i].path == "/v1/orders"
    ensures forall i :: 0 <= i < |ROUTES| ==>
      (ROUTES[i].stub <==> ROUTES[i].path !in {"/v1/api-keys", "/v1/api-keys/:id", "/v1/api-keys/:id/rotate"})
  {
    forall i: nat | i < |ROUTES|
      ensures IsEndpoint(ROUTES[i].verb, ROUTES[i].path) && (ROUTES[i].idempotent <==> i == 0)
      ensures ROUTES[i].stub <==> ROUTES[i].path !in {"/v1/api-keys", "/v1/api-keys/:id", "/v1/api-keys/:id/rotate"}
    {
      RouteIsEndpoint(i);
    }
    if IsEndpoint(verb, path) { EndpointIsRouted(verb, path); }
  }
}
