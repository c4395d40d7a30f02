/**
 Which endpoints share a rate limit (internal/gateway/middleware/ratelimit.go, internal/gateway/router.go):
 the limiter's keys name the route pattern and not the method.
 */
module RouteLimits {
  import opened Routing
  import F = Failover
  import L = SharedLimiter
  import M = MemoryLimiter
  import R = RedisLimiter
  import SW = SlidingWindow

  /** A request of a tenant on an endpoint: a method and a pattern. */
  datatype Hit = Hit(tenant: string, route: Route, request: F.Request)

  function Tag(hit: Hit): L.Tagged {
    L.Tagged(hit.tenant, hit.route.path, hit.request)
  }

  /** What the limiter sees. */
  function Tags(hits: seq<Hit>): seq<L.Tagged> {
    if hits == [] then [] else Tags(hits[..|hits| - 1]) + [Tag(hits[|hits| - 1])]
  }

  /** The same traffic without one endpoint. */
  function Without(hits: seq<Hit>, route: Route): seq<Hit> {
    if hits == [] then [] else
      var init, last := Without(hits[..|hits| - 1], route), hits[|hits| - 1];
      if last.route == route then init else init + [last]
  }

  /** All requests are on routes of the gateway and reach one of its n instances. */
  ghost predicate Traffic(hits: seq<Hit>, n: nat) {
    forall i :: 0 <= i < |hits| ==> hits[i].route in ROUTES && hits[i].request.instance < n
  }

  lemma {:induction false} TrafficIsPlain(hits: seq<Hit>, n: nat)
    requires Traffic(hits, n)
    ensures L.Addressed(Tags(hits), n) && L.Plain(Tags(hits))
  {
    if hits != [] {
      TrafficIsPlain(hits[..|hits| - 1], n);
      RoutesArePlain(hits[|hits| - 1].route);
    }
  }

  lemma {:induction false} WithoutIsTraffic(hits: seq<Hit>, route: Route, n: nat)
    requires Traffic(hits, n)
    ensures Traffic(Without(hits, route), n)
  {
    if hits != [] { WithoutIsTraffic(hits[..|hits| - 1], route, n); }
  }

  /** The decision on one more request after this traffic. */
  ghost predicate Admits(hits: seq<Hit>, hit: Hit, n: nat, limit: int, window: int)
    requires L.Addressed(Tags(hits), n) && hit.request.instance < n
  {
    L.Serve(L.Run(Tags(hits), n, limit, window), Tag(hit), limit, window).admitted
  }

  /** No decision on h ever depends on the traffic on g. */
  ghost predicate Independent(g: Route, h: Route, n: nat, limit: int, window: int) {
    forall hits, hit: Hit :: Traffic(hits, n) && hit.route == h && hit.request.instance < n ==>
      SameDecision(hits, hit, g, n, limit, window)
  }

  ghost predicate SameDecision(hits: seq<Hit>, hit: Hit, g: Route, n: nat, limit: int, window: int) {
    && L.Addressed(Tags(hits), n) && L.Addressed(Tags(Without(hits, g)), n) && hit.request.instance < n
    && (Admits(hits, hit, n, limit, window) <==> Admits(Without(hits, g), hit, n, limit, window))
  }

  // ------------------------------------------------------------ different patterns

  lemma {:induction false} OwnWithout(hits: seq<Hit>, g: Route, tenant: string, path: string)
    requires g.path != path
    ensures L.Own(Tags(Without(hits, g)), tenant, path) == L.Own(Tags(hits), tenant, path)
  {
    if hits != [] {
      var init, last := hits[..|hits| - 1], hits[|hits| - 1];
      OwnWithout(init, g, tenant, path);
      L.OwnSnoc(Tags(init), Tag(last), tenant, path);
      if last.route != g {
        TagsSnoc(Without(init, g), last);
        L.OwnSnoc(Tags(Without(init, g)), Tag(last), tenant, path);
      }
    }
  }

  lemma {:induction false} TagsSnoc(hits: seq<Hit>, hit: Hit)
    ensures Tags(hits + [hit]) == Tags(hits) + [Tag(hit)]
  {
    assert (hits + [hit])[..|hits|] == hits;
  }

  lemma {:induction false} DifferentPatterns(
      hits: seq<Hit>, hit: Hit, g: Route, n: nat, limit: int, window: int)
    requires Traffic(hits, n) && hit.route in ROUTES && hit.request.instance < n && g.path != hit.route.path
    ensures SameDecision(hits, hit, g, n, limit, window)
  {
    TrafficIsPlain(hits, n);
    WithoutIsTraffic(hits, g, n);
    TrafficIsPlain(Without(hits, g), n);
    RoutesArePlain(hit.route);
    OwnWithout(hits, g, hit.tenant, hit.route.path);
    L.DecisionsAreOwn(Tags(hits), Tag(hit), n, limit, window);
    L.DecisionsAreOwn(Tags(Without(hits, g)), Tag(hit), n, limit, window);
  }

  // ------------------------------------------------------------ one pattern

  /** A request that an instance decides on its own at time 0. */
  function Lone(tenant: string, route: Route): Hit {
    Hit(tenant, route, F.Request(0, R.Call(0, 0, ""), F.Unreachable, 0))
  }

  /** k requests on one endpoint. */
  function Flood(tenant: string, route: Route, k: nat): seq<Hit> {
    if k == 0 then [] else Flood(tenant, route, k - 1) + [Lone(tenant, route)]
  }

  lemma {:induction false} FloodSnoc(tenant: string, route: Route, k: nat)
    ensures Flood(tenant, route, k + 1)[..|Flood(tenant, route, k + 1)| - 1] == Flood(tenant, route, k)
  {}

  lemma {:induction false} FloodIsTraffic(tenant: string, route: Route, k: nat, n: nat)
    requires route in ROUTES && n >= 1
    ensures Traffic(Flood(tenant, route, k), n) && Without(Flood(tenant, route, k), route) == []
  {
    if k > 0 {
      FloodIsTraffic(tenant, route, k - 1, n);
      FloodSnoc(tenant, route, k - 1);
    }
  }

  /** The first instance holds k stamps of time 0 for the pair. */
  ghost predicate Filled(s: L.Stores, tenant: string, path: string, k: nat) {
    |s.logs| > 0 && M.LogAt(s.logs[0], L.MemoryKey(tenant, path)) == SW.Repeat(0, k)
  }

  lemma {:induction false} OneMoreFills(s: L.Stores, tenant: string, route: Route, k: nat, limit: int, window: int)
    requires Filled(s, tenant, route.path, k) && k < limit && window >= 1
    ensures Filled(L.Serve(s, Tag(Lone(tenant, route)), limit, window).stores, tenant, route.path, k + 1)
  {
    SW.PruneNothing(SW.Repeat(0, k), 0 - window);
    assert SW.Repeat(0, k) + [0] == SW.Repeat(0, k + 1);
  }

  lemma {:induction false} NextFills(
      hits: seq<Hit>, tenant: string, route: Route, k: nat, n: nat, limit: int, window: int)
    requires L.Addressed(Tags(hits), n) && n >= 1 && k < limit && window >= 1
    requires Filled(L.Run(Tags(hits), n, limit, window), tenant, route.path, k)
    ensures L.Addressed(Tags(hits + [Lone(tenant, route)]), n)
    ensures Filled(L.Run(Tags(hits + [Lone(tenant, route)]), n, limit, window), tenant, route.path, k + 1)
  {
    TagsSnoc(hits, Lone(tenant, route));
    L.RunSnoc(Tags(hits), Tag(Lone(tenant, route)), n, limit, window);
    OneMoreFills(L.Run(Tags(hits), n, limit, window), tenant, route, k, limit, window);
  }

  lemma {:induction false} FloodFills(tenant: string, route: Route, k: nat, n: nat, limit: int, window: int)
    requires n >= 1 && k <= limit && window >= 1
    ensures L.Addressed(Tags(Flood(tenant, route, k)), n)
    ensures Filled(L.Run(Tags(Flood(tenant, route, k)), n, limit, window), tenant, route.path, k)
  {
    if k == 0 {
      assert SW.Repeat(0, 0) == [];
    } else {
      FloodFills(tenant, route, k - 1, n, limit, window);
      NextFills(Flood(tenant, route, k - 1), tenant, route, k - 1, n, limit, window);
    }
  }

  /** The limit used up on one endpoint throttles another with the same pattern. */
  lemma {:induction false} FloodThrottles(tenant: string, g: Route, h: Route, n: nat, limit: int, window: int)
    requires g in ROUTES && g.path == h.path && n >= 1 && limit >= 1 && window >= 1
    ensures var hits := Flood(tenant, g, limit);
      && Traffic(hits, n) && L.Addressed(Tags(hits), n) && Without(hits, g) == []
      && !Admits(hits, Lone(tenant, h), n, limit, window) && Admits([], Lone(tenant, h), n, limit, window)
  {
    FloodIsTraffic(tenant, g, limit, n);
    FloodFills(tenant, g, limit, n, limit, window);
    SW.PruneNothing(SW.Repeat(0, limit), 0 - window);
  }

  /**
   The comment on RateLimit says that limits are independent across endpoints. Exactly: two
   endpoints have independent limits if and only if their patterns differ, whatever the methods.
   */
  lemma {:induction false} EndpointsAreIndependentExactlyWhen(g: Route, h: Route, n: nat, limit: int, window: int)
    requires g in ROUTES && h in ROUTES && n >= 1 && limit >= 1 && window >= 1
    ensures Independent(g, h, n, limit, window) <==> g.path != h.path
  {
    if g.path == h.path {
      FloodThrottles("t", g, h, n, limit, window);
      assert !SameDecision(Flood("t", g, limit), Lone("t", h), g, n, limit, window);
    } else {
      forall hits, hit: Hit | Traffic(hits, n) && hit.route == h && hit.request.instance < n
        ensures SameDecision(hits, hit, g, n, limit, window)
      {
        DifferentPatterns(hits, hit, g, n, limit, window);
      }
    }
  }

  /** The endpoints of the gateway that share a limit: reading and writing one pattern. */
  lemma {:induction false} SharedLimits(i: nat, j: nat)
    requires i < j < |ROUTES|
    ensures ROUTES[i].path == ROUTES[j].path <==> (i, j) in {(1, 2), (3, 4), (6, 7)}
  {}
}
