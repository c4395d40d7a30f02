/**
 The rate limit of a tenant that another tenant crosses into (internal/gateway/router.go): a record
 of the other tenant takes the place of the limiter's sorted set. If records lapse too early, a
 run follows in which more handlers run than the limit allows.
 */
module PipelineDisplacement {
  import opened Common
  import opened Identities
  import opened Pipeline
  import opened PipelineLimits
  import opened PipelineSteps
  import opened PipelineStore
  import opened Routing
  import ApiKeys
  import DefaultRules
  import F = Failover
  import I = Idempotency
  import Jwt
  import Keys
  import L = SharedLimiter
  import P = Policy
  import PipelineSharing
  import R = RedisLimiter
  import SW = SlidingWindow
  import Y = LossyLimiter

  // ------------------------------------------------------------ one request from arrival to answer

  /** After some steps of request r alone: where it stands, its story, and the stores. */
  ghost predicate Becomes(
      s: State, s': State, r: nat, q: Request, ph: Phase, es: seq<Event>,
      limits: L.Stores, served: seq<L.Tagged>, store: I.State)
  {
    && Advances(s, s', r, q, ph, es) && s'.keys == s.keys
    && s'.limits == limits && s'.served == served && s'.store == store
  }

  /** The steps that were added evaluate the script in this call alone, and store nothing. */
  ghost predicate Extends(actions: seq<Action>, more: seq<Action>, call: F.Request) {
    && actions <= more
    && forall i :: |actions| <= i < |more| ==> !Stores(more[i]) && (Evaluates(more[i]) ==> more[i].call == call)
  }

  lemma {:induction false} TaggedConcat(r: nat, es: seq<Event>, es': seq<Event>)
    ensures Tagged(r, es) + Tagged(r, es') == Tagged(r, es + es')
  {
    TaggedAt(r, es);
    TaggedAt(r, es');
    TaggedAt(r, es + es');
  }

  function ServedAfter(s: State, a: Action): seq<L.Tagged>
    requires a.RateLimit? ==> InPhase(s, a.req) && s.phases[a.req].Known?
  {
    if a.RateLimit? then s.served + [Tag(s, a.req, a.call)] else s.served
  }

  function LimitsAfter(c: Config, s: State, a: Action): L.Stores
    requires a.RateLimit? ==>
      InPhase(s, a.req) && s.phases[a.req].Known? && a.call.instance < |s.limits.logs|
  {
    if a.RateLimit? then L.Serve(s.limits, Tag(s, a.req, a.call), c.limit, c.window).stores else s.limits
  }

  lemma {:induction false} ApplyBecomes(c: Config, s: State, a: Action)
    requires Enabled(c, s, a) && !a.ManageKeys? && !a.IdemSet?
    ensures Becomes(s, Apply(c, s, a), a.req, Requested(s, a), Next(c, s, a), Emits(c, s, a),
                    LimitsAfter(c, s, a), ServedAfter(s, a), StoreAfter(c, s, a))
  {
    ApplyAdvances(c, s, a);
  }

  lemma {:induction false} Chain(
      s: State, s1: State, s2: State, r: nat, q: Request, ph: Phase, ph': Phase, es: seq<Event>, es': seq<Event>,
      limits: L.Stores, served: seq<L.Tagged>, store: I.State,
      limits': L.Stores, served': seq<L.Tagged>, store': I.State)
    requires Becomes(s, s1, r, q, ph, es, limits, served, store)
    requires Becomes(s1, s2, r, q, ph', es', limits', served', store')
    ensures Becomes(s, s2, r, q, ph', es + es', limits', served', store')
  {
    TaggedConcat(r, es, es');
  }

  lemma {:induction false} Stands(
      s: State, s1: State, r: nat, q: Request, ph: Phase, es: seq<Event>,
      limits: L.Stores, served: seq<L.Tagged>, store: I.State)
    requires Becomes(s, s1, r, q, ph, es, limits, served, store)
    ensures InPhase(s1, r) && s1.phases[r] == ph && s1.requests[r] == q
  {}

  /** A run of the gateway, continued by steps of request r. */
  ghost predicate Goes(
      c: Config, actions: seq<Action>, more: seq<Action>, call: F.Request, r: nat, q: Request, ph: Phase,
      es: seq<Event>, limits: L.Stores, served: seq<L.Tagged>, store: I.State)
  {
    Extends(actions, more, call) && Becomes(Run(c, actions), Run(c, more), r, q, ph, es, limits, served, store)
  }

  /** One more step of it. */
  lemma {:induction false} GoesOn(
      c: Config, actions: seq<Action>, more: seq<Action>, call: F.Request, r: nat, q: Request, ph: Phase,
      es: seq<Event>, limits: L.Stores, served: seq<L.Tagged>, store: I.State, a: Action)
    requires Goes(c, actions, more, call, r, q, ph, es, limits, served, store)
    requires var s := Run(c, more);
      && Enabled(c, s, a) && a.req == r && !a.ManageKeys? && !a.IdemSet? && !a.Arrive?
      && (Evaluates(a) ==> a.call == call)
    ensures var s := Run(c, more);
      Goes(c, actions, more + [a], call, r, q, Next(c, s, a), es + Emits(c, s, a),
           LimitsAfter(c, s, a), ServedAfter(s, a), StoreAfter(c, s, a))
  {
    var s := Run(c, more);
    RunSnoc(c, more, a);
    ApplyBecomes(c, s, a);
    Stands(Run(c, actions), s, r, q, ph, es, limits, served, store);
    Chain(Run(c, actions), s, Run(c, more + [a]), r, q, ph, Next(c, s, a), es, Emits(c, s, a),
          limits, served, store, LimitsAfter(c, s, a), ServedAfter(s, a), StoreAfter(c, s, a));
  }

  lemma {:induction false} GoArrive(c: Config, actions: seq<Action>, call: F.Request, r: nat, q: Request)
    requires Enabled(c, Run(c, actions), Arrive(r, q))
    ensures var s := Run(c, actions);
      Goes(c, actions, actions + [Arrive(r, q)], call, r, q, Arrived, [], s.limits, s.served, s.store)
  {
    RunSnoc(c, actions, Arrive(r, q));
    ApplyBecomes(c, Run(c, actions), Arrive(r, q));
  }

  /** A caller with a token that is valid at time 0. */
  predicate Presents(c: Config, q: Request, id: Identity) {
    q.bearer.Some? && Jwt.Validate(c.issuer, q.bearer.value, 0) == Jwt.Ok(id) && q.route in c.routes
  }

  lemma {:induction false} GoAuthenticate(
      c: Config, actions: seq<Action>, more: seq<Action>, call: F.Request, r: nat, q: Request, id: Identity,
      limits: L.Stores, served: seq<L.Tagged>, store: I.State)
    requires Goes(c, actions, more, call, r, q, Arrived, [], limits, served, store) && Presents(c, q, id)
    ensures Goes(c, actions, more + [Authenticate(r, 0)], call, r, q, Known(id), [Authenticated(id, 0)],
                 limits, served, store)
  {
    GoesOn(c, actions, more, call, r, q, Arrived, [], limits, served, store, Authenticate(r, 0));
    assert [] + [Authenticated(id, 0)] == [Authenticated(id, 0)];
  }

  lemma {:induction false} GoLimit(
      c: Config, actions: seq<Action>, more: seq<Action>, call: F.Request, r: nat, q: Request, id: Identity,
      es: seq<Event>, limits: L.Stores, served: seq<L.Tagged>, store: I.State)
    requires Goes(c, actions, more, call, r, q, Known(id), es, limits, served, store)
    requires call.instance < |limits.logs|
    requires !call.reply.Unreachable? ==>
      !I.Live(store.cells, L.RedisKey(id.tenant, q.route.path), call.redis.server)
    requires L.Serve(limits, L.Tagged(id.tenant, q.route.path, call), c.limit, c.window).admitted
    ensures var x := L.Tagged(id.tenant, q.route.path, call);
      Goes(c, actions, more + [RateLimit(r, call)], call, r, q, AfterLimit(id, q.route, true),
           es + [Admitted(id.tenant, q.route.path, F.Stamp(call))],
           L.Serve(limits, x, c.limit, c.window).stores, served + [x], store)
  {
    Stands(Run(c, actions), Run(c, more), r, q, Known(id), es, limits, served, store);
    GoesOn(c, actions, more, call, r, q, Known(id), es, limits, served, store, RateLimit(r, call));
  }

  lemma {:induction false} GoGet(
      c: Config, actions: seq<Action>, more: seq<Action>, call: F.Request, r: nat, q: Request, id: Identity,
      up: bool, es: seq<Event>, limits: L.Stores, served: seq<L.Tagged>, store: I.State)
    requires Goes(c, actions, more, call, r, q, Passed(id), es, limits, served, store)
    requires q.idemKey != "" && store.clock == 0 && r !in store.phases
    requires up ==> StoreKey(id.tenant, q) !in store.cells && limits.keyspace == map[]
    ensures var key := StoreKey(id.tenant, q);
      Goes(c, actions, more + [IdemGet(r, 0, up)], call, r, q, Cleared(id, if up then Some(key) else None), es,
           limits, served, I.Apply(store, I.DoGet(r, key, 0, up), c.ttl))
  {
    Stands(Run(c, actions), Run(c, more), r, q, Passed(id), es, limits, served, store);
    GoesOn(c, actions, more, call, r, q, Passed(id), es, limits, served, store, IdemGet(r, 0, up));
    assert es + [] == es;
  }

  lemma {:induction false} GoDecide(
      c: Config, actions: seq<Action>, more: seq<Action>, call: F.Request, r: nat, q: Request, id: Identity,
      capture: Option<string>, d: P.Decision, es: seq<Event>, limits: L.Stores, served: seq<L.Tagged>, store: I.State)
    requires Goes(c, actions, more, call, r, q, Cleared(id, capture), es, limits, served, store)
    requires d.allow && P.MayReturn(c.rules, c.timeout, InputOf(id, q), d)
    ensures Goes(c, actions, more + [Decide(r, d, "")], call, r, q, Authorized(id, capture),
                 es + [Audited(InputOf(id, q), d, q.id)], limits, served, store)
  {
    Stands(Run(c, actions), Run(c, more), r, q, Cleared(id, capture), es, limits, served, store);
    GoesOn(c, actions, more, call, r, q, Cleared(id, capture), es, limits, served, store, Decide(r, d, ""));
  }

  function Answered(q: Request): I.Response {
    Answer(q.route, 200, "", "")
  }

  lemma {:induction false} GoHandle(
      c: Config, actions: seq<Action>, more: seq<Action>, call: F.Request, r: nat, q: Request, id: Identity,
      capture: Option<string>, es: seq<Event>, limits: L.Stores, served: seq<L.Tagged>, store: I.State)
      returns (e: Event)
    requires Goes(c, actions, more, call, r, q, Authorized(id, capture), es, limits, served, store)
    requires r !in Run(c, actions).keys.rotations
    ensures RunsHandler(e)
    ensures Goes(c, actions, more + [Handle(r, 200, "", "")], call, r, q, Finish(capture, Answered(q)), es + [e],
                 limits, served, I.Apply(store, I.DoRun(r, Answered(q)), c.ttl))
  {
    Stands(Run(c, actions), Run(c, more), r, q, Authorized(id, capture), es, limits, served, store);
    GoesOn(c, actions, more, call, r, q, Authorized(id, capture), es, limits, served, store, Handle(r, 200, "", ""));
    e := HandleEvent(capture, q.route, Run(c, more).calls + 1, Answered(q));
  }

  /** The story of a request whose handler ran. */
  predicate Ran(es: seq<Event>, tenant: string, path: string, stamp: int) {
    |es| == 4 && es[1] == Admitted(tenant, path, stamp) && RunsHandler(es[3])
  }

  /** The key a request stores its answer under, if the store answers. */
  function CaptureFor(id: Identity, q: Request, up: bool): Option<string> {
    if q.route.idempotent && up then Some(StoreKey(id.tenant, q)) else None
  }

  /** The idempotency store behind the request. */
  function StoreBehind(c: Config, store: I.State, r: nat, id: Identity, q: Request, up: bool): I.State {
    var got := if q.route.idempotent then I.Apply(store, I.DoGet(r, StoreKey(id.tenant, q), 0, up), c.ttl) else store;
    I.Apply(got, I.DoRun(r, Answered(q)), c.ttl)
  }

  /** What the request needs to get through: a valid token, an admission, and an allow decision. */
  ghost predicate Welcome(
      c: Config, s: State, r: nat, q: Request, id: Identity, call: F.Request, up: bool, d: P.Decision)
  {
    var x := L.Tagged(id.tenant, q.route.path, call);
    && r !in s.phases && r !in s.store.phases && r !in s.keys.rotations && Presents(c, q, id)
    && call.instance < |s.limits.logs| && L.Serve(s.limits, x, c.limit, c.window).admitted
    && (!call.reply.Unreachable? ==>
          !I.Live(s.store.cells, L.RedisKey(id.tenant, q.route.path), call.redis.server))
    && q.idemKey != "" && s.store.clock == 0
    && (up ==> StoreKey(id.tenant, q) !in s.store.cells
               && L.Serve(s.limits, x, c.limit, c.window).stores.keyspace == map[])
    && d.allow && P.MayReturn(c.rules, c.timeout, InputOf(id, q), d)
  }

  /** A welcome request runs its handler. */
  lemma {:induction false} RequestRuns(
      c: Config, actions: seq<Action>, r: nat, q: Request, id: Identity, call: F.Request, up: bool, d: P.Decision)
      returns (more: seq<Action>, es: seq<Event>)
    requires Welcome(c, Run(c, actions), r, q, id, call, up, d)
    ensures Ran(es, id.tenant, q.route.path, F.Stamp(call))
    ensures var s, x := Run(c, actions), L.Tagged(id.tenant, q.route.path, call);
      Goes(c, actions, more, call, r, q, Finish(CaptureFor(id, q, up), Answered(q)), es,
           L.Serve(s.limits, x, c.limit, c.window).stores, s.served + [x], StoreBehind(c, s.store, r, id, q, up))
  {
    var s, x := Run(c, actions), L.Tagged(id.tenant, q.route.path, call);
    var stores := L.Serve(s.limits, x, c.limit, c.window).stores;
    GoArrive(c, actions, call, r, q);
    more := actions + [Arrive(r, q)];
    GoAuthenticate(c, actions, more, call, r, q, id, s.limits, s.served, s.store);
    more := more + [Authenticate(r, 0)];
    GoLimit(c, actions, more, call, r, q, id, [Authenticated(id, 0)], s.limits, s.served, s.store);
    more := more + [RateLimit(r, call)];
    es := [Authenticated(id, 0)] + [Admitted(id.tenant, q.route.path, F.Stamp(call))];
    var store := s.store;
    if q.route.idempotent {
      GoGet(c, actions, more, call, r, q, id, up, es, stores, s.served + [x], s.store);
      more := more + [IdemGet(r, 0, up)];
      store := I.Apply(s.store, I.DoGet(r, StoreKey(id.tenant, q), 0, up), c.ttl);
    }
    var capture := CaptureFor(id, q, up);
    GoDecide(c, actions, more, call, r, q, id, capture, d, es, stores, s.served + [x], store);
    more := more + [Decide(r, d, "")];
    var more' := more + [Handle(r, 200, "", "")];
    var e := GoHandle(
      c, actions, more, call, r, q, id, capture, es + [Audited(InputOf(id, q), d, q.id)],
      stores, s.served + [x], store);
    more, es := more', es + [Audited(InputOf(id, q), d, q.id)] + [e];
  }

  // ------------------------------------------------------------ the callers

  /** A request on a route by a caller with a token issued at time 0. */
  function Visit(c: Config, id: Identity, route: Route, key: string): Request
    requires Jwt.Issuable(id)
  {
    Request(Some(Jwt.Issue(c.issuer, id, 0).value.access), "", route, key, "",
            P.Resource(route.kind, "", "", "", "", 0.0), "")
  }

  /** The gateway with its own routes and rules, at least one instance, and tokens that last. */
  ghost predicate Serves(c: Config) {
    && c.routes == ROUTES && c.rules == DefaultRules.RULES
    && c.instances >= 1 && c.limit >= 1 && c.issuer.accessTTL >= Jwt.SECOND
  }

  /** An admin of any tenant may visit any route. */
  lemma {:induction false} AdminMayVisit(c: Config, tenant: string, route: Route, key: string) returns (d: P.Decision)
    requires Serves(c) && tenant != "" && route in ROUTES
    ensures var id := PipelineSharing.AdminOf(tenant);
      var q := Visit(c, id, route, key);
      Presents(c, q, id) && d.allow && P.MayReturn(c.rules, c.timeout, InputOf(id, q), d)
  {
    var id := PipelineSharing.AdminOf(tenant);
    Jwt.IssueRoundTrip(c.issuer, id, 0, 0);
    var input := InputOf(id, Visit(c, id, route, key));
    d := P.SomeDecision(c.rules, c.timeout, input);
    P.AllowsExactlyWhen(c.rules, input, d);
    DefaultRules.AnyAllow(input);
    DefaultRules.AnyDeny(input);
  }

  // ------------------------------------------------------------ a burst that Redis answers

  /** The k-th call, made at time t by every clock. */
  function Shot(t: int, k: nat): F.Request {
    F.Request(0, R.Call(t, t, R.Unary(k)), F.Answered, t)
  }

  function Volley(k: nat): (qs: seq<F.Request>)
    ensures |qs| == k && forall i :: 0 <= i < k ==> qs[i] == Shot(0, i)
  {
    seq(k, i requires 0 <= i < k => Shot(0, i))
  }

  lemma {:induction false} VolleySnoc(k: nat)
    ensures Volley(k + 1) == Volley(k) + [Shot(0, k)]
  {}

  ghost predicate AllAnswered(qs: seq<F.Request>) {
    forall i :: 0 <= i < |qs| ==> qs[i].reply.Answered?
  }

  lemma {:induction false} AnsweredCalls(qs: seq<F.Request>)
    requires AllAnswered(qs)
    ensures var calls := F.RedisCalls(qs);
      |calls| == |qs| && forall i :: 0 <= i < |qs| ==> calls[i] == qs[i].redis
  {
    if qs != [] { AnsweredCalls(qs[..|qs| - 1]); }
  }

  lemma {:induction false} NoFallback(qs: seq<F.Request>, i: nat)
    requires AllAnswered(qs)
    ensures F.FallbackClocks(qs, i) == []
  {
    if qs != [] { NoFallback(qs[..|qs| - 1], i); }
  }

  lemma {:induction false} VolleyCalls(k: nat)
    ensures var calls := F.RedisCalls(Volley(k));
      |calls| == k && R.SameInstant(calls, 0) && R.FreshMembers(calls) && R.Unused(calls, R.Unary(k))
  {
    AnsweredCalls(Volley(k));
    R.SomeNamesAreDistinct();
    var calls := F.RedisCalls(Volley(k));
    assert forall i :: 0 <= i < k ==> calls[i] == R.Call(0, 0, R.Unary(i));
  }

  /** Up to the limit every call of the burst is admitted. */
  lemma {:induction false} ShotAdmitted(k: nat, n: nat, limit: int, window: int)
    requires k < limit && window >= 1 && n >= 1
    ensures F.Addressed(Volley(k), n)
    ensures F.Serve(F.Run(Volley(k), n, limit, window), Shot(0, k), limit, window).admitted
  {
    var calls := F.RedisCalls(Volley(k));
    VolleyCalls(k);
    R.RunBurst(calls, 0, limit, window, true);
    R.MembersWereCalled(calls, limit, window, true, R.Unary(k));
    R.ExtendBurst(R.Run(calls, limit, window, true), Shot(0, k).redis, 0, limit, window, true);
    F.RedisProjects(Volley(k), n, limit, window);
  }

  // ------------------------------------------------------------ the state before the record is stored

  /** Requests 0 to k have come; the first, of another tenant, is about to store its answer under the key. */
  ghost predicate Loaded(s: State, key: string, k: nat) {
    && (forall r: nat :: r in s.phases <==> r <= k) && (forall r: nat :: r in s.store.phases ==> r <= k)
    && 0 in s.requests && s.phases[0].Storing? && s.phases[0].key == key
    && 0 in s.store.phases && s.store.phases[0] == I.Storing(key, s.phases[0].response)
    && s.store.cells == map[] && s.store.clock == 0 && s.keys == ApiKeys.EMPTY
  }

  /** The tenant's burst of k calls is all that its limiters have seen. */
  ghost predicate Counted(c: Config, s: State, own: F.System, qs: seq<F.Request>, tenant: string, path: string) {
    L.Own(s.served, tenant, path) == qs && L.Mirrors(s.limits, own, tenant, path) && |own.memory| == c.instances
  }

  /** Requests 1 to k of the tenant ran their handlers, and later ones have no story. */
  ghost predicate AllRan(s: State, k: nat, tenant: string, path: string, hi: int) {
    && (forall r :: 1 <= r <= k ==> RanWithin(s.trace, r, tenant, path, -1, hi))
    && (forall r :: r > k ==> Project(s.trace, r) == [])
  }

  ghost predicate Primed(c: Config, s: State, k: nat, tenant: string, path: string) {
    && F.Addressed(Volley(k), c.instances) && Loaded(s, L.RedisKey(tenant, path), k)
    && Counted(c, s, F.Run(Volley(k), c.instances, c.limit, c.window), Volley(k), tenant, path)
    && AllRan(s, k, tenant, path, c.ttl + 1)
  }

  /** One more story. */
  lemma {:induction false} OneMoreRan(
      s: State, s': State, k: nat, q: Request, ph: Phase, es: seq<Event>,
      tenant: string, path: string, stamp: int, hi: int)
    requires AllRan(s, k, tenant, path, hi) && Advances(s, s', k + 1, q, ph, es)
    requires Ran(es, tenant, path, stamp) && -1 < stamp <= hi
    ensures AllRan(s', k + 1, tenant, path, hi)
  {
    forall r | 1 <= r <= k + 1 ensures RanWithin(s'.trace, r, tenant, path, -1, hi) {
      ProjectTagged(s.trace, k + 1, es, r);
      if r <= k {
        assert RanWithin(s.trace, r, tenant, path, -1, hi);
      } else {
        assert Project(s.trace, r) == [] && [] + es == es;
      }
    }
    forall r | r > k + 1 ensures Project(s'.trace, r) == [] {
      ProjectTagged(s.trace, k + 1, es, r);
    }
  }

  /** One more request of the tenant over the stores. */
  lemma {:induction false} OneMoreCounted(
      c: Config, s: State, s': State, own: F.System, qs: seq<F.Request>, call: F.Request, tenant: string, path: string)
    requires Counted(c, s, own, qs, tenant, path) && call.instance < c.instances
    requires var x := L.Tagged(tenant, path, call);
      s'.served == s.served + [x] && s'.limits == L.Serve(s.limits, x, c.limit, c.window).stores
    ensures Counted(c, s', F.Serve(own, call, c.limit, c.window).system, qs + [call], tenant, path)
  {
    L.OwnSnoc(s.served, L.Tagged(tenant, path, call), tenant, path);
    L.ServeOwn(s.limits, own, L.Tagged(tenant, path, call), c.limit, c.window);
  }

  /** One more request without a record. */
  lemma {:induction false} OneMoreLoaded(
      c: Config, s: State, s': State, k: nat, q: Request, id: Identity, es: seq<Event>, key: string,
      limits: L.Stores, served: seq<L.Tagged>)
    requires Loaded(s, key, k)
    requires Becomes(s, s', k + 1, q, Closed, es, limits, served, StoreBehind(c, s.store, k + 1, id, q, false))
    ensures Loaded(s', key, k + 1)
  {}

  lemma {:induction false} PrimedIsWelcome(
      c: Config, s: State, k: nat, tenant: string, route: Route, d: P.Decision)
    requires Serves(c) && tenant != "" && route in ROUTES && c.window >= 1 && k < c.limit
    requires Primed(c, s, k, tenant, route.path)
    requires var id := PipelineSharing.AdminOf(tenant);
      var q := Visit(c, id, route, "k");
      Presents(c, q, id) && d.allow && P.MayReturn(c.rules, c.timeout, InputOf(id, q), d)
    ensures var id := PipelineSharing.AdminOf(tenant);
      Welcome(c, s, k + 1, Visit(c, id, route, "k"), id, Shot(0, k), false, d)
  {
    ShotAdmitted(k, c.instances, c.limit, c.window);
    L.ServeOwn(s.limits, F.Run(Volley(k), c.instances, c.limit, c.window),
               L.Tagged(tenant, route.path, Shot(0, k)), c.limit, c.window);
  }

  /** One more request of the burst. */
  lemma {:induction false} OneMoreShot(c: Config, actions: seq<Action>, k: nat, tenant: string, route: Route)
      returns (more: seq<Action>)
    requires Serves(c) && tenant != "" && route in ROUTES && c.window >= 1 && k < c.limit
    requires Primed(c, Run(c, actions), k, tenant, route.path)
    ensures Primed(c, Run(c, more), k + 1, tenant, route.path) && Extends(actions, more, Shot(0, k))
  {
    var id, path := PipelineSharing.AdminOf(tenant), route.path;
    var q, s := Visit(c, id, route, "k"), Run(c, actions);
    var d := AdminMayVisit(c, tenant, route, "k");
    PrimedIsWelcome(c, s, k, tenant, route, d);
    var es;
    more, es := RequestRuns(c, actions, k + 1, q, id, Shot(0, k), false, d);
    var s', own := Run(c, more), F.Run(Volley(k), c.instances, c.limit, c.window);
    var x := L.Tagged(tenant, path, Shot(0, k));
    OneMoreRan(s, s', k, q, Closed, es, tenant, path, 0, c.ttl + 1);
    OneMoreCounted(c, s, s', own, Volley(k), Shot(0, k), tenant, path);
    OneMoreLoaded(c, s, s', k, q, id, es, L.RedisKey(tenant, path),
                  L.Serve(s.limits, x, c.limit, c.window).stores, s.served + [x]);
    VolleySnoc(k);
    F.RunSnoc(Volley(k), Shot(0, k), c.instances, c.limit, c.window);
  }

  // ------------------------------------------------------------ the run

  /** No step stores anything, and the script runs at time 0. */
  ghost predicate AtRest(actions: seq<Action>) {
    forall i :: 0 <= i < |actions| ==>
      !Stores(actions[i]) && (Evaluates(actions[i]) ==> actions[i].call.redis.server == 0)
  }

  lemma {:induction false} StaysAtRest(actions: seq<Action>, more: seq<Action>, k: nat)
    requires AtRest(actions) && Extends(actions, more, Shot(0, k))
    ensures AtRest(more)
  {}

  /** The burst uses up the limit. */
  lemma {:induction false} BurstComes(c: Config, actions: seq<Action>, k: nat, tenant: string, route: Route)
      returns (more: seq<Action>)
    requires Serves(c) && tenant != "" && route in ROUTES && c.window >= 1 && k <= c.limit
    requires Primed(c, Run(c, actions), 0, tenant, route.path) && AtRest(actions)
    ensures Primed(c, Run(c, more), k, tenant, route.path) && AtRest(more)
  {
    more := actions;
    if k > 0 {
      var fewer := BurstComes(c, actions, k - 1, tenant, route);
      more := OneMoreShot(c, fewer, k - 1, tenant, route);
      StaysAtRest(fewer, more, k - 1);
    }
  }

  /** The request of the tenant that crosses: its Get comes before there is a set under the key. */
  lemma {:induction false} CrossingComes(c: Config, other: string, tenant: string, route: Route)
      returns (actions: seq<Action>)
    requires Serves(c) && route in ROUTES && other != "" && Keys.Crosses(other, tenant, ORDERS)
    ensures Primed(c, Run(c, actions), 0, tenant, route.path) && AtRest(actions)
  {
    var id := PipelineSharing.AdminOf(other);
    var suffix := Keys.RateSuffix(route.path);
    var k := Keys.CrossingKey(other, tenant, suffix, ORDERS);
    var q := Visit(c, id, ROUTES[0], k);
    var d := AdminMayVisit(c, other, ROUTES[0], k);
    var call, s := PipelineSharing.FallBackAt(0), Initial(c);
    PipelineSharing.QuietAdmits(c, s.limits, other, ORDERS, -c.window);
    var es;
    actions, es := RequestRuns(c, [], 0, q, id, call, true, d);
    var x := L.Tagged(other, ORDERS, call);
    CrossingLoads(c, Run(c, actions), q, id, es, L.RedisKey(tenant, route.path),
                  L.Serve(s.limits, x, c.limit, c.window).stores, [x]);
    CrossingIsUncounted(c, Run(c, actions), x, tenant, route);
    CrossingTellsNothing(c, Run(c, actions), q, es, tenant, route.path);
  }

  lemma {:induction false} CrossingLoads(
      c: Config, s: State, q: Request, id: Identity, es: seq<Event>, key: string,
      limits: L.Stores, served: seq<L.Tagged>)
    requires q.route.idempotent && q.route.stub && key == StoreKey(id.tenant, q)
    requires Becomes(Initial(c), s, 0, q, Finish(Some(key), Answered(q)), es, limits, served,
                     StoreBehind(c, BOOT, 0, id, q, true))
    ensures Loaded(s, key, 0)
  {}

  lemma {:induction false} CrossingIsUncounted(c: Config, s: State, x: L.Tagged, tenant: string, route: Route)
    requires route in ROUTES && x.tenant != tenant && x.path == ORDERS && x.request.instance < c.instances
    requires s.served == [x] && s.limits == L.Serve(L.Initial(c.instances), x, c.limit, c.window).stores
    ensures Counted(c, s, F.Run([], c.instances, c.limit, c.window), [], tenant, route.path)
  {
    RoutesArePlain(route);
    RoutesArePlain(ROUTES[0]);
    L.ServeMirrors(L.Initial(c.instances), F.Initial(c.instances), x, c.limit, c.window, tenant, route.path);
    L.OwnSnoc([], x, tenant, route.path);
    assert [] + [x] == [x];
  }

  lemma {:induction false} CrossingTellsNothing(
      c: Config, s: State, q: Request, es: seq<Event>, tenant: string, path: string)
    requires s.trace == [] + Tagged(0, es)
    ensures AllRan(s, 0, tenant, path, c.ttl + 1)
  {
    forall r | r > 0 ensures Project(s.trace, r) == [] {
      ProjectTagged([], 0, es, r);
    }
  }

  /** A record has taken the place of the set, and will have lapsed when the next call comes. */
  ghost predicate Displacing(c: Config, s: State, k: nat, tenant: string, path: string) {
    && (forall r: nat :: r in s.phases <==> r <= k) && (forall r: nat :: r in s.store.phases ==> r <= k)
    && !I.Live(s.store.cells, L.RedisKey(tenant, path), c.ttl + 1) && s.store.clock == 0
    && s.keys == ApiKeys.EMPTY && F.Addressed(Volley(k), c.instances)
    && Counted(c, s, Y.Blank(F.Run(Volley(k), c.instances, c.limit, c.window)), Volley(k), tenant, path)
    && AllRan(s, k, tenant, path, c.ttl + 1)
  }

  lemma {:induction false} SetDisplaces(c: Config, s: State, k: nat, tenant: string, path: string)
    requires Primed(c, s, k, tenant, path) && c.ttl > 0
    ensures Displacing(c, Apply(c, s, IdemSet(0, 0, true)), k, tenant, path)
  {
    var a, system := IdemSet(0, 0, true), F.Run(Volley(k), c.instances, c.limit, c.window);
    assert Linked(s, 0);
    IdemSetEffect(c, s, 0, 0, true);
    ApplyAdvances(c, s, a);
    OtherStores(c, s);
    L.OverwriteOwn(s.limits, system, tenant, path);
    assert Tagged(0, []) == [] && s.trace + [] == s.trace;
  }

  lemma {:induction false} OtherStores(c: Config, s: State)
    requires Enabled(c, s, IdemSet(0, 0, true))
    ensures var s' := Apply(c, s, IdemSet(0, 0, true));
      && s'.keys == s.keys && s'.store.clock == 0
      && forall r: nat :: r in s'.store.phases <==> r in s.store.phases
  {}

  lemma {:induction false} DisplacingIsWelcome(c: Config, s: State, k: nat, tenant: string, route: Route, d: P.Decision)
    requires Serves(c) && tenant != "" && route in ROUTES && Displacing(c, s, k, tenant, route.path)
    requires var id := PipelineSharing.AdminOf(tenant);
      var q := Visit(c, id, route, "k");
      Presents(c, q, id) && d.allow && P.MayReturn(c.rules, c.timeout, InputOf(id, q), d)
    ensures var id := PipelineSharing.AdminOf(tenant);
      Welcome(c, s, k + 1, Visit(c, id, route, "k"), id, Shot(c.ttl + 1, k), false, d)
  {
    L.ServeOwn(s.limits, Y.Blank(F.Run(Volley(k), c.instances, c.limit, c.window)),
               L.Tagged(tenant, route.path, Shot(c.ttl + 1, k)), c.limit, c.window);
  }

  /** All k + 1 requests of the tenant ran: those of the burst, and one after the record has lapsed. */
  ghost predicate Overrun(c: Config, s: State, k: nat, tenant: string, path: string) {
    AllRan(s, k + 1, tenant, path, c.ttl + 1) && L.Own(s.served, tenant, path) == Volley(k) + [Shot(c.ttl + 1, k)]
  }

  lemma {:induction false} LastComes(c: Config, actions: seq<Action>, k: nat, tenant: string, route: Route)
      returns (more: seq<Action>)
    requires Serves(c) && tenant != "" && route in ROUTES && Displacing(c, Run(c, actions), k, tenant, route.path)
    ensures Overrun(c, Run(c, more), k, tenant, route.path) && Extends(actions, more, Shot(c.ttl + 1, k))
  {
    var id, path, call := PipelineSharing.AdminOf(tenant), route.path, Shot(c.ttl + 1, k);
    var q, s := Visit(c, id, route, "k"), Run(c, actions);
    var d := AdminMayVisit(c, tenant, route, "k");
    DisplacingIsWelcome(c, s, k, tenant, route, d);
    var es;
    more, es := RequestRuns(c, actions, k + 1, q, id, call, false, d);
    OneMoreRan(s, Run(c, more), k, q, Closed, es, tenant, path, c.ttl + 1, c.ttl + 1);
    OneMoreCounted(c, s, Run(c, more), Y.Blank(F.Run(Volley(k), c.instances, c.limit, c.window)), Volley(k), call,
                   tenant, path);
  }

  lemma {:induction false} ClocksAgree(actions: seq<Action>, more: seq<Action>, call: F.Request)
    requires AtRest(actions) && Extends(actions + [IdemSet(0, 0, true)], more, call)
    ensures OneClock(more)
  {
    var stored := actions + [IdemSet(0, 0, true)];
    assert forall i :: 0 <= i < |stored| ==> more[i] == stored[i];
  }

  /** The burst, the record, and one call more. */
  lemma {:induction false} LimitIsOverrun(c: Config, other: string, tenant: string, route: Route)
      returns (actions: seq<Action>)
    requires Serves(c) && route in ROUTES && other != "" && tenant != "" && Keys.Crosses(other, tenant, ORDERS)
    requires c.ttl > 0 && c.window >= 1
    ensures Overrun(c, Run(c, actions), c.limit, tenant, route.path) && OneClock(actions)
  {
    var crossed := CrossingComes(c, other, tenant, route);
    var burst := BurstComes(c, crossed, c.limit, tenant, route);
    RunSnoc(c, burst, IdemSet(0, 0, true));
    SetDisplaces(c, Run(c, burst), c.limit, tenant, route.path);
    actions := LastComes(c, burst + [IdemSet(0, 0, true)], c.limit, tenant, route);
    ClocksAgree(burst, actions, Shot(c.ttl + 1, c.limit));
  }

  // ------------------------------------------------------------ what it breaks

  lemma {:induction false} ShotsAreClocked(qs: seq<F.Request>, k: nat, t: nat, n: nat)
    requires qs == Volley(k) + [Shot(t, k)]
    ensures AllAnswered(qs) && F.FreshMembers(qs) && F.Clocked(qs, n, 0, 0)
  {
    R.SomeNamesAreDistinct();
    assert forall i :: 0 <= i < |qs| ==> qs[i] == Shot(if i < k then 0 else t, i);
    AnsweredCalls(qs);
    forall i | 0 <= i < n ensures SW.OutOfOrderBy(F.FallbackClocks(qs, i), 0) {
      NoFallback(qs, i);
    }
  }

  lemma {:induction false} NobodyFellBack(qs: seq<F.Request>, n: nat, lo: int, hi: int)
    requires AllAnswered(qs)
    ensures F.FallenBack(qs, n, lo, hi) == 0
  {
    if n > 0 { NobodyFellBack(qs, n - 1, lo, hi); }
  }

  function UpTo(n: nat): (ran: set<nat>)
    ensures |ran| == n && forall r :: r in ran <==> 1 <= r <= n
  {
    if n == 0 then {} else UpTo(n - 1) + {n}
  }

  /** The limit of the tenant's route holds in this run, window and set of requests. */
  ghost predicate Within(
      c: Config, actions: seq<Action>, tenant: string, path: string, e: nat, d: nat, x: int, hi: int, ran: set<nat>)
  {
    var s := Run(c, actions);
    OneClock(actions) && Disciplined(c, s, tenant, path, e, d) && hi <= x + c.window - Max(2 * e, d)
      && (forall r :: r in ran ==> RanWithin(s.trace, r, tenant, path, x, hi))
    ==> |ran| <= F.Shares(L.Own(s.served, tenant, path), c.instances, x, hi) * Max(c.limit, 0)
  }

  /** The limit holds in all runs: as many handlers run in a window as there are shares of the limit. */
  ghost predicate LimitHolds(c: Config, tenant: string, path: string) {
    forall actions, e: nat, d: nat, x, hi, ran :: Within(c, actions, tenant, path, e, d, x, hi, ran)
  }

  lemma {:induction false} OverrunExceeds(c: Config, actions: seq<Action>, tenant: string, path: string)
    requires c.limit >= 1 && c.ttl + 2 <= c.window
    requires Overrun(c, Run(c, actions), c.limit, tenant, path) && OneClock(actions)
    ensures !Within(c, actions, tenant, path, 0, 0, -1, c.ttl + 1, UpTo(c.limit + 1))
  {
    var s := Run(c, actions);
    var own := L.Own(s.served, tenant, path);
    ShotsAreClocked(own, c.limit, c.ttl + 1, c.instances);
    NobodyFellBack(own, c.instances, -1, c.ttl + 1);
  }

  /**
   Exactly when the limit of a tenant's route survives another tenant that crosses into it: when
   records do not lapse, or not before a window has passed.
   */
  lemma {:induction false} LimitSurvivesExactlyWhen(c: Config, other: string, tenant: string, route: Route)
    requires Serves(c) && route in ROUTES && other != "" && tenant != "" && Keys.Crosses(other, tenant, ORDERS)
    ensures LimitHolds(c, tenant, route.path) <==> c.ttl == 0 || c.window <= c.ttl + 1
  {
    if Outlasts(c) {
      forall actions, e: nat, d: nat, x, hi, ran ensures Within(c, actions, tenant, route.path, e, d, x, hi, ran) {
        if OneClock(actions) && Disciplined(c, Run(c, actions), tenant, route.path, e, d)
          && hi <= x + c.window - Max(2 * e, d)
          && forall r :: r in ran ==> RanWithin(Run(c, actions).trace, r, tenant, route.path, x, hi)
        {
          GatewayRunsAreLimited(c, actions, tenant, route, e, d, x, hi, ran);
        }
      }
    } else {
      var actions := LimitIsOverrun(c, other, tenant, route);
      OverrunExceeds(c, actions, tenant, route.path);
    }
  }
}
