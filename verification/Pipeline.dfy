/**
 The gateway (internal/gateway/router.go): authenticate, rate limit, idempotency, policy and
 audit, handler. Each middleware is one atomic step of a request, and the steps of different
 requests interleave freely over the shared limiter, response store, audit log and counter.
 */
module Pipeline {
  import opened Common
  import opened Identities
  import opened Routing
  import ApiKeys
  import DefaultRules
  import F = Failover
  import I = Idempotency
  import Jwt
  import Keys
  import L = SharedLimiter
  import P = Policy
  import R = RedisLimiter

  /**
   A request on a route: its credentials, its Idempotency-Key, the key id in its path, and what
   the extractor makes of it.
   */
  datatype Request = Request(
    bearer: Option<Jwt.Token>, apiKey: string, route: Route, idemKey: string, target: string,
    extracted: P.Resource, id: string)

  datatype Config = Config(
    issuer: Jwt.Issuer, hash: string -> string, keyStore: bool, instances: nat, limit: int, window: int, ttl: nat,
    rules: seq<P.Rule>, timeout: int, routes: seq<Route>)

  /** A bearer token takes precedence; an API key needs a configured store. */
  ghost function ResolveIdentity(c: Config, q: Request, keys: ApiKeys.Table, now: int): Option<Identity> {
    if q.bearer.Some? then
      var r := Jwt.Validate(c.issuer, q.bearer.value, now);
      if r.Ok? then Some(r.value) else None
    else if q.apiKey != "" && c.keyStore then
      var r := ApiKeys.Resolve(keys, c.hash(q.apiKey), now);
      if r.Ok? then Some(r.value) else None
    else None
  }

  datatype Event =
    | Rejected                                                              // 401
    | Authenticated(id: Identity, at: int)
    | Throttled                                                             // 429
    | Admitted(tenant: string, path: string, stamp: int)
    | KeyMissing                                                            // 400
    | Replayed(key: string, response: I.Response)
    | Audited(input: P.Input, decision: P.Decision, request: string)
    | Denied(capture: Option<string>, response: I.Response)                 // 403
    | Executed(call: nat, capture: Option<string>, response: I.Response)    // a stub handler ran
    | Handled(capture: Option<string>, response: I.Response)                // another handler ran

  datatype Phase =
    | Arrived
    | Known(id: Identity)
    | Passed(id: Identity)
    | Cleared(id: Identity, capture: Option<string>)
    | Authorized(id: Identity, capture: Option<string>)
    | Storing(key: string, response: I.Response)
    | Closed

  type Trace = seq<(nat, Event)>

  /** Which request inserted and which revoked a key, and which requests are done with the key store. */
  datatype Ledger = Ledger(inserted: map<string, nat>, revoked: map<string, nat>, done: set<nat>)

  /** The shared state of the gateway, the requests the limiter has served, and the trace. */
  datatype State = State(
    requests: map<nat, Request>, phases: map<nat, Phase>,
    limits: L.Stores, served: seq<L.Tagged>,
    store: I.State,
    keys: ApiKeys.State, ledger: Ledger,
    calls: nat, audit: seq<P.AuditRecord>, trace: Trace)

  /** Times count from the epoch. */
  const BOOT := I.State(map[], map[], 0, [])

  function Initial(c: Config): State {
    State(map[], map[], L.Initial(c.instances), [], BOOT, ApiKeys.EMPTY, Ledger(map[], map[], {}), 0, [], [])
  }

  datatype Action =
    | Arrive(req: nat, request: Request)
    | Authenticate(req: nat, now: int)
    | RateLimit(req: nat, call: F.Request)
    | IdemGet(req: nat, time: int, up: bool)
    | Decide(req: nat, decision: P.Decision, body: string)
    | ManageKeys(req: nat, op: ApiKeys.Action)
    | Handle(req: nat, status: int, body: string, contentType: string)
    | IdemSet(req: nat, time: int, up: bool)

  function StoreKey(tenant: string, q: Request): string {
    Keys.RedisKey(tenant, Keys.IdemSuffix(q.route.path, q.idemKey))
  }

  function InputOf(id: Identity, q: Request): P.Input {
    P.Input(id, q.route.action, P.Target(id, q.route.kind, q.extracted))
  }

  predicate InPhase(s: State, r: nat) {
    r in s.phases && r in s.requests
  }

  /** What the handlers of the key routes ask of the key store, always in the caller's tenant. */
  predicate MayManage(s: State, r: nat, op: ApiKeys.Action)
    requires InPhase(s, r) && s.phases[r].Authorized?
  {
    var tenant, q := s.phases[r].id.tenant, s.requests[r];
    && q.route.kind.ApiKey?
    && match op
       case Create(spec, _, _) => q.route.action.Create? && spec.tenant == tenant && r !in s.ledger.done
       case SelectForUpdate(tx, t, id) =>
         q.route.action.Update? && tx == r && t == tenant && id == q.target && r !in s.ledger.done
       case RevokeOld(tx, _) => q.route.action.Update? && tx == r
       case InsertNew(tx, _, _) => q.route.action.Update? && tx == r
       case Commit(tx) => q.route.action.Update? && tx == r
       case Rollback(tx) => q.route.action.Update? && tx == r
       case Revoke(t, id, _) => q.route.action.Delete? && t == tenant && id == q.target && r !in s.ledger.done
  }

  /** The limiter's key holds an idempotency record: the script fails on it, and Redis counts as unreachable. */
  predicate HoldsRecord(s: State, key: string, server: int) {
    I.Live(s.store.cells, key, server)
  }

  /** The record's key holds a sorted set of the limiter: a Get fails on it, and the store counts as down. */
  predicate HoldsSet(s: State, key: string, time: int) {
    var z := L.ZSetAt(s.limits, key);
    z.scores != map[] && !R.Expired(z, time)
  }

  /**
   Whether a step takes effect. Limiter and idempotency store share one Redis keyspace, and an
   operation on a key of the other's type fails. A request's Get is its first contact with the
   store, so that condition on IdemGet always holds.
   */
  ghost predicate Enabled(c: Config, s: State, a: Action) {
    match a
    case Arrive(r, q) => r !in s.phases && q.route in c.routes
    case Authenticate(r, _) => InPhase(s, r) && s.phases[r].Arrived?
    case RateLimit(r, call) =>
      && InPhase(s, r) && s.phases[r].Known? && call.instance < |s.limits.logs|
      && (!call.reply.Unreachable? ==>
            !HoldsRecord(s, L.RedisKey(s.phases[r].id.tenant, s.requests[r].route.path), call.redis.server))
    case IdemGet(r, time, up) =>
      && InPhase(s, r) && s.phases[r].Passed? && s.store.clock <= time && r !in s.store.phases
      && (up ==> !HoldsSet(s, StoreKey(s.phases[r].id.tenant, s.requests[r]), time))
    case Decide(r, d, _) =>
      && InPhase(s, r) && s.phases[r].Cleared?
      && P.MayReturn(c.rules, c.timeout, InputOf(s.phases[r].id, s.requests[r]), d)
    case ManageKeys(r, op) =>
      InPhase(s, r) && s.phases[r].Authorized? && MayManage(s, r, op) && ApiKeys.Enabled(s.keys, op)
    case Handle(r, _, _, _) => InPhase(s, r) && s.phases[r].Authorized? && r !in s.keys.rotations
    case IdemSet(r, time, up) => InPhase(s, r) && s.phases[r].Storing? && I.Enabled(s.store, I.DoSet(r, time, up))
  }

  function Emit(s: State, r: nat, e: Event, p: Phase): State {
    s.(trace := s.trace + [(r, e)], phases := s.phases[r := p])
  }

  function Finish(capture: Option<string>, response: I.Response): Phase {
    if capture.Some? && I.Cacheable(response.status) then Storing(capture.value, response) else Closed
  }

  ghost function AuthenticateStep(c: Config, s: State, r: nat, now: int): State
    requires InPhase(s, r)
  {
    var id := ResolveIdentity(c, s.requests[r], s.keys.table, now);
    if id.Some? then Emit(s, r, Authenticated(id.value, now), Known(id.value)) else Emit(s, r, Rejected, Closed)
  }

  function Tag(s: State, r: nat, call: F.Request): L.Tagged
    requires InPhase(s, r) && s.phases[r].Known?
  {
    L.Tagged(s.phases[r].id.tenant, s.requests[r].route.path, call)
  }

  /** The limiter has decided on the request's call. */
  function RateLimitStep(s: State, r: nat, call: F.Request, o: L.Outcome): State
    requires InPhase(s, r) && s.phases[r].Known?
  {
    var id, route := s.phases[r].id, s.requests[r].route;
    var s1 := s.(limits := o.stores, served := s.served + [Tag(s, r, call)]);
    if !o.admitted then Emit(s1, r, Throttled, Closed) else
      var next := if route.idempotent then Passed(id) else Cleared(id, None);
      Emit(s1, r, Admitted(id.tenant, route.path, F.Stamp(call)), next)
  }

  function IdemGetStep(s: State, r: nat, time: int, up: bool): State
    requires InPhase(s, r) && s.phases[r].Passed?
  {
    var id, q := s.phases[r].id, s.requests[r];
    if q.idemKey == "" then Emit(s, r, KeyMissing, Closed) else
      var key := StoreKey(id.tenant, q);
      match I.Get(s.store.cells, key, time, up)
      case Hit(response) => Emit(s, r, Replayed(key, response), Closed)
      case Unavailable => s.(phases := s.phases[r := Cleared(id, None)])
      case _ => s.(phases := s.phases[r := Cleared(id, Some(key))])
  }

  function Forbidden(body: string): I.Response {
    I.Response(403, body, "application/json; charset=utf-8")
  }

  /** Audit first; a denial answers 403, which the idempotency middleware captures like any response. */
  function DecideStep(s: State, r: nat, d: P.Decision, body: string): State
    requires InPhase(s, r) && s.phases[r].Cleared?
  {
    var p, q := s.phases[r], s.requests[r];
    var input := InputOf(p.id, q);
    var s1 := Emit(s, r, Audited(input, d, q.id), Authorized(p.id, p.capture))
      .(audit := s.audit + [P.AuditOf(input, d, q.id)]);
    if d.allow then s1 else Emit(s1, r, Denied(p.capture, Forbidden(body)), Finish(p.capture, Forbidden(body)))
  }

  function Answer(route: Route, status: int, body: string, contentType: string): I.Response {
    I.Response(if !route.stub then status else if route.verb.POST? then 201 else 200, body, contentType)
  }

  function HandleStep(s: State, r: nat, status: int, body: string, contentType: string): State
    requires InPhase(s, r) && s.phases[r].Authorized?
  {
    var p, route := s.phases[r], s.requests[r].route;
    var response := Answer(route, status, body, contentType);
    if route.stub then
      Emit(s, r, Executed(s.calls + 1, p.capture, response), Finish(p.capture, response)).(calls := s.calls + 1)
    else
      Emit(s, r, Handled(p.capture, response), Finish(p.capture, response))
  }

  /** Who did what to the keys, recorded as the operation commits. */
  function Enter(l: Ledger, keys: ApiKeys.State, r: nat, op: ApiKeys.Action): Ledger
    requires ApiKeys.Enabled(keys, op)
  {
    match op
    case Create(_, id, _) => l.(inserted := l.inserted[id := r], done := l.done + {r})
    case Commit(tx) =>
      var q := keys.rotations[tx];
      Ledger(l.inserted[q.stage.newId := r], l.revoked[q.id := r], l.done + {r})
    case Rollback(_) => l.(done := l.done + {r})
    case Revoke(_, id, _) => l.(revoked := l.revoked[id := r], done := l.done + {r})
    case _ => l
  }

  function ManageStep(c: Config, s: State, r: nat, op: ApiKeys.Action): State
    requires ApiKeys.Enabled(s.keys, op)
  {
    s.(keys := ApiKeys.Apply(s.keys, op, c.hash), ledger := Enter(s.ledger, s.keys, r, op))
  }

  /** A record that is stored takes the place of whatever its key held. */
  function IdemSetStep(s: State, r: nat, up: bool): State
    requires InPhase(s, r) && s.phases[r].Storing?
  {
    s.(phases := s.phases[r := Closed], limits := if up then L.Overwrite(s.limits, s.phases[r].key) else s.limits)
  }

  /** What a step asks of the idempotency store. */
  function StoreStep(s: State, a: Action): Option<I.Action> {
    match a
    case IdemGet(r, time, up) =>
      if InPhase(s, r) && s.phases[r].Passed? && s.requests[r].idemKey != ""
      then Some(I.DoGet(r, StoreKey(s.phases[r].id.tenant, s.requests[r]), time, up)) else None
    case Decide(r, d, body) => if d.allow then None else Some(I.DoRun(r, Forbidden(body)))
    case Handle(r, status, body, contentType) =>
      if r in s.requests then Some(I.DoRun(r, Answer(s.requests[r].route, status, body, contentType))) else None
    case IdemSet(r, time, up) => Some(I.DoSet(r, time, up))
    case _ => None
  }

  /** A request that did not go through the idempotency middleware has no phase there, and its steps change nothing. */
  function StoreAfter(c: Config, s: State, a: Action): I.State {
    var step := StoreStep(s, a);
    if step.Some? then I.Apply(s.store, step.value, c.ttl) else s.store
  }

  /** What a step does to everything but the idempotency store. */
  ghost function Step(c: Config, s: State, a: Action): State
    requires Enabled(c, s, a)
  {
    match a
    case Arrive(r, q) => s.(requests := s.requests[r := q], phases := s.phases[r := Arrived])
    case Authenticate(r, now) => AuthenticateStep(c, s, r, now)
    case RateLimit(r, call) => RateLimitStep(s, r, call, L.Serve(s.limits, Tag(s, r, call), c.limit, c.window))
    case IdemGet(r, time, up) => IdemGetStep(s, r, time, up)
    case Decide(r, d, body) => DecideStep(s, r, d, body)
    case ManageKeys(r, op) => ManageStep(c, s, r, op)
    case Handle(r, status, body, contentType) => HandleStep(s, r, status, body, contentType)
    case IdemSet(r, _, up) => IdemSetStep(s, r, up)
  }

  /** One atomic step; a step that is not enabled changes nothing. */
  ghost function Apply(c: Config, s: State, a: Action): State {
    if Enabled(c, s, a) then Step(c, s, a).(store := StoreAfter(c, s, a)) else s
  }

  ghost function Run(c: Config, actions: seq<Action>): State {
    if actions == [] then Initial(c) else Apply(c, Run(c, actions[..|actions| - 1]), actions[|actions| - 1])
  }

  lemma {:induction false} RunSnoc(c: Config, actions: seq<Action>, a: Action)
    ensures Run(c, actions + [a]) == Apply(c, Run(c, actions), a)
  {
    assert (actions + [a])[..|actions|] == actions;
  }

  lemma {:induction false} RunPrefix(c: Config, actions: seq<Action>, m: nat)
    requires 0 < m <= |actions|
    ensures Run(c, actions[..m]) == Apply(c, Run(c, actions[..m - 1]), actions[m - 1])
  {
    assert actions[..m][..m - 1] == actions[..m - 1];
  }

  /** Traces only grow. */
  lemma {:induction false} ApplyGrows(c: Config, s: State, a: Action)
    ensures s.trace <= Apply(c, s, a).trace
    ensures s.store.trace <= Apply(c, s, a).store.trace
  {
    if Enabled(c, s, a) {
      StepGrows(c, s, a);
      if StoreStep(s, a).Some? { I.ApplyGrows(s.store, StoreStep(s, a).value, c.ttl); }
    }
  }

  lemma {:induction false} StepGrows(c: Config, s: State, a: Action)
    requires Enabled(c, s, a)
    ensures s.trace <= Step(c, s, a).trace
  {}

  // ------------------------------------------------------------ the life of a request

  /** What happened to request r, in order. */
  function Project(tr: Trace, r: nat): seq<Event> {
    if tr == [] then [] else
      var init, e := Project(tr[..|tr| - 1], r), tr[|tr| - 1];
      if e.0 == r then init + [e.1] else init
  }

  lemma {:induction false} ProjectSnoc(tr: Trace, r: nat, e: Event, r': nat)
    ensures Project(tr + [(r, e)], r') == if r == r' then Project(tr, r') + [e] else Project(tr, r')
  {
    assert (tr + [(r, e)])[..|tr|] == tr;
  }

  /** The events of one request, as a trace. */
  function Tagged(r: nat, es: seq<Event>): Trace {
    if es == [] then [] else Tagged(r, es[..|es| - 1]) + [(r, es[|es| - 1])]
  }

  lemma {:induction false} TaggedAt(r: nat, es: seq<Event>)
    ensures |Tagged(r, es)| == |es| && forall i :: 0 <= i < |es| ==> Tagged(r, es)[i] == (r, es[i])
  {
    if es != [] { TaggedAt(r, es[..|es| - 1]); }
  }

  lemma {:induction false} Associates<T>(a: seq<T>, b: seq<T>, c: seq<T>)
    ensures a + (b + c) == a + b + c
  {}

  lemma {:induction false} ProjectTagged(tr: Trace, r: nat, es: seq<Event>, k: nat)
    ensures Project(tr + Tagged(r, es), k) == if k == r then Project(tr, k) + es else Project(tr, k)
  {
    if es == [] {
      assert tr + Tagged(r, es) == tr;
    } else {
      var init, e := es[..|es| - 1], es[|es| - 1];
      ProjectTagged(tr, r, init, k);
      ProjectSnoc(tr + Tagged(r, init), r, e, k);
      Associates(tr, Tagged(r, init), [(r, e)]);
      Associates(Project(tr, k), init, [e]);
      assert es == init + [e];
    }
  }

  /** The last event of a step that emitted something. */
  function LastEvent(s: State): Event
    requires s.trace != []
  {
    s.trace[|s.trace| - 1].1
  }

  predicate CaptureOk(capture: Option<string>, id: Identity, q: Request) {
    && (capture.Some? ==> q.route.idempotent && q.idemKey != "" && capture.value == StoreKey(id.tenant, q))
    && (q.route.idempotent ==> q.idemKey != "")
  }

  /** The authentication event names an identity with a valid role. */
  predicate Opens(es: seq<Event>, id: Identity) {
    |es| >= 1 && es[0].Authenticated? && es[0].id == id && ValidRole(id.role)
  }

  predicate Passes(es: seq<Event>, id: Identity, q: Request) {
    Opens(es, id) && |es| >= 2 && es[1].Admitted? && es[1].tenant == id.tenant && es[1].path == q.route.path
  }

  /** The decision is one the engine may return for this identity on this route. */
  ghost predicate Judged(c: Config, es: seq<Event>, id: Identity, q: Request) {
    && Passes(es, id, q) && |es| >= 3 && es[2].Audited?
    && es[2].input == InputOf(id, q) && es[2].request == q.id
    && P.MayReturn(c.rules, c.timeout, es[2].input, es[2].decision)
  }

  function CaptureOf(e: Event): Option<string> {
    match e
    case Denied(k, _) => k
    case Executed(_, k, _) => k
    case Handled(k, _) => k
    case _ => None
  }

  /** The complete stories a request can have. */
  ghost predicate Complete(c: Config, es: seq<Event>, q: Request) {
    || es == [Rejected]
    || (exists id :: Opens(es, id) && |es| == 2 && es[1].Throttled?)
    || (exists id :: Passes(es, id, q) && |es| == 3 && es[2].KeyMissing? && q.route.idempotent && q.idemKey == "")
    || (exists id :: Passes(es, id, q) && |es| == 3 && es[2].Replayed? && q.route.idempotent
          && es[2].key == StoreKey(id.tenant, q))
    || (exists id :: Judged(c, es, id, q) && |es| == 4 && CaptureOk(CaptureOf(es[3]), id, q)
          && Concludes(es, q))
  }

  /** The events of a request agree with the phase it is in. */
  ghost predicate Matches(c: Config, p: Phase, es: seq<Event>, q: Request) {
    match p
    case Arrived => es == []
    case Known(id) => |es| == 1 && Opens(es, id)
    case Passed(id) => |es| == 2 && Passes(es, id, q) && q.route.idempotent
    case Cleared(id, capture) => |es| == 2 && Passes(es, id, q) && CaptureOk(capture, id, q)
    case Authorized(id, capture) =>
      |es| == 3 && Judged(c, es, id, q) && es[2].decision.allow && CaptureOk(capture, id, q)
    case Storing(key, response) =>
      Complete(c, es, q) && |es| == 4 && CaptureOf(es[3]) == Some(key) && es[3].response == response
    case Closed => Complete(c, es, q)
  }

  ghost predicate Lives(c: Config, s: State, r: nat) {
    if r !in s.phases then Project(s.trace, r) == [] else
      && r in s.requests && s.requests[r].route in c.routes
      && Matches(c, s.phases[r], Project(s.trace, r), s.requests[r])
  }

  ghost predicate AllLive(c: Config, s: State) {
    forall r :: Lives(c, s, r)
  }

  lemma ResolvedRoleIsValid(c: Config, q: Request, keys: ApiKeys.Table, now: int)
    ensures var id := ResolveIdentity(c, q, keys, now); id.Some? ==> ValidRole(id.value.role)
  {}

  /** Behind the decision: the handler that the route names, or the denial. */
  predicate Concludes(es: seq<Event>, q: Request)
    requires |es| == 4 && es[2].Audited?
  {
    if es[2].decision.allow then (if q.route.stub then es[3].Executed? else es[3].Handled?) else es[3].Denied?
  }

  lemma {:induction false} JudgedIsComplete(c: Config, es: seq<Event>, e: Event, id: Identity, q: Request)
    requires |es| == 3 && Judged(c, es, id, q) && CaptureOk(CaptureOf(e), id, q) && Concludes(es + [e], q)
    ensures Complete(c, es + [e], q)
  {
    assert Judged(c, es + [e], id, q);
  }

  /** A step of request r that leaves it with the events `es` keeps every request's story in order. */
  lemma {:induction false} StepLives(c: Config, s: State, s': State, r: nat, es: seq<Event>)
    requires AllLive(c, s) && r in s'.phases && r in s'.requests
    requires forall k :: k != r ==> (k in s'.phases <==> k in s.phases)
    requires forall k :: k != r && k in s.phases ==> s'.phases[k] == s.phases[k]
    requires forall k :: k != r && k in s.requests ==> k in s'.requests && s'.requests[k] == s.requests[k]
    requires forall k :: Project(s'.trace, k) == if k == r then es else Project(s.trace, k)
    requires s'.requests[r].route in c.routes && Matches(c, s'.phases[r], es, s'.requests[r])
    ensures AllLive(c, s')
  {
    forall k ensures Lives(c, s', k) {
      assert Lives(c, s, k);
    }
  }

  lemma {:induction false} EmitProjects(tr: Trace, r: nat, e: Event)
    ensures forall k :: Project(tr + [(r, e)], k) == if k == r then Project(tr, r) + [e] else Project(tr, k)
  {
    forall k ensures Project(tr + [(r, e)], k) == if k == r then Project(tr, r) + [e] else Project(tr, k) {
      ProjectSnoc(tr, r, e, k);
    }
  }

  lemma {:induction false} ArriveLives(c: Config, s: State, r: nat, q: Request)
    requires AllLive(c, s) && r !in s.phases && q.route in c.routes
    ensures AllLive(c, s.(requests := s.requests[r := q], phases := s.phases[r := Arrived]))
  {
    assert Lives(c, s, r);
    StepLives(c, s, s.(requests := s.requests[r := q], phases := s.phases[r := Arrived]), r, []);
  }

  lemma {:induction false} AuthenticateLives(c: Config, s: State, r: nat, now: int)
    requires AllLive(c, s) && InPhase(s, r) && s.phases[r].Arrived?
    ensures AllLive(c, AuthenticateStep(c, s, r, now))
  {
    assert Lives(c, s, r);
    var id := ResolveIdentity(c, s.requests[r], s.keys.table, now);
    ResolvedRoleIsValid(c, s.requests[r], s.keys.table, now);
    var e := if id.Some? then Authenticated(id.value, now) else Rejected;
    EmitProjects(s.trace, r, e);
    StepLives(c, s, AuthenticateStep(c, s, r, now), r, [e]);
  }

  lemma {:induction false} RateLimitLives(c: Config, s: State, r: nat, call: F.Request, o: L.Outcome)
    requires AllLive(c, s) && InPhase(s, r) && s.phases[r].Known?
    ensures AllLive(c, RateLimitStep(s, r, call, o))
  {
    assert Lives(c, s, r);
    var s' := RateLimitStep(s, r, call, o);
    var e := LastEvent(s');
    EmitProjects(s.trace, r, e);
    var es := Project(s.trace, r) + [e];
    if !o.admitted { assert Opens(es, s.phases[r].id) && |es| == 2; }
    StepLives(c, s, s', r, es);
  }

  lemma {:induction false} IdemGetLives(c: Config, s: State, r: nat, time: int, up: bool)
    requires AllLive(c, s) && InPhase(s, r) && s.phases[r].Passed?
    ensures AllLive(c, IdemGetStep(s, r, time, up))
  {
    assert Lives(c, s, r);
    var s', id := IdemGetStep(s, r, time, up), s.phases[r].id;
    if s'.trace == s.trace {
      StepLives(c, s, s', r, Project(s.trace, r));
    } else {
      var e := LastEvent(s');
      EmitProjects(s.trace, r, e);
      PassedIsComplete(c, Project(s.trace, r), e, id, s.requests[r]);
      StepLives(c, s, s', r, Project(s.trace, r) + [e]);
    }
  }

  lemma {:induction false} PassedIsComplete(c: Config, es: seq<Event>, e: Event, id: Identity, q: Request)
    requires |es| == 2 && Passes(es, id, q) && q.route.idempotent
    requires (e.KeyMissing? && q.idemKey == "") || (e.Replayed? && e.key == StoreKey(id.tenant, q))
    ensures Complete(c, es + [e], q)
  {
    assert Passes(es + [e], id, q);
  }

  lemma {:induction false} DecideLives(c: Config, s: State, r: nat, d: P.Decision, body: string)
    requires AllLive(c, s) && Enabled(c, s, Decide(r, d, body))
    ensures AllLive(c, DecideStep(s, r, d, body))
  {
    assert Lives(c, s, r);
    var p, q := s.phases[r], s.requests[r];
    var e := Audited(InputOf(p.id, q), d, q.id);
    var es := Project(s.trace, r) + [e];
    assert Judged(c, es, p.id, q);
    EmitProjects(s.trace, r, e);
    if d.allow {
      StepLives(c, s, DecideStep(s, r, d, body), r, es);
    } else {
      DenyLives(c, s, r, d, body, es);
    }
  }

  lemma {:induction false} DenyLives(c: Config, s: State, r: nat, d: P.Decision, body: string, es: seq<Event>)
    requires AllLive(c, s) && InPhase(s, r) && s.phases[r].Cleared? && !d.allow && s.requests[r].route in c.routes
    requires var p, q := s.phases[r], s.requests[r];
      var e := Audited(InputOf(p.id, q), d, q.id);
      && |es| == 3 && es[2] == e && Judged(c, es, p.id, q) && CaptureOk(p.capture, p.id, q)
      && forall k :: Project(s.trace + [(r, e)], k) == if k == r then es else Project(s.trace, k)
    ensures AllLive(c, DecideStep(s, r, d, body))
  {
    var p, q, s' := s.phases[r], s.requests[r], DecideStep(s, r, d, body);
    var e' := Denied(p.capture, Forbidden(body));
    EmitProjects(s.trace + [(r, es[2])], r, e');
    JudgedIsComplete(c, es, e', p.id, q);
    StepLives(c, s, s', r, es + [e']);
  }

  lemma {:induction false} HandleLives(c: Config, s: State, r: nat, status: int, body: string, contentType: string)
    requires AllLive(c, s) && InPhase(s, r) && s.phases[r].Authorized?
    ensures AllLive(c, HandleStep(s, r, status, body, contentType))
  {
    assert Lives(c, s, r);
    var s', p := HandleStep(s, r, status, body, contentType), s.phases[r];
    var e := LastEvent(s');
    EmitProjects(s.trace, r, e);
    AnswerMatches(c, Project(s.trace, r), e, p.id, p.capture, s.requests[r]);
    StepLives(c, s, s', r, Project(s.trace, r) + [e]);
  }

  /** The handler's answer completes the story of an authorized request. */
  lemma {:induction false} AnswerMatches(
      c: Config, es: seq<Event>, e: Event, id: Identity, capture: Option<string>, q: Request)
    requires Matches(c, Authorized(id, capture), es, q) && CaptureOf(e) == capture
    requires if q.route.stub then e.Executed? else e.Handled?
    ensures Matches(c, Finish(capture, e.response), es + [e], q)
  {
    JudgedIsComplete(c, es, e, id, q);
  }

  lemma {:induction false} IdemSetLives(c: Config, s: State, r: nat, up: bool)
    requires AllLive(c, s) && InPhase(s, r) && s.phases[r].Storing?
    ensures AllLive(c, IdemSetStep(s, r, up))
  {
    assert Lives(c, s, r);
    StepLives(c, s, IdemSetStep(s, r, up), r, Project(s.trace, r));
  }

  lemma {:induction false} SameLives(c: Config, s: State, s': State)
    requires AllLive(c, s) && s'.requests == s.requests && s'.phases == s.phases && s'.trace == s.trace
    ensures AllLive(c, s')
  {
    forall r ensures Lives(c, s', r) {
      assert Lives(c, s, r);
    }
  }

  lemma {:induction false} ApplyLives(c: Config, s: State, a: Action)
    requires AllLive(c, s)
    ensures AllLive(c, Apply(c, s, a))
  {
    if Enabled(c, s, a) {
      match a {
        case Arrive(r, q) => ArriveLives(c, s, r, q);
        case Authenticate(r, now) => AuthenticateLives(c, s, r, now);
        case RateLimit(r, call) =>
          RateLimitLives(c, s, r, call, L.Serve(s.limits, Tag(s, r, call), c.limit, c.window));
        case IdemGet(r, time, up) => IdemGetLives(c, s, r, time, up);
        case Decide(r, d, body) => DecideLives(c, s, r, d, body);
        case ManageKeys(r, op) => SameLives(c, s, ManageStep(c, s, r, op));
        case Handle(r, status, body, contentType) => HandleLives(c, s, r, status, body, contentType);
        case IdemSet(r, _, up) => IdemSetLives(c, s, r, up);
      }
      SameLives(c, Step(c, s, a), Apply(c, s, a));
    }
  }

  lemma {:induction false} RunLives(c: Config, actions: seq<Action>)
    ensures AllLive(c, Run(c, actions))
  {
    if actions != [] {
      RunLives(c, actions[..|actions| - 1]);
      ApplyLives(c, Run(c, actions[..|actions| - 1]), actions[|actions| - 1]);
    }
  }

  /** The story of a request whose handler ran. */
  ghost predicate Guarded(c: Config, es: seq<Event>, q: Request) {
    && |es| == 4 && es[0].Authenticated? && Judged(c, es, es[0].id, q)
    && es[2].decision.allow && (if q.route.stub then es[3].Executed? else es[3].Handled?)
    && (q.route.idempotent ==> q.idemKey != "")
  }

  predicate RunsHandler(e: Event) {
    e.Executed? || e.Handled?
  }

  /** The order of events in a story, whatever phase the request is in. */
  lemma {:induction false} StoryIsGuarded(c: Config, p: Phase, es: seq<Event>, q: Request)
    requires Matches(c, p, es, q)
    ensures forall i :: 0 <= i < |es| && RunsHandler(es[i]) ==> i == 3 && Guarded(c, es, q)
    ensures forall i :: 0 <= i < |es| && es[i].Audited? && !es[i].decision.allow ==> |es| == 4 && es[3].Denied?
    ensures forall i :: 0 <= i < |es| && es[i].Denied? ==> i == 3 && es[2].Audited? && !es[2].decision.allow
    ensures forall i :: 0 <= i < |es| && es[i].Replayed? ==>
      |es| == 3 && i == 2 && forall j :: 0 <= j < |es| ==> !es[j].Audited? && !RunsHandler(es[j])
  {}

  /**
   Whatever the interleaving, a handler runs at most once in a request, and only after the
   request resolved an identity with a valid role, was admitted by the limiter for that tenant
   and route, brought an Idempotency-Key if the route asks for one, and drew an allow decision of
   the engine that was audited. Every denial is audited,
   a denied request and a replayed request run no handler, and a replay is not audited.
   */
  lemma {:induction false} HandlersAreGuarded(c: Config, actions: seq<Action>, r: nat)
    ensures var s := Run(c, actions);
      var es := Project(s.trace, r);
      && (forall i :: 0 <= i < |es| && RunsHandler(es[i]) ==>
            i == 3 && r in s.requests && Guarded(c, es, s.requests[r]))
      && (forall i :: 0 <= i < |es| && es[i].Audited? && !es[i].decision.allow ==> |es| == 4 && es[3].Denied?)
      && (forall i :: 0 <= i < |es| && es[i].Denied? ==> i == 3 && es[2].Audited? && !es[2].decision.allow)
      && (forall i :: 0 <= i < |es| && es[i].Replayed? ==>
            |es| == 3 && i == 2 && forall j :: 0 <= j < |es| ==> !es[j].Audited? && !RunsHandler(es[j]))
  {
    RunLives(c, actions);
    var s := Run(c, actions);
    assert Lives(c, s, r);
    if r in s.phases { StoryIsGuarded(c, s.phases[r], Project(s.trace, r), s.requests[r]); }
  }

  // ------------------------------------------------------------ counters and the audit log

  function CountExecuted(tr: Trace): nat {
    if tr == [] then 0 else CountExecuted(tr[..|tr| - 1]) + (if tr[|tr| - 1].1.Executed? then 1 else 0)
  }

  function Audits(tr: Trace): seq<P.AuditRecord> {
    if tr == [] then [] else
      var init, e := Audits(tr[..|tr| - 1]), tr[|tr| - 1].1;
      if e.Audited? then init + [Recorded(e)] else init
  }

  /** What an audited decision leaves in the log: the actor's tenant, id and role, what was decided on, and how. */
  function Recorded(e: Event): P.AuditRecord
    requires e.Audited?
  {
    var i := e.input;
    P.AuditRecord(i.actor.tenant, i.actor.user, i.actor.role, i.action, i.resource.kind, i.resource.id,
                  e.decision.allow, e.decision.rule, e.request)
  }

  lemma {:induction false} TallySnoc(tr: Trace, r: nat, e: Event)
    ensures CountExecuted(tr + [(r, e)]) == CountExecuted(tr) + (if e.Executed? then 1 else 0)
    ensures Audits(tr + [(r, e)])
      == if e.Audited? then Audits(tr) + [Recorded(e)] else Audits(tr)
  {
    assert (tr + [(r, e)])[..|tr|] == tr;
  }

  ghost predicate Tallied(s: State) {
    s.calls == CountExecuted(s.trace) && s.audit == Audits(s.trace)
  }

  lemma {:induction false} EmitTallies(s: State, s': State, r: nat, e: Event)
    requires Tallied(s) && s'.trace == s.trace + [(r, e)]
    requires s'.calls == s.calls + (if e.Executed? then 1 else 0)
    requires s'.audit == if e.Audited? then s.audit + [P.AuditOf(e.input, e.decision, e.request)] else s.audit
    ensures Tallied(s')
  {
    TallySnoc(s.trace, r, e);
  }

  lemma {:induction false} DecideTallies(s: State, r: nat, d: P.Decision, body: string)
    requires Tallied(s) && InPhase(s, r) && s.phases[r].Cleared?
    ensures Tallied(DecideStep(s, r, d, body))
  {
    var p, q, s' := s.phases[r], s.requests[r], DecideStep(s, r, d, body);
    var e := Audited(InputOf(p.id, q), d, q.id);
    var s1 := Emit(s, r, e, Authorized(p.id, p.capture)).(audit := s.audit + [P.AuditOf(e.input, d, q.id)]);
    EmitTallies(s, s1, r, e);
    if !d.allow {
      EmitTallies(s1, s', r, LastEvent(s'));
    }
  }

  lemma {:induction false} HandleTallies(s: State, r: nat, status: int, body: string, contentType: string)
    requires Tallied(s) && InPhase(s, r) && s.phases[r].Authorized?
    ensures Tallied(HandleStep(s, r, status, body, contentType))
  {
    var s' := HandleStep(s, r, status, body, contentType);
    EmitTallies(s, s', r, LastEvent(s'));
  }

  lemma {:induction false} RateLimitTallies(s: State, r: nat, call: F.Request, o: L.Outcome)
    requires Tallied(s) && InPhase(s, r) && s.phases[r].Known?
    ensures Tallied(RateLimitStep(s, r, call, o))
  {
    EmitTallies(s, RateLimitStep(s, r, call, o), r, LastEvent(RateLimitStep(s, r, call, o)));
  }

  lemma {:induction false} IdemGetTallies(s: State, r: nat, time: int, up: bool)
    requires Tallied(s) && InPhase(s, r) && s.phases[r].Passed?
    ensures Tallied(IdemGetStep(s, r, time, up))
  {
    var s' := IdemGetStep(s, r, time, up);
    if s'.trace != s.trace { EmitTallies(s, s', r, LastEvent(s')); }
  }

  lemma {:induction false} AuthenticateTallies(c: Config, s: State, r: nat, now: int)
    requires Tallied(s) && InPhase(s, r)
    ensures Tallied(AuthenticateStep(c, s, r, now))
  {
    EmitTallies(s, AuthenticateStep(c, s, r, now), r, LastEvent(AuthenticateStep(c, s, r, now)));
  }

  lemma {:induction false} ApplyTallies(c: Config, s: State, a: Action)
    requires Tallied(s)
    ensures Tallied(Apply(c, s, a))
  {
    if Enabled(c, s, a) {
      match a {
        case Arrive(_, _) =>
        case Authenticate(r, now) => AuthenticateTallies(c, s, r, now);
        case RateLimit(r, call) =>
          RateLimitTallies(s, r, call, L.Serve(s.limits, Tag(s, r, call), c.limit, c.window));
        case IdemGet(r, time, up) => IdemGetTallies(s, r, time, up);
        case Decide(r, d, body) => DecideTallies(s, r, d, body);
        case ManageKeys(_, _) =>
        case Handle(r, status, body, contentType) => HandleTallies(s, r, status, body, contentType);
        case IdemSet(_, _, _) =>
      }
    }
  }

  /** The Calls counter is the number of stub executions, and the audit log is the decisions, in order. */
  lemma {:induction false} CountersAreExact(c: Config, actions: seq<Action>)
    ensures Tallied(Run(c, actions)) && Numbered(Run(c, actions).trace)
  {
    if actions != [] {
      CountersAreExact(c, actions[..|actions| - 1]);
      ApplyTallies(c, Run(c, actions[..|actions| - 1]), actions[|actions| - 1]);
      ApplyNumbers(c, Run(c, actions[..|actions| - 1]), actions[|actions| - 1]);
    }
  }

  /** Every execution carries its number: the n-th is numbered n. */
  ghost predicate Numbered(tr: Trace) {
    tr != [] ==>
      var init, e := tr[..|tr| - 1], tr[|tr| - 1].1;
      Numbered(init) && (e.Executed? ==> e.call == CountExecuted(init) + 1)
  }

  lemma {:induction false} NumberedSnoc(tr: Trace, r: nat, e: Event)
    requires Numbered(tr) && (e.Executed? ==> e.call == CountExecuted(tr) + 1)
    ensures Numbered(tr + [(r, e)])
  {
    assert (tr + [(r, e)])[..|tr|] == tr;
  }

  lemma {:induction false} DecideNumbers(s: State, r: nat, d: P.Decision, body: string)
    requires Numbered(s.trace) && InPhase(s, r) && s.phases[r].Cleared?
    ensures Numbered(DecideStep(s, r, d, body).trace)
  {
    var p, q := s.phases[r], s.requests[r];
    var e := Audited(InputOf(p.id, q), d, q.id);
    NumberedSnoc(s.trace, r, e);
    NumberedSnoc(s.trace + [(r, e)], r, Denied(p.capture, Forbidden(body)));
  }

  lemma {:induction false} HandleNumbers(s: State, r: nat, status: int, body: string, contentType: string)
    requires Numbered(s.trace) && Tallied(s) && InPhase(s, r) && s.phases[r].Authorized?
    ensures Numbered(HandleStep(s, r, status, body, contentType).trace)
  {
    NumberedSnoc(s.trace, r, LastEvent(HandleStep(s, r, status, body, contentType)));
  }

  /** Steps that emit at most one event, which is not an execution. */
  lemma {:induction false} QuietNumbers(s: State, s': State, r: nat)
    requires Numbered(s.trace)
    requires s'.trace == s.trace
      || (s'.trace != [] && s'.trace == s.trace + [(r, LastEvent(s'))] && !LastEvent(s').Executed?)
    ensures Numbered(s'.trace)
  {
    if s'.trace != s.trace { NumberedSnoc(s.trace, r, LastEvent(s')); }
  }

  lemma {:induction false} ApplyNumbers(c: Config, s: State, a: Action)
    requires Numbered(s.trace) && Tallied(s)
    ensures Numbered(Apply(c, s, a).trace)
  {
    if Enabled(c, s, a) {
      match a {
        case Decide(r, d, body) => DecideNumbers(s, r, d, body);
        case Handle(r, status, body, contentType) => HandleNumbers(s, r, status, body, contentType);
        case _ => QuietNumbers(s, Apply(c, s, a), a.req);
      }
    }
  }

  // ------------------------------------------------------------ authorization, end to end

  /**
   With the default rules, a handler runs only for an actor whom the access relation permits
   that action on that resource, within the actor's own tenant.
   */
  lemma {:induction false} HandlersArePermitted(c: Config, actions: seq<Action>, r: nat, i: int)
    requires c.rules == DefaultRules.RULES
    requires var es := Project(Run(c, actions).trace, r); 0 <= i < |es| && RunsHandler(es[i])
    ensures var s := Run(c, actions);
      var es := Project(s.trace, r);
      && |es| == 4 && es[0].Authenticated? && r in s.requests
      && var id, q := es[0].id, s.requests[r];
         && (q.extracted.tenant == "" || q.extracted.tenant == id.tenant)
         && DefaultRules.Permitted(id, q.route.action, P.Resource(
              q.route.kind, q.extracted.id, id.tenant, q.extracted.region, q.extracted.owner, q.extracted.valueUSD))
  {
    HandlersAreGuarded(c, actions, r);
    var s := Run(c, actions);
    var es := Project(s.trace, r);
    var q := s.requests[r];
    DefaultRules.ExactAccess(es[0].id, q.route.action, q.route.kind, q.extracted, c.timeout, es[2].decision);
  }
}
