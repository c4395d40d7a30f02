/**
 What a step of the gateway does to its own request: the phase it leaves the request in, and the
 events it adds to the request's story. No step does anything to another request.
 */
module PipelineSteps {
  import opened Common
  import opened Identities
  import opened Pipeline
  import opened Routing
  import ApiKeys
  import F = Failover
  import I = Idempotency
  import L = SharedLimiter
  import P = Policy

  /** Request r is in phase `ph` now, and `es` is what happened to it. */
  ghost predicate Advances(s: State, s': State, r: nat, q: Request, ph: Phase, es: seq<Event>) {
    s'.requests == s.requests[r := q] && s'.phases == s.phases[r := ph] && s'.trace == s.trace + Tagged(r, es)
  }

  lemma {:induction false} TaggedAre(r: nat, e: Event, e': Event)
    ensures Tagged(r, []) == [] && Tagged(r, [e]) == [(r, e)] && Tagged(r, [e, e']) == [(r, e), (r, e')]
  {
    assert [e][..0] == [] && [e, e'][..1] == [e];
  }

  lemma {:induction false} ArriveAdvances(c: Config, s: State, r: nat, q: Request)
    requires Enabled(c, s, Arrive(r, q))
    ensures Advances(s, Apply(c, s, Arrive(r, q)), r, q, Arrived, [])
  {
    TaggedAre(r, Rejected, Rejected);
  }

  lemma {:induction false} AuthenticateAdvances(c: Config, s: State, r: nat, now: int)
    requires Enabled(c, s, Authenticate(r, now))
    ensures var s', id := Apply(c, s, Authenticate(r, now)), ResolveIdentity(c, s.requests[r], s.keys.table, now);
      if id.Some? then Advances(s, s', r, s.requests[r], Known(id.value), [Authenticated(id.value, now)])
      else Advances(s, s', r, s.requests[r], Closed, [Rejected])
  {
    var id := ResolveIdentity(c, s.requests[r], s.keys.table, now);
    TaggedAre(r, if id.Some? then Authenticated(id.value, now) else Rejected, Rejected);
    Revisits(s, r);
  }

  lemma {:induction false} Revisits(s: State, r: nat)
    requires InPhase(s, r)
    ensures s.requests[r := s.requests[r]] == s.requests && s.phases[r := s.phases[r]] == s.phases
  {}

  function AfterLimit(id: Identity, route: Route, admitted: bool): Phase {
    if !admitted then Closed else if route.idempotent then Passed(id) else Cleared(id, None)
  }

  function LimitEvent(id: Identity, route: Route, call: F.Request, admitted: bool): Event {
    if !admitted then Throttled else Admitted(id.tenant, route.path, F.Stamp(call))
  }

  lemma {:induction false} RateLimitAdvances(s: State, r: nat, call: F.Request, o: L.Outcome)
    requires InPhase(s, r) && s.phases[r].Known?
    ensures var id, q := s.phases[r].id, s.requests[r];
      Advances(s, RateLimitStep(s, r, call, o), r, q, AfterLimit(id, q.route, o.admitted),
               [LimitEvent(id, q.route, call, o.admitted)])
  {
    TaggedAre(r, LimitEvent(s.phases[r].id, s.requests[r].route, call, o.admitted), Rejected);
    Revisits(s, r);
  }

  function AfterGet(id: Identity, key: string, result: I.Lookup): Phase {
    match result
    case Hit(_) => Closed
    case Unavailable => Cleared(id, None)
    case _ => Cleared(id, Some(key))
  }

  function GetEvents(key: string, result: I.Lookup): seq<Event> {
    if result.Hit? then [Replayed(key, result.response)] else []
  }

  lemma {:induction false} IdemGetAdvances(s: State, r: nat, time: int, up: bool)
    requires InPhase(s, r) && s.phases[r].Passed?
    ensures var s', id, q := IdemGetStep(s, r, time, up), s.phases[r].id, s.requests[r];
      var key := StoreKey(id.tenant, q);
      var result := I.Get(s.store.cells, key, time, up);
      if q.idemKey == "" then Advances(s, s', r, q, Closed, [KeyMissing])
      else Advances(s, s', r, q, AfterGet(id, key, result), GetEvents(key, result))
  {
    var id, q := s.phases[r].id, s.requests[r];
    var key := StoreKey(id.tenant, q);
    var result := I.Get(s.store.cells, key, time, up);
    TaggedAre(r, KeyMissing, KeyMissing);
    if result.Hit? { TaggedAre(r, Replayed(key, result.response), KeyMissing); }
    Revisits(s, r);
  }

  function DecideEvents(id: Identity, capture: Option<string>, q: Request, d: P.Decision, body: string): seq<Event> {
    var e := Audited(InputOf(id, q), d, q.id);
    if d.allow then [e] else [e, Denied(capture, Forbidden(body))]
  }

  function AfterDecision(id: Identity, capture: Option<string>, d: P.Decision, body: string): Phase {
    if d.allow then Authorized(id, capture) else Finish(capture, Forbidden(body))
  }

  lemma {:induction false} DecideAdvances(s: State, r: nat, d: P.Decision, body: string)
    requires InPhase(s, r) && s.phases[r].Cleared?
    ensures var ph, q := s.phases[r], s.requests[r];
      Advances(s, DecideStep(s, r, d, body), r, q, AfterDecision(ph.id, ph.capture, d, body),
               DecideEvents(ph.id, ph.capture, q, d, body))
  {
    var ph, q := s.phases[r], s.requests[r];
    TaggedAre(r, Audited(InputOf(ph.id, q), d, q.id), Denied(ph.capture, Forbidden(body)));
    Revisits(s, r);
  }

  function HandleEvent(capture: Option<string>, route: Route, call: nat, response: I.Response): Event {
    if route.stub then Executed(call, capture, response) else Handled(capture, response)
  }

  lemma {:induction false} HandleAdvances(s: State, r: nat, status: int, body: string, contentType: string)
    requires InPhase(s, r) && s.phases[r].Authorized?
    ensures var ph, q := s.phases[r], s.requests[r];
      var response := Answer(q.route, status, body, contentType);
      Advances(s, HandleStep(s, r, status, body, contentType), r, q, Finish(ph.capture, response),
               [HandleEvent(ph.capture, q.route, s.calls + 1, response)])
  {
    var ph, q := s.phases[r], s.requests[r];
    TaggedAre(r, HandleEvent(ph.capture, q.route, s.calls + 1, Answer(q.route, status, body, contentType)), Rejected);
    Revisits(s, r);
  }

  lemma {:induction false} IdemSetAdvances(s: State, r: nat, up: bool)
    requires InPhase(s, r) && s.phases[r].Storing?
    ensures Advances(s, IdemSetStep(s, r, up), r, s.requests[r], Closed, [])
  {
    TaggedAre(r, Rejected, Rejected);
    Revisits(s, r);
  }

  lemma {:induction false} ManageAdvances(c: Config, s: State, r: nat, op: ApiKeys.Action)
    requires InPhase(s, r) && ApiKeys.Enabled(s.keys, op)
    ensures Advances(s, ManageStep(c, s, r, op), r, s.requests[r], s.phases[r], [])
  {
    TaggedAre(r, Rejected, Rejected);
    Revisits(s, r);
  }

  /** The request a step belongs to. */
  function Requested(s: State, a: Action): Request
    requires a.Arrive? || a.req in s.requests
  {
    if a.Arrive? then a.request else s.requests[a.req]
  }

  /** The phase a step leaves its request in. */
  ghost function Next(c: Config, s: State, a: Action): Phase
    requires Enabled(c, s, a)
  {
    match a
    case Arrive(_, _) => Arrived
    case Authenticate(r, now) =>
      var id := ResolveIdentity(c, s.requests[r], s.keys.table, now);
      if id.Some? then Known(id.value) else Closed
    case RateLimit(r, call) =>
      var o := L.Serve(s.limits, Tag(s, r, call), c.limit, c.window);
      AfterLimit(s.phases[r].id, s.requests[r].route, o.admitted)
    case IdemGet(r, time, up) =>
      var key := StoreKey(s.phases[r].id.tenant, s.requests[r]);
      if s.requests[r].idemKey == "" then Closed
      else AfterGet(s.phases[r].id, key, I.Get(s.store.cells, key, time, up))
    case Decide(r, d, body) => AfterDecision(s.phases[r].id, s.phases[r].capture, d, body)
    case ManageKeys(r, _) => s.phases[r]
    case Handle(r, status, body, contentType) =>
      Finish(s.phases[r].capture, Answer(s.requests[r].route, status, body, contentType))
    case IdemSet(_, _, _) => Closed
  }

  /** What a step tells of its request. */
  ghost function Emits(c: Config, s: State, a: Action): seq<Event>
    requires Enabled(c, s, a)
  {
    match a
    case Arrive(_, _) => []
    case Authenticate(r, now) =>
      var id := ResolveIdentity(c, s.requests[r], s.keys.table, now);
      if id.Some? then [Authenticated(id.value, now)] else [Rejected]
    case RateLimit(r, call) =>
      var o := L.Serve(s.limits, Tag(s, r, call), c.limit, c.window);
      [LimitEvent(s.phases[r].id, s.requests[r].route, call, o.admitted)]
    case IdemGet(r, time, up) =>
      var key := StoreKey(s.phases[r].id.tenant, s.requests[r]);
      if s.requests[r].idemKey == "" then [KeyMissing] else GetEvents(key, I.Get(s.store.cells, key, time, up))
    case Decide(r, d, body) => DecideEvents(s.phases[r].id, s.phases[r].capture, s.requests[r], d, body)
    case ManageKeys(_, _) => []
    case Handle(r, status, body, contentType) =>
      var route := s.requests[r].route;
      [HandleEvent(s.phases[r].capture, route, s.calls + 1, Answer(route, status, body, contentType))]
    case IdemSet(_, _, _) => []
  }

  lemma {:induction false} StepAdvances(c: Config, s: State, a: Action)
    requires Enabled(c, s, a)
    ensures Advances(s, Step(c, s, a), a.req, Requested(s, a), Next(c, s, a), Emits(c, s, a))
  {
    var r := a.req;
    match a {
      case Arrive(_, q) => ArriveAdvances(c, s, r, q);
      case Authenticate(_, now) => AuthenticateAdvances(c, s, r, now);
      case RateLimit(_, call) =>
        RateLimitAdvances(s, r, call, L.Serve(s.limits, Tag(s, r, call), c.limit, c.window));
      case IdemGet(_, time, up) => IdemGetAdvances(s, r, time, up);
      case Decide(_, d, body) => DecideAdvances(s, r, d, body);
      case ManageKeys(_, op) => ManageAdvances(c, s, r, op);
      case Handle(_, status, body, contentType) => HandleAdvances(s, r, status, body, contentType);
      case IdemSet(_, _, up) => IdemSetAdvances(s, r, up);
    }
  }

  /** Every step that takes effect advances its own request and no other. */
  lemma {:induction false} ApplyAdvances(c: Config, s: State, a: Action)
    requires Enabled(c, s, a)
    ensures Advances(s, Apply(c, s, a), a.req, Requested(s, a), Next(c, s, a), Emits(c, s, a))
  {
    StepAdvances(c, s, a);
  }
}
