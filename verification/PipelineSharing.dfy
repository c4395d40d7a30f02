/**
 Requests that share an idempotency record: the run in which the second is answered with what the
 first was, exactly when the two may belong to different tenants, and whose decision an answer
 follows (internal/gateway/router.go, internal/gateway/middleware/idempotency.go).
 */
module PipelineSharing {
  import opened Common
  import opened Identities
  import opened Pipeline
  import opened PipelineReplays
  import opened PipelineStore
  import opened Routing
  import ApiKeys
  import DefaultRules
  import F = Failover
  import I = Idempotency
  import Jwt
  import Keys
  import L = SharedLimiter
  import M = MemoryLimiter
  import P = Policy
  import R = RedisLimiter
  import SW = SlidingWindow

  // ------------------------------------------------------------ a run of two requests

  /** A caller with a valid token and an Idempotency-Key, on a route with records. */
  predicate Calls(c: Config, q: Request, id: Identity, now: int) {
    && q.bearer.Some? && Jwt.Validate(c.issuer, q.bearer.value, now) == Jwt.Ok(id)
    && q.route in c.routes && q.route.idempotent && q.route.stub && q.idemKey != ""
  }

  /** A limiter call that falls back to the first instance. */
  function FallBackAt(clock: int): F.Request {
    F.Request(0, R.Call(0, 0, ""), F.Unreachable, clock)
  }

  /** What the first request is answered: the denial, or what the stub returns. */
  function FirstAnswer(q: Request, d: P.Decision): I.Response {
    if d.allow then Answer(q.route, 200, "", "") else Forbidden("")
  }

  /** What is the same after a step that concerns one request alone. */
  ghost predicate SameStores(s: State, s': State) {
    s'.limits == s.limits && s'.keys == s.keys
  }

  // Each step, or pair of steps, has a predicate that says what it leaves behind.

  ghost predicate PassesLimiter(
      s: State, s': State, r: nat, q: Request, id: Identity, now: int, clock: int, stores: L.Stores)
  {
    && s'.phases == s.phases[r := Passed(id)] && s'.requests == s.requests[r := q]
    && s'.store == s.store && s'.keys == s.keys && s'.limits == stores
    && s'.trace == s.trace + [(r, Authenticated(id, now))] + [(r, Admitted(id.tenant, q.route.path, clock))]
  }

  ghost predicate ClearsGet(s: State, s': State, r: nat, id: Identity, key: string) {
    && s'.phases == s.phases[r := Cleared(id, Some(key))] && s'.requests == s.requests && s'.trace == s.trace
    && s'.store.phases == s.store.phases[r := I.Running(key, true)]
    && s'.store.cells == s.store.cells && s'.store.clock == s.store.clock && SameStores(s, s')
  }

  ghost predicate Allows(s: State, s': State, r: nat, id: Identity, key: string, audited: Event) {
    && s'.phases == s.phases[r := Authorized(id, Some(key))] && s'.requests == s.requests
    && s'.store == s.store && SameStores(s, s') && s'.trace == s.trace + [(r, audited)]
  }

  /** The answer e, captured for the key, is next to be stored. */
  ghost predicate Captures(s: State, s': State, r: nat, key: string, e: Event) {
    && Answers(e)
    && s'.phases == s.phases[r := Storing(key, e.response)] && s'.requests == s.requests
    && s'.store.phases == s.store.phases[r := I.Storing(key, e.response)]
    && s'.store.cells == s.store.cells && s'.store.clock == s.store.clock && SameStores(s, s')
    && s'.trace == s.trace + [(r, e)]
  }

  ghost predicate Settles(s: State, s': State, r: nat, key: string, audited: Event, e: Event) {
    && Answers(e)
    && s'.phases == s.phases[r := Storing(key, e.response)] && s'.requests == s.requests
    && s'.store.phases == s.store.phases[r := I.Storing(key, e.response)]
    && s'.store.cells == s.store.cells && s'.store.clock == s.store.clock && SameStores(s, s')
    && s'.trace == s.trace + [(r, audited)] + [(r, e)]
  }

  ghost predicate Sets(c: Config, s: State, s': State, r: nat, key: string, response: I.Response) {
    && s'.phases == s.phases[r := Closed] && s'.requests == s.requests && s'.trace == s.trace
    && s'.store.phases == s.store.phases[r := I.Done] && s'.store.clock == s.store.clock
    && s'.store.cells == I.Set(s.store.cells, key, response, 0, c.ttl) && SameStores(s, s')
  }

  // ------------------------------------------------------------ the steps

  ghost predicate Arrives(s: State, s': State, r: nat, q: Request) {
    && s'.phases == s.phases[r := Arrived] && s'.requests == s.requests[r := q]
    && s'.store == s.store && SameStores(s, s') && s'.trace == s.trace
  }

  ghost predicate IsKnown(s: State, s': State, r: nat, id: Identity, now: int) {
    && s'.phases == s.phases[r := Known(id)] && s'.requests == s.requests
    && s'.store == s.store && SameStores(s, s') && s'.trace == s.trace + [(r, Authenticated(id, now))]
  }

  ghost predicate IsAdmitted(s: State, s': State, r: nat, q: Request, id: Identity, clock: int, stores: L.Stores) {
    && s'.phases == s.phases[r := Passed(id)] && s'.requests == s.requests
    && s'.store == s.store && s'.keys == s.keys && s'.limits == stores
    && s'.trace == s.trace + [(r, Admitted(id.tenant, q.route.path, clock))]
  }

  lemma {:induction false} ArriveStep(c: Config, s: State, r: nat, q: Request)
    requires r !in s.phases && q.route in c.routes
    ensures Arrives(s, Apply(c, s, Arrive(r, q)), r, q)
  {}

  lemma {:induction false} AuthenticateKnows(c: Config, s: State, r: nat, q: Request, id: Identity, now: int)
    requires InPhase(s, r) && s.phases[r].Arrived? && s.requests[r] == q && Calls(c, q, id, now)
    ensures IsKnown(s, Apply(c, s, Authenticate(r, now)), r, id, now)
  {}

  lemma {:induction false} LimiterAdmits(
      c: Config, s: State, r: nat, q: Request, id: Identity, clock: int, o: L.Outcome)
    requires InPhase(s, r) && s.phases[r] == Known(id) && s.requests[r] == q && q.route.idempotent
    requires 0 < |s.limits.logs| && o.admitted
    requires o == L.Serve(s.limits, L.Tagged(id.tenant, q.route.path, FallBackAt(clock)), c.limit, c.window)
    ensures IsAdmitted(s, Apply(c, s, RateLimit(r, FallBackAt(clock))), r, q, id, clock, o.stores)
  {}

  lemma {:induction false} FrontChain(
      s: State, s1: State, s2: State, s3: State, r: nat, q: Request, id: Identity, now: int, clock: int,
      stores: L.Stores)
    requires Arrives(s, s1, r, q) && IsKnown(s1, s2, r, id, now) && IsAdmitted(s2, s3, r, q, id, clock, stores)
    ensures PassesLimiter(s, s3, r, q, id, now, clock, stores)
  {}

  lemma {:induction false} KnownIsReady(s: State, s1: State, s2: State, r: nat, q: Request, id: Identity, now: int)
    requires Arrives(s, s1, r, q) && IsKnown(s1, s2, r, id, now)
    ensures InPhase(s2, r) && s2.phases[r] == Known(id) && s2.requests[r] == q && s2.limits == s.limits
  {}

  /** From arrival through the limiter. */
  lemma {:induction false} FrontPasses(
      c: Config, actions: seq<Action>, r: nat, q: Request, id: Identity, now: int, clock: int, o: L.Outcome)
      returns (front: seq<Action>)
    requires var s := Run(c, actions);
      && r !in s.phases && Calls(c, q, id, now) && 0 < |s.limits.logs|
      && o == L.Serve(s.limits, L.Tagged(id.tenant, q.route.path, FallBackAt(clock)), c.limit, c.window) && o.admitted
    ensures PassesLimiter(Run(c, actions), Run(c, front), r, q, id, now, clock, o.stores)
  {
    var arrived := actions + [Arrive(r, q)];
    RunSnoc(c, actions, Arrive(r, q));
    ArriveStep(c, Run(c, actions), r, q);
    var known := arrived + [Authenticate(r, now)];
    RunSnoc(c, arrived, Authenticate(r, now));
    AuthenticateKnows(c, Run(c, arrived), r, q, id, now);
    KnownIsReady(Run(c, actions), Run(c, arrived), Run(c, known), r, q, id, now);
    front := known + [RateLimit(r, FallBackAt(clock))];
    RunSnoc(c, known, RateLimit(r, FallBackAt(clock)));
    LimiterAdmits(c, Run(c, known), r, q, id, clock, o);
    FrontChain(Run(c, actions), Run(c, arrived), Run(c, known), Run(c, front), r, q, id, now, clock, o.stores);
  }

  lemma {:induction false} GetClears(c: Config, s: State, r: nat, id: Identity, key: string)
    requires InPhase(s, r) && s.phases[r] == Passed(id) && s.requests[r].idemKey != "" && s.store.clock == 0
    requires key == StoreKey(id.tenant, s.requests[r]) && key !in s.store.cells && r !in s.store.phases
    requires s.limits.keyspace == map[]
    ensures ClearsGet(s, Apply(c, s, IdemGet(r, 0, true)), r, id, key)
  {}

  lemma {:induction false} DecisionAllows(c: Config, s: State, r: nat, id: Identity, key: string, d: P.Decision)
    requires InPhase(s, r) && s.phases[r] == Cleared(id, Some(key)) && Enabled(c, s, Decide(r, d, "")) && d.allow
    ensures Allows(s, Apply(c, s, Decide(r, d, "")), r, id, key, AuditEvent(id, s.requests[r], d))
  {}

  function AuditEvent(id: Identity, q: Request, d: P.Decision): Event {
    Audited(InputOf(id, q), d, q.id)
  }

  lemma {:induction false} HandlerCaptures(c: Config, s: State, r: nat, id: Identity, key: string) returns (e: Event)
    requires InPhase(s, r) && s.phases[r] == Authorized(id, Some(key)) && s.requests[r].route.stub
    requires r in s.store.phases && s.store.phases[r] == I.Running(key, true) && r !in s.keys.rotations
    ensures Captures(s, Apply(c, s, Handle(r, 200, "", "")), r, key, e)
    ensures e.Executed? && e.capture == Some(key) && e.response == Answer(s.requests[r].route, 200, "", "")
  {
    e := Executed(s.calls + 1, Some(key), Answer(s.requests[r].route, 200, "", ""));
  }

  lemma {:induction false} DenialConcludes(c: Config, s: State, r: nat, id: Identity, key: string, d: P.Decision)
    requires InPhase(s, r) && s.phases[r] == Cleared(id, Some(key)) && Enabled(c, s, Decide(r, d, "")) && !d.allow
    requires r in s.store.phases && s.store.phases[r] == I.Running(key, true)
    ensures var e := Denied(Some(key), Forbidden(""));
      Settles(s, Apply(c, s, Decide(r, d, "")), r, key, AuditEvent(id, s.requests[r], d), e)
  {}

  lemma {:induction false} SetStores(c: Config, s: State, r: nat, key: string, response: I.Response)
    requires InPhase(s, r) && s.phases[r] == Storing(key, response) && s.store.clock == 0
    requires r in s.store.phases && s.store.phases[r] == I.Storing(key, response) && s.limits.keyspace == map[]
    ensures Sets(c, s, Apply(c, s, IdemSet(r, 0, true)), r, key, response)
  {}

  lemma {:induction false} GetReplays(c: Config, s: State, r: nat, id: Identity, key: string, response: I.Response)
    requires FindsRecord(c, s, r, id, key, response)
    ensures var s' := Apply(c, s, IdemGet(r, 0, true));
      s'.trace == s.trace + [(r, Replayed(key, response))] && s'.requests == s.requests
  {}

  // ------------------------------------------------------------ the limiter lets both through

  /** Stores whose logs hold no stamp after t, and whose keyspace holds nothing. */
  ghost predicate Quiet(s: L.Stores, t: int) {
    && s.keyspace == map[] && |s.logs| > 0
    && forall key :: SW.AllAtMost(M.LogAt(s.logs[0], key), t)
  }

  /** A call that comes a window after everything in the logs is admitted. */
  lemma {:induction false} QuietAdmits(c: Config, s: L.Stores, tenant: string, path: string, t: int)
    requires Quiet(s, t) && c.limit >= 1
    ensures var o := L.Serve(s, L.Tagged(tenant, path, FallBackAt(t + c.window)), c.limit, c.window);
      o.admitted && Quiet(o.stores, Max(t, t + c.window))
  {
    var clock, mine := t + c.window, L.MemoryKey(tenant, path);
    SW.PruneEverything(M.LogAt(s.logs[0], mine), t);
    var o := L.Serve(s, L.Tagged(tenant, path, FallBackAt(clock)), c.limit, c.window);
    forall key ensures SW.AllAtMost(M.LogAt(o.stores.logs[0], key), Max(t, clock)) {
      if key == mine {
        assert M.LogAt(o.stores.logs[0], key) == [clock];
      } else {
        assert M.LogAt(o.stores.logs[0], key) == M.LogAt(s.logs[0], key);
      }
    }
  }

  // ------------------------------------------------------------ the first request

  /** The first request has passed the limiter of a gateway that has done nothing else. */
  ghost predicate FirstArrived(c: Config, s: State, q: Request, id: Identity, now: int) {
    && s.phases == map[0 := Passed(id)] && s.requests == map[0 := q] && s.store == BOOT
    && s.keys == ApiKeys.EMPTY && Quiet(s.limits, Max(0, c.window))
    && s.trace == [(0, Authenticated(id, now)), (0, Admitted(id.tenant, q.route.path, c.window))]
  }

  lemma {:induction false} FirstArrives(c: Config, q: Request, id: Identity, now: int) returns (actions: seq<Action>)
    requires Calls(c, q, id, now) && c.instances >= 1 && c.limit >= 1
    ensures FirstArrived(c, Run(c, actions), q, id, now)
  {
    var s := Initial(c);
    QuietAdmits(c, s.limits, id.tenant, q.route.path, 0);
    var o := L.Serve(s.limits, L.Tagged(id.tenant, q.route.path, FallBackAt(c.window)), c.limit, c.window);
    actions := FrontPasses(c, [], 0, q, id, now, c.window, o);
    PassedFirst(c, Run(c, actions), q, id, now, o.stores);
  }

  lemma {:induction false} PassedFirst(c: Config, s: State, q: Request, id: Identity, now: int, stores: L.Stores)
    requires PassesLimiter(Initial(c), s, 0, q, id, now, c.window, stores) && Quiet(stores, Max(0, c.window))
    ensures FirstArrived(c, s, q, id, now)
  {}

  /** The decision, and the handler's step after an allow. */
  lemma {:induction false} FirstConcludes(
      c: Config, actions: seq<Action>, q: Request, id: Identity, key: string, d: P.Decision)
      returns (more: seq<Action>, e: Event)
    requires ReadyToDecide(c, Run(c, actions), q, id, key, d)
    ensures Settles(Run(c, actions), Run(c, more), 0, key, AuditEvent(id, q, d), e)
    ensures AnsweredWith(e, key, FirstAnswer(q, d), d)
  {
    var s := Run(c, actions);
    RunSnoc(c, actions, Decide(0, d, ""));
    var decided := actions + [Decide(0, d, "")];
    if d.allow {
      DecisionAllows(c, s, 0, id, key, d);
      AuthorizedIsReady(c, s, Run(c, decided), q, id, key, d);
      e := HandlerCaptures(c, Run(c, decided), 0, id, key);
      RunSnoc(c, decided, Handle(0, 200, "", ""));
      more := decided + [Handle(0, 200, "", "")];
      AllowedConcludes(s, Run(c, decided), Run(c, more), 0, id, key, AuditEvent(id, q, d), e);
    } else {
      DenialConcludes(c, s, 0, id, key, d);
      more, e := decided, Denied(Some(key), Forbidden(""));
    }
  }

  ghost predicate ReadyToDecide(c: Config, s: State, q: Request, id: Identity, key: string, d: P.Decision) {
    && InPhase(s, 0) && s.phases[0] == Cleared(id, Some(key)) && s.requests[0] == q && q.route.stub
    && 0 in s.store.phases && s.store.phases[0] == I.Running(key, true)
    && P.MayReturn(c.rules, c.timeout, InputOf(id, q), d) && 0 !in s.keys.rotations
  }

  lemma {:induction false} AuthorizedIsReady(
      c: Config, s: State, s': State, q: Request, id: Identity, key: string, d: P.Decision)
    requires ReadyToDecide(c, s, q, id, key, d) && Allows(s, s', 0, id, key, AuditEvent(id, q, d))
    ensures InPhase(s', 0) && s'.phases[0] == Authorized(id, Some(key)) && s'.requests[0] == q
    ensures 0 in s'.store.phases && s'.store.phases[0] == I.Running(key, true) && 0 !in s'.keys.rotations
  {}

  lemma {:induction false} AllowedConcludes(
      s: State, s1: State, s2: State, r: nat, id: Identity, key: string, audited: Event, e: Event)
    requires Allows(s, s1, r, id, key, audited) && Captures(s1, s2, r, key, e)
    ensures Settles(s, s2, r, key, audited, e)
  {}

  /** The events of a request's answer. */
  predicate AnsweredWith(e: Event, key: string, response: I.Response, d: P.Decision) {
    Answers(e) && (e.Denied? <==> !d.allow) && e.response == response && CaptureOf(e) == Some(key)
  }

  /** The first request has been answered, and its answer stored. */
  ghost predicate FirstStored(c: Config, s: State, q: Request, id: Identity, now: int, d: P.Decision, e: Event) {
    var key, response := StoreKey(id.tenant, q), FirstAnswer(q, d);
    && s.phases == map[0 := Closed] && s.requests == map[0 := q] && Quiet(s.limits, Max(0, c.window))
    && s.store.cells == map[key := I.Cell(I.Json(response), I.Deadline(0, c.ttl))]
    && s.store.phases == map[0 := I.Done] && s.store.clock == 0
    && s.trace == [(0, Authenticated(id, now)), (0, Admitted(id.tenant, q.route.path, c.window))]
         + [(0, AuditEvent(id, q, d))] + [(0, e)]
    && AnsweredWith(e, key, response, d)
  }

  lemma {:induction false} FirstIsStored(
      c: Config, actions: seq<Action>, q: Request, id: Identity, now: int, d: P.Decision)
      returns (more: seq<Action>, e: Event)
    requires FirstArrived(c, Run(c, actions), q, id, now) && q.route.stub && q.idemKey != ""
    requires P.MayReturn(c.rules, c.timeout, InputOf(id, q), d)
    ensures FirstStored(c, Run(c, more), q, id, now, d, e)
  {
    var key := StoreKey(id.tenant, q);
    GetClears(c, Run(c, actions), 0, id, key);
    RunSnoc(c, actions, IdemGet(0, 0, true));
    var got := actions + [IdemGet(0, 0, true)];
    ClearedIsReady(c, Run(c, actions), Run(c, got), q, id, now, d);
    var answered;
    answered, e := FirstConcludes(c, got, q, id, key, d);
    AnsweredIsReady(c, Run(c, actions), Run(c, got), Run(c, answered), q, id, now, d, e);
    SetStores(c, Run(c, answered), 0, key, FirstAnswer(q, d));
    RunSnoc(c, answered, IdemSet(0, 0, true));
    more := answered + [IdemSet(0, 0, true)];
    StoredChain(c, Run(c, actions), Run(c, got), Run(c, answered), Run(c, more), q, id, now, d, e);
  }

  lemma {:induction false} ClearedIsReady(
      c: Config, s: State, s1: State, q: Request, id: Identity, now: int, d: P.Decision)
    requires FirstArrived(c, s, q, id, now) && ClearsGet(s, s1, 0, id, StoreKey(id.tenant, q)) && q.route.stub
    requires P.MayReturn(c.rules, c.timeout, InputOf(id, q), d)
    ensures ReadyToDecide(c, s1, q, id, StoreKey(id.tenant, q), d)
  {}

  lemma {:induction false} AnsweredIsReady(
      c: Config, s: State, s1: State, s2: State, q: Request, id: Identity, now: int, d: P.Decision, e: Event)
    requires FirstArrived(c, s, q, id, now) && ClearsGet(s, s1, 0, id, StoreKey(id.tenant, q))
    requires Settles(s1, s2, 0, StoreKey(id.tenant, q), AuditEvent(id, q, d), e)
    requires AnsweredWith(e, StoreKey(id.tenant, q), FirstAnswer(q, d), d)
    ensures InPhase(s2, 0) && s2.phases[0] == Storing(StoreKey(id.tenant, q), FirstAnswer(q, d)) && s2.store.clock == 0
    ensures 0 in s2.store.phases && s2.store.phases[0] == I.Storing(StoreKey(id.tenant, q), FirstAnswer(q, d))
    ensures s2.limits.keyspace == map[]
  {}

  lemma {:induction false} StoredChain(
      c: Config, s: State, s1: State, s2: State, s3: State, q: Request, id: Identity, now: int, d: P.Decision, e: Event)
    requires FirstArrived(c, s, q, id, now) && ClearsGet(s, s1, 0, id, StoreKey(id.tenant, q))
    requires Settles(s1, s2, 0, StoreKey(id.tenant, q), AuditEvent(id, q, d), e)
    requires AnsweredWith(e, StoreKey(id.tenant, q), FirstAnswer(q, d), d)
    requires Sets(c, s2, s3, 0, StoreKey(id.tenant, q), FirstAnswer(q, d))
    ensures FirstStored(c, s3, q, id, now, d, e)
  {}

  // ------------------------------------------------------------ the second request

  /** The second of two requests was answered with what the first was, although only the first drew a decision. */
  ghost predicate Shared(c: Config, s: State, q: Request, id: Identity, q': Request, id': Identity, d: P.Decision) {
    var es, es' := Story(s, 0), Story(s, 1);
    && 0 in s.requests && 1 in s.requests && s.requests[0] == q && s.requests[1] == q'
    && |es| == 4 && Opens(es, id) && es[2] == AuditEvent(id, q, d)
    && AnsweredWith(es[3], StoreKey(id.tenant, q), FirstAnswer(q, d), d)
    && |es'| == 3 && Opens(es', id') && es'[2] == Replayed(StoreKey(id.tenant, q), FirstAnswer(q, d))
    && |s.trace| == 7 && s.trace[3] == (0, es[3]) && s.trace[6] == (1, es'[2])
  }

  /**
   Whoever the callers are, two requests whose tenants, routes and Idempotency-Keys make up one
   record key share an answer in some run: the first draws a decision and is answered, and the
   second is answered the same without a decision of its own.
   */
  lemma {:induction false} RecordsAreShared(
      c: Config, q: Request, id: Identity, q': Request, id': Identity, now: int, d: P.Decision)
      returns (actions: seq<Action>)
    requires Calls(c, q, id, now) && Calls(c, q', id', now) && StoreKey(id.tenant, q) == StoreKey(id'.tenant, q')
    requires c.instances >= 1 && c.limit >= 1 && P.MayReturn(c.rules, c.timeout, InputOf(id, q), d)
    ensures Shared(c, Run(c, actions), q, id, q', id', d)
  {
    var first := FirstArrives(c, q, id, now);
    var stored, e := FirstIsStored(c, first, q, id, now, d);
    actions := SecondIsReplayed(c, stored, q, id, q', id', now, d, e);
  }

  lemma {:induction false} SecondIsReplayed(
      c: Config, actions: seq<Action>, q: Request, id: Identity, q': Request, id': Identity, now: int,
      d: P.Decision, e: Event)
      returns (more: seq<Action>)
    requires FirstStored(c, Run(c, actions), q, id, now, d, e) && ValidRole(id.role) && c.limit >= 1
    requires Calls(c, q', id', now) && StoreKey(id.tenant, q) == StoreKey(id'.tenant, q')
    ensures Shared(c, Run(c, more), q, id, q', id', d)
  {
    var front := SecondArrives(c, actions, q, id, q', id', now, d, e);
    GetReplays(c, Run(c, front), 1, id', StoreKey(id.tenant, q), FirstAnswer(q, d));
    RunSnoc(c, front, IdemGet(1, 0, true));
    more := front + [IdemGet(1, 0, true)];
    StoriesAreShared(c, Run(c, front), Run(c, more), q, id, q', id', now, d, e);
  }

  lemma {:induction false} SecondArrives(
      c: Config, actions: seq<Action>, q: Request, id: Identity, q': Request, id': Identity, now: int,
      d: P.Decision, e: Event)
      returns (front: seq<Action>)
    requires FirstStored(c, Run(c, actions), q, id, now, d, e) && c.limit >= 1
    requires Calls(c, q', id', now) && StoreKey(id.tenant, q) == StoreKey(id'.tenant, q')
    ensures SecondArrived(c, Run(c, front), q, id, q', id', now, d, e)
    ensures FindsRecord(c, Run(c, front), 1, id', StoreKey(id.tenant, q), FirstAnswer(q, d))
  {
    var s, t := Run(c, actions), Max(0, c.window);
    QuietAdmits(c, s.limits, id'.tenant, q'.route.path, t);
    var o := L.Serve(s.limits, L.Tagged(id'.tenant, q'.route.path, FallBackAt(t + c.window)), c.limit, c.window);
    front := FrontPasses(c, actions, 1, q', id', now, t + c.window, o);
    SecondIsReady(c, s, Run(c, front), q, id, q', id', now, d, e, o.stores);
  }

  /** The request is about to look up a key that holds a live record. */
  ghost predicate FindsRecord(c: Config, s: State, r: nat, id: Identity, key: string, response: I.Response) {
    && InPhase(s, r) && s.phases[r] == Passed(id) && s.requests[r].idemKey != "" && s.store.clock == 0
    && key == StoreKey(id.tenant, s.requests[r]) && r !in s.store.phases && s.limits.keyspace == map[]
    && key in s.store.cells && s.store.cells[key] == I.Cell(I.Json(response), I.Deadline(0, c.ttl))
  }

  /** The second request has passed the limiter too. */
  ghost predicate SecondArrived(
      c: Config, s: State, q: Request, id: Identity, q': Request, id': Identity, now: int,
      d: P.Decision, e: Event)
  {
    && 0 in s.requests && 1 in s.requests && s.requests[0] == q && s.requests[1] == q'
    && AnsweredWith(e, StoreKey(id.tenant, q), FirstAnswer(q, d), d)
    && s.trace == [(0, Authenticated(id, now)), (0, Admitted(id.tenant, q.route.path, c.window))]
         + [(0, AuditEvent(id, q, d))] + [(0, e)]
         + [(1, Authenticated(id', now))] + [(1, Admitted(id'.tenant, q'.route.path, Max(0, c.window) + c.window))]
  }

  lemma {:induction false} SecondIsReady(
      c: Config, s: State, s': State, q: Request, id: Identity, q': Request, id': Identity, now: int,
      d: P.Decision, e: Event, stores: L.Stores)
    requires FirstStored(c, s, q, id, now, d, e) && Quiet(stores, Max(Max(0, c.window), Max(0, c.window) + c.window))
    requires PassesLimiter(s, s', 1, q', id', now, Max(0, c.window) + c.window, stores)
    requires q'.idemKey != "" && StoreKey(id.tenant, q) == StoreKey(id'.tenant, q')
    ensures SecondArrived(c, s', q, id, q', id', now, d, e)
    ensures FindsRecord(c, s', 1, id', StoreKey(id.tenant, q), FirstAnswer(q, d))
  {}

  lemma {:induction false} StoriesAreShared(
      c: Config, s: State, s': State, q: Request, id: Identity, q': Request, id': Identity, now: int,
      d: P.Decision, e: Event)
    requires ValidRole(id.role) && ValidRole(id'.role) && SecondArrived(c, s, q, id, q', id', now, d, e)
    requires s'.requests == s.requests
    requires s'.trace == s.trace + [(1, Replayed(StoreKey(id.tenant, q), FirstAnswer(q, d)))]
    ensures Shared(c, s', q, id, q', id', d)
  {
    var es := [Authenticated(id, now), Admitted(id.tenant, q.route.path, c.window), AuditEvent(id, q, d), e];
    var es' := [Authenticated(id', now), Admitted(id'.tenant, q'.route.path, Max(0, c.window) + c.window),
                Replayed(StoreKey(id.tenant, q), FirstAnswer(q, d))];
    TaggedAt(0, es);
    TaggedAt(1, es');
    assert s'.trace == Tagged(0, es) + Tagged(1, es');
    TwoStories(es, es', s'.trace);
  }

  /** A trace of one request and then another has their events as its two stories. */
  lemma {:induction false} TwoStories(es: seq<Event>, es': seq<Event>, tr: Trace)
    requires tr == Tagged(0, es) + Tagged(1, es')
    ensures Project(tr, 0) == es && Project(tr, 1) == es'
  {
    assert [] + Tagged(0, es) == Tagged(0, es);
    ProjectTagged([], 0, es, 0);
    ProjectTagged([], 0, es, 1);
    ProjectTagged(Tagged(0, es), 1, es', 0);
    ProjectTagged(Tagged(0, es), 1, es', 1);
  }

  // ------------------------------------------------------------ when answers cross tenants

  /** The replay at i gives a request of tenant b the answer that a request of tenant a got at j. */
  ghost predicate CrossReplay(c: Config, actions: seq<Action>, i: int, j: int, a: string, b: string) {
    var s := Run(c, actions);
    && 0 <= j < i < |s.trace| && s.trace[i].1.Replayed? && Answers(s.trace[j].1)
    && CaptureOf(s.trace[j].1) == Some(s.trace[i].1.key) && s.trace[j].1.response == s.trace[i].1.response
    && AuthenticatedIn(s, s.trace[i].0) && TenantOf(s, s.trace[i].0) == b
    && AuthenticatedIn(s, s.trace[j].0) && TenantOf(s, s.trace[j].0) == a
  }

  /** An answer captured for a key came from a request whose own tenant, route and key make up that key. */
  lemma {:induction false} CaptureBelongs(c: Config, s: State, j: int)
    requires AllLive(c, s) && 0 <= j < |s.trace| && Answers(s.trace[j].1) && CaptureOf(s.trace[j].1).Some?
    ensures var r := s.trace[j].0;
      && AuthenticatedIn(s, r) && s.requests[r].route in c.routes && s.requests[r].route.idempotent
      && CaptureOf(s.trace[j].1) == Some(StoreKey(TenantOf(s, r), s.requests[r]))
  {
    var k := EventIsProjected(s.trace, j);
    assert Lives(c, s, s.trace[j].0);
  }

  lemma {:induction false} CrossReplaysMeet(c: Config, actions: seq<Action>, i: int, j: int, a: string, b: string)
    requires c.routes == ROUTES && a != b && CrossReplay(c, actions, i, j, a, b)
    ensures !Keys.Apart(a, b, ORDERS)
  {
    RunLives(c, actions);
    var s := Run(c, actions);
    ReplayBelongs(c, s, i);
    CaptureBelongs(c, s, j);
    var q, q' := s.requests[s.trace[j].0], s.requests[s.trace[i].0];
    RoutesArePlain(q.route);
    RoutesArePlain(q'.route);
    Keys.RecordsMeetOnlyIf(a, q.idemKey, b, q'.idemKey, ORDERS);
  }

  /** An admin of the tenant, with a token that the issuer gives to anyone who names the tenant. */
  function AdminOf(tenant: string): Identity {
    Identity(tenant, "admin", Admin, "", "")
  }

  function Order(c: Config, id: Identity, key: string): Request
    requires Jwt.Issuable(id)
  {
    Request(
      Some(Jwt.Issue(c.issuer, id, 0).value.access), "", ROUTES[0], key, "",
      P.Resource(P.Order, "", "", "", "", 0.0), "")
  }

  lemma {:induction false} OrderCalls(c: Config, id: Identity, key: string)
    requires c.routes == ROUTES && c.issuer.accessTTL >= Jwt.SECOND && Jwt.Issuable(id) && key != ""
    ensures Calls(c, Order(c, id, key), id, 0) && Order(c, id, key).route.path == ORDERS
  {
    Jwt.IssueRoundTrip(c.issuer, id, 0, 0);
    assert ROUTES[0] in ROUTES;
  }

  lemma {:induction false} CrossReplayHappens(c: Config, a: string, b: string)
      returns (actions: seq<Action>, i: int, j: int)
    requires c.routes == ROUTES && c.instances >= 1 && c.limit >= 1 && c.issuer.accessTTL >= Jwt.SECOND
    requires a != "" && b != "" && !Keys.Apart(a, b, ORDERS)
    ensures CrossReplay(c, actions, i, j, a, b)
  {
    var k, k' := Keys.SharedRecord(a, b, ORDERS);
    var q, q' := Order(c, AdminOf(a), k), Order(c, AdminOf(b), k');
    OrderCalls(c, AdminOf(a), k);
    OrderCalls(c, AdminOf(b), k');
    var d := P.SomeDecision(c.rules, c.timeout, InputOf(AdminOf(a), q));
    actions := RecordsAreShared(c, q, AdminOf(a), q', AdminOf(b), 0, d);
    i, j := 6, 3;
  }

  /**
   The isolation that shared/storage/redis.go calls structural, exactly: on the gateway's routes,
   some run replays an answer of tenant a to a request of tenant b if and only if one of the two
   ids continues the other with what a record key has between tenant and Idempotency-Key. The
   token endpoint issues tokens for every non-empty tenant id.
   */
  lemma {:induction false} AnswersCrossTenantsExactlyWhen(c: Config, a: string, b: string)
    requires c.routes == ROUTES && c.instances >= 1 && c.limit >= 1 && c.issuer.accessTTL >= Jwt.SECOND
    requires a != "" && b != "" && a != b
    ensures (exists actions, i, j :: CrossReplay(c, actions, i, j, a, b)) <==> !Keys.Apart(a, b, ORDERS)
  {
    if actions, i, j :| CrossReplay(c, actions, i, j, a, b) {
      CrossReplaysMeet(c, actions, i, j, a, b);
    }
    if !Keys.Apart(a, b, ORDERS) {
      var actions, i, j := CrossReplayHappens(c, a, b);
    }
  }

  /** There are such tenants: one whose id is another's, followed by the fixed part of a record key. */
  lemma {:induction false} SomeTenantsAreNotApart(a: string)
    ensures !Keys.Apart(a, a + ":idem:" + ORDERS, ORDERS)
  {
    var b := a + ":idem:" + ORDERS;
    assert a + ":idem:" + ORDERS + ":" == b + ":" && |b| > |a|;
  }

  // ------------------------------------------------------------ whose decision an answer follows

  /** The access relation for a request: what its own decision would say. */
  predicate MayProceed(id: Identity, q: Request) {
    && (q.extracted.tenant == "" || q.extracted.tenant == id.tenant)
    && DefaultRules.Permitted(id, q.route.action, P.Resource(
         q.route.kind, q.extracted.id, id.tenant, q.extracted.region, q.extracted.owner, q.extracted.valueUSD))
  }

  /** The answer is one the request's own decision gives: a denial iff the request may not proceed. */
  predicate OwnAnswer(e: Event, id: Identity, q: Request) {
    e.Denied? <==> !MayProceed(id, q)
  }

  /** The engine's timer fired before the rules had decided on the request. */
  predicate TimedOut(s: State, r: nat) {
    var es := Story(s, r);
    |es| >= 3 && es[2].Audited? && es[2].decision == P.EVAL_TIMEOUT
  }

  /** A request that draws a decision is denied iff it may not proceed or the engine timed out on it. */
  lemma {:induction false} AnswersFollowAccess(c: Config, s: State, j: int)
    requires c.rules == DefaultRules.RULES && AllLive(c, s)
    requires 0 <= j < |s.trace| && Answers(s.trace[j].1)
    ensures var r := s.trace[j].0;
      && AuthenticatedIn(s, r)
      && (s.trace[j].1.Denied? <==> !MayProceed(Story(s, r)[0].id, s.requests[r]) || TimedOut(s, r))
  {
    var r := s.trace[j].0;
    var k := EventIsProjected(s.trace, j);
    assert Lives(c, s, r);
    var es, q := Story(s, r), s.requests[r];
    if !TimedOut(s, r) {
      DefaultRules.ExactAccess(es[0].id, q.route.action, q.route.kind, q.extracted, c.timeout, es[2].decision);
    }
  }

  /**
   The idempotency middleware stands before policy, its key does not name the actor, and it
   stores the 403 of a timeout like any other. So a request that is replayed the answer of another
   sees an answer that its own decision gives if and only if it may proceed exactly when the other
   may and the engine did not time out on the other.
   */
  lemma {:induction false} ReplaysFollowOwnDecisionExactlyWhen(c: Config, actions: seq<Action>, i: int)
      returns (j: int)
    requires c.rules == DefaultRules.RULES
    requires var s := Run(c, actions); 0 <= i < |s.trace| && s.trace[i].1.Replayed?
    ensures var s := Run(c, actions);
      && 0 <= j < i && Answers(s.trace[j].1) && s.trace[j].1.response == s.trace[i].1.response
      && var r, r' := s.trace[i].0, s.trace[j].0;
         && AuthenticatedIn(s, r) && AuthenticatedIn(s, r')
         && var mine, other := MayProceed(Story(s, r)[0].id, s.requests[r]),
                               MayProceed(Story(s, r')[0].id, s.requests[r']);
            OwnAnswer(s.trace[j].1, Story(s, r)[0].id, s.requests[r]) <==> (mine <==> other && !TimedOut(s, r'))
  {
    var k;
    j, k := ReplayOrigin(c, actions, i);
    RunLives(c, actions);
    ReplayBelongs(c, Run(c, actions), i);
    AnswersFollowAccess(c, Run(c, actions), j);
  }

  lemma {:induction false} AnalystIsDenied(c: Config, analyst: Identity, key: string) returns (d: P.Decision)
    requires c.rules == DefaultRules.RULES && Jwt.Issuable(analyst) && analyst.role == Analyst
    ensures P.MayReturn(c.rules, c.timeout, InputOf(analyst, Order(c, analyst, key)), d)
    ensures !d.allow && !MayProceed(analyst, Order(c, analyst, key))
  {
    var input := InputOf(analyst, Order(c, analyst, key));
    d := P.SomeDecision(c.rules, c.timeout, input);
    P.AllowsExactlyWhen(c.rules, input, d);
    DefaultRules.AnyAllow(input);
  }

  lemma {:induction false} AdminIsAllowed(c: Config, tenant: string, key: string) returns (d: P.Decision)
    requires c.rules == DefaultRules.RULES && tenant != ""
    ensures P.MayReturn(c.rules, c.timeout, InputOf(AdminOf(tenant), Order(c, AdminOf(tenant), key)), d)
    ensures d.allow && MayProceed(AdminOf(tenant), Order(c, AdminOf(tenant), key))
  {
    var input := InputOf(AdminOf(tenant), Order(c, AdminOf(tenant), key));
    d := P.SomeDecision(c.rules, c.timeout, input);
    P.AllowsExactlyWhen(c.rules, input, d);
    DefaultRules.AnyAllow(input);
    DefaultRules.AnyDeny(input);
  }

  /** An analyst's denial is replayed to an admin of the tenant, whom the rules permit the order. */
  lemma {:induction false} DenialsAreReplayedToAdmins(c: Config, tenant: string, key: string, analyst: Identity)
      returns (actions: seq<Action>, d: P.Decision)
    requires c.routes == ROUTES && c.rules == DefaultRules.RULES && c.instances >= 1 && c.limit >= 1
    requires c.issuer.accessTTL >= Jwt.SECOND && tenant != "" && key != ""
    requires Jwt.Issuable(analyst) && analyst.tenant == tenant && analyst.role == Analyst
    ensures var q, q' := Order(c, analyst, key), Order(c, AdminOf(tenant), key);
      && !MayProceed(analyst, q) && MayProceed(AdminOf(tenant), q') && !d.allow
      && Shared(c, Run(c, actions), q, analyst, q', AdminOf(tenant), d)
  {
    var q, q' := Order(c, analyst, key), Order(c, AdminOf(tenant), key);
    OrderCalls(c, analyst, key);
    OrderCalls(c, AdminOf(tenant), key);
    d := AnalystIsDenied(c, analyst, key);
    actions := RecordsAreShared(c, q, analyst, q', AdminOf(tenant), 0, d);
  }

  /** An admin's order is replayed to an analyst of the tenant, whom the rules do not permit it. */
  lemma {:induction false} OrdersAreReplayedToAnalysts(c: Config, tenant: string, key: string, analyst: Identity)
      returns (actions: seq<Action>, d: P.Decision)
    requires c.routes == ROUTES && c.rules == DefaultRules.RULES && c.instances >= 1 && c.limit >= 1
    requires c.issuer.accessTTL >= Jwt.SECOND && tenant != "" && key != ""
    requires Jwt.Issuable(analyst) && analyst.tenant == tenant && analyst.role == Analyst
    ensures var q, q' := Order(c, AdminOf(tenant), key), Order(c, analyst, key);
      && MayProceed(AdminOf(tenant), q) && !MayProceed(analyst, q') && d.allow
      && Shared(c, Run(c, actions), q, AdminOf(tenant), q', analyst, d)
  {
    var q, q' := Order(c, AdminOf(tenant), key), Order(c, analyst, key);
    OrderCalls(c, analyst, key);
    OrderCalls(c, AdminOf(tenant), key);
    d := AdminIsAllowed(c, tenant, key);
    actions := RecordsAreShared(c, q, AdminOf(tenant), q', analyst, 0, d);
  }

  /**
   A timeout is transient, but its 403 is stored for the whole TTL: whenever a timeout is set,
   an admin who may place an order and repeats it after a timeout is replayed the denial.
   */
  lemma {:induction false} TimeoutsAreReplayed(c: Config, tenant: string, key: string)
      returns (actions: seq<Action>)
    requires c.routes == ROUTES && c.rules == DefaultRules.RULES && c.instances >= 1 && c.limit >= 1
    requires c.issuer.accessTTL >= Jwt.SECOND && tenant != "" && key != "" && c.timeout > 0
    ensures var q := Order(c, AdminOf(tenant), key);
      && MayProceed(AdminOf(tenant), q)
      && Shared(c, Run(c, actions), q, AdminOf(tenant), q, AdminOf(tenant), P.EVAL_TIMEOUT)
  {
    var q := Order(c, AdminOf(tenant), key);
    OrderCalls(c, AdminOf(tenant), key);
    var d := AdminIsAllowed(c, tenant, key);
    actions := RecordsAreShared(c, q, AdminOf(tenant), q, AdminOf(tenant), 0, P.EVAL_TIMEOUT);
  }
}
