/**
 Tenant isolation of the whole gateway: a run without the requests of all other tenants gives a
 tenant's requests the stories they have with that traffic present.
 */
module PipelineIsolation {
  import opened Common
  import opened Pipeline
  import opened PipelineKeys
  import opened PipelineSteps
  import opened PipelineStore
  import opened Routing
  import ApiKeys
  import A = ApiKeyParts
  import F = Failover
  import I = Idempotency
  import Keys
  import L = SharedLimiter

  /** A set of requests. */
  type Requests = nat -> bool

  /** The run without the steps of all other requests, and without the steps that had no effect. */
  ghost function Erase(c: Config, actions: seq<Action>, mine: Requests): seq<Action> {
    if actions == [] then [] else
      var init, a := actions[..|actions| - 1], actions[|actions| - 1];
      if mine(a.req) && Enabled(c, Run(c, init), a) then Erase(c, init, mine) + [a] else Erase(c, init, mine)
  }

  /** The tenant's requests are selected and no other tenant's; those without an identity may go either way. */
  ghost predicate Selects(s: State, mine: Requests, tenant: string) {
    forall r :: AuthenticatedIn(s, r) ==> (mine(r) <==> TenantOf(s, r) == tenant)
  }

  /** Every tenant of the run is apart from this one. */
  ghost predicate Aloof(s: State, tenant: string) {
    forall r :: AuthenticatedIn(s, r) ==> Keys.Apart(TenantOf(s, r), tenant, ORDERS)
  }

  /** The call number counts the stub executions of all tenants. */
  function Unnumbered(e: Event): Event {
    match e
    case Executed(_, capture, response) => Executed(0, capture, response)
    case _ => e
  }

  ghost predicate SameEvents(es: seq<Event>, es': seq<Event>) {
    |es| == |es'| && forall i :: 0 <= i < |es| ==> Unnumbered(es[i]) == Unnumbered(es'[i])
  }

  // ------------------------------------------------------------ the whole run and its part

  ghost predicate Part<T>(w: map<nat, T>, p: map<nat, T>, mine: Requests) {
    && (forall r :: r in p <==> r in w && mine(r))
    && (forall r :: r in p ==> p[r] == w[r])
  }

  lemma {:induction false} PartOwn<T>(w: map<nat, T>, p: map<nat, T>, mine: Requests, r: nat, x: T)
    requires Part(w, p, mine) && mine(r)
    ensures Part(w[r := x], p[r := x], mine)
  {}

  lemma {:induction false} PartOther<T>(w: map<nat, T>, p: map<nat, T>, mine: Requests, r: nat, x: T)
    requires Part(w, p, mine) && !mine(r)
    ensures Part(w[r := x], p, mine)
  {}

  /** The selected requests, their phases and their stories. */
  ghost predicate SameFront(w: State, p: State, mine: Requests) {
    && Part(w.requests, p.requests, mine) && Part(w.phases, p.phases, mine)
    && forall r :: mine(r) ==> SameEvents(Story(w, r), Story(p, r))
  }

  /** The tenant's part of the limiter. No key in it is a record. */
  ghost predicate SameLimits(w: L.Stores, p: L.Stores, tenant: string) {
    && L.AgreeFor(w, p, tenant)
    && forall key :: key in p.keyspace ==> !Keys.RecordOf(key, tenant, ORDERS)
  }

  function RecordsOf(tenant: string): I.Selection {
    key => Keys.RecordOf(key, tenant, ORDERS)
  }

  /** The tenant's part of the idempotency store. All keys in it are records of the tenant. */
  ghost predicate SameStore(w: I.State, p: I.State, tenant: string) {
    && I.Agrees(w, p, RecordsOf(tenant)) && I.Selected(p, RecordsOf(tenant))
    && forall key :: key in p.cells ==> Keys.RecordOf(key, tenant, ORDERS)
  }

  /** The tenant's part of the key store, and which of the selected requests are done with it. */
  ghost predicate SameKeys(w: State, p: State, mine: Requests, tenant: string) {
    && A.Restricts(w.keys, p.keys, tenant)
    && forall r :: mine(r) ==> (r in w.ledger.done <==> r in p.ledger.done)
  }

  ghost predicate Alike(w: State, p: State, mine: Requests, tenant: string) {
    && SameFront(w, p, mine) && SameLimits(w.limits, p.limits, tenant)
    && SameStore(w.store, p.store, tenant) && SameKeys(w, p, mine, tenant)
  }

  // ------------------------------------------------------------ requests, phases and stories

  lemma {:induction false} FrontOwn(
      w: State, p: State, w': State, p': State, mine: Requests,
      r: nat, q: Request, ph: Phase, es: seq<Event>, es': seq<Event>)
    requires SameFront(w, p, mine) && mine(r) && SameEvents(es, es')
    requires Advances(w, w', r, q, ph, es) && Advances(p, p', r, q, ph, es')
    ensures SameFront(w', p', mine)
  {
    PartOwn(w.requests, p.requests, mine, r, q);
    PartOwn(w.phases, p.phases, mine, r, ph);
    forall k | mine(k) ensures SameEvents(Story(w', k), Story(p', k)) {
      ProjectTagged(w.trace, r, es, k);
      ProjectTagged(p.trace, r, es', k);
    }
  }

  lemma {:induction false} FrontOther(
      w: State, p: State, w': State, mine: Requests, r: nat, q: Request, ph: Phase, es: seq<Event>)
    requires SameFront(w, p, mine) && !mine(r) && Advances(w, w', r, q, ph, es)
    ensures SameFront(w', p, mine)
  {
    PartOther(w.requests, p.requests, mine, r, q);
    PartOther(w.phases, p.phases, mine, r, ph);
    forall k | mine(k) ensures SameEvents(Story(w', k), Story(p, k)) {
      ProjectTagged(w.trace, r, es, k);
    }
  }

  // ------------------------------------------------------------ whose request it is

  /** The identity a request has in its phase is the one it was authenticated with. */
  lemma {:induction false} PhaseTenant(c: Config, s: State, r: nat)
    requires AllLive(c, s) && InPhase(s, r)
    requires s.phases[r].Known? || s.phases[r].Passed? || s.phases[r].Cleared? || s.phases[r].Authorized?
    ensures AuthenticatedIn(s, r) && TenantOf(s, r) == s.phases[r].id.tenant
  {
    assert Lives(c, s, r);
  }

  lemma {:induction false} StoringTenant(c: Config, s: State, r: nat)
    requires AllLive(c, s) && InPhase(s, r) && s.phases[r].Storing?
    ensures AuthenticatedIn(s, r) && s.requests[r].route.idempotent
    ensures s.phases[r].key == StoreKey(TenantOf(s, r), s.requests[r])
  {
    assert Lives(c, s, r);
  }

  lemma {:induction false} UnderwayTenant(c: Config, s: State, r: nat)
    requires AllLive(c, s) && AllLinked(s) && r in s.store.phases && s.store.phases[r].Running?
    ensures AuthenticatedIn(s, r) && s.requests[r].route.idempotent && s.requests[r].route in c.routes
    ensures s.store.phases[r].key == StoreKey(TenantOf(s, r), s.requests[r])
  {
    assert Linked(s, r) && Lives(c, s, r);
    PhaseTenant(c, s, r);
  }

  /** A record is in the tenant's part just when its request is selected. */
  lemma {:induction false} RecordIsOwn(c: Config, s: State, r: nat, mine: Requests, tenant: string)
    requires c.routes == ROUTES && Selects(s, mine, tenant) && Aloof(s, tenant)
    requires AuthenticatedIn(s, r) && s.requests[r].route in c.routes && s.requests[r].route.idempotent
    ensures Keys.RecordOf(StoreKey(TenantOf(s, r), s.requests[r]), tenant, ORDERS) <==> mine(r)
  {
    RoutesArePlain(s.requests[r].route);
    Keys.RecordsBelongExactly(TenantOf(s, r), s.requests[r].idemKey, tenant, ORDERS);
  }

  // ------------------------------------------------------------ the store

  /** The store step of an effective step, on a key that is a record of the tenant just when the request is selected. */
  lemma {:induction false} StepIsOwn(c: Config, s: State, a: Action, x: I.Action, mine: Requests, tenant: string)
    requires c.routes == ROUTES && AllLive(c, s) && AllLinked(s) && Selects(s, mine, tenant) && Aloof(s, tenant)
    requires Enabled(c, s, a) && StoreStep(s, a) == Some(x) && I.Enabled(s.store, x)
    ensures I.Concerns(s.store, x, RecordsOf(tenant)) <==> mine(a.req)
  {
    var r := a.req;
    if a.IdemGet? {
      PhaseTenant(c, s, r);
      PassedStory(c, s, r);
      assert Lives(c, s, r);
      RecordIsOwn(c, s, r, mine, tenant);
    } else if a.IdemSet? {
      assert Linked(s, r) && Lives(c, s, r);
      StoringTenant(c, s, r);
      RecordIsOwn(c, s, r, mine, tenant);
    } else {
      UnderwayTenant(c, s, r);
      RecordIsOwn(c, s, r, mine, tenant);
    }
  }

  /** A step on a record of the tenant keeps the part a part. */
  lemma {:induction false} OwnStoreStep(w: I.State, p: I.State, x: I.Action, ttl: nat, tenant: string)
    requires SameStore(w, p, tenant) && I.Concerns(w, x, RecordsOf(tenant))
    ensures SameStore(I.Apply(w, x, ttl), I.Apply(p, x, ttl), tenant)
  {
    I.ConcernedStepAgrees(w, p, x, ttl, RecordsOf(tenant));
    StaysSelected(w, p, x, ttl, tenant);
  }

  lemma {:induction false} StaysSelected(w: I.State, p: I.State, x: I.Action, ttl: nat, tenant: string)
    requires SameStore(w, p, tenant) && I.Concerns(w, x, RecordsOf(tenant))
    ensures var p' := I.Apply(p, x, ttl);
      I.Selected(p', RecordsOf(tenant)) && forall key :: key in p'.cells ==> Keys.RecordOf(key, tenant, ORDERS)
  {}

  /** A step on a key outside the part, or one that the protocol does not know of, leaves the part alone. */
  lemma {:induction false} OtherStoreStep(w: I.State, p: I.State, x: I.Action, ttl: nat, tenant: string)
    requires SameStore(w, p, tenant) && !I.Concerns(w, x, RecordsOf(tenant))
    ensures SameStore(I.Apply(w, x, ttl), p, tenant)
  {
    I.OtherStepAgrees(w, p, x, ttl, RecordsOf(tenant));
  }

  lemma {:induction false} OwnStore(c: Config, w: State, p: State, a: Action, mine: Requests, tenant: string)
    requires c.routes == ROUTES && AllLive(c, w) && AllLinked(w) && Selects(w, mine, tenant) && Aloof(w, tenant)
    requires SameStore(w.store, p.store, tenant) && StoreStep(w, a) == StoreStep(p, a)
    requires mine(a.req) && Enabled(c, w, a)
    ensures SameStore(StoreAfter(c, w, a), StoreAfter(c, p, a), tenant)
  {
    if StoreStep(w, a).Some? {
      var x := StoreStep(w, a).value;
      if I.Enabled(w.store, x) {
        StepIsOwn(c, w, a, x, mine, tenant);
        OwnStoreStep(w.store, p.store, x, c.ttl, tenant);
      } else {
        UnknownInPart(w.store, p.store, x, tenant);
      }
    }
  }

  /** An answer of a request without the middleware has no store step in the part either. */
  lemma {:induction false} UnknownInPart(w: I.State, p: I.State, x: I.Action, tenant: string)
    requires SameStore(w, p, tenant) && !I.Enabled(w, x) && x.DoRun?
    ensures !I.Enabled(p, x)
  {}

  lemma {:induction false} OtherStore(c: Config, w: State, p: I.State, a: Action, mine: Requests, tenant: string)
    requires c.routes == ROUTES && AllLive(c, w) && AllLinked(w) && Selects(w, mine, tenant) && Aloof(w, tenant)
    requires SameStore(w.store, p, tenant) && !mine(a.req) && Enabled(c, w, a)
    ensures SameStore(StoreAfter(c, w, a), p, tenant)
  {
    if StoreStep(w, a).Some? {
      var x := StoreStep(w, a).value;
      if I.Enabled(w.store, x) { StepIsOwn(c, w, a, x, mine, tenant); }
      OtherStoreStep(w.store, p, x, c.ttl, tenant);
    }
  }

  // ------------------------------------------------------------ the limiter

  lemma {:induction false} LimiterKeyIsNoRecord(tenant: string, path: string)
    requires Keys.PlainPattern(path) && Keys.FixedPattern(ORDERS)
    ensures !Keys.RecordOf(L.RedisKey(tenant, path), tenant, ORDERS)
  {
    var key, head := L.RedisKey(tenant, path), Keys.RedisKey(tenant, Keys.IdemSuffix(ORDERS, ""));
    if head <= key {
      var k := key[|head|..];
      assert key == head + k == Keys.RedisKey(tenant, Keys.IdemSuffix(ORDERS, k));
      Keys.NamespacesMeetOnlyIf(tenant, path, tenant, ORDERS, k);
    }
  }

  /** The gateway stores nothing but the limiter's own keys in the limiter. */
  lemma {:induction false} OwnRequest(w: L.Stores, p: L.Stores, x: L.Tagged, limit: int, window: int)
    requires SameLimits(w, p, x.tenant) && Keys.PlainPattern(x.path) && Keys.FixedPattern(ORDERS)
    requires x.request.instance < |w.logs|
    ensures var o, o' := L.Serve(w, x, limit, window), L.Serve(p, x, limit, window);
      o.admitted == o'.admitted && SameLimits(o.stores, o'.stores, x.tenant)
  {
    L.OwnRequestAgrees(w, p, x, limit, window);
    LimiterKeyIsNoRecord(x.tenant, x.path);
  }

  lemma {:induction false} LimitsFrame(c: Config, s: State, a: Action)
    requires Enabled(c, s, a) && !a.RateLimit? && !a.IdemSet?
    ensures Apply(c, s, a).limits == s.limits
  {}

  lemma {:induction false} OwnLimits(c: Config, w: State, p: State, a: Action, mine: Requests, tenant: string)
    requires c.routes == ROUTES && AllLive(c, w) && Selects(w, mine, tenant)
    requires SameFront(w, p, mine) && SameLimits(w.limits, p.limits, tenant)
    requires mine(a.req) && Enabled(c, w, a) && Enabled(c, p, a)
    ensures SameLimits(Apply(c, w, a).limits, Apply(c, p, a).limits, tenant)
  {
    if a.RateLimit? {
      OwnRateLimit(c, w, p, a.req, a.call, mine, tenant);
    } else if a.IdemSet? {
      L.OwnOverwriteAgrees(w.limits, p.limits, w.phases[a.req].key, tenant);
    } else {
      LimitsFrame(c, w, a);
      LimitsFrame(c, p, a);
    }
  }

  lemma {:induction false} OwnRateLimit(
      c: Config, w: State, p: State, r: nat, call: F.Request, mine: Requests, tenant: string)
    requires c.routes == ROUTES && AllLive(c, w) && Selects(w, mine, tenant)
    requires SameFront(w, p, mine) && SameLimits(w.limits, p.limits, tenant)
    requires mine(r) && Enabled(c, w, RateLimit(r, call)) && Enabled(c, p, RateLimit(r, call))
    ensures Tag(w, r, call) == Tag(p, r, call)
    ensures var o, o' := L.Serve(w.limits, Tag(w, r, call), c.limit, c.window),
                         L.Serve(p.limits, Tag(p, r, call), c.limit, c.window);
      o.admitted == o'.admitted && SameLimits(o.stores, o'.stores, tenant)
  {
    PhaseTenant(c, w, r);
    assert Lives(c, w, r);
    RoutesArePlain(w.requests[r].route);
    RoutesArePlain(ROUTES[0]);
    OwnRequest(w.limits, p.limits, Tag(w, r, call), c.limit, c.window);
  }

  lemma {:induction false} OtherLimits(c: Config, w: State, p: L.Stores, a: Action, mine: Requests, tenant: string)
    requires c.routes == ROUTES && AllLive(c, w) && Selects(w, mine, tenant) && Aloof(w, tenant)
    requires SameLimits(w.limits, p, tenant) && !mine(a.req) && Enabled(c, w, a)
    ensures SameLimits(Apply(c, w, a).limits, p, tenant)
  {
    if a.RateLimit? {
      PhaseTenant(c, w, a.req);
      assert Lives(c, w, a.req);
      RoutesArePlain(w.requests[a.req].route);
      L.OtherRequestAgrees(w.limits, p, Tag(w, a.req, a.call), c.limit, c.window, tenant);
    } else if a.IdemSet? {
      OtherRecordIsElsewhere(c, w, a.req, mine, tenant);
      L.OtherOverwriteAgrees(w.limits, p, w.phases[a.req].key, tenant);
    } else {
      LimitsFrame(c, w, a);
    }
  }

  lemma {:induction false} OtherRecordIsElsewhere(c: Config, w: State, r: nat, mine: Requests, tenant: string)
    requires c.routes == ROUTES && AllLive(c, w) && Selects(w, mine, tenant) && Aloof(w, tenant)
    requires InPhase(w, r) && w.phases[r].Storing? && !mine(r)
    ensures forall path :: Keys.PlainPattern(path) ==> w.phases[r].key != L.RedisKey(tenant, path)
  {
    StoringTenant(c, w, r);
    assert Lives(c, w, r);
    RoutesArePlain(w.requests[r].route);
    var t, k := TenantOf(w, r), w.requests[r].idemKey;
    forall path | Keys.PlainPattern(path) ensures w.phases[r].key != L.RedisKey(tenant, path) {
      if w.phases[r].key == L.RedisKey(tenant, path) { Keys.NamespacesMeetOnlyIf(tenant, path, t, ORDERS, k); }
    }
  }

  // ------------------------------------------------------------ the keys

  /** The key handlers act for the tenant of their caller. */
  lemma {:induction false} ManagerActs(s: State, r: nat, op: ApiKeys.Action)
    requires InPhase(s, r) && s.phases[r].Authorized? && MayManage(s, r, op) && ApiKeys.Enabled(s.keys, op)
    requires forall tx :: tx in s.keys.rotations ==> RotationLinked(s, tx)
    ensures ApiKeys.Actor(s.keys, op) == s.phases[r].id.tenant
  {}

  /** The operations that end a request's dealings with the key store. */
  predicate Ends(op: ApiKeys.Action) {
    op.Create? || op.Commit? || op.Rollback? || op.Revoke?
  }

  lemma {:induction false} EnterDone(l: Ledger, keys: ApiKeys.State, r: nat, op: ApiKeys.Action)
    requires ApiKeys.Enabled(keys, op)
    ensures Enter(l, keys, r, op).done == if Ends(op) then l.done + {r} else l.done
  {}

  lemma {:induction false} OwnManage(
      c: Config, w: State, p: State, r: nat, op: ApiKeys.Action, mine: Requests, tenant: string)
    requires Enabled(c, w, ManageKeys(r, op)) && mine(r)
    requires AllLive(c, w) && KeysOk(c, w) && KeysOk(c, p) && Selects(w, mine, tenant)
    requires SameFront(w, p, mine) && SameKeys(w, p, mine, tenant)
    ensures Enabled(c, p, ManageKeys(r, op))
    ensures SameKeys(Apply(c, w, ManageKeys(r, op)), Apply(c, p, ManageKeys(r, op)), mine, tenant)
  {
    PhaseTenant(c, w, r);
    ManagerActs(w, r, op);
    A.OwnStepRestricts(w.keys, p.keys, op, c.hash, tenant);
    EnterDone(w.ledger, w.keys, r, op);
    EnterDone(p.ledger, p.keys, r, op);
    ManageIsItsStep(c, w, r, op);
    ManageIsItsStep(c, p, r, op);
  }

  lemma {:induction false} OtherManage(
      c: Config, w: State, p: State, r: nat, op: ApiKeys.Action, mine: Requests, tenant: string)
    requires Enabled(c, w, ManageKeys(r, op)) && !mine(r)
    requires AllLive(c, w) && KeysOk(c, w) && Selects(w, mine, tenant) && SameKeys(w, p, mine, tenant)
    ensures SameKeys(Apply(c, w, ManageKeys(r, op)), p, mine, tenant)
  {
    PhaseTenant(c, w, r);
    ManagerActs(w, r, op);
    A.OtherStepRestricts(w.keys, p.keys, op, c.hash, tenant);
    EnterDone(w.ledger, w.keys, r, op);
    ManageIsItsStep(c, w, r, op);
  }

  /** A credential of the tenant, or one that fails, resolves in the part as it does in the whole. */
  lemma {:induction false} SameIdentity(
      c: Config, w: ApiKeys.State, p: ApiKeys.State, q: Request, now: int, tenant: string)
    requires A.Restricts(w, p, tenant) && ApiKeys.UniqueHashes(w.table)
    requires var id := ResolveIdentity(c, q, w.table, now); id.Some? ==> id.value.tenant == tenant
    ensures ResolveIdentity(c, q, w.table, now) == ResolveIdentity(c, q, p.table, now)
  {
    A.ResolveInPart(w, p, c.hash(q.apiKey), now, tenant);
  }

  // ------------------------------------------------------------ a step of a selected request

  /** What every run keeps. */
  ghost predicate Sound(c: Config, s: State) {
    AllLive(c, s) && AllLinked(s) && KeysOk(c, s)
  }

  lemma {:induction false} RunIsSound(c: Config, actions: seq<Action>)
    ensures Sound(c, Run(c, actions))
  {
    RunLives(c, actions);
    RunLinks(c, actions);
    RunKeepsKeys(c, actions);
  }

  lemma {:induction false} OwnLimitEnabled(
      c: Config, w: State, p: State, r: nat, call: F.Request, mine: Requests, tenant: string)
    requires c.routes == ROUTES && AllLive(c, w) && Selects(w, mine, tenant) && Alike(w, p, mine, tenant)
    requires mine(r) && Enabled(c, w, RateLimit(r, call))
    ensures Enabled(c, p, RateLimit(r, call))
  {
    PhaseTenant(c, w, r);
    assert Lives(c, w, r);
    RoutesArePlain(w.requests[r].route);
    RoutesArePlain(ROUTES[0]);
    LimiterKeyIsNoRecord(tenant, w.requests[r].route.path);
  }

  lemma {:induction false} OwnGetEnabled(
      c: Config, w: State, p: State, r: nat, time: int, up: bool, mine: Requests, tenant: string)
    requires c.routes == ROUTES && AllLive(c, w) && Selects(w, mine, tenant) && Aloof(w, tenant)
    requires Alike(w, p, mine, tenant) && mine(r) && Enabled(c, w, IdemGet(r, time, up))
    ensures Enabled(c, p, IdemGet(r, time, up))
    ensures var key := StoreKey(w.phases[r].id.tenant, w.requests[r]);
      I.Get(w.store.cells, key, time, up) == I.Get(p.store.cells, key, time, up)
  {
    PhaseTenant(c, w, r);
    PassedStory(c, w, r);
    assert Lives(c, w, r);
    RecordIsOwn(c, w, r, mine, tenant);
    var key := StoreKey(tenant, w.requests[r]);
    assert RecordsOf(tenant)(key);
    I.GetSame(w.store.cells, p.store.cells, key, time, up);
  }

  lemma {:induction false} OwnSetEnabled(
      c: Config, w: State, p: State, r: nat, time: int, up: bool, mine: Requests, tenant: string)
    requires c.routes == ROUTES && AllLive(c, w) && AllLinked(w) && Selects(w, mine, tenant) && Aloof(w, tenant)
    requires Alike(w, p, mine, tenant) && mine(r) && Enabled(c, w, IdemSet(r, time, up))
    ensures Enabled(c, p, IdemSet(r, time, up))
  {
    StepIsOwn(c, w, IdemSet(r, time, up), I.DoSet(r, time, up), mine, tenant);
  }

  /** A step of a selected request that takes effect in the whole run takes effect in the part. */
  lemma {:induction false} OwnEnabled(c: Config, w: State, p: State, a: Action, mine: Requests, tenant: string)
    requires c.routes == ROUTES && Sound(c, w) && KeysOk(c, p) && Selects(w, mine, tenant) && Aloof(w, tenant)
    requires Alike(w, p, mine, tenant) && mine(a.req) && Enabled(c, w, a)
    ensures Enabled(c, p, a)
  {
    match a {
      case RateLimit(r, call) => OwnLimitEnabled(c, w, p, r, call, mine, tenant);
      case IdemGet(r, time, up) => OwnGetEnabled(c, w, p, r, time, up, mine, tenant);
      case ManageKeys(r, op) => OwnManage(c, w, p, r, op, mine, tenant);
      case IdemSet(r, time, up) => OwnSetEnabled(c, w, p, r, time, up, mine, tenant);
      case _ =>
    }
  }

  /** The step leaves its request in the same phase in both, tells the same of it, and asks the same of the store. */
  ghost predicate SameOutcome(c: Config, w: State, p: State, a: Action)
    requires Enabled(c, w, a) && Enabled(c, p, a)
  {
    && Requested(w, a) == Requested(p, a) && Next(c, w, a) == Next(c, p, a)
    && SameEvents(Emits(c, w, a), Emits(c, p, a)) && StoreStep(w, a) == StoreStep(p, a)
  }

  lemma {:induction false} SameAuthentication(c: Config, w: State, p: State, r: nat, now: int)
    requires Enabled(c, w, Authenticate(r, now)) && Enabled(c, p, Authenticate(r, now))
    requires w.requests[r] == p.requests[r]
    requires var q := w.requests[r];
      ResolveIdentity(c, q, w.keys.table, now) == ResolveIdentity(c, q, p.keys.table, now)
    ensures SameOutcome(c, w, p, Authenticate(r, now))
  {}

  lemma {:induction false} SameLimit(c: Config, w: State, p: State, r: nat, call: F.Request)
    requires Enabled(c, w, RateLimit(r, call)) && Enabled(c, p, RateLimit(r, call))
    requires w.requests[r] == p.requests[r] && w.phases[r] == p.phases[r]
    requires L.Serve(w.limits, Tag(w, r, call), c.limit, c.window).admitted
      == L.Serve(p.limits, Tag(p, r, call), c.limit, c.window).admitted
    ensures SameOutcome(c, w, p, RateLimit(r, call))
  {}

  lemma {:induction false} SameGet(c: Config, w: State, p: State, r: nat, time: int, up: bool)
    requires Enabled(c, w, IdemGet(r, time, up)) && Enabled(c, p, IdemGet(r, time, up))
    requires w.requests[r] == p.requests[r] && w.phases[r] == p.phases[r]
    requires var key := StoreKey(w.phases[r].id.tenant, w.requests[r]);
      I.Get(w.store.cells, key, time, up) == I.Get(p.store.cells, key, time, up)
    ensures SameOutcome(c, w, p, IdemGet(r, time, up))
  {}

  /** The other steps depend on their own request alone. */
  lemma {:induction false} SameElsewhere(c: Config, w: State, p: State, a: Action)
    requires Enabled(c, w, a) && Enabled(c, p, a) && !a.Authenticate? && !a.RateLimit? && !a.IdemGet?
    requires !a.Arrive? ==> w.requests[a.req] == p.requests[a.req] && w.phases[a.req] == p.phases[a.req]
    ensures SameOutcome(c, w, p, a)
  {}

  lemma {:induction false} OwnOutcome(c: Config, w: State, p: State, a: Action, mine: Requests, tenant: string)
    requires c.routes == ROUTES && AllLive(c, w) && ApiKeys.UniqueHashes(w.keys.table)
    requires Selects(w, mine, tenant) && Selects(Apply(c, w, a), mine, tenant) && Aloof(w, tenant)
    requires Alike(w, p, mine, tenant) && mine(a.req) && Enabled(c, w, a) && Enabled(c, p, a)
    ensures SameOutcome(c, w, p, a)
  {
    var r := a.req;
    if a.Authenticate? {
      AuthenticatedOwn(c, w, r, a.now, mine, tenant);
      SameIdentity(c, w.keys, p.keys, w.requests[r], a.now, tenant);
      SameAuthentication(c, w, p, r, a.now);
    } else if a.RateLimit? {
      OwnRateLimit(c, w, p, r, a.call, mine, tenant);
      SameLimit(c, w, p, r, a.call);
    } else if a.IdemGet? {
      OwnGetEnabled(c, w, p, r, a.time, a.up, mine, tenant);
      SameGet(c, w, p, r, a.time, a.up);
    } else {
      SameElsewhere(c, w, p, a);
    }
  }

  lemma {:induction false} AuthenticatedOwn(c: Config, s: State, r: nat, now: int, mine: Requests, tenant: string)
    requires AllLive(c, s) && Enabled(c, s, Authenticate(r, now)) && mine(r)
    requires Selects(Apply(c, s, Authenticate(r, now)), mine, tenant)
    ensures var id := ResolveIdentity(c, s.requests[r], s.keys.table, now); id.Some? ==> id.value.tenant == tenant
  {
    var a, id := Authenticate(r, now), ResolveIdentity(c, s.requests[r], s.keys.table, now);
    assert Lives(c, s, r);
    ApplyAdvances(c, s, a);
    ProjectTagged(s.trace, r, Emits(c, s, a), r);
    if id.Some? { assert AuthenticatedIn(Apply(c, s, a), r); }
  }

  lemma {:induction false} OwnFront(c: Config, w: State, p: State, a: Action, mine: Requests)
    requires SameFront(w, p, mine) && mine(a.req) && Enabled(c, w, a) && Enabled(c, p, a) && SameOutcome(c, w, p, a)
    ensures SameFront(Apply(c, w, a), Apply(c, p, a), mine)
  {
    var w', p' := Apply(c, w, a), Apply(c, p, a);
    ApplyAdvances(c, w, a);
    ApplyAdvances(c, p, a);
    FrontOwn(w, p, w', p', mine, a.req, Requested(w, a), Next(c, w, a), Emits(c, w, a), Emits(c, p, a));
  }

  lemma {:induction false} OwnKeys(c: Config, w: State, p: State, a: Action, mine: Requests, tenant: string)
    requires AllLive(c, w) && KeysOk(c, w) && KeysOk(c, p) && Selects(w, mine, tenant)
    requires SameFront(w, p, mine) && SameKeys(w, p, mine, tenant)
    requires mine(a.req) && Enabled(c, w, a) && Enabled(c, p, a)
    ensures SameKeys(Apply(c, w, a), Apply(c, p, a), mine, tenant)
  {
    if a.ManageKeys? {
      OwnManage(c, w, p, a.req, a.op, mine, tenant);
    } else {
      OtherStepFrame(c, w, a);
      OtherStepFrame(c, p, a);
    }
  }

  /** A step of a selected request takes effect in the part too, and keeps it the tenant's part. */
  lemma {:induction false} OwnStep(c: Config, w: State, p: State, a: Action, mine: Requests, tenant: string)
    requires c.routes == ROUTES && ApiKeys.Injective(c.hash) && Sound(c, w) && KeysOk(c, p)
    requires Selects(w, mine, tenant) && Selects(Apply(c, w, a), mine, tenant) && Aloof(w, tenant)
    requires Alike(w, p, mine, tenant) && mine(a.req) && Enabled(c, w, a)
    ensures Enabled(c, p, a) && Alike(Apply(c, w, a), Apply(c, p, a), mine, tenant)
  {
    ApiKeys.HashesAreUnique(w.keys, c.hash);
    OwnEnabled(c, w, p, a, mine, tenant);
    OwnOutcome(c, w, p, a, mine, tenant);
    OwnFront(c, w, p, a, mine);
    OwnLimits(c, w, p, a, mine, tenant);
    OwnStore(c, w, p, a, mine, tenant);
    OwnKeys(c, w, p, a, mine, tenant);
  }

  lemma {:induction false} OtherFront(c: Config, w: State, p: State, a: Action, mine: Requests)
    requires SameFront(w, p, mine) && !mine(a.req) && Enabled(c, w, a)
    ensures SameFront(Apply(c, w, a), p, mine)
  {
    ApplyAdvances(c, w, a);
    FrontOther(w, p, Apply(c, w, a), mine, a.req, Requested(w, a), Next(c, w, a), Emits(c, w, a));
  }

  /** A step of any other request leaves the part alone. */
  lemma {:induction false} OtherStep(c: Config, w: State, p: State, a: Action, mine: Requests, tenant: string)
    requires c.routes == ROUTES && Sound(c, w) && Selects(w, mine, tenant) && Aloof(w, tenant)
    requires Alike(w, p, mine, tenant) && !mine(a.req) && Enabled(c, w, a)
    ensures Alike(Apply(c, w, a), p, mine, tenant)
  {
    OtherFront(c, w, p, a, mine);
    OtherLimits(c, w, p.limits, a, mine, tenant);
    OtherStore(c, w, p.store, a, mine, tenant);
    if a.ManageKeys? {
      OtherManage(c, w, p, a.req, a.op, mine, tenant);
    } else {
      OtherStepFrame(c, w, a);
    }
  }

  // ------------------------------------------------------------ whole runs

  /** What is asked of the tenants at the end of a run held at every earlier point of it. */
  lemma {:induction false} EarlierTenants(c: Config, s: State, a: Action, mine: Requests, tenant: string)
    requires AllLive(c, s) && Selects(Apply(c, s, a), mine, tenant) && Aloof(Apply(c, s, a), tenant)
    ensures Selects(s, mine, tenant) && Aloof(s, tenant)
  {
    ApplyIsLater(c, s, a);
    forall r | AuthenticatedIn(s, r)
      ensures AuthenticatedIn(Apply(c, s, a), r) && TenantOf(Apply(c, s, a), r) == TenantOf(s, r)
    {
      assert Lives(c, s, r);
    }
  }

  lemma {:induction false} InitialAlike(c: Config, mine: Requests, tenant: string)
    ensures Alike(Initial(c), Initial(c), mine, tenant)
  {}

  lemma {:induction false} RunsAlike(c: Config, actions: seq<Action>, mine: Requests, tenant: string)
    requires c.routes == ROUTES && ApiKeys.Injective(c.hash)
    requires Selects(Run(c, actions), mine, tenant) && Aloof(Run(c, actions), tenant)
    ensures Alike(Run(c, actions), Run(c, Erase(c, actions, mine)), mine, tenant)
  {
    if actions == [] {
      InitialAlike(c, mine, tenant);
    } else {
      var init, a := actions[..|actions| - 1], actions[|actions| - 1];
      RunIsSound(c, init);
      RunIsSound(c, Erase(c, init, mine));
      EarlierTenants(c, Run(c, init), a, mine, tenant);
      RunsAlike(c, init, mine, tenant);
      var w, p := Run(c, init), Run(c, Erase(c, init, mine));
      if mine(a.req) && Enabled(c, w, a) {
        RunSnoc(c, Erase(c, init, mine), a);
        OwnStep(c, w, p, a, mine, tenant);
      } else if Enabled(c, w, a) {
        OtherStep(c, w, p, a, mine, tenant);
      }
    }
  }

  /**
   Tenant isolation, end to end: erase the steps of all other tenants' requests from any run of
   the gateway, and every request of the tenant has the story it had, in the same phase, up to
   the number that the shared call counter gave its execution; and the tenant's API keys are the
   ones it had. This holds for a tenant that all tenants of the run are apart from.
   */
  lemma {:induction false} TenantsRunAlone(c: Config, actions: seq<Action>, mine: Requests, tenant: string, r: nat)
    requires c.routes == ROUTES && ApiKeys.Injective(c.hash)
    requires Selects(Run(c, actions), mine, tenant) && Aloof(Run(c, actions), tenant)
    ensures var w, p := Run(c, actions), Run(c, Erase(c, actions, mine));
      && (mine(r) ==> SameEvents(Story(w, r), Story(p, r)))
      && (mine(r) && r in w.phases ==> r in p.phases && p.phases[r] == w.phases[r])
      && (!mine(r) ==> r !in p.phases)
      && A.RowsOf(w.keys.table, p.keys.table, tenant)
  {
    RunsAlike(c, actions, mine, tenant);
  }
}
