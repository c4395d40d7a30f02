/** The rate limit, end to end: from the admissions of the limiter to the handlers that run behind it. */
module PipelineLimits {
  import opened Common
  import opened Pipeline
  import opened PipelineStore
  import opened Routing
  import F = Failover
  import I = Idempotency
  import Keys
  import L = SharedLimiter
  import P = Policy
  import R = RedisLimiter
  import Y = LossyLimiter

  predicate AdmittedFor(e: Event, tenant: string, path: string, lo: int, hi: int) {
    e.Admitted? && e.tenant == tenant && e.path == path && lo < e.stamp <= hi
  }

  function CountAdmitted(tr: Trace, tenant: string, path: string, lo: int, hi: int): nat {
    if tr == [] then 0 else
      CountAdmitted(tr[..|tr| - 1], tenant, path, lo, hi)
      + (if AdmittedFor(tr[|tr| - 1].1, tenant, path, lo, hi) then 1 else 0)
  }

  lemma {:induction false} CountAdmittedSnoc(
      tr: Trace, r: nat, e: Event, tenant: string, path: string, lo: int, hi: int)
    ensures CountAdmitted(tr + [(r, e)], tenant, path, lo, hi)
      == CountAdmitted(tr, tenant, path, lo, hi) + (if AdmittedFor(e, tenant, path, lo, hi) then 1 else 0)
  {
    assert (tr + [(r, e)])[..|tr|] == tr;
  }

  // ------------------------------------------------------------ steps that leave the limiter alone

  /** Two states with the same limiter and the same admissions. */
  ghost predicate SameAdmissions(s: State, s': State, tenant: string, path: string, lo: int, hi: int) {
    && s'.limits == s.limits && s'.served == s.served
    && CountAdmitted(s'.trace, tenant, path, lo, hi) == CountAdmitted(s.trace, tenant, path, lo, hi)
  }

  lemma {:induction false} EmitSame(
      s: State, s': State, r: nat, e: Event, tenant: string, path: string, lo: int, hi: int)
    requires s'.limits == s.limits && s'.served == s.served && s'.trace == s.trace + [(r, e)] && !e.Admitted?
    ensures SameAdmissions(s, s', tenant, path, lo, hi)
  {
    CountAdmittedSnoc(s.trace, r, e, tenant, path, lo, hi);
  }

  lemma {:induction false} DecideSame(
      s: State, r: nat, d: P.Decision, body: string, tenant: string, path: string, lo: int, hi: int)
    requires InPhase(s, r) && s.phases[r].Cleared?
    ensures SameAdmissions(s, DecideStep(s, r, d, body), tenant, path, lo, hi)
  {
    var p, q, s' := s.phases[r], s.requests[r], DecideStep(s, r, d, body);
    var s1 := Emit(s, r, Audited(InputOf(p.id, q), d, q.id), Authorized(p.id, p.capture));
    EmitSame(s, s1, r, LastEvent(s1), tenant, path, lo, hi);
    if !d.allow { EmitSame(s1, s', r, LastEvent(s'), tenant, path, lo, hi); }
  }

  lemma {:induction false} HandleSame(
      s: State, r: nat, status: int, body: string, ctype: string, tenant: string, path: string, lo: int, hi: int)
    requires InPhase(s, r) && s.phases[r].Authorized?
    ensures SameAdmissions(s, HandleStep(s, r, status, body, ctype), tenant, path, lo, hi)
  {
    var s' := HandleStep(s, r, status, body, ctype);
    EmitSame(s, s', r, LastEvent(s'), tenant, path, lo, hi);
  }

  lemma {:induction false} IdemGetSame(
      s: State, r: nat, time: int, up: bool, tenant: string, path: string, lo: int, hi: int)
    requires InPhase(s, r) && s.phases[r].Passed?
    ensures SameAdmissions(s, IdemGetStep(s, r, time, up), tenant, path, lo, hi)
  {
    var s' := IdemGetStep(s, r, time, up);
    if s'.trace != s.trace { EmitSame(s, s', r, LastEvent(s'), tenant, path, lo, hi); }
  }

  lemma {:induction false} AuthenticateSame(
      c: Config, s: State, r: nat, now: int, tenant: string, path: string, lo: int, hi: int)
    requires InPhase(s, r)
    ensures SameAdmissions(s, AuthenticateStep(c, s, r, now), tenant, path, lo, hi)
  {
    var s' := AuthenticateStep(c, s, r, now);
    EmitSame(s, s', r, LastEvent(s'), tenant, path, lo, hi);
  }

  lemma {:induction false} ApplySame(c: Config, s: State, a: Action, tenant: string, path: string, lo: int, hi: int)
    requires Enabled(c, s, a) && !a.RateLimit? && !a.IdemSet?
    ensures SameAdmissions(s, Apply(c, s, a), tenant, path, lo, hi)
  {
    match a {
      case Arrive(_, _) =>
      case Authenticate(r, now) => AuthenticateSame(c, s, r, now, tenant, path, lo, hi);
      case IdemGet(r, time, up) => IdemGetSame(s, r, time, up, tenant, path, lo, hi);
      case Decide(r, d, body) => DecideSame(s, r, d, body, tenant, path, lo, hi);
      case ManageKeys(_, _) =>
      case Handle(r, status, body, ctype) => HandleSame(s, r, status, body, ctype, tenant, path, lo, hi);
    }
  }

  // ------------------------------------------------------------ the shared limiter

  ghost predicate PlainRoutes(c: Config) {
    forall route :: route in c.routes ==> Keys.PlainPattern(route.path)
  }

  /** No record was ever stored under the pair's limiter key. */
  ghost predicate Unwritten(s: State, tenant: string, path: string) {
    forall m :: !I.StoredAt(s.store.trace, m, L.RedisKey(tenant, path))
  }

  /** Redis does not answer on the key of a record for at least this long after the record was stored. */
  predicate Lasts(c: Config, gap: int) {
    c.ttl == 0 || gap <= c.ttl + 1
  }

  /** A record outlasts every window in which the sorted set it displaced could matter. */
  predicate Outlasts(c: Config) {
    Lasts(c, c.window)
  }

  predicate Evaluates(a: Action) {
    a.RateLimit? && !a.call.reply.Unreachable?
  }

  predicate Stores(a: Action) {
    a.IdemSet? && a.up
  }

  /** The script and the Sets after it run by one server clock, which does not run backwards. */
  ghost predicate OneClock(actions: seq<Action>) {
    forall i, j :: 0 <= i < j < |actions| && Evaluates(actions[i]) && Stores(actions[j]) ==>
      actions[i].call.redis.server <= actions[j].time
  }

  /**
   The stores and the trace follow a run of the pair's own limiters in which the sorted set is
   lost whenever a record takes its place.
   */
  ghost predicate Follows(
      c: Config, s: State, steps: seq<Y.Step>, tenant: string, path: string, lo: int, hi: int)
  {
    && Y.Addressed(steps, c.instances) && Y.Requests(steps) == L.Own(s.served, tenant, path)
    && L.Mirrors(s.limits, Y.Run(steps, c.instances, c.limit, c.window), tenant, path)
    && CountAdmitted(s.trace, tenant, path, lo, hi) == Y.AdmittedIn(steps, c.instances, c.limit, c.window, lo, hi)
  }

  /** The record that displaced the set is still there, or has lapsed long enough after that. */
  ghost predicate Displaced(store: I.State, key: string, steps: seq<Y.Step>, gap: int) {
    forall i :: 0 <= i < |steps| && steps[i].Lose? ==>
      && steps[i].at <= store.clock && key in store.cells
      && (store.cells[key].deadline.Some? ==> steps[i].at + gap <= store.cells[key].deadline.value + 1)
  }

  ghost predicate Tracks(
      c: Config, s: State, steps: seq<Y.Step>, gap: int, tenant: string, path: string, lo: int, hi: int)
  {
    && Follows(c, s, steps, tenant, path, lo, hi) && Y.Timely(steps, gap)
    && Displaced(s.store, L.RedisKey(tenant, path), steps, gap)
  }

  lemma {:induction false} RateLimitCounts(
      s: State, r: nat, call: F.Request, o: L.Outcome, tenant: string, path: string, lo: int, hi: int)
    requires InPhase(s, r) && s.phases[r].Known?
    ensures var s', q := RateLimitStep(s, r, call, o), Tag(s, r, call);
      && s'.served == s.served + [q] && s'.limits == o.stores
      && CountAdmitted(s'.trace, tenant, path, lo, hi) == CountAdmitted(s.trace, tenant, path, lo, hi)
         + (if o.admitted && q.tenant == tenant && q.path == path && lo < F.Stamp(call) <= hi then 1 else 0)
  {
    CountAdmittedSnoc(s.trace, r, LastEvent(RateLimitStep(s, r, call, o)), tenant, path, lo, hi);
  }

  /** The step of the pair's limiters that a request served by the gateway is, if it is the pair's. */
  function Asked(steps: seq<Y.Step>, q: L.Tagged, tenant: string, path: string): seq<Y.Step> {
    if q.tenant == tenant && q.path == path then steps + [Y.Ask(q.request)] else steps
  }

  /** One more request over the shared stores. */
  lemma {:induction false} OneAdmission(
      c: Config, stores: L.Stores, served: seq<L.Tagged>, steps: seq<Y.Step>, q: L.Tagged,
      tenant: string, path: string, lo: int, hi: int)
    requires Keys.PlainPattern(path) && Keys.PlainPattern(q.path) && q.request.instance < |stores.logs|
    requires Y.Addressed(steps, c.instances) && Y.Requests(steps) == L.Own(served, tenant, path)
    requires L.Mirrors(stores, Y.Run(steps, c.instances, c.limit, c.window), tenant, path)
    ensures var steps' := Asked(steps, q, tenant, path);
      var o := L.Serve(stores, q, c.limit, c.window);
      && Y.Addressed(steps', c.instances) && Y.Requests(steps') == L.Own(served + [q], tenant, path)
      && L.Mirrors(o.stores, Y.Run(steps', c.instances, c.limit, c.window), tenant, path)
      && Y.AdmittedIn(steps', c.instances, c.limit, c.window, lo, hi)
         == Y.AdmittedIn(steps, c.instances, c.limit, c.window, lo, hi)
            + (if o.admitted && q.tenant == tenant && q.path == path && lo < F.Stamp(q.request) <= hi then 1 else 0)
  {
    var system := Y.Run(steps, c.instances, c.limit, c.window);
    L.OwnSnoc(served, q, tenant, path);
    L.ServeMirrors(stores, system, q, c.limit, c.window, tenant, path);
    if q.tenant == tenant && q.path == path {
      L.ServeOwn(stores, system, q, c.limit, c.window);
      Y.RunSnoc(steps, Y.Ask(q.request), c.instances, c.limit, c.window, lo, hi);
    }
  }

  lemma {:induction false} RateLimitFollows(
      c: Config, s: State, steps: seq<Y.Step>, r: nat, call: F.Request, tenant: string, path: string, lo: int, hi: int)
    requires Follows(c, s, steps, tenant, path, lo, hi) && Enabled(c, s, RateLimit(r, call))
    requires Keys.PlainPattern(path) && Keys.PlainPattern(s.requests[r].route.path)
    ensures var steps' := Asked(steps, Tag(s, r, call), tenant, path);
      Follows(c, Apply(c, s, RateLimit(r, call)), steps', tenant, path, lo, hi)
  {
    var q := Tag(s, r, call);
    RateLimitCounts(s, r, call, L.Serve(s.limits, q, c.limit, c.window), tenant, path, lo, hi);
    OneAdmission(c, s.limits, s.served, steps, q, tenant, path, lo, hi);
  }

  /** Redis answers on the pair's key only once the record on it has lapsed. */
  lemma {:induction false} ReachedAfter(
      c: Config, s: State, steps: seq<Y.Step>, gap: int, r: nat, call: F.Request, tenant: string, path: string)
    requires Enabled(c, s, RateLimit(r, call)) && Y.Timely(steps, gap)
    requires Displaced(s.store, L.RedisKey(tenant, path), steps, gap)
    ensures Y.Timely(Asked(steps, Tag(s, r, call), tenant, path), gap)
    ensures Displaced(s.store, L.RedisKey(tenant, path), Asked(steps, Tag(s, r, call), tenant, path), gap)
  {
    var q := Tag(s, r, call);
    if q.tenant == tenant && q.path == path { Y.TimelySnoc(steps, Y.Ask(call), gap); }
  }

  lemma {:induction false} RateLimitTracks(
      c: Config, s: State, steps: seq<Y.Step>, gap: int, r: nat, call: F.Request,
      tenant: string, path: string, lo: int, hi: int)
    requires Enabled(c, s, RateLimit(r, call)) && Tracks(c, s, steps, gap, tenant, path, lo, hi)
    requires Keys.PlainPattern(path) && Keys.PlainPattern(s.requests[r].route.path)
    ensures var steps' := Asked(steps, Tag(s, r, call), tenant, path);
      Tracks(c, Apply(c, s, RateLimit(r, call)), steps', gap, tenant, path, lo, hi)
  {
    RateLimitFollows(c, s, steps, r, call, tenant, path, lo, hi);
    ReachedAfter(c, s, steps, gap, r, call, tenant, path);
    StoreFrame(c, s, RateLimit(r, call));
  }

  lemma {:induction false} StoreFrame(c: Config, s: State, a: Action)
    requires Enabled(c, s, a)
    ensures Apply(c, s, a).store.clock >= s.store.clock
    ensures !a.IdemSet? ==> Apply(c, s, a).store.cells == s.store.cells
  {}

  lemma {:induction false} IdemSetEffect(c: Config, s: State, r: nat, time: int, up: bool)
    requires Enabled(c, s, IdemSet(r, time, up)) && Linked(s, r)
    ensures var s', p := Apply(c, s, IdemSet(r, time, up)), s.phases[r];
      && s'.served == s.served && s'.trace == s.trace
      && if up then
           && s'.limits == L.Overwrite(s.limits, p.key)
           && s'.store.cells == s.store.cells[p.key := I.Cell(I.Json(p.response), I.Deadline(time, c.ttl))]
         else s'.limits == s.limits && s'.store.cells == s.store.cells
  {}

  /** The pair's key was not written, or what was written lasts. */
  ghost predicate Spares(c: Config, s: State, gap: int, time: int, key: string, tenant: string, path: string) {
    key != L.RedisKey(tenant, path) || (Lasts(c, gap) && ReachedBy(s, time, tenant, path))
  }

  /** The step of the pair's limiters that a stored record is, if it takes the place of their set. */
  function Stored(steps: seq<Y.Step>, time: int, key: string, tenant: string, path: string): seq<Y.Step> {
    if key == L.RedisKey(tenant, path) then steps + [Y.Lose(time)] else steps
  }

  lemma {:induction false} SetFollows(
      c: Config, s: State, s': State, steps: seq<Y.Step>, time: int, key: string,
      tenant: string, path: string, lo: int, hi: int)
    requires Follows(c, s, steps, tenant, path, lo, hi)
    requires s'.limits == L.Overwrite(s.limits, key) && s'.served == s.served && s'.trace == s.trace
    ensures Follows(c, s', Stored(steps, time, key, tenant, path), tenant, path, lo, hi)
  {
    var system := Y.Run(steps, c.instances, c.limit, c.window);
    if key == L.RedisKey(tenant, path) {
      L.OverwriteOwn(s.limits, system, tenant, path);
      Y.RunSnoc(steps, Y.Lose(time), c.instances, c.limit, c.window, lo, hi);
    } else {
      L.OverwriteOther(s.limits, system, key, tenant, path);
    }
  }

  /** The record on the pair's key is replaced by a later one, or another key gets a record. */
  lemma {:induction false} StillDisplaced(
      was: I.State, store: I.State, steps: seq<Y.Step>, gap: int, pair: string, key: string, cell: I.Cell)
    requires Displaced(was, pair, steps, gap) && was.clock <= store.clock && store.cells == was.cells[key := cell]
    requires key == pair && cell.deadline.Some? ==> store.clock + gap <= cell.deadline.value + 1
    ensures Displaced(store, pair, steps, gap)
  {}

  lemma {:induction false} NewlyDisplaced(store: I.State, steps: seq<Y.Step>, gap: int, time: int, key: string)
    requires Displaced(store, key, steps, gap) && time <= store.clock && key in store.cells
    requires store.cells[key].deadline.Some? ==> time + gap <= store.cells[key].deadline.value + 1
    ensures Displaced(store, key, steps + [Y.Lose(time)], gap)
  {}

  lemma {:induction false} SetDisplaces(
      c: Config, s: State, store: I.State, steps: seq<Y.Step>, gap: int, time: int, key: string, response: I.Response,
      tenant: string, path: string)
    requires Y.Timely(steps, gap) && Y.Requests(steps) == L.Own(s.served, tenant, path)
    requires Displaced(s.store, L.RedisKey(tenant, path), steps, gap) && Spares(c, s, gap, time, key, tenant, path)
    requires s.store.clock <= time == store.clock
    requires store.cells == s.store.cells[key := I.Cell(I.Json(response), I.Deadline(time, c.ttl))]
    ensures var steps' := Stored(steps, time, key, tenant, path);
      Y.Timely(steps', gap) && Displaced(store, L.RedisKey(tenant, path), steps', gap)
  {
    var cell := I.Cell(I.Json(response), I.Deadline(time, c.ttl));
    StillDisplaced(s.store, store, steps, gap, L.RedisKey(tenant, path), key, cell);
    if key == L.RedisKey(tenant, path) {
      Y.TimelySnoc(steps, Y.Lose(time), gap);
      NewlyDisplaced(store, steps, gap, time, key);
    }
  }

  lemma {:induction false} IdemSetTracks(
      c: Config, s: State, steps: seq<Y.Step>, gap: int, r: nat, time: int, up: bool,
      tenant: string, path: string, lo: int, hi: int) returns (steps': seq<Y.Step>)
    requires Enabled(c, s, IdemSet(r, time, up)) && Linked(s, r) && Tracks(c, s, steps, gap, tenant, path, lo, hi)
    requires up ==> Spares(c, s, gap, time, s.phases[r].key, tenant, path)
    ensures Tracks(c, Apply(c, s, IdemSet(r, time, up)), steps', gap, tenant, path, lo, hi)
  {
    var s', p := Apply(c, s, IdemSet(r, time, up)), s.phases[r];
    IdemSetEffect(c, s, r, time, up);
    StoreFrame(c, s, IdemSet(r, time, up));
    steps' := steps;
    if up {
      steps' := Stored(steps, time, p.key, tenant, path);
      SetFollows(c, s, s', steps, time, p.key, tenant, path, lo, hi);
      SetDisplaces(c, s, s'.store, steps, gap, time, p.key, p.response, tenant, path);
    }
  }

  lemma {:induction false} ApplyTracks(
      c: Config, s: State, steps: seq<Y.Step>, gap: int, a: Action, tenant: string, path: string, lo: int, hi: int)
      returns (steps': seq<Y.Step>)
    requires AllLive(c, s) && AllLinked(s) && PlainRoutes(c) && Keys.PlainPattern(path)
    requires Tracks(c, s, steps, gap, tenant, path, lo, hi)
    requires Stores(a) && Enabled(c, s, a) ==> Spares(c, s, gap, a.time, s.phases[a.req].key, tenant, path)
    ensures Tracks(c, Apply(c, s, a), steps', gap, tenant, path, lo, hi)
  {
    steps' := steps;
    if Enabled(c, s, a) {
      if a.RateLimit? {
        assert Lives(c, s, a.req);
        RateLimitTracks(c, s, steps, gap, a.req, a.call, tenant, path, lo, hi);
        steps' := Asked(steps, Tag(s, a.req, a.call), tenant, path);
      } else if a.IdemSet? {
        assert Linked(s, a.req);
        steps' := IdemSetTracks(c, s, steps, gap, a.req, a.time, a.up, tenant, path, lo, hi);
      } else {
        ApplySame(c, s, a, tenant, path, lo, hi);
        StoreFrame(c, s, a);
      }
    }
  }

  lemma {:induction false} PutIsSeen(c: Config, s: State, r: nat, time: int, up: bool)
    requires Enabled(c, s, IdemSet(r, time, up)) && Linked(s, r)
    ensures var tr := Apply(c, s, IdemSet(r, time, up)).store.trace;
      up ==> I.StoredAt(tr, |tr| - 1, s.phases[r].key)
  {}

  ghost predicate CalledBy(actions: seq<Action>, t: int) {
    forall i :: 0 <= i < |actions| && Evaluates(actions[i]) ==> actions[i].call.redis.server <= t
  }

  lemma {:induction false} ServedFrame(c: Config, s: State, a: Action)
    requires Enabled(c, s, a) && !a.RateLimit?
    ensures Apply(c, s, a).served == s.served
  {}

  /** Every script call for the pair came by time t. */
  ghost predicate ReachedBy(s: State, t: int, tenant: string, path: string) {
    R.ServerAtMost(F.RedisCalls(L.Own(s.served, tenant, path)), t)
  }

  lemma {:induction false} ApplyServes(c: Config, s: State, a: Action, t: int, tenant: string, path: string)
    requires ReachedBy(s, t, tenant, path) && (Evaluates(a) ==> a.call.redis.server <= t)
    ensures ReachedBy(Apply(c, s, a), t, tenant, path)
  {
    if Enabled(c, s, a) {
      if a.RateLimit? {
        L.OwnSnoc(s.served, Tag(s, a.req, a.call), tenant, path);
        CallsSnoc(L.Own(s.served, tenant, path), a.call, t);
      } else {
        ServedFrame(c, s, a);
      }
    }
  }

  lemma {:induction false} ServedBy(c: Config, actions: seq<Action>, t: int, tenant: string, path: string)
    requires CalledBy(actions, t)
    ensures ReachedBy(Run(c, actions), t, tenant, path)
  {
    if actions != [] {
      var init, a := actions[..|actions| - 1], actions[|actions| - 1];
      ServedBy(c, init, t, tenant, path);
      ApplyServes(c, Run(c, init), a, t, tenant, path);
    }
  }

  lemma {:induction false} CallsSnoc(own: seq<F.Request>, q: F.Request, t: int)
    requires R.ServerAtMost(F.RedisCalls(own), t) && (!q.reply.Unreachable? ==> q.redis.server <= t)
    ensures R.ServerAtMost(F.RedisCalls(own + [q]), t)
  {
    assert (own + [q])[..|own|] == own;
  }

  /** No record was stored under the pair's limiter key, or records last. */
  ghost predicate Spared(c: Config, actions: seq<Action>, gap: int, tenant: string, path: string) {
    Unwritten(Run(c, actions), tenant, path) || (Lasts(c, gap) && OneClock(actions))
  }

  lemma {:induction false} EarlierIsSpared(c: Config, actions: seq<Action>, gap: int, tenant: string, path: string)
    requires actions != [] && Spared(c, actions, gap, tenant, path)
    ensures Spared(c, actions[..|actions| - 1], gap, tenant, path)
  {
    var s, key := Run(c, actions[..|actions| - 1]), L.RedisKey(tenant, path);
    ApplyGrows(c, s, actions[|actions| - 1]);
    assert forall m :: I.StoredAt(s.store.trace, m, key) ==> I.StoredAt(Run(c, actions).store.trace, m, key);
  }

  lemma {:induction false} SetIsSpared(c: Config, actions: seq<Action>, gap: int, tenant: string, path: string)
    requires actions != [] && Spared(c, actions, gap, tenant, path)
    requires var s, a := Run(c, actions[..|actions| - 1]), actions[|actions| - 1];
      Stores(a) && Enabled(c, s, a) && Linked(s, a.req)
    ensures var s, a := Run(c, actions[..|actions| - 1]), actions[|actions| - 1];
      Spares(c, s, gap, a.time, s.phases[a.req].key, tenant, path)
  {
    var init, a := actions[..|actions| - 1], actions[|actions| - 1];
    PutIsSeen(c, Run(c, init), a.req, a.time, a.up);
    if Lasts(c, gap) && OneClock(actions) { ServedBy(c, init, a.time, tenant, path); }
  }

  /**
   Over the one Redis keyspace and the one map per instance that all tenants share, the stores
   and the admissions of a tenant's route in the gateway's trace are at every point those of the
   pair's own limiters on the pair's own requests, but for the loss of the sorted set when a
   record takes its place; and Redis does not answer for as long as that record lasts.
   */
  lemma {:induction false} RunTracks(
      c: Config, actions: seq<Action>, gap: int, tenant: string, path: string, lo: int, hi: int)
      returns (steps: seq<Y.Step>)
    requires PlainRoutes(c) && Keys.PlainPattern(path) && Spared(c, actions, gap, tenant, path)
    ensures Tracks(c, Run(c, actions), steps, gap, tenant, path, lo, hi)
  {
    steps := [];
    if actions == [] {
      InitialTracks(c, gap, tenant, path, lo, hi);
    } else {
      var init, a := actions[..|actions| - 1], actions[|actions| - 1];
      EarlierIsSpared(c, actions, gap, tenant, path);
      var earlier := RunTracks(c, init, gap, tenant, path, lo, hi);
      RunLives(c, init);
      RunLinks(c, init);
      var s := Run(c, init);
      if Stores(a) && Enabled(c, s, a) {
        assert Linked(s, a.req);
        SetIsSpared(c, actions, gap, tenant, path);
      }
      steps := ApplyTracks(c, s, earlier, gap, a, tenant, path, lo, hi);
    }
  }

  lemma {:induction false} InitialTracks(c: Config, gap: int, tenant: string, path: string, lo: int, hi: int)
    ensures Tracks(c, Initial(c), [], gap, tenant, path, lo, hi)
  {}

  // ------------------------------------------------------------ losses that nobody sees

  /** The key holds a record for as long as the sorted set would have lived. */
  predicate Covered(cells: I.Cells, key: string, z: R.ZSet) {
    key in cells && (cells[key].deadline.Some? ==> R.ExpiresBy(z, cells[key].deadline.value))
  }

  /**
   What the shared stores hold for a pair is what the pair's own limiters hold, or a record took
   the place of the pair's sorted set and lives for as long as the set would have lived.
   */
  ghost predicate Shown(s: State, own: F.System, tenant: string, path: string) {
    || L.Mirrors(s.limits, own, tenant, path)
    || (L.Mirrors(s.limits, Y.Blank(own), tenant, path)
        && Covered(s.store.cells, L.RedisKey(tenant, path), own.redis.zset))
  }

  /**
   What the stores hold for a pair shows the pair's own limiters after the pair's own requests,
   and the admissions of the pair in the trace are theirs.
   */
  ghost predicate LimiterAgrees(c: Config, s: State, tenant: string, path: string, lo: int, hi: int) {
    var own := L.Own(s.served, tenant, path);
    && F.Addressed(own, c.instances)
    && Shown(s, F.Run(own, c.instances, c.limit, c.window), tenant, path)
    && CountAdmitted(s.trace, tenant, path, lo, hi) == F.AdmittedIn(own, c.instances, c.limit, c.window, lo, hi)
  }

  lemma {:induction false} TracksUnseen(
      c: Config, s: State, steps: seq<Y.Step>, tenant: string, path: string, lo: int, hi: int)
    requires Tracks(c, s, steps, c.window + 1, tenant, path, lo, hi)
    ensures LimiterAgrees(c, s, tenant, path, lo, hi)
  {
    Y.LossesAreUnseen(steps, c.instances, c.limit, c.window, lo, hi);
    if Y.Pending(steps).Some? { var i := Y.PendingIsLoss(steps); }
  }

  /**
   If no record was stored under the pair's key, or records outlast the sorted sets whose place
   they take, the admissions of a tenant's route are exactly those of limiters that are its own.
   */
  lemma {:induction false} RunLimiter(c: Config, actions: seq<Action>, tenant: string, path: string, lo: int, hi: int)
    requires PlainRoutes(c) && Keys.PlainPattern(path) && Spared(c, actions, c.window + 1, tenant, path)
    ensures LimiterAgrees(c, Run(c, actions), tenant, path, lo, hi)
  {
    var steps := RunTracks(c, actions, c.window + 1, tenant, path, lo, hi);
    TracksUnseen(c, Run(c, actions), steps, tenant, path, lo, hi);
  }

  // ------------------------------------------------------------ handlers

  /** The requests admitted for a tenant on a route with a stamp in (lo, hi]. */
  function AdmittedRequests(tr: Trace, tenant: string, path: string, lo: int, hi: int): set<nat> {
    if tr == [] then {} else
      var (r, e) := tr[|tr| - 1];
      var init := AdmittedRequests(tr[..|tr| - 1], tenant, path, lo, hi);
      if AdmittedFor(e, tenant, path, lo, hi) then init + {r} else init
  }

  lemma {:induction false} AdmittedRequestsAreFew(tr: Trace, tenant: string, path: string, lo: int, hi: int)
    ensures |AdmittedRequests(tr, tenant, path, lo, hi)| <= CountAdmitted(tr, tenant, path, lo, hi)
  {
    if tr != [] { AdmittedRequestsAreFew(tr[..|tr| - 1], tenant, path, lo, hi); }
  }

  lemma {:induction false} AdmittedRequestsAreAll(
      tr: Trace, r: nat, i: int, tenant: string, path: string, lo: int, hi: int)
    requires 0 <= i < |Project(tr, r)| && AdmittedFor(Project(tr, r)[i], tenant, path, lo, hi)
    ensures r in AdmittedRequests(tr, tenant, path, lo, hi)
  {
    if tr != [] && i < |Project(tr[..|tr| - 1], r)| {
      AdmittedRequestsAreAll(tr[..|tr| - 1], r, i, tenant, path, lo, hi);
    }
  }

  /** Request r ran a handler for the tenant on the route, admitted with a stamp in (lo, hi]. */
  predicate RanWithin(tr: Trace, r: nat, tenant: string, path: string, lo: int, hi: int) {
    var es := Project(tr, r);
    |es| == 4 && RunsHandler(es[3]) && AdmittedFor(es[1], tenant, path, lo, hi)
  }

  /** Clocks and members of the pair's requests are as the limiter bounds need them. */
  ghost predicate Disciplined(c: Config, s: State, tenant: string, path: string, e: nat, d: nat) {
    var own := L.Own(s.served, tenant, path);
    F.FreshMembers(own) && F.Clocked(own, c.instances, e, d)
  }

  /**
   The limit, end to end: however requests of all tenants interleave and Redis fails, the handler
   runs for one tenant on one route in at most limit requests of a window for each instance that
   fell back within it, and limit more if Redis answered within it: at most (N + 1) * limit.
   */
  lemma {:induction false} HandlerRunsAreLimited(
      c: Config, actions: seq<Action>, tenant: string, path: string, e: nat, d: nat, x: int, hi: int, ran: set<nat>)
    requires PlainRoutes(c) && Keys.PlainPattern(path) && Spared(c, actions, c.window, tenant, path)
    requires Disciplined(c, Run(c, actions), tenant, path, e, d)
    requires hi <= x + c.window - Max(2 * e, d)
    requires forall r :: r in ran ==> RanWithin(Run(c, actions).trace, r, tenant, path, x, hi)
    ensures var own := L.Own(Run(c, actions).served, tenant, path);
      |ran| <= F.Shares(own, c.instances, x, hi) * Max(c.limit, 0)
    ensures |ran| <= (c.instances + 1) * Max(c.limit, 0)
  {
    var steps := RunTracks(c, actions, c.window, tenant, path, x, hi);
    RunsAreLimited(c, Run(c, actions), steps, tenant, path, e, d, x, hi, ran);
    SharesAreFew(c, Run(c, actions), tenant, path, x, hi, |ran|);
  }

  lemma {:induction false} RunsAreLimited(
      c: Config, s: State, steps: seq<Y.Step>, tenant: string, path: string, e: nat, d: nat, x: int, hi: int,
      ran: set<nat>)
    requires Tracks(c, s, steps, c.window, tenant, path, x, hi) && Disciplined(c, s, tenant, path, e, d)
    requires hi <= x + c.window - Max(2 * e, d)
    requires forall r :: r in ran ==> RanWithin(s.trace, r, tenant, path, x, hi)
    ensures |ran| <= F.Shares(L.Own(s.served, tenant, path), c.instances, x, hi) * Max(c.limit, 0)
  {
    RanWasAdmitted(s.trace, tenant, path, x, hi, ran);
    Y.SharesHold(steps, c.instances, c.limit, c.window, e, d, x, hi);
  }

  lemma {:induction false} SharesAreFew(
      c: Config, s: State, tenant: string, path: string, x: int, hi: int, ran: nat)
    requires ran <= F.Shares(L.Own(s.served, tenant, path), c.instances, x, hi) * Max(c.limit, 0)
    ensures ran <= (c.instances + 1) * Max(c.limit, 0)
  {
    F.SharesAreFew(L.Own(s.served, tenant, path), c.instances, x, hi, ran, Max(c.limit, 0));
  }

  lemma {:induction false} RanWasAdmitted(tr: Trace, tenant: string, path: string, lo: int, hi: int, ran: set<nat>)
    requires forall r :: r in ran ==> RanWithin(tr, r, tenant, path, lo, hi)
    ensures |ran| <= CountAdmitted(tr, tenant, path, lo, hi)
  {
    forall r | r in ran ensures r in AdmittedRequests(tr, tenant, path, lo, hi) {
      assert RanWithin(tr, r, tenant, path, lo, hi);
      AdmittedRequestsAreAll(tr, r, 1, tenant, path, lo, hi);
    }
    R.SubsetSize(ran, AdmittedRequests(tr, tenant, path, lo, hi));
    AdmittedRequestsAreFew(tr, tenant, path, lo, hi);
  }

  // ------------------------------------------------------------ the gateway's own routes

  lemma {:induction false} GatewayRoutesArePlain(c: Config)
    requires c.routes == ROUTES
    ensures PlainRoutes(c)
  {
    forall route | route in c.routes ensures Keys.PlainPattern(route.path) {
      RoutesArePlain(route);
    }
  }

  /** No tenant of the run crosses into this one. */
  ghost predicate Uncrossed(s: State, tenant: string) {
    forall r :: AuthenticatedIn(s, r) ==> !Keys.Crosses(TenantOf(s, r), tenant, ORDERS)
  }

  /** Then no record is ever stored under one of its limiter keys. */
  lemma {:induction false} UncrossedIsUnwritten(c: Config, actions: seq<Action>, tenant: string, path: string)
    requires c.routes == ROUTES && Keys.PlainPattern(path) && Uncrossed(Run(c, actions), tenant)
    ensures Unwritten(Run(c, actions), tenant, path)
  {
    RunLives(c, actions);
    RunIsFaithful(c, actions);
    var s := Run(c, actions);
    forall m ensures !I.StoredAt(s.store.trace, m, L.RedisKey(tenant, path)) {
      if 0 <= m < |s.store.trace| && s.store.trace[m].Put? {
        assert Told(s, m);
        PutIsElsewhere(c, s, m, tenant, path);
      }
    }
  }

  lemma {:induction false} PutIsElsewhere(c: Config, s: State, m: int, tenant: string, path: string)
    requires c.routes == ROUTES && Keys.PlainPattern(path) && AllLive(c, s) && Uncrossed(s, tenant)
    requires 0 <= m < |s.store.trace| && s.store.trace[m].Put? && Told(s, m)
    ensures s.store.trace[m].key != L.RedisKey(tenant, path)
  {
    var r, key := s.store.trace[m].req, s.store.trace[m].key;
    assert Lives(c, s, r);
    RoutesArePlain(s.requests[r].route);
    var a, k := TenantOf(s, r), s.requests[r].idemKey;
    assert key == StoreKey(a, s.requests[r]);
    if key == L.RedisKey(tenant, path) { Keys.NamespacesMeetOnlyIf(tenant, path, a, ORDERS, k); }
  }

  /**
   The limit on the gateway's own routes holds for a tenant whatever the other tenants' ids and
   traffic, if records outlast the limiter's sorted sets, as they do with the default settings; and
   if they do not, as long as no tenant of the run crosses into this one by its Idempotency-Keys.
   */
  lemma {:induction false} GatewayRunsAreLimited(
      c: Config, actions: seq<Action>, tenant: string, route: Route, e: nat, d: nat, x: int, hi: int, ran: set<nat>)
    requires c.routes == ROUTES && route in ROUTES
    requires (Outlasts(c) && OneClock(actions)) || Uncrossed(Run(c, actions), tenant)
    requires Disciplined(c, Run(c, actions), tenant, route.path, e, d) && hi <= x + c.window - Max(2 * e, d)
    requires forall r :: r in ran ==> RanWithin(Run(c, actions).trace, r, tenant, route.path, x, hi)
    ensures |ran| <= (c.instances + 1) * Max(c.limit, 0)
    ensures var own := L.Own(Run(c, actions).served, tenant, route.path);
      |ran| <= F.Shares(own, c.instances, x, hi) * Max(c.limit, 0)
  {
    GatewayRoutesArePlain(c);
    RoutesArePlain(route);
    if Uncrossed(Run(c, actions), tenant) { UncrossedIsUnwritten(c, actions, tenant, route.path); }
    HandlerRunsAreLimited(c, actions, tenant, route.path, e, d, x, hi, ran);
  }
}
