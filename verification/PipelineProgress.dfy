/**
 Progress of the gateway: whatever has happened, every request can still be answered, and the key
 handlers do what they were asked (internal/gateway/router.go, internal/auth/apikey_handler.go).
 */
module PipelineProgress {
  import opened Common
  import opened Identities
  import opened Pipeline
  import opened PipelineKeys
  import opened PipelineStore
  import ApiKeys
  import F = Failover
  import L = SharedLimiter
  import P = Policy
  import R = RedisLimiter

  // ------------------------------------------------------------ every request can finish

  lemma {:induction false} ApplyKeepsInstances(c: Config, s: State, a: Action)
    ensures |Apply(c, s, a).limits.logs| == |s.limits.logs|
  {}

  lemma {:induction false} RunInstances(c: Config, actions: seq<Action>)
    ensures |Run(c, actions).limits.logs| == c.instances
  {
    if actions != [] {
      RunInstances(c, actions[..|actions| - 1]);
      ApplyKeepsInstances(c, Run(c, actions[..|actions| - 1]), actions[|actions| - 1]);
    }
  }

  /** How many steps a request is from its end at most. */
  function Rank(s: State, r: nat): nat
    requires r in s.phases
  {
    match s.phases[r]
    case Arrived => 7
    case Known(_) => 6
    case Passed(_) => 5
    case Cleared(_, _) => 4
    case Authorized(_, _) => if r in s.keys.rotations then 3 else 2
    case Storing(_, _) => 1
    case Closed => 0
  }

  /** A call that does not reach Redis. */
  function Offline(): F.Request {
    F.Request(0, R.Call(0, 0, ""), F.Unreachable, 0)
  }

  /** A step of the request that does not depend on Redis or on any other request. */
  lemma {:induction false} NextStep(c: Config, s: State, r: nat) returns (a: Action)
    requires AllLive(c, s) && Linked(s, r) && KeysOk(c, s) && |s.limits.logs| >= 1
    requires r in s.phases && !s.phases[r].Closed?
    ensures Enabled(c, s, a) && a.req == r && (a.ManageKeys? ==> a.op.Rollback?)
  {
    assert Lives(c, s, r);
    match s.phases[r] {
      case Arrived => a := Authenticate(r, 0);
      case Known(_) => a := RateLimit(r, Offline());
      case Passed(_) => a := IdemGet(r, s.store.clock, false);
      case Cleared(id, _) =>
        var d := P.SomeDecision(c.rules, c.timeout, InputOf(id, s.requests[r]));
        a := Decide(r, d, "");
      case Authorized(_, _) =>
        if r in s.keys.rotations {
          assert RotationLinked(s, r);
          a := ManageKeys(r, ApiKeys.Rollback(r));
        } else {
          a := Handle(r, 200, "", "");
        }
      case Storing(_, _) => a := IdemSet(r, s.store.clock, false);
    }
  }

  /** Whatever its own steps are, a request gets nearer to its end with each, but for the statements of a rotation. */
  lemma {:induction false} StepsLeadOn(c: Config, s: State, a: Action)
    requires Enabled(c, s, a) && a.req in s.phases && (a.ManageKeys? ==> a.op.Rollback?)
    ensures var s' := Apply(c, s, a); a.req in s'.phases && Rank(s', a.req) < Rank(s, a.req)
  {}

  lemma {:induction false} LeadsOn(c: Config, actions: seq<Action>, r: nat) returns (a: Action)
    requires c.instances >= 1 && r in Run(c, actions).phases && !Run(c, actions).phases[r].Closed?
    ensures a.req == r
    ensures r in Run(c, actions + [a]).phases && Rank(Run(c, actions + [a]), r) < Rank(Run(c, actions), r)
  {
    var s := Run(c, actions);
    RunLives(c, actions);
    RunLinks(c, actions);
    assert Linked(s, r);
    RunKeepsKeys(c, actions);
    RunInstances(c, actions);
    a := NextStep(c, s, r);
    RunSnoc(c, actions, a);
    StepsLeadOn(c, s, a);
  }

  lemma {:induction false} ClosedIsComplete(c: Config, actions: seq<Action>, r: nat)
    requires var s := Run(c, actions); r in s.phases && s.phases[r].Closed?
    ensures var s := Run(c, actions); r in s.requests && Complete(c, Project(s.trace, r), s.requests[r])
  {
    RunLives(c, actions);
    assert Lives(c, Run(c, actions), r);
  }

  lemma {:induction false} CanClose(c: Config, actions: seq<Action>, r: nat) returns (more: seq<Action>)
    requires c.instances >= 1 && r in Run(c, actions).phases
    ensures actions <= more && forall i :: |actions| <= i < |more| ==> more[i].req == r
    ensures r in Run(c, more).phases && Run(c, more).phases[r].Closed?
    decreases Rank(Run(c, actions), r)
  {
    more := actions;
    if !Run(c, actions).phases[r].Closed? {
      var a := LeadsOn(c, actions, r);
      more := CanClose(c, actions + [a], r);
    }
  }

  /**
   No request is ever stuck: after every run of the gateway, whatever the other requests hold, and
   even while Redis cannot be reached, each request that has come can be brought to its answer by
   steps of its own.
   */
  lemma {:induction false} EveryRequestCanFinish(c: Config, actions: seq<Action>, r: nat) returns (more: seq<Action>)
    requires c.instances >= 1 && r in Run(c, actions).phases
    ensures actions <= more && forall i :: |actions| <= i < |more| ==> more[i].req == r
    ensures var s := Run(c, more);
      && r in s.phases && s.phases[r].Closed?
      && r in s.requests && Complete(c, Project(s.trace, r), s.requests[r])
  {
    more := CanClose(c, actions, r);
    ClosedIsComplete(c, more, r);
  }

  /** Which steps a request may take next, in each phase and for each answer of the outside world. */
  ghost predicate MayStep(c: Config, s: State, r: nat, a: Action)
    requires InPhase(s, r)
  {
    var q, ph := s.requests[r], s.phases[r];
    match ph
    case Arrived => a.Authenticate?
    case Known(id) =>
      a.RateLimit? && a.call.instance < c.instances
      && (a.call.reply.Unreachable? || L.RedisKey(id.tenant, q.route.path) !in s.store.cells)
    case Passed(id) =>
      a.IdemGet? && s.store.clock <= a.time && (!a.up || StoreKey(id.tenant, q) !in s.limits.keyspace)
    case Cleared(id, _) => a.Decide? && P.MayReturn(c.rules, c.timeout, InputOf(id, q), a.decision)
    case Authorized(_, _) => a.Handle? && r !in s.keys.rotations
    case Storing(_, _) => a.IdemSet? && s.store.clock <= a.time
    case Closed => false
  }

  /**
   In every run, each such step takes effect: authentication at any time, the limiter for any reply
   of Redis, the store up or down, any decision that the engine may return.
   */
  lemma {:induction false} StepsTakeEffect(c: Config, actions: seq<Action>, a: Action)
    requires var s := Run(c, actions); InPhase(s, a.req) && MayStep(c, s, a.req, a)
    ensures var s := Run(c, actions);
      var s' := Apply(c, s, a);
      a.req in s'.phases && s'.phases[a.req] != s.phases[a.req]
  {
    var s := Run(c, actions);
    RunLives(c, actions);
    RunLinks(c, actions);
    RunInstances(c, actions);
    assert Lives(c, s, a.req) && Linked(s, a.req);
    StepIsEnabled(c, s, a);
    StepsLeadOn(c, s, a);
  }

  lemma {:induction false} StepIsEnabled(c: Config, s: State, a: Action)
    requires InPhase(s, a.req) && Linked(s, a.req) && |s.limits.logs| == c.instances && MayStep(c, s, a.req, a)
    ensures Enabled(c, s, a) && !a.ManageKeys?
  {}

  /** Any request on a route of the gateway may come at any time. */
  lemma {:induction false} RequestsMayCome(c: Config, actions: seq<Action>, r: nat, q: Request)
    requires r !in Run(c, actions).phases && q.route in c.routes
    ensures var s := Run(c, actions + [Arrive(r, q)]);
      r in s.phases && s.phases[r].Arrived? && r in s.requests && s.requests[r] == q
  {
    RunSnoc(c, actions, Arrive(r, q));
  }

  /**
   Limiter and idempotency store share one keyspace: Redis answers neither a Get on a key that holds
   an unexpired set of the limiter, nor the script on a key that holds an unexpired record.
   */
  lemma {:induction false} TypesClash(c: Config, s: State, r: nat, time: int, call: F.Request)
    requires InPhase(s, r)
    ensures s.phases[r].Passed? ==>
      var key := StoreKey(s.phases[r].id.tenant, s.requests[r]);
      && (key in s.limits.keyspace && s.limits.keyspace[key].scores != map[]
          && (s.limits.keyspace[key].deadline.None? || time <= s.limits.keyspace[key].deadline.value) ==>
            Apply(c, s, IdemGet(r, time, true)) == s)
    ensures s.phases[r].Known? && !call.reply.Unreachable? ==>
      var key := L.RedisKey(s.phases[r].id.tenant, s.requests[r].route.path);
      && (key in s.store.cells
          && (s.store.cells[key].deadline.None? || call.redis.server <= s.store.cells[key].deadline.value) ==>
            Apply(c, s, RateLimit(r, call)) == s)
  {}

  // ------------------------------------------------------------ the key handlers

  /** A request that has been allowed to act on API keys and has not done so yet. */
  predicate MayAct(s: State, r: nat, action: P.Action) {
    && InPhase(s, r) && s.phases[r].Authorized?
    && s.requests[r].route.kind.ApiKey? && s.requests[r].route.action == action
    && r !in s.ledger.done && r !in s.keys.rotations
  }

  /** A request to revoke a free key of its tenant revokes that key. */
  lemma {:induction false} RevokeHandlerRevokes(c: Config, actions: seq<Action>, r: nat, now: int)
    requires var s := Run(c, actions);
      MayAct(s, r, P.Delete) && ApiKeys.Free(s.keys, s.phases[r].id.tenant, s.requests[r].target)
    ensures var s := Run(c, actions);
      var tenant, id := s.phases[r].id.tenant, s.requests[r].target;
      var s' := Apply(c, s, ManageKeys(r, ApiKeys.Revoke(tenant, id, now)));
      && s'.keys.table == s.keys.table[id := s.keys.table[id].(revokedAt := Some(now))]
      && id in s'.ledger.revoked && s'.ledger.revoked[id] == r
  {
    RunKeepsKeys(c, actions);
    var s := Run(c, actions);
    var tenant, id := s.phases[r].id.tenant, s.requests[r].target;
    ApiKeys.RevokeTakesEffect(s.keys, c.hash, tenant, id, now);
    FreeIsRooted(s.keys, c.hash, tenant, id);
    ManageIsItsStep(c, s, r, ApiKeys.Revoke(tenant, id, now));
  }

  lemma {:induction false} FreeIsRooted(keys: ApiKeys.State, hash: string -> string, tenant: string, id: string)
    requires ApiKeys.Invariant(keys, hash) && ApiKeys.Free(keys, tenant, id)
    ensures id in keys.past.root
  {
    assert ApiKeys.RowOk(keys.table[id], id, keys.past, hash);
  }

  /** A request to create a key for its tenant inserts one with the scope that was asked for. */
  lemma {:induction false} CreateHandlerCreates(
      c: Config, actions: seq<Action>, r: nat, spec: ApiKeys.Spec, id: string, secret: string)
    requires var s := Run(c, actions);
      && MayAct(s, r, P.Create) && spec.tenant == s.phases[r].id.tenant != "" && ValidRole(spec.role)
      && id !in s.keys.past.secrets && secret !in s.keys.past.keyOf
    ensures var s := Run(c, actions);
      var s' := Apply(c, s, ManageKeys(r, ApiKeys.Create(spec, id, secret)));
      && s'.keys.table == s.keys.table[id :=
           ApiKeys.Row(spec.tenant, spec.name, c.hash(secret), spec.role,
                       if spec.region == "" then None else Some(spec.region),
                       if spec.supplier == "" then None else Some(spec.supplier), spec.expires, None)]
      && id in s'.ledger.inserted && s'.ledger.inserted[id] == r
  {
    var s := Run(c, actions);
    ApiKeys.CreateTakesEffect(s.keys, c.hash, spec, id, secret);
    ManageIsItsStep(c, s, r, ApiKeys.Create(spec, id, secret));
  }

  /** The statements of a rotation, one after another. */
  ghost function Statements(c: Config, s: State, r: nat, newId: string, secret: string, now: int): State
    requires InPhase(s, r) && s.phases[r].Authorized?
  {
    var s1 := Apply(c, s, ManageKeys(r, ApiKeys.SelectForUpdate(r, s.phases[r].id.tenant, s.requests[r].target)));
    var s2 := Apply(c, s1, ManageKeys(r, ApiKeys.RevokeOld(r, now)));
    var s3 := Apply(c, s2, ManageKeys(r, ApiKeys.InsertNew(r, newId, secret)));
    Apply(c, s3, ManageKeys(r, ApiKeys.Commit(r)))
  }

  /** A request to rotate a free key of its tenant revokes it and inserts a successor of the same scope. */
  lemma {:induction false} RotateHandlerRotates(
      c: Config, actions: seq<Action>, r: nat, newId: string, secret: string, now: int)
    requires var s := Run(c, actions);
      && MayAct(s, r, P.Update) && ApiKeys.Free(s.keys, s.phases[r].id.tenant, s.requests[r].target)
      && newId !in s.keys.past.secrets && secret !in s.keys.past.keyOf
    ensures var s := Run(c, actions);
      var id := s.requests[r].target;
      var row, s' := s.keys.table[id], Statements(c, s, r, newId, secret, now);
      && s'.keys.table == s.keys.table[id := row.(revokedAt := Some(now))]
           [newId := ApiKeys.Row(
              row.tenant, row.name, c.hash(secret), row.role, row.region, row.supplier, row.expires, None)]
      && s'.ledger.inserted == s.ledger.inserted[newId := r] && s'.ledger.revoked == s.ledger.revoked[id := r]
  {
    RunKeepsKeys(c, actions);
    var s := Run(c, actions);
    var tenant, id := s.phases[r].id.tenant, s.requests[r].target;
    ApiKeys.RotationTakesEffect(s.keys, c.hash, r, tenant, id, newId, secret, now);
    FreeIsRooted(s.keys, c.hash, tenant, id);
    StatementsTakeEffect(c, s, r, newId, secret, now);
  }

  lemma {:induction false} StatementsTakeEffect(
      c: Config, s: State, r: nat, newId: string, secret: string, now: int)
    requires MayAct(s, r, P.Update) && ApiKeys.Free(s.keys, s.phases[r].id.tenant, s.requests[r].target)
    requires s.requests[r].target in s.keys.past.root
    requires newId !in s.keys.past.secrets && secret !in s.keys.past.keyOf
    ensures var s', id := Statements(c, s, r, newId, secret, now), s.requests[r].target;
      var k1 := ApiKeys.Apply(s.keys, ApiKeys.SelectForUpdate(r, s.phases[r].id.tenant, id), c.hash);
      var k2 := ApiKeys.Apply(k1, ApiKeys.RevokeOld(r, now), c.hash);
      var k3 := ApiKeys.Apply(k2, ApiKeys.InsertNew(r, newId, secret), c.hash);
      && s'.keys == ApiKeys.Apply(k3, ApiKeys.Commit(r), c.hash)
      && s'.ledger.inserted == s.ledger.inserted[newId := r] && s'.ledger.revoked == s.ledger.revoked[id := r]
  {
    var a1 := ApiKeys.SelectForUpdate(r, s.phases[r].id.tenant, s.requests[r].target);
    ManageIsItsStep(c, s, r, a1);
    var s1 := Apply(c, s, ManageKeys(r, a1));
    ManageIsItsStep(c, s1, r, ApiKeys.RevokeOld(r, now));
    var s2 := Apply(c, s1, ManageKeys(r, ApiKeys.RevokeOld(r, now)));
    ManageIsItsStep(c, s2, r, ApiKeys.InsertNew(r, newId, secret));
    var s3 := Apply(c, s2, ManageKeys(r, ApiKeys.InsertNew(r, newId, secret)));
    ManageIsItsStep(c, s3, r, ApiKeys.Commit(r));
  }
}
