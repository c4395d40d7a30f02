/** Idempotent replays, end to end: what a replay returns, and whose answer it was. */
module PipelineReplays {
  import opened Common
  import opened Pipeline
  import opened PipelineStore
  import opened Routing
  import I = Idempotency
  import Keys

  // ------------------------------------------------------------ events and stories

  lemma {:induction false} EventIsProjected(tr: Trace, j: int) returns (k: int)
    requires 0 <= j < |tr|
    ensures 0 <= k < |Project(tr, tr[j].0)| && Project(tr, tr[j].0)[k] == tr[j].1
  {
    var n := |tr| - 1;
    if j == n {
      k := |Project(tr[..n], tr[j].0)|;
    } else {
      k := EventIsProjected(tr[..n], j);
    }
  }

  lemma {:induction false} ProjectedIsEvent(tr: Trace, r: nat, k: int) returns (j: int)
    requires 0 <= k < |Project(tr, r)|
    ensures 0 <= j < |tr| && tr[j] == (r, Project(tr, r)[k])
  {
    var n := |tr| - 1;
    if k < |Project(tr[..n], r)| {
      j := ProjectedIsEvent(tr[..n], r, k);
    } else {
      j := n;
    }
  }

  // ------------------------------------------------------------ where a replay comes from

  /** At index j a request was answered, captured for `key`; at index k of the protocol it ran to that response. */
  predicate AnsweredAt(s: State, j: int, k: int, key: string, response: I.Response) {
    && 0 <= j < |s.trace| && Answers(s.trace[j].1) && s.trace[j].1.response == response
    && CaptureOf(s.trace[j].1) == Some(key)
    && I.RanFor(s.store.trace, k, s.trace[j].0, key, response)
  }

  /** A step that replays is a Get that hit. */
  lemma {:induction false} ReplayIsAHit(c: Config, s: State, a: Action)
    requires var s' := Apply(c, s, a); |s.trace| < |s'.trace| && s'.trace[|s.trace|].1.Replayed?
    ensures var s' := Apply(c, s, a);
      var e := s'.trace[|s.trace|].1;
      HitWith(s'.store.trace, |s.store.trace|, a.req, e.key, e.response)
  {}

  /** A replay emitted by the last step of a run returns an answer given before it. */
  lemma {:induction false} LastReplayOrigin(c: Config, init: seq<Action>, a: Action) returns (j: int, k: int)
    requires var s, s' := Run(c, init), Apply(c, Run(c, init), a);
      |s.trace| < |s'.trace| && s'.trace[|s.trace|].1.Replayed?
    ensures var s, s' := Run(c, init), Apply(c, Run(c, init), a);
      AnsweredAt(s, j, k, s'.trace[|s.trace|].1.key, s'.trace[|s.trace|].1.response)
  {
    var s, s' := Run(c, init), Apply(c, Run(c, init), a);
    var e := s'.trace[|s.trace|].1;
    ReplayIsAHit(c, s, a);
    ApplyGrows(c, s, a);
    RunIsFaithful(c, init);
    assert (init + [a])[..|init|] == init && Run(c, init + [a]) == s';
    j, k := HitOrigin(c, init + [a], s, a.req, e.key, e.response);
  }

  /** What a hit in the protocol returns was answered by a state `s` that has all events before it. */
  lemma {:induction false} HitOrigin(
      c: Config, actions: seq<Action>, s: State, r: nat, key: string, response: I.Response) returns (j: int, k: int)
    requires Faithful(s) && s.store.trace <= Run(c, actions).store.trace
    requires HitWith(Run(c, actions).store.trace, |s.store.trace|, r, key, response)
    ensures AnsweredAt(s, j, k, key, response)
  {
    RunStore(c, actions);
    var m;
    k, m := I.ReplaysAreFaithful(BOOT, StoreSteps(c, actions), c.ttl, |s.store.trace|);
    assert Told(s, k) && Told(s, m);
    j := ProjectedIsEvent(s.trace, s.store.trace[k].req, 3);
  }

  /** Every replay in a run returns an answer given before it. */
  lemma {:induction false} ReplayOrigin(c: Config, actions: seq<Action>, i: int) returns (j: int, k: int)
    requires var s := Run(c, actions); 0 <= i < |s.trace| && s.trace[i].1.Replayed?
    ensures var s := Run(c, actions); j < i && AnsweredAt(s, j, k, s.trace[i].1.key, s.trace[i].1.response)
  {
    var init, a := actions[..|actions| - 1], actions[|actions| - 1];
    ApplyGrows(c, Run(c, init), a);
    if i < |Run(c, init).trace| {
      j, k := ReplayOrigin(c, init, i);
    } else {
      ReplayIsAlone(c, Run(c, init), a, i);
      j, k := LastReplayOrigin(c, init, a);
    }
  }

  /** A step that replays emits nothing else. */
  lemma {:induction false} ReplayIsAlone(c: Config, s: State, a: Action, i: int)
    requires var s' := Apply(c, s, a); |s.trace| <= i < |s'.trace| && s'.trace[i].1.Replayed?
    ensures i == |s.trace|
  {}

  lemma {:induction false} ReplayBelongs(c: Config, s: State, i: int)
    requires AllLive(c, s) && 0 <= i < |s.trace| && s.trace[i].1.Replayed?
    ensures var r := s.trace[i].0;
      && r in s.requests && s.requests[r].route in c.routes && s.requests[r].route.idempotent
      && AuthenticatedIn(s, r) && s.trace[i].1.key == StoreKey(TenantOf(s, r), s.requests[r])
  {
    var k := EventIsProjected(s.trace, i);
    assert Lives(c, s, s.trace[i].0);
  }

  /** The tenants of the run are pairwise apart on the route with records. */
  ghost predicate TenantsApart(s: State) {
    forall r, r' :: AuthenticatedIn(s, r) && AuthenticatedIn(s, r') ==>
      Keys.Apart(TenantOf(s, r), TenantOf(s, r'), ORDERS)
  }

  /**
   In every run of the gateway, a replay returns exactly what an earlier request of the same
   tenant, on the same route, with the same Idempotency-Key was answered.
   */
  lemma {:induction false} ReplaysStayInTenant(c: Config, actions: seq<Action>, i: int) returns (j: int)
    requires var s := Run(c, actions);
      0 <= i < |s.trace| && s.trace[i].1.Replayed? && TenantsApart(s)
    requires c.routes == ROUTES
    ensures var s := Run(c, actions);
      && 0 <= j < i && Answers(s.trace[j].1) && s.trace[j].1.response == s.trace[i].1.response
      && CaptureOf(s.trace[j].1) == Some(s.trace[i].1.key)
      && var r, r' := s.trace[i].0, s.trace[j].0;
         && AuthenticatedIn(s, r) && AuthenticatedIn(s, r') && TenantOf(s, r) == TenantOf(s, r')
         && s.requests[r].route == s.requests[r'].route && s.requests[r].idemKey == s.requests[r'].idemKey
  {
    var s, k := Run(c, actions), 0;
    j, k := ReplayOrigin(c, actions, i);
    RunLives(c, actions);
    RunIsFaithful(c, actions);
    assert Told(s, k);
    ReplayBelongs(c, s, i);
    assert Lives(c, s, s.trace[j].0);
    SameStoreKey(s, s.trace[i].0, s.trace[j].0);
  }

  lemma {:induction false} SameStoreKey(s: State, r: nat, r': nat)
    requires AuthenticatedIn(s, r) && AuthenticatedIn(s, r') && TenantsApart(s)
    requires s.requests[r].route in ROUTES && s.requests[r'].route in ROUTES
    requires s.requests[r].route.idempotent && s.requests[r'].route.idempotent
    requires StoreKey(TenantOf(s, r), s.requests[r]) == StoreKey(TenantOf(s, r'), s.requests[r'])
    ensures TenantOf(s, r) == TenantOf(s, r')
    ensures s.requests[r].route == s.requests[r'].route && s.requests[r].idemKey == s.requests[r'].idemKey
  {
    RoutesArePlain(s.requests[r].route);
    OneIdempotentRoute(s.requests[r].route, s.requests[r'].route);
    Keys.IdemKeyInjective(TenantOf(s, r), s.requests[r].idemKey, TenantOf(s, r'), s.requests[r'].idemKey, ORDERS);
  }
}
