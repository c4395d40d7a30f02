/**
 What a caller of the gateway gets (internal/gateway/router.go, internal/gateway/stub.go): which
 credentials are accepted, who may use which endpoint, what is answered and what is audited.
 */
module PipelineAccess {
  import opened Common
  import opened Identities
  import opened Pipeline
  import opened PipelineKeys
  import opened PipelineSteps
  import opened Routing
  import ApiKeys
  import DefaultRules
  import Endpoints
  import Jwt
  import P = Policy
  import PipelineReplays

  // ------------------------------------------------------------ credentials

  /** The identity that a live, unexpired key with this secret gives, if there is one. */
  ghost function KeyIdentity(keys: ApiKeys.State, secret: string, now: int): Option<Identity> {
    if secret in keys.past.keyOf then
      var id := keys.past.keyOf[secret];
      if id in keys.table && keys.table[id].revokedAt.None?
         && id in keys.past.root && keys.past.root[id] in keys.past.specs
      then
        var spec := keys.past.specs[keys.past.root[id]];
        if spec.expires.Some? && spec.expires.value <= now then None
        else Some(Identity(spec.tenant, id, spec.role, spec.region, spec.supplier))
      else None
    else None
  }

  /** What a request's credentials are worth: the bearer token's word if there is one, else the key's. */
  ghost function Worth(c: Config, keys: ApiKeys.State, q: Request, now: int): Option<Identity> {
    if q.bearer.Some? then
      var r := Jwt.Validate(c.issuer, q.bearer.value, now);
      if r.Ok? then Some(r.value) else None
    else if q.apiKey != "" && c.keyStore then KeyIdentity(keys, q.apiKey, now)
    else None
  }

  lemma {:induction false} ResolvesToWorth(c: Config, keys: ApiKeys.State, q: Request, now: int)
    requires ApiKeys.Invariant(keys, c.hash) && ApiKeys.Injective(c.hash)
    ensures ResolveIdentity(c, q, keys.table, now) == Worth(c, keys, q, now)
  {
    ApiKeys.ResolveInState(keys, c.hash, q.apiKey, now);
  }

  /**
   Authentication, exactly: a request becomes known as whom its credentials are worth, and is
   rejected if they are worth nothing. A valid token or a live, unexpired key is never turned away.
   */
  lemma {:induction false} AuthenticatesExactlyWhen(c: Config, actions: seq<Action>, r: nat, now: int)
    requires ApiKeys.Injective(c.hash)
    requires var s := Run(c, actions); InPhase(s, r) && s.phases[r].Arrived?
    ensures var s := Run(c, actions);
      var s', id := Apply(c, s, Authenticate(r, now)), Worth(c, s.keys, s.requests[r], now);
      && s'.phases[r] == (if id.Some? then Known(id.value) else Closed)
      && Project(s'.trace, r) == [if id.Some? then Authenticated(id.value, now) else Rejected]
  {
    var s := Run(c, actions);
    RunKeepsKeys(c, actions);
    RunLives(c, actions);
    assert Lives(c, s, r);
    ResolvesToWorth(c, s.keys, s.requests[r], now);
    ApplyAdvances(c, s, Authenticate(r, now));
    ProjectTagged(s.trace, r, Emits(c, s, Authenticate(r, now)), r);
  }

  // ------------------------------------------------------------ answers

  /** The status a stub answers with, and that of a denial. */
  ghost predicate Answered(s: State, r: nat, e: Event) {
    && (e.Denied? ==> e.response.status == 403 && e.response.contentType == "application/json; charset=utf-8")
    && (e.Executed? ==> r in s.requests && e.response.status == if s.requests[r].route.verb.POST? then 201 else 200)
  }

  ghost predicate AllAnswered(s: State) {
    forall i :: 0 <= i < |s.trace| ==> Answered(s, s.trace[i].0, s.trace[i].1)
  }

  lemma {:induction false} EmitsAnswers(c: Config, s: State, a: Action, i: int)
    requires Enabled(c, s, a) && 0 <= i < |Emits(c, s, a)|
    ensures Answered(Apply(c, s, a), a.req, Emits(c, s, a)[i])
  {}

  lemma {:induction false} ApplyAnswers(c: Config, s: State, a: Action)
    requires AllLive(c, s) && AllAnswered(s)
    ensures AllAnswered(Apply(c, s, a))
  {
    if Enabled(c, s, a) {
      var s', es := Apply(c, s, a), Emits(c, s, a);
      ApplyAdvances(c, s, a);
      TaggedAt(a.req, es);
      forall i | 0 <= i < |s'.trace| ensures Answered(s', s'.trace[i].0, s'.trace[i].1) {
        if i < |s.trace| {
          StillAnswered(c, s, a, i);
        } else {
          EmitsAnswers(c, s, a, i - |s.trace|);
        }
      }
    }
  }

  lemma {:induction false} StillAnswered(c: Config, s: State, a: Action, i: int)
    requires AllLive(c, s) && Enabled(c, s, a) && 0 <= i < |s.trace| && Answered(s, s.trace[i].0, s.trace[i].1)
    ensures Answered(Apply(c, s, a), s.trace[i].0, s.trace[i].1)
  {
    ApplyAdvances(c, s, a);
    if s.trace[i].1.Executed? {
      HasStory(s.trace, i);
      assert Lives(c, s, s.trace[i].0);
    }
  }

  lemma {:induction false} HasStory(tr: Trace, i: int)
    requires 0 <= i < |tr|
    ensures Project(tr, tr[i].0) != []
  {
    if i < |tr| - 1 { HasStory(tr[..|tr| - 1], i); }
  }

  lemma {:induction false} RunAnswers(c: Config, actions: seq<Action>)
    ensures AllAnswered(Run(c, actions))
  {
    if actions != [] {
      RunAnswers(c, actions[..|actions| - 1]);
      RunLives(c, actions[..|actions| - 1]);
      ApplyAnswers(c, Run(c, actions[..|actions| - 1]), actions[|actions| - 1]);
    }
  }

  lemma {:induction false} ProjectAnswers(s: State, tr: Trace, r: nat, k: int)
    requires tr <= s.trace && AllAnswered(s) && 0 <= k < |Project(tr, r)|
    ensures Answered(s, r, Project(tr, r)[k])
  {
    var init, e := tr[..|tr| - 1], tr[|tr| - 1];
    assert Answered(s, s.trace[|tr| - 1].0, s.trace[|tr| - 1].1);
    if k < |Project(init, r)| { ProjectAnswers(s, init, r, k); }
  }

  /**
   What a request is answered, endpoint by endpoint: with the gateway's routes and rules, a handler
   runs only for a caller who may use that endpoint, within the own tenant, and with an
   Idempotency-Key if orders are created; a stub answers 201 to POST and 200 otherwise; a denial is
   a 403, to a caller who may not use the endpoint or for whom the engine timed out.
   */
  lemma {:induction false} EndpointsServeTheirCallers(c: Config, actions: seq<Action>, r: nat)
    requires c.routes == ROUTES && c.rules == DefaultRules.RULES
    requires |Project(Run(c, actions).trace, r)| == 4
    ensures var s := Run(c, actions);
      var es := Project(s.trace, r);
      && r in s.requests && es[0].Authenticated? && es[2].Audited?
      && var id, q := es[0].id, s.requests[r];
         var may := (q.extracted.tenant == "" || q.extracted.tenant == id.tenant)
                    && Endpoints.MayUse(q.route.verb, q.route.path, id, q.extracted);
         && (RunsHandler(es[3]) ==> may && (q.route.verb.POST? && q.route.path == "/v1/orders" ==> q.idemKey != ""))
         && (es[3].Executed? ==> es[3].response.status == if q.route.verb.POST? then 201 else 200)
         && (es[3].Denied? ==> es[3].response.status == 403 && (!may || es[2].decision == P.EVAL_TIMEOUT))
         && (RunsHandler(es[3]) || es[3].Denied?)
  {
    var s := Run(c, actions);
    RunLives(c, actions);
    RunAnswers(c, actions);
    assert Lives(c, s, r);
    ProjectAnswers(s, s.trace, r, 3);
    ServesCaller(c, s, r);
  }

  lemma {:induction false} ServesCaller(c: Config, s: State, r: nat)
    requires c.routes == ROUTES && c.rules == DefaultRules.RULES
    requires Lives(c, s, r) && |Project(s.trace, r)| == 4
    ensures var es := Project(s.trace, r);
      && r in s.requests && es[0].Authenticated? && es[2].Audited?
      && var id, q := es[0].id, s.requests[r];
         var may := (q.extracted.tenant == "" || q.extracted.tenant == id.tenant)
                    && Endpoints.MayUse(q.route.verb, q.route.path, id, q.extracted);
         && (RunsHandler(es[3]) ==> may && (q.route.idempotent ==> q.idemKey != ""))
         && (q.route.verb.POST? && q.route.path == "/v1/orders" ==> q.route.idempotent)
         && (es[3].Denied? ==> !may || es[2].decision == P.EVAL_TIMEOUT)
         && (RunsHandler(es[3]) || es[3].Denied?)
  {
    var es, q := Project(s.trace, r), s.requests[r];
    if q.route.verb.POST? && q.route.path == "/v1/orders" { OrdersAreDeduplicated(q.route); }
    if es[2].decision != P.EVAL_TIMEOUT {
      Endpoints.EndpointAccess(q.route, es[0].id, q.extracted, c.timeout, es[2].decision);
    }
  }

  lemma {:induction false} OrdersAreDeduplicated(route: Route)
    requires route in ROUTES && route.verb.POST? && route.path == "/v1/orders"
    ensures route.idempotent
  {
    var i :| 0 <= i < |ROUTES| && route == ROUTES[i];
  }

  // ------------------------------------------------------------ the audit log

  lemma {:induction false} AuditHolds(tr: Trace, j: int)
    requires 0 <= j < |tr| && tr[j].1.Audited?
    ensures Recorded(tr[j].1) in Audits(tr)
  {
    if j < |tr| - 1 { AuditHolds(tr[..|tr| - 1], j); }
  }

  /** Every decision is in the audit log: who asked for what, and how it was decided by which rule. */
  lemma {:induction false} DecisionsAreAudited(c: Config, actions: seq<Action>, r: nat)
    requires var es := Project(Run(c, actions).trace, r); |es| >= 3 && es[2].Audited?
    ensures var s := Run(c, actions);
      var es := Project(s.trace, r);
      && r in s.requests && es[0].Authenticated?
      && var id, q, d := es[0].id, s.requests[r], es[2].decision;
         P.AuditRecord(id.tenant, id.user, id.role, q.route.action, q.route.kind, q.extracted.id, d.allow, d.rule, q.id)
           in s.audit
  {
    var s := Run(c, actions);
    RunLives(c, actions);
    CountersAreExact(c, actions);
    assert Lives(c, s, r);
    var j := PipelineReplays.ProjectedIsEvent(s.trace, r, 2);
    AuditHolds(s.trace, j);
    StoryNamesRequest(c, s, r);
  }

  lemma {:induction false} StoryNamesRequest(c: Config, s: State, r: nat)
    requires AllLive(c, s) && r in s.phases
    requires var es := Project(s.trace, r); |es| >= 3 && es[2].Audited?
    ensures var es := Project(s.trace, r);
      && es[0].Authenticated? && r in s.requests
      && es[2].input == InputOf(es[0].id, s.requests[r]) && es[2].request == s.requests[r].id
  {
    assert Lives(c, s, r);
  }
}
