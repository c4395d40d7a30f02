/**
 The gateway's use of the idempotency store: every run of the gateway is a run of the protocol
 of Idempotency, step for step, so what holds of every interleaving there holds of requests here.
 */
module PipelineStore {
  import opened Common
  import opened Identities
  import opened Pipeline
  import F = Failover
  import I = Idempotency
  import Keys
  import L = SharedLimiter
  import P = Policy

  /** The protocol steps of a run of the gateway. */
  ghost function StoreSteps(c: Config, actions: seq<Action>): seq<I.Action> {
    if actions == [] then [] else
      var init, a := actions[..|actions| - 1], actions[|actions| - 1];
      var s := Run(c, init);
      if Enabled(c, s, a) && StoreStep(s, a).Some? then StoreSteps(c, init) + [StoreStep(s, a).value]
      else StoreSteps(c, init)
  }

  lemma {:induction false} RunStore(c: Config, actions: seq<Action>)
    ensures Run(c, actions).store == I.Execute(BOOT, StoreSteps(c, actions), c.ttl)
  {
    if actions != [] {
      var init, a := actions[..|actions| - 1], actions[|actions| - 1];
      RunStore(c, init);
      var s := Run(c, init);
      if Enabled(c, s, a) && StoreStep(s, a).Some? {
        I.ExecuteSnoc(BOOT, StoreSteps(c, init), StoreStep(s, a).value, c.ttl);
      }
    }
  }

  function Story(s: State, r: nat): seq<Event> {
    Project(s.trace, r)
  }

  /** The request has been authenticated. */
  predicate AuthenticatedIn(s: State, r: nat) {
    r in s.requests && Story(s, r) != [] && Story(s, r)[0].Authenticated?
  }

  function TenantOf(s: State, r: nat): string
    requires AuthenticatedIn(s, r)
  {
    Story(s, r)[0].id.tenant
  }

  lemma {:induction false} PassedStory(c: Config, s: State, r: nat)
    requires AllLive(c, s) && InPhase(s, r) && s.phases[r].Passed?
    ensures |Story(s, r)| == 2 && Opens(Story(s, r), s.phases[r].id) && s.requests[r].route.idempotent
  {
    assert Lives(c, s, r);
  }

  lemma {:induction false} ClearedStory(c: Config, s: State, r: nat)
    requires AllLive(c, s) && InPhase(s, r) && s.phases[r].Cleared?
    ensures |Story(s, r)| == 2 && Opens(Story(s, r), s.phases[r].id)
  {
    assert Lives(c, s, r);
  }

  lemma {:induction false} AuthorizedStory(c: Config, s: State, r: nat)
    requires AllLive(c, s) && InPhase(s, r) && s.phases[r].Authorized?
    ensures |Story(s, r)| == 3 && Opens(Story(s, r), s.phases[r].id) && Story(s, r)[2].Audited?
  {
    assert Lives(c, s, r);
  }

  // ------------------------------------------------------------ phases

  /** A request behind the idempotency middleware is running in the protocol; any other is unknown to it. */
  ghost predicate Underway(s: State, r: nat, id: Identity, capture: Option<string>) {
    && r in s.requests
    && if s.requests[r].route.idempotent then
         var key := StoreKey(id.tenant, s.requests[r]);
         && r in s.store.phases && s.store.phases[r] == I.Running(key, capture.Some?)
         && (capture.Some? ==> capture.value == key)
       else
         r !in s.store.phases && capture.None?
  }

  /** A request stands in the protocol where it stands in the gateway. */
  ghost predicate Linked(s: State, r: nat) {
    if r !in s.phases then r !in s.store.phases else
      match s.phases[r]
      case Arrived => r !in s.store.phases
      case Known(_) => r !in s.store.phases
      case Passed(_) => r !in s.store.phases
      case Cleared(id, capture) => Underway(s, r, id, capture)
      case Authorized(id, capture) => Underway(s, r, id, capture)
      case Storing(key, response) => r in s.store.phases && s.store.phases[r] == I.Storing(key, response)
      case Closed => r in s.store.phases ==> s.store.phases[r].Done?
  }

  ghost predicate AllLinked(s: State) {
    forall r :: Linked(s, r)
  }

  /** What a step of request r leaves alone. */
  ghost predicate OnlyMoves(s: State, s': State, r: nat) {
    && (forall k :: k != r ==> (k in s'.phases <==> k in s.phases) && (k in s'.store.phases <==> k in s.store.phases))
    && (forall k :: k != r && k in s.phases ==> s'.phases[k] == s.phases[k])
    && (forall k :: k != r && k in s.store.phases ==> s'.store.phases[k] == s.store.phases[k])
    && (forall k :: k != r && k in s.requests ==> k in s'.requests && s'.requests[k] == s.requests[k])
  }

  lemma {:induction false} MoveLinks(s: State, s': State, r: nat)
    requires AllLinked(s) && OnlyMoves(s, s', r) && Linked(s', r)
    ensures AllLinked(s')
  {
    forall k ensures Linked(s', k) {
      assert Linked(s, k);
    }
  }

  /** Answering a request ends its run in the protocol as it ends in the gateway. */
  lemma {:induction false} FinishLinks(c: Config, s: State, s': State, r: nat, response: I.Response)
    requires InPhase(s, r) && (s.phases[r].Cleared? || s.phases[r].Authorized?)
    requires Underway(s, r, s.phases[r].id, s.phases[r].capture)
    requires s'.phases == s.phases[r := Finish(s.phases[r].capture, response)] && s'.requests == s.requests
    requires s'.store == I.Apply(s.store, I.DoRun(r, response), c.ttl)
    ensures OnlyMoves(s, s', r) && Linked(s', r)
  {}

  lemma {:induction false} GetLinks(c: Config, s: State, r: nat, time: int, up: bool)
    requires Enabled(c, s, IdemGet(r, time, up)) && s.requests[r].route.idempotent
    ensures var s' := Apply(c, s, IdemGet(r, time, up)); OnlyMoves(s, s', r) && Linked(s', r)
  {
    var q, id := s.requests[r], s.phases[r].id;
    if q.idemKey != "" {
      var key := StoreKey(id.tenant, q);
      PassedMoves(s, Apply(c, s, IdemGet(r, time, up)), r, id, key, I.Get(s.store.cells, key, time, up));
    }
  }

  lemma {:induction false} PassedMoves(s: State, s': State, r: nat, id: Identity, key: string, result: I.Lookup)
    requires r in s.requests && s'.requests == s.requests
    requires s.requests[r].route.idempotent && key == StoreKey(id.tenant, s.requests[r])
    requires s'.phases == s.phases[r :=
      if result.Hit? then Closed else Cleared(id, if result.Unavailable? then None else Some(key))]
    requires s'.store.phases == s.store.phases[r :=
      if result.Hit? then I.Done else I.Running(key, !result.Unavailable?)]
    ensures OnlyMoves(s, s', r) && Linked(s', r)
  {}

  lemma {:induction false} LimitLinks(s: State, r: nat, call: F.Request, o: L.Outcome)
    requires InPhase(s, r) && s.phases[r].Known? && r !in s.store.phases
    ensures var s' := RateLimitStep(s, r, call, o); OnlyMoves(s, s', r) && Linked(s', r)
  {}

  lemma {:induction false} AuthenticateLinks(c: Config, s: State, r: nat, now: int)
    requires InPhase(s, r) && s.phases[r].Arrived? && r !in s.store.phases
    ensures var s' := AuthenticateStep(c, s, r, now); OnlyMoves(s, s', r) && Linked(s', r)
  {}

  lemma {:induction false} AllowLinks(s: State, r: nat, d: P.Decision, body: string)
    requires InPhase(s, r) && s.phases[r].Cleared? && d.allow && Linked(s, r)
    ensures var s' := DecideStep(s, r, d, body); OnlyMoves(s, s', r) && Linked(s', r)
  {}

  lemma {:induction false} SetLinks(c: Config, s: State, r: nat, time: int, up: bool)
    requires Enabled(c, s, IdemSet(r, time, up))
    ensures var s' := Apply(c, s, IdemSet(r, time, up)); OnlyMoves(s, s', r) && Linked(s', r)
  {}

  lemma {:induction false} ApplyMoves(c: Config, s: State, a: Action)
    requires AllLive(c, s) && Linked(s, a.req) && Enabled(c, s, a)
    ensures OnlyMoves(s, Apply(c, s, a), a.req) && Linked(Apply(c, s, a), a.req)
  {
    var s', r := Apply(c, s, a), a.req;
    match a {
      case Arrive(_, _) =>
      case Authenticate(_, now) => AuthenticateLinks(c, s, r, now);
      case RateLimit(_, call) => LimitLinks(s, r, call, L.Serve(s.limits, Tag(s, r, call), c.limit, c.window));
      case IdemGet(_, time, up) =>
        PassedStory(c, s, r);
        GetLinks(c, s, r, time, up);
      case Decide(_, d, body) =>
        if d.allow { AllowLinks(s, r, d, body); } else { FinishLinks(c, s, s', r, Forbidden(body)); }
      case ManageKeys(_, _) =>
      case Handle(_, status, body, contentType) =>
        FinishLinks(c, s, s', r, Answer(s.requests[r].route, status, body, contentType));
      case IdemSet(_, time, up) => SetLinks(c, s, r, time, up);
    }
  }

  lemma {:induction false} RunLinks(c: Config, actions: seq<Action>)
    ensures AllLinked(Run(c, actions))
  {
    if actions != [] {
      var init, a := actions[..|actions| - 1], actions[|actions| - 1];
      RunLinks(c, init);
      RunLives(c, init);
      var s := Run(c, init);
      if Enabled(c, s, a) {
        assert Linked(s, a.req);
        ApplyMoves(c, s, a);
        MoveLinks(s, Apply(c, s, a), a.req);
      }
    }
  }

  // ------------------------------------------------------------ events

  predicate Answers(e: Event) {
    e.Denied? || RunsHandler(e)
  }

  /** The key under which a request's own tenant, route and Idempotency-Key are stored. */
  predicate Keyed(q: Request, es: seq<Event>, key: string) {
    q.route.idempotent && |es| >= 1 && es[0].Authenticated? && key == StoreKey(es[0].id.tenant, q)
  }

  predicate HasReplay(es: seq<Event>) {
    |es| >= 3 && es[2].Replayed?
  }

  /** The story tells of the protocol event: a replay of a hit, an answer of an execution, a capture of a Set. */
  predicate Tells(q: Request, es: seq<Event>, e: I.Event) {
    match e
    case Got(_, key, _, result) =>
      && Keyed(q, es, key) && (result.Hit? <==> HasReplay(es))
      && (result.Hit? ==> es[2] == Replayed(key, result.response))
    case Ran(_, key, response) => Keyed(q, es, key) && |es| == 4 && Answers(es[3]) && es[3].response == response
    case Put(_, key, _, response, _) => |es| == 4 && CaptureOf(es[3]) == Some(key) && es[3].response == response
  }

  ghost predicate Told(s: State, i: int)
    requires 0 <= i < |s.store.trace|
  {
    var e := s.store.trace[i];
    e.req in s.store.phases && e.req in s.requests && Tells(s.requests[e.req], Story(s, e.req), e)
  }

  predicate RanWith(tr: seq<I.Event>, i: int, r: nat, response: I.Response) {
    0 <= i < |tr| && tr[i].Ran? && tr[i].req == r && tr[i].response == response
  }

  predicate HitWith(tr: seq<I.Event>, i: int, r: nat, key: string, response: I.Response) {
    0 <= i < |tr| && tr[i].Got? && tr[i].req == r && tr[i].key == key && tr[i].result == I.Hit(response)
  }

  /** The protocol has the event that the story tells of. */
  ghost predicate Backed(s: State, r: nat) {
    var es := Story(s, r);
    && (r in s.requests && s.requests[r].route.idempotent && |es| == 4 && Answers(es[3]) ==>
          exists i :: RanWith(s.store.trace, i, r, es[3].response))
    && (HasReplay(es) ==> exists i :: HitWith(s.store.trace, i, r, es[2].key, es[2].response))
  }

  ghost predicate Faithful(s: State) {
    && (forall i :: 0 <= i < |s.store.trace| ==> Told(s, i))
    && (forall r :: Backed(s, r))
  }

  lemma {:induction false} StillBacked(s: State, s': State, r: nat)
    requires Backed(s, r) && Story(s', r) == Story(s, r) && s.store.trace <= s'.store.trace
    requires r in s'.requests ==> r in s.requests && s'.requests[r] == s.requests[r]
    ensures Backed(s', r)
  {
    var es := Story(s, r);
    if r in s'.requests && s.requests[r].route.idempotent && |es| == 4 && Answers(es[3]) {
      var i :| RanWith(s.store.trace, i, r, es[3].response);
      assert RanWith(s'.store.trace, i, r, es[3].response);
    }
    if HasReplay(es) {
      var i :| HitWith(s.store.trace, i, r, es[2].key, es[2].response);
      assert HitWith(s'.store.trace, i, r, es[2].key, es[2].response);
    }
  }

  /** A story only grows at its end, and neither past an answer nor past or into a replay. */
  predicate Grows(es: seq<Event>, es': seq<Event>) {
    es <= es' && (|es| >= 4 || HasReplay(es) ==> es' == es) && (HasReplay(es') ==> HasReplay(es))
  }

  lemma {:induction false} StillTells(q: Request, es: seq<Event>, es': seq<Event>, e: I.Event)
    requires Tells(q, es, e) && Grows(es, es')
    ensures Tells(q, es', e)
  {}

  /** Request r moves: the other stories stay, its own grows, and nobody leaves the protocol. */
  ghost predicate Moves(s: State, s': State, r: nat) {
    && (forall k :: k != r ==> Story(s', k) == Story(s, k))
    && (forall k :: k != r ==> (k in s'.requests <==> k in s.requests))
    && (forall k :: k != r && k in s.requests ==> s'.requests[k] == s.requests[k])
    && (forall k :: k in s.store.phases ==> k in s'.store.phases)
    && s.store.trace <= s'.store.trace
    && (r in s.store.phases ==>
          r in s.requests && r in s'.requests && s'.requests[r] == s.requests[r] && Grows(Story(s, r), Story(s', r)))
  }

  lemma {:induction false} MoveIsFaithful(s: State, s': State, r: nat)
    requires Faithful(s) && Moves(s, s', r) && Backed(s', r)
    requires forall i :: |s.store.trace| <= i < |s'.store.trace| ==> Told(s', i)
    ensures Faithful(s')
  {
    forall i | 0 <= i < |s'.store.trace| ensures Told(s', i) {
      if i < |s.store.trace| { StillTold(s, s', r, i); }
    }
    forall k ensures Backed(s', k) {
      if k != r { StillBacked(s, s', k); }
    }
  }

  lemma {:induction false} StillTold(s: State, s': State, r: nat, i: int)
    requires 0 <= i < |s.store.trace| && Told(s, i) && Moves(s, s', r)
    ensures i < |s'.store.trace| && Told(s', i)
  {
    var e := s.store.trace[i];
    assert s'.store.trace[i] == e;
    if e.req == r { StillTells(s.requests[r], Story(s, r), Story(s', r), e); }
  }

  /** Steps that emit one event, or none, and do not touch the protocol. */
  lemma {:induction false} QuietIsFaithful(s: State, s': State, r: nat)
    requires Faithful(s) && s'.store == s.store
    requires forall k :: k != r ==> Story(s', k) == Story(s, k)
    requires forall k :: k != r ==> (k in s'.requests <==> k in s.requests)
    requires forall k :: k != r && k in s.requests ==> s'.requests[k] == s.requests[k]
    requires r in s.store.phases ==> r in s.requests && r in s'.requests && s'.requests[r] == s.requests[r]
    requires Grows(Story(s, r), Story(s', r)) && |Story(s', r)| <= 3 && !HasReplay(Story(s', r))
    ensures Faithful(s')
  {
    MoveIsFaithful(s, s', r);
  }

  lemma {:induction false} EmitIsFaithful(s: State, s': State, r: nat, e: Event)
    requires Faithful(s) && s'.store == s.store && s'.requests == s.requests && s'.trace == s.trace + [(r, e)]
    requires |Story(s, r)| <= 2 && !e.Replayed? && (r in s.store.phases ==> r in s.requests)
    ensures Faithful(s')
  {
    EmitProjects(s.trace, r, e);
    QuietIsFaithful(s, s', r);
  }

  lemma {:induction false} SameStories(s: State, s': State, r: nat)
    requires Faithful(s) && s'.trace == s.trace && s'.requests == s.requests
    requires forall k :: k in s.store.phases ==> k in s'.store.phases && k in s.requests
    requires s.store.trace <= s'.store.trace
    requires forall i :: |s.store.trace| <= i < |s'.store.trace| ==> Told(s', i)
    ensures Faithful(s')
  {
    StillBacked(s, s', r);
    MoveIsFaithful(s, s', r);
  }

  lemma {:induction false} ProtocolServesRequests(c: Config, s: State)
    requires AllLive(c, s) && AllLinked(s)
    ensures forall k :: k in s.store.phases ==> k in s.requests
  {
    forall k | k in s.store.phases ensures k in s.requests {
      assert Lives(c, s, k) && Linked(s, k);
    }
  }

  /** The request's Get is its first event in the protocol. */
  ghost predicate Gets(s: State, s': State, r: nat, key: string, time: int, result: I.Lookup) {
    && r !in s.store.phases && r in s.requests && s'.requests == s.requests
    && s'.store.phases.Keys == s.store.phases.Keys + {r}
    && s'.store.trace == s.store.trace + [I.Got(r, key, time, result)]
    && |Story(s, r)| == 2 && Keyed(s.requests[r], Story(s, r), key)
  }

  lemma {:induction false} HitIsFaithful(s: State, s': State, r: nat, key: string, time: int, response: I.Response)
    requires Faithful(s) && Gets(s, s', r, key, time, I.Hit(response))
    requires s'.trace == s.trace + [(r, Replayed(key, response))]
    ensures Faithful(s')
  {
    EmitProjects(s.trace, r, Replayed(key, response));
    assert HitWith(s'.store.trace, |s.store.trace|, r, key, response);
    assert Told(s', |s.store.trace|);
    MoveIsFaithful(s, s', r);
  }

  lemma {:induction false} PassIsFaithful(s: State, s': State, r: nat, key: string, time: int, result: I.Lookup)
    requires Faithful(s) && Gets(s, s', r, key, time, result) && !result.Hit?
    requires s'.trace == s.trace
    ensures Faithful(s')
  {
    assert Told(s', |s.store.trace|);
    MoveIsFaithful(s, s', r);
  }

  lemma {:induction false} GetIsFaithful(c: Config, s: State, r: nat, time: int, up: bool)
    requires AllLive(c, s) && Faithful(s) && Enabled(c, s, IdemGet(r, time, up))
    ensures Faithful(Apply(c, s, IdemGet(r, time, up)))
  {
    PassedStory(c, s, r);
    var s', q := Apply(c, s, IdemGet(r, time, up)), s.requests[r];
    if q.idemKey == "" {
      EmitIsFaithful(s, s', r, KeyMissing);
    } else {
      var key := StoreKey(s.phases[r].id.tenant, q);
      var result := I.Get(s.store.cells, key, time, up);
      if result.Hit? {
        HitIsFaithful(s, s', r, key, time, result.response);
      } else {
        PassIsFaithful(s, s', r, key, time, result);
      }
    }
  }

  /** A step that answers r, denied or handled, with the events `more` after two or three others. */
  lemma {:induction false} AnswerIsFaithful(c: Config, s: State, s': State, r: nat, e: Event)
    requires Faithful(s) && InPhase(s, r) && (s.phases[r].Cleared? || s.phases[r].Authorized?)
    requires Underway(s, r, s.phases[r].id, s.phases[r].capture) && Answers(e)
    requires s'.requests == s.requests && s'.store == I.Apply(s.store, I.DoRun(r, e.response), c.ttl)
    requires forall k :: k != r ==> Story(s', k) == Story(s, k)
    requires var es, es' := Story(s, r), Story(s', r);
      Grows(es, es') && !HasReplay(es') && |es'| == 4 && es'[3] == e && Opens(es', s.phases[r].id)
    ensures Faithful(s')
  {
    var q, n := s.requests[r], |s.store.trace|;
    if q.route.idempotent {
      var key := StoreKey(s.phases[r].id.tenant, q);
      assert s'.store.trace == s.store.trace + [I.Ran(r, key, e.response)];
      assert RanWith(s'.store.trace, n, r, e.response);
      assert Told(s', n);
    }
    MoveIsFaithful(s, s', r);
  }

  lemma {:induction false} DenyIsFaithful(c: Config, s: State, r: nat, d: P.Decision, body: string)
    requires AllLive(c, s) && AllLinked(s) && Faithful(s) && Enabled(c, s, Decide(r, d, body)) && !d.allow
    ensures Faithful(Apply(c, s, Decide(r, d, body)))
  {
    ClearedStory(c, s, r);
    assert Linked(s, r);
    var s', p, q := Apply(c, s, Decide(r, d, body)), s.phases[r], s.requests[r];
    var e, e' := Audited(InputOf(p.id, q), d, q.id), Denied(p.capture, Forbidden(body));
    EmitProjects(s.trace, r, e);
    EmitProjects(s.trace + [(r, e)], r, e');
    AnswerIsFaithful(c, s, s', r, e');
  }

  lemma {:induction false} HandlerAnswers(s: State, r: nat, status: int, body: string, contentType: string)
      returns (e: Event)
    requires InPhase(s, r) && s.phases[r].Authorized?
    ensures var s' := HandleStep(s, r, status, body, contentType);
      s'.requests == s.requests && s'.store == s.store && s'.trace == s.trace + [(r, e)]
    ensures Answers(e) && !e.Replayed? && e.response == Answer(s.requests[r].route, status, body, contentType)
  {
    e := LastEvent(HandleStep(s, r, status, body, contentType));
  }

  lemma {:induction false} HandleIsFaithful(c: Config, s: State, r: nat, status: int, body: string, contentType: string)
    requires AllLive(c, s) && AllLinked(s) && Faithful(s) && Enabled(c, s, Handle(r, status, body, contentType))
    ensures Faithful(Apply(c, s, Handle(r, status, body, contentType)))
  {
    AuthorizedStory(c, s, r);
    assert Linked(s, r);
    var e := HandlerAnswers(s, r, status, body, contentType);
    EmitProjects(s.trace, r, e);
    AnswerIsFaithful(c, s, Apply(c, s, Handle(r, status, body, contentType)), r, e);
  }

  lemma {:induction false} SetIsFaithful(c: Config, s: State, r: nat, time: int, up: bool)
    requires AllLive(c, s) && AllLinked(s) && Faithful(s) && Enabled(c, s, IdemSet(r, time, up))
    ensures Faithful(Apply(c, s, IdemSet(r, time, up)))
  {
    ProtocolServesRequests(c, s);
    assert Lives(c, s, r) && Linked(s, r);
    SameStories(s, Apply(c, s, IdemSet(r, time, up)), r);
  }

  lemma {:induction false} AuthenticateIsFaithful(c: Config, s: State, r: nat, now: int)
    requires AllLive(c, s) && Faithful(s) && InPhase(s, r) && s.phases[r].Arrived?
    ensures Faithful(AuthenticateStep(c, s, r, now))
  {
    assert Lives(c, s, r);
    EmitIsFaithful(s, AuthenticateStep(c, s, r, now), r, LastEvent(AuthenticateStep(c, s, r, now)));
  }

  lemma {:induction false} LimitIsFaithful(c: Config, s: State, r: nat, call: F.Request, o: L.Outcome)
    requires AllLive(c, s) && Faithful(s) && InPhase(s, r) && s.phases[r].Known?
    ensures Faithful(RateLimitStep(s, r, call, o))
  {
    assert Lives(c, s, r);
    EmitIsFaithful(s, RateLimitStep(s, r, call, o), r, LastEvent(RateLimitStep(s, r, call, o)));
  }

  lemma {:induction false} AllowIsFaithful(c: Config, s: State, r: nat, d: P.Decision, body: string)
    requires AllLive(c, s) && Faithful(s) && InPhase(s, r) && s.phases[r].Cleared? && d.allow
    ensures Faithful(DecideStep(s, r, d, body))
  {
    ClearedStory(c, s, r);
    EmitIsFaithful(s, DecideStep(s, r, d, body), r, LastEvent(DecideStep(s, r, d, body)));
  }

  lemma {:induction false} ApplyIsFaithful(c: Config, s: State, a: Action)
    requires AllLive(c, s) && AllLinked(s) && Faithful(s) && Enabled(c, s, a)
    ensures Faithful(Apply(c, s, a))
  {
    var s', r := Apply(c, s, a), a.req;
    assert Lives(c, s, r) && Linked(s, r);
    match a {
      case Arrive(_, _) => QuietIsFaithful(s, s', r);
      case Authenticate(_, now) => AuthenticateIsFaithful(c, s, r, now);
      case RateLimit(_, call) =>
        LimitIsFaithful(c, s, r, call, L.Serve(s.limits, Tag(s, r, call), c.limit, c.window));
      case IdemGet(_, time, up) => GetIsFaithful(c, s, r, time, up);
      case Decide(_, d, body) =>
        if d.allow {
          AllowIsFaithful(c, s, r, d, body);
        } else {
          DenyIsFaithful(c, s, r, d, body);
        }
      case ManageKeys(_, _) =>
        ProtocolServesRequests(c, s);
        SameStories(s, s', r);
      case Handle(_, status, body, contentType) => HandleIsFaithful(c, s, r, status, body, contentType);
      case IdemSet(_, time, up) => SetIsFaithful(c, s, r, time, up);
    }
  }

  lemma {:induction false} RunIsFaithful(c: Config, actions: seq<Action>)
    ensures Faithful(Run(c, actions))
  {
    if actions != [] {
      var init, a := actions[..|actions| - 1], actions[|actions| - 1];
      RunIsFaithful(c, init);
      RunLives(c, init);
      RunLinks(c, init);
      if Enabled(c, Run(c, init), a) { ApplyIsFaithful(c, Run(c, init), a); }
    }
  }

  // ------------------------------------------------------------ the main results

  /**
   Duplicates, end to end: whatever the interleaving, a request behind the idempotency middleware
   is answered by policy or handler only if its own Get passed, that is, the store was down for
   it or everything stored before it under the key of its tenant, route and Idempotency-Key had
   lapsed. With the store up and no lapse, that Get precedes the first response stored.
   */
  lemma {:induction false} AnswersPassedTheirGet(c: Config, actions: seq<Action>, r: nat) returns (g: int, i: int)
    requires var s := Run(c, actions);
      r in s.requests && s.requests[r].route.idempotent && |Story(s, r)| == 4 && Answers(Story(s, r)[3])
    ensures var s := Run(c, actions);
      var es, tr := Story(s, r), s.store.trace;
      && es[0].Authenticated?
      && var key := StoreKey(es[0].id.tenant, s.requests[r]);
         && g < i && I.PassedFor(tr, g, r, key) && I.PassJustified(tr, g, c.ttl)
         && I.RanFor(tr, i, r, key, es[3].response)
         && (I.StoreUpWithinTTL(tr, c.ttl) ==> forall m :: I.StoredAt(tr, m, key) ==> g < m)
  {
    RunIsFaithful(c, actions);
    RunStore(c, actions);
    var s := Run(c, actions);
    assert Backed(s, r);
    i :| RanWith(s.store.trace, i, r, Story(s, r)[3].response);
    assert Told(s, i);
    g := I.ExecutionsPrecedeFirstStore(BOOT, StoreSteps(c, actions), c.ttl, i);
  }

  /**
   Exactly when a request is replayed: while the store answers its Get, the request ends in a
   replay if and only if some response stored before under its key has not lapsed.
   */
  lemma {:induction false} ReplayedExactlyWhen(c: Config, actions: seq<Action>, g: int)
    requires var tr := Run(c, actions).store.trace; 0 <= g < |tr| && tr[g].Got? && !tr[g].result.Unavailable?
    ensures var s := Run(c, actions);
      var tr := s.store.trace;
      HasReplay(Story(s, tr[g].req))
      <==> exists m :: m < g && I.StoredAt(tr, m, tr[g].key) && !I.Lapsed(tr[m].time, c.ttl, tr[g].time)
  {
    RunIsFaithful(c, actions);
    RunStore(c, actions);
    assert Told(Run(c, actions), g);
    I.ReplaysExactlyWhen(BOOT, StoreSteps(c, actions), c.ttl, g);
  }

  /**
   A tenant's replays are its own: in every run of the gateway, what the store did for a tenant's
   records on a route is what it does when all other steps are erased from the run; and a record
   of a tenant that is apart from it is never among them.
   */
  lemma {:induction false} TenantsReplayAlone(c: Config, actions: seq<Action>, tenant: string, path: string)
    requires Keys.FixedPattern(path)
    ensures var mine: I.Selection := key => Keys.RecordOf(key, tenant, path);
      && I.Execute(BOOT, I.Erase(BOOT, StoreSteps(c, actions), c.ttl, mine), c.ttl).trace
         == I.EventsOn(Run(c, actions).store.trace, mine)
      && forall t, k :: Keys.Apart(t, tenant, path) ==>
           (mine(Keys.RedisKey(t, Keys.IdemSuffix(path, k))) <==> t == tenant)
  {
    RunStore(c, actions);
    I.TenantsAreIndependent(BOOT, StoreSteps(c, actions), c.ttl, tenant, path);
  }
}
