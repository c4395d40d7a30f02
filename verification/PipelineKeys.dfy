/**
 Credentials and key management, end to end: who may change the API keys that later requests
 authenticate with (internal/gateway/router.go, internal/auth/apikey_handler.go).
 */
module PipelineKeys {
  import opened Identities
  import opened Pipeline
  import ApiKeys
  import DefaultRules
  import Jwt

  // ------------------------------------------------------------ vouching

  /** The story is that of an admitted caller of the tenant whose access to API keys was allowed and audited. */
  ghost predicate Vouches(c: Config, es: seq<Event>, q: Request, tenant: string) {
    && |es| >= 3 && es[0].Authenticated? && es[0].id.tenant == tenant
    && Judged(c, es, es[0].id, q) && es[2].decision.allow
    && q.route.kind.ApiKey? && !q.route.action.Read?
  }

  ghost predicate Vouched(c: Config, s: State, r: nat, tenant: string) {
    r in s.requests && Vouches(c, Project(s.trace, r), s.requests[r], tenant)
  }

  /** With the default rules, whoever vouches for a key is an admin of its tenant. */
  lemma {:induction false} VouchedByAdmin(c: Config, s: State, r: nat, tenant: string)
    requires c.rules == DefaultRules.RULES && Vouched(c, s, r, tenant)
    ensures var es := Project(s.trace, r);
      es[0].Authenticated? && es[0].id == Identity(tenant, es[0].id.user, Admin, es[0].id.region, es[0].id.supplier)
  {
    var es, q := Project(s.trace, r), s.requests[r];
    DefaultRules.ExactAccess(es[0].id, q.route.action, q.route.kind, q.extracted, c.timeout, es[2].decision);
  }

  /** Stories grow, and requests stay what they were. */
  ghost predicate Later(s: State, s': State) {
    && (forall r :: r in s.requests && r in s.phases ==> r in s'.requests && s'.requests[r] == s.requests[r])
    && (forall r :: Project(s.trace, r) <= Project(s'.trace, r))
  }

  lemma {:induction false} StillVouched(c: Config, s: State, s': State, r: nat, tenant: string)
    requires AllLive(c, s) && Later(s, s') && Vouched(c, s, r, tenant)
    ensures Vouched(c, s', r, tenant)
  {
    assert Lives(c, s, r);
    var es, es' := Project(s.trace, r), Project(s'.trace, r);
    assert es'[0] == es[0] && es'[1] == es[1] && es'[2] == es[2];
  }

  lemma {:induction false} ProjectGrows(tr: Trace, tr': Trace, r: nat)
    requires tr <= tr'
    ensures Project(tr, r) <= Project(tr', r)
  {
    if |tr| < |tr'| {
      ProjectGrows(tr, tr'[..|tr'| - 1], r);
    } else {
      assert tr == tr';
    }
  }

  lemma {:induction false} ApplyKeepsRequests(c: Config, s: State, a: Action, r: nat)
    requires r in s.requests && r in s.phases
    ensures r in Apply(c, s, a).requests && Apply(c, s, a).requests[r] == s.requests[r]
  {}

  lemma {:induction false} ApplyIsLater(c: Config, s: State, a: Action)
    ensures Later(s, Apply(c, s, a))
  {
    ApplyGrows(c, s, a);
    forall r ensures Project(s.trace, r) <= Project(Apply(c, s, a).trace, r) {
      ProjectGrows(s.trace, Apply(c, s, a).trace, r);
    }
    forall r | r in s.requests && r in s.phases
      ensures r in Apply(c, s, a).requests && Apply(c, s, a).requests[r] == s.requests[r]
    {
      ApplyKeepsRequests(c, s, a, r);
    }
  }

  // ------------------------------------------------------------ the ledger

  /** A rotation belongs to an authorized request of its tenant that asked for one. */
  predicate RotationLinked(s: State, tx: nat)
    requires tx in s.keys.rotations
  {
    && InPhase(s, tx) && s.phases[tx].Authorized? && s.phases[tx].id.tenant == s.keys.rotations[tx].tenant
    && s.requests[tx].route.kind.ApiKey? && s.requests[tx].route.action.Update?
  }

  /** The ledger names a vouching request for every committed row and for every revocation. */
  ghost predicate Attributed(c: Config, s: State, id: string)
    requires id in s.keys.table
  {
    var row := s.keys.table[id];
    && id in s.ledger.inserted && Vouched(c, s, s.ledger.inserted[id], row.tenant)
    && (row.revokedAt.Some? ==> id in s.ledger.revoked && Vouched(c, s, s.ledger.revoked[id], row.tenant))
  }

  ghost predicate AllAttributed(c: Config, s: State) {
    forall id :: id in s.keys.table ==> Attributed(c, s, id)
  }

  ghost predicate KeysOk(c: Config, s: State) {
    && ApiKeys.Invariant(s.keys, c.hash) && ApiKeys.Rooted(s.keys)
    && (forall tx :: tx in s.keys.rotations ==> RotationLinked(s, tx))
    && AllAttributed(c, s)
  }

  lemma {:induction false} StillAttributed(c: Config, s: State, s': State, id: string)
    requires AllLive(c, s) && Later(s, s') && id in s.keys.table && Attributed(c, s, id)
    requires id in s'.keys.table && s'.keys.table[id] == s.keys.table[id]
    requires id in s'.ledger.inserted && s'.ledger.inserted[id] == s.ledger.inserted[id]
    requires id in s.ledger.revoked ==> id in s'.ledger.revoked && s'.ledger.revoked[id] == s.ledger.revoked[id]
    ensures Attributed(c, s', id)
  {
    var row := s.keys.table[id];
    StillVouched(c, s, s', s.ledger.inserted[id], row.tenant);
    if row.revokedAt.Some? { StillVouched(c, s, s', s.ledger.revoked[id], row.tenant); }
  }

  /** Steps other than those of the key handlers leave the keys alone, and requests in a rotation where they are. */
  lemma {:induction false} OtherStepFrame(c: Config, s: State, a: Action)
    requires Enabled(c, s, a) && !a.ManageKeys?
    ensures Apply(c, s, a).keys == s.keys && Apply(c, s, a).ledger == s.ledger
  {}

  lemma {:induction false} OtherStepLinks(c: Config, s: State, a: Action, tx: nat)
    requires Enabled(c, s, a) && !a.ManageKeys? && tx in s.keys.rotations && RotationLinked(s, tx)
    ensures var s' := Apply(c, s, a); s'.keys == s.keys && RotationLinked(s', tx)
  {
    assert a.req != tx;
  }

  lemma {:induction false} OtherStepKeepsKeys(c: Config, s: State, a: Action)
    requires AllLive(c, s) && KeysOk(c, s) && Enabled(c, s, a) && !a.ManageKeys?
    ensures KeysOk(c, Apply(c, s, a))
  {
    OtherStepFrame(c, s, a);
    ApplyIsLater(c, s, a);
    forall tx | tx in s.keys.rotations ensures RotationLinked(Apply(c, s, a), tx) {
      OtherStepLinks(c, s, a, tx);
    }
    SameKeysOk(c, s, Apply(c, s, a));
  }

  lemma {:induction false} SameKeysOk(c: Config, s: State, s': State)
    requires AllLive(c, s) && KeysOk(c, s) && Later(s, s') && s'.keys == s.keys && s'.ledger == s.ledger
    requires forall tx :: tx in s'.keys.rotations ==> RotationLinked(s', tx)
    ensures KeysOk(c, s')
  {
    forall id | id in s'.keys.table ensures Attributed(c, s', id) {
      StillAttributed(c, s, s', id);
    }
  }

  // ------------------------------------------------------------ the steps of the key handlers

  /** The request that manages keys vouches for what it does. */
  lemma {:induction false} ManagerVouches(c: Config, s: State, r: nat, op: ApiKeys.Action)
    requires AllLive(c, s) && InPhase(s, r) && s.phases[r].Authorized? && MayManage(s, r, op)
    ensures Vouched(c, s, r, s.phases[r].id.tenant)
  {
    assert Lives(c, s, r);
  }

  lemma {:induction false} ManageLinks(c: Config, s: State, r: nat, op: ApiKeys.Action)
    requires InPhase(s, r) && s.phases[r].Authorized? && MayManage(s, r, op) && ApiKeys.Enabled(s.keys, op)
    requires forall tx :: tx in s.keys.rotations ==> RotationLinked(s, tx)
    ensures var s' := ManageStep(c, s, r, op); forall tx :: tx in s'.keys.rotations ==> RotationLinked(s', tx)
  {}

  /** The ids are entered under request r, and all other entries stay. */
  ghost predicate Entered(entries: map<string, nat>, entries': map<string, nat>, ids: set<string>, r: nat) {
    && (forall id :: id in ids ==> id in entries' && entries'[id] == r)
    && (forall id :: id in entries && id !in ids ==> id in entries' && entries'[id] == entries[id])
  }

  lemma {:induction false} EnteredOne(entries: map<string, nat>, id: string, r: nat)
    ensures Entered(entries, entries[id := r], {id}, r) && Entered(entries, entries, {}, r)
  {}

  /** What changed between two tables: rows of the tenant that were inserted, and rows of it that were revoked. */
  ghost predicate Changed(
      t: ApiKeys.Table, t': ApiKeys.Table, inserted: set<string>, revoked: set<string>, tenant: string)
  {
    && (forall id :: id in t' && id !in inserted && id !in revoked ==> id in t && t'[id] == t[id])
    && (forall id :: id in t' && id in inserted ==> t'[id].tenant == tenant && t'[id].revokedAt.None?)
    && (forall id :: id in t' && id in revoked && id !in inserted ==>
          id in t && t[id].tenant == t'[id].tenant == tenant)
  }

  /** Everything is attributed after a step in which request r vouches for the rows it inserted or revoked. */
  lemma {:induction false} ChangesAreAttributed(
      c: Config, s: State, s': State, r: nat, inserted: set<string>, revoked: set<string>, tenant: string)
    requires s'.requests == s.requests && s'.trace == s.trace && AllAttributed(c, s) && Vouched(c, s, r, tenant)
    requires Changed(s.keys.table, s'.keys.table, inserted, revoked, tenant)
    requires Entered(s.ledger.inserted, s'.ledger.inserted, inserted, r)
    requires Entered(s.ledger.revoked, s'.ledger.revoked, revoked, r)
    ensures AllAttributed(c, s')
  {
    forall id | id in s'.keys.table ensures Attributed(c, s', id) {
      if id in s.keys.table { assert Attributed(c, s, id); }
    }
  }

  lemma {:induction false} CreateIsAttributed(
      c: Config, s: State, r: nat, spec: ApiKeys.Spec, id: string, secret: string)
    requires AllAttributed(c, s) && ApiKeys.Enabled(s.keys, ApiKeys.Create(spec, id, secret))
    requires Vouched(c, s, r, spec.tenant)
    ensures AllAttributed(c, ManageStep(c, s, r, ApiKeys.Create(spec, id, secret)))
  {
    EnteredOne(s.ledger.inserted, id, r);
    EnteredOne(s.ledger.revoked, id, r);
    ChangesAreAttributed(c, s, ManageStep(c, s, r, ApiKeys.Create(spec, id, secret)), r, {id}, {}, spec.tenant);
  }

  lemma {:induction false} CommitIsAttributed(c: Config, s: State, r: nat, tx: nat)
    requires AllAttributed(c, s) && ApiKeys.Enabled(s.keys, ApiKeys.Commit(tx)) && ApiKeys.RotationOk(s.keys, tx)
    requires Vouched(c, s, r, s.keys.rotations[tx].tenant)
    ensures AllAttributed(c, ManageStep(c, s, r, ApiKeys.Commit(tx)))
  {
    var q, s' := s.keys.rotations[tx], ManageStep(c, s, r, ApiKeys.Commit(tx));
    CommitIsChange(s.keys, tx, c.hash);
    EnteredOne(s.ledger.inserted, q.stage.newId, r);
    EnteredOne(s.ledger.revoked, q.id, r);
    ChangesAreAttributed(c, s, s', r, {q.stage.newId}, {q.id}, q.tenant);
  }

  lemma {:induction false} CommitIsChange(keys: ApiKeys.State, tx: nat, hash: string -> string)
    requires ApiKeys.Enabled(keys, ApiKeys.Commit(tx)) && ApiKeys.RotationOk(keys, tx)
    ensures var q := keys.rotations[tx];
      Changed(keys.table, ApiKeys.Apply(keys, ApiKeys.Commit(tx), hash).table, {q.stage.newId}, {q.id}, q.tenant)
  {}

  lemma {:induction false} RevokeIsAttributed(c: Config, s: State, r: nat, tenant: string, id: string, now: int)
    requires AllAttributed(c, s) && ApiKeys.Enabled(s.keys, ApiKeys.Revoke(tenant, id, now))
    requires Vouched(c, s, r, tenant)
    ensures AllAttributed(c, ManageStep(c, s, r, ApiKeys.Revoke(tenant, id, now)))
  {
    EnteredOne(s.ledger.inserted, id, r);
    EnteredOne(s.ledger.revoked, id, r);
    ChangesAreAttributed(c, s, ManageStep(c, s, r, ApiKeys.Revoke(tenant, id, now)), r, {}, {id}, tenant);
  }

  lemma {:induction false} QuietIsAttributed(c: Config, s: State, r: nat, op: ApiKeys.Action)
    requires AllAttributed(c, s) && ApiKeys.Enabled(s.keys, op) && !op.Create? && !op.Commit? && !op.Revoke?
    ensures AllAttributed(c, ManageStep(c, s, r, op))
  {
    var s' := ManageStep(c, s, r, op);
    assert s'.keys.table == s.keys.table;
    forall k | k in s'.keys.table ensures Attributed(c, s', k) {
      assert Attributed(c, s, k);
    }
  }

  lemma {:induction false} ManageIsItsStep(c: Config, s: State, r: nat, op: ApiKeys.Action)
    requires Enabled(c, s, ManageKeys(r, op))
    ensures Apply(c, s, ManageKeys(r, op)) == ManageStep(c, s, r, op)
  {}

  lemma {:induction false} ManageKeepsKeys(c: Config, s: State, r: nat, op: ApiKeys.Action)
    requires AllLive(c, s) && KeysOk(c, s) && Enabled(c, s, ManageKeys(r, op))
    ensures KeysOk(c, Apply(c, s, ManageKeys(r, op)))
  {
    ManageIsItsStep(c, s, r, op);
    ApiKeys.ApplyKeepsInvariant(s.keys, op, c.hash);
    ApiKeys.ApplyRemembers(s.keys, op, c.hash);
    ManageLinks(c, s, r, op);
    ManagerVouches(c, s, r, op);
    match op {
      case Create(spec, id, secret) => CreateIsAttributed(c, s, r, spec, id, secret);
      case Commit(tx) =>
        assert RotationLinked(s, tx) && ApiKeys.RotationOk(s.keys, tx);
        CommitIsAttributed(c, s, r, tx);
      case Revoke(tenant, id, now) => RevokeIsAttributed(c, s, r, tenant, id, now);
      case _ => QuietIsAttributed(c, s, r, op);
    }
  }

  lemma {:induction false} ApplyKeepsKeys(c: Config, s: State, a: Action)
    requires AllLive(c, s) && KeysOk(c, s)
    ensures KeysOk(c, Apply(c, s, a))
  {
    if Enabled(c, s, a) {
      if a.ManageKeys? {
        ManageKeepsKeys(c, s, a.req, a.op);
      } else {
        OtherStepKeepsKeys(c, s, a);
      }
    }
  }

  lemma {:induction false} RunKeepsKeys(c: Config, actions: seq<Action>)
    ensures KeysOk(c, Run(c, actions))
  {
    if actions != [] {
      var init, a := actions[..|actions| - 1], actions[|actions| - 1];
      RunKeepsKeys(c, init);
      RunLives(c, init);
      ApplyKeepsKeys(c, Run(c, init), a);
    }
  }

  /**
   Key management, end to end: in every run of the gateway with the default rules, every committed
   key was created or rotated in, and every revoked key was revoked or rotated out, by a request
   of an admin of the key's own tenant that was authenticated, admitted, allowed and audited.
   */
  lemma {:induction false} KeysAreManagedByAdmins(c: Config, actions: seq<Action>, id: string)
    requires c.rules == DefaultRules.RULES && id in Run(c, actions).keys.table
    ensures var s := Run(c, actions);
      && id in s.ledger.inserted && ActedAsAdmin(c, s, s.ledger.inserted[id], s.keys.table[id].tenant)
      && (s.keys.table[id].revokedAt.Some? ==>
            id in s.ledger.revoked && ActedAsAdmin(c, s, s.ledger.revoked[id], s.keys.table[id].tenant))
  {
    RunKeepsKeys(c, actions);
    var s := Run(c, actions);
    assert Attributed(c, s, id);
    VouchedByAdmin(c, s, s.ledger.inserted[id], s.keys.table[id].tenant);
    if s.keys.table[id].revokedAt.Some? { VouchedByAdmin(c, s, s.ledger.revoked[id], s.keys.table[id].tenant); }
  }

  /** An admin of the tenant whose request was admitted and whose access to API keys was allowed and audited. */
  ghost predicate ActedAsAdmin(c: Config, s: State, r: nat, tenant: string) {
    Vouched(c, s, r, tenant) && Project(s.trace, r)[0].id.role == Admin
  }

  // ------------------------------------------------------------ credentials

  /** The identity is one that some Issue of the run was asked for. */
  ghost predicate IssuedIn(actions: seq<Jwt.Action>, id: Identity) {
    exists i :: 0 <= i < |actions| && actions[i].DoIssue? && actions[i].id == id
  }

  /** The identity is the scope of the Create from which the key with this secret descends. */
  ghost predicate KeyedIn(keys: ApiKeys.State, secret: string, id: Identity) {
    && id.user in keys.past.secrets && keys.past.secrets[id.user] == secret
    && id.user in keys.past.root && keys.past.root[id.user] in keys.past.specs
    && var spec := keys.past.specs[keys.past.root[id.user]];
       id == Identity(spec.tenant, id.user, spec.role, spec.region, spec.supplier)
  }

  /** The key behind the identity was live and its root unexpired at this time. */
  ghost predicate UsableAt(keys: ApiKeys.State, id: Identity, now: int)
    requires id.user in keys.past.root && keys.past.root[id.user] in keys.past.specs
  {
    var spec := keys.past.specs[keys.past.root[id.user]];
    ApiKeys.Live(keys.table, id.user) && (spec.expires.Some? ==> now < spec.expires.value)
  }

  lemma {:induction false} ResolvedIsKeyed(c: Config, keys: ApiKeys.State, q: Request, now: int)
    requires ApiKeys.Invariant(keys, c.hash) && ApiKeys.Injective(c.hash) && q.bearer.None?
    ensures var id := ResolveIdentity(c, q, keys.table, now);
      id.Some? ==> KeyedIn(keys, q.apiKey, id.value) && UsableAt(keys, id.value, now)
  {
    ApiKeys.ResolveInState(keys, c.hash, q.apiKey, now);
  }

  /**
   Whatever a caller presents after any history of the issuer and of the key table, an identity
   that authentication accepts was issued to a bearer token, or is the scope of the Create behind
   the presented API key; with a bearer token present the API key is never consulted.
   */
  lemma {:induction false} AcceptedIdentitiesAreGenuine(
      c: Config, q: Request, issued: seq<Jwt.Action>, managed: seq<ApiKeys.Action>, now: int)
    requires Jwt.Honest(c.issuer, issued) && ApiKeys.Injective(c.hash)
    requires q.bearer.Some? ==> Jwt.Unforged(Jwt.Run(c.issuer, issued), q.bearer.value, c.issuer)
    ensures var keys := ApiKeys.Execute(ApiKeys.EMPTY, managed, c.hash);
      var id := ResolveIdentity(c, q, keys.table, now);
      id.Some? ==>
        && ValidRole(id.value.role)
        && if q.bearer.Some? then IssuedIn(issued, id.value)
           else KeyedIn(keys, q.apiKey, id.value) && UsableAt(keys, id.value, now)
  {
    var keys := ApiKeys.Execute(ApiKeys.EMPTY, managed, c.hash);
    if ResolveIdentity(c, q, keys.table, now).Some? {
      if q.bearer.Some? {
        Jwt.AcceptedIdentitiesWereIssued(c.issuer, issued, q.bearer.value, now);
        var records := Jwt.Run(c.issuer, issued);
        var k :| 0 <= k < |records| && records[k].token == q.bearer.value;
        assert Jwt.Bounded(c.issuer, issued, records[k], ResolveIdentity(c, q, keys.table, now).value, now);
      } else {
        ApiKeys.ExecuteKeepsInvariant(ApiKeys.EMPTY, managed, c.hash);
        ResolvedIsKeyed(c, keys, q, now);
      }
      ResolvedRoleIsValid(c, q, keys.table, now);
    }
  }

  // ------------------------------------------------------------ credentials, end to end

  /** The identity comes from a token that validated at this time, or from the key the request presented. */
  ghost predicate Grounds(c: Config, keys: ApiKeys.State, q: Request, id: Identity, at: int) {
    if q.bearer.Some? then Jwt.Validate(c.issuer, q.bearer.value, at) == Jwt.Ok(id) else KeyedIn(keys, q.apiKey, id)
  }

  ghost predicate Grounded(c: Config, s: State, r: nat) {
    var es := Project(s.trace, r);
    es != [] && es[0].Authenticated? ==> r in s.requests && Grounds(c, s.keys, s.requests[r], es[0].id, es[0].at)
  }

  ghost predicate AllGrounded(c: Config, s: State) {
    forall r :: Grounded(c, s, r)
  }

  lemma {:induction false} StillGrounds(
      c: Config, keys: ApiKeys.State, keys': ApiKeys.State, q: Request, id: Identity, at: int)
    requires Grounds(c, keys, q, id, at) && ApiKeys.Remembers(keys.past, keys'.past)
    ensures Grounds(c, keys', q, id, at)
  {}

  lemma {:induction false} KeysAreRemembered(c: Config, s: State, a: Action)
    requires KeysOk(c, s)
    ensures ApiKeys.Remembers(s.keys.past, Apply(c, s, a).keys.past)
  {
    if Enabled(c, s, a) {
      if a.ManageKeys? {
        ManageIsItsStep(c, s, a.req, a.op);
        ApiKeys.ApplyRemembers(s.keys, a.op, c.hash);
      } else {
        OtherStepFrame(c, s, a);
      }
    }
  }

  /** The events of a step belong to the request that takes it. */
  lemma {:induction false} ApplyEmitsOwn(c: Config, s: State, a: Action, i: int)
    requires |s.trace| <= i < |Apply(c, s, a).trace|
    ensures Apply(c, s, a).trace[i].0 == a.req
  {}

  lemma {:induction false} OtherStories(tr: Trace, tr': Trace, r: nat, k: nat)
    requires tr <= tr' && k != r && forall i :: |tr| <= i < |tr'| ==> tr'[i].0 == r
    ensures Project(tr', k) == Project(tr, k)
  {
    if |tr| < |tr'| {
      OtherStories(tr, tr'[..|tr'| - 1], r, k);
    } else {
      assert tr == tr';
    }
  }

  /** Only authentication begins a story. */
  lemma {:induction false} FirstEvent(c: Config, s: State, a: Action, r: nat)
    requires AllLive(c, s) && Project(s.trace, r) == [] && Project(Apply(c, s, a).trace, r) != []
    ensures a.Authenticate? && a.req == r && Enabled(c, s, a)
  {
    assert Lives(c, s, r);
    if a.req != r {
      ApplyGrows(c, s, a);
      forall i | |s.trace| <= i < |Apply(c, s, a).trace| ensures Apply(c, s, a).trace[i].0 == a.req {
        ApplyEmitsOwn(c, s, a, i);
      }
      OtherStories(s.trace, Apply(c, s, a).trace, a.req, r);
    }
  }

  lemma {:induction false} AuthenticateGrounds(c: Config, s: State, r: nat, now: int)
    requires ApiKeys.Invariant(s.keys, c.hash) && ApiKeys.Injective(c.hash)
    requires InPhase(s, r) && s.phases[r].Arrived? && Project(s.trace, r) == []
    ensures Grounded(c, Apply(c, s, Authenticate(r, now)), r)
  {
    var s', q := Apply(c, s, Authenticate(r, now)), s.requests[r];
    ProjectSnoc(s.trace, r, LastEvent(s'), r);
    if q.bearer.None? { ResolvedIsKeyed(c, s.keys, q, now); }
  }

  lemma {:induction false} ApplyGrounds(c: Config, s: State, a: Action, r: nat)
    requires AllLive(c, s) && KeysOk(c, s) && ApiKeys.Injective(c.hash) && Grounded(c, s, r)
    ensures Grounded(c, Apply(c, s, a), r)
  {
    var es, es' := Project(s.trace, r), Project(Apply(c, s, a).trace, r);
    assert Lives(c, s, r);
    if es != [] {
      ApplyIsLater(c, s, a);
      KeysAreRemembered(c, s, a);
      assert es'[0] == es[0];
      if es[0].Authenticated? { StillGrounds(c, s.keys, Apply(c, s, a).keys, s.requests[r], es[0].id, es[0].at); }
    } else if es' != [] {
      FirstEvent(c, s, a, r);
      AuthenticateGrounds(c, s, r, a.now);
    }
  }

  lemma {:induction false} RunGrounds(c: Config, actions: seq<Action>)
    requires ApiKeys.Injective(c.hash)
    ensures AllGrounded(c, Run(c, actions))
  {
    if actions != [] {
      var init, a := actions[..|actions| - 1], actions[|actions| - 1];
      RunGrounds(c, init);
      RunLives(c, init);
      RunKeepsKeys(c, init);
      forall r ensures Grounded(c, Run(c, actions), r) {
        ApplyGrounds(c, Run(c, init), a, r);
      }
    }
  }

  /** The step that authenticated a request within the first m actions, and what its credential was worth then. */
  lemma {:induction false} AuthenticatedWhileUsable(c: Config, actions: seq<Action>, m: nat, r: nat) returns (n: nat)
    requires ApiKeys.Injective(c.hash) && m <= |actions|
    requires var es := Project(Run(c, actions[..m]).trace, r); es != [] && es[0].Authenticated?
    ensures n < m && Authenticates(c, actions, n, r, Run(c, actions[..m]))
  {
    if m > 0 {
      if Project(Run(c, actions[..m - 1]).trace, r) != [] {
        BeganEarlier(c, actions, m, r);
        n := AuthenticatedWhileUsable(c, actions, m - 1, r);
        StillAuthenticates(c, actions, n, r, Run(c, actions[..m - 1]), Run(c, actions[..m]));
      } else {
        BeginsHere(c, actions, m, r);
        n := m - 1;
      }
    }
  }

  lemma {:induction false} BeganEarlier(c: Config, actions: seq<Action>, m: nat, r: nat)
    requires 0 < m <= |actions| && Project(Run(c, actions[..m - 1]).trace, r) != []
    ensures Continues(Run(c, actions[..m - 1]), Run(c, actions[..m]), r)
  {
    RunPrefix(c, actions, m);
    RunLives(c, actions[..m - 1]);
    StoryKept(c, Run(c, actions[..m - 1]), actions[m - 1], r);
  }

  /** The story that request r has in state s is begun the same way in state s'. */
  predicate Continues(s: State, s': State, r: nat) {
    var es, es' := Project(s.trace, r), Project(s'.trace, r);
    && es != [] && es' != [] && es'[0] == es[0]
    && r in s.requests && r in s'.requests && s'.requests[r] == s.requests[r]
  }

  lemma {:induction false} BeginsHere(c: Config, actions: seq<Action>, m: nat, r: nat)
    requires ApiKeys.Injective(c.hash) && 0 < m <= |actions| && Project(Run(c, actions[..m - 1]).trace, r) == []
    requires var es := Project(Run(c, actions[..m]).trace, r); es != [] && es[0].Authenticated?
    ensures Authenticates(c, actions, m - 1, r, Run(c, actions[..m]))
  {
    var s, a := Run(c, actions[..m - 1]), actions[m - 1];
    RunPrefix(c, actions, m);
    RunLives(c, actions[..m - 1]);
    RunKeepsKeys(c, actions[..m - 1]);
    FirstEvent(c, s, a, r);
    AuthenticateUses(c, s, r, a.now);
  }

  lemma {:induction false} StillAuthenticates(
      c: Config, actions: seq<Action>, n: nat, r: nat, s: State, s': State)
    requires n < |actions| && Authenticates(c, actions, n, r, s) && Continues(s, s', r)
    ensures Authenticates(c, actions, n, r, s')
  {}

  /** Step n began the story that request r has in state s, with a credential that was worth it. */
  ghost predicate Authenticates(c: Config, actions: seq<Action>, n: nat, r: nat, s: State)
    requires n < |actions|
  {
    var es := Project(s.trace, r);
    && es != [] && es[0].Authenticated? && actions[n] == Authenticate(r, es[0].at) && r in s.requests
    && Project(Run(c, actions[..n]).trace, r) == [] && Project(Run(c, actions[..n + 1]).trace, r) != []
    && UsedAt(c, Run(c, actions[..n]).keys, s.requests[r], es[0].id, es[0].at)
  }

  lemma {:induction false} StoryKept(c: Config, s: State, a: Action, r: nat)
    requires AllLive(c, s) && Project(s.trace, r) != []
    ensures Continues(s, Apply(c, s, a), r)
  {
    assert Lives(c, s, r);
    ApplyIsLater(c, s, a);
  }

  /** The token was valid, or the key live and unexpired, at this time. */
  ghost predicate UsedAt(c: Config, keys: ApiKeys.State, q: Request, id: Identity, at: int) {
    if q.bearer.Some? then Jwt.Validate(c.issuer, q.bearer.value, at) == Jwt.Ok(id)
    else KeyedIn(keys, q.apiKey, id) && UsableAt(keys, id, at)
  }

  lemma {:induction false} AuthenticateUses(c: Config, s: State, r: nat, now: int)
    requires ApiKeys.Invariant(s.keys, c.hash) && ApiKeys.Injective(c.hash)
    requires InPhase(s, r) && s.phases[r].Arrived? && Project(s.trace, r) == []
    ensures var s' := Apply(c, s, Authenticate(r, now));
      var es := Project(s'.trace, r);
      && s'.requests == s.requests && |es| == 1
      && (es[0].Authenticated? ==> es[0].at == now && UsedAt(c, s.keys, s.requests[r], es[0].id, now))
  {
    var s', q := Apply(c, s, Authenticate(r, now)), s.requests[r];
    ProjectSnoc(s.trace, r, LastEvent(s'), r);
    if q.bearer.None? { ResolvedIsKeyed(c, s.keys, q, now); }
  }

  lemma {:induction false} RevokedStaysRevoked(c: Config, s: State, a: Action, id: string)
    requires KeysOk(c, s) && ApiKeys.Dead(s.keys.table, id)
    ensures ApiKeys.Dead(Apply(c, s, a).keys.table, id)
  {
    if Enabled(c, s, a) {
      if a.ManageKeys? {
        ManageIsItsStep(c, s, a.req, a.op);
        ApiKeys.ApplyKeepsRevoked(s.keys, a.op, c.hash, id);
      } else {
        OtherStepFrame(c, s, a);
      }
    }
  }

  lemma {:induction false} NextKeepsRevoked(c: Config, actions: seq<Action>, a: Action, id: string)
    requires ApiKeys.Dead(Run(c, actions).keys.table, id)
    ensures ApiKeys.Dead(Apply(c, Run(c, actions), a).keys.table, id)
  {
    RunKeepsKeys(c, actions);
    RevokedStaysRevoked(c, Run(c, actions), a, id);
  }

  lemma {:induction false} RunKeepsRevoked(c: Config, actions: seq<Action>, n: nat, m: nat, id: string)
    requires n <= m <= |actions| && ApiKeys.Dead(Run(c, actions[..n]).keys.table, id)
    ensures ApiKeys.Dead(Run(c, actions[..m]).keys.table, id)
  {
    if n < m {
      RunKeepsRevoked(c, actions, n, m - 1, id);
      RunPrefix(c, actions, m);
      NextKeepsRevoked(c, actions[..m - 1], actions[m - 1], id);
    }
  }

  /** Once a story has begun it is there in every longer run. */
  lemma {:induction false} StoryBegan(c: Config, actions: seq<Action>, n: nat, m: nat, r: nat)
    requires n <= m <= |actions| && Project(Run(c, actions[..n]).trace, r) != []
    ensures Project(Run(c, actions[..m]).trace, r) != []
  {
    if n < m {
      StoryBegan(c, actions, n, m - 1, r);
      RunPrefix(c, actions, m);
      ApplyIsLater(c, Run(c, actions[..m - 1]), actions[m - 1]);
    }
  }

  /**
   A key authenticates nobody after its revocation: a request that was not yet authenticated when
   the key had been revoked, after m actions, is never authenticated by it, whatever happens next.
   */
  lemma {:induction false} RevokedKeysAuthenticateNobody(c: Config, actions: seq<Action>, m: nat, r: nat, id: string)
    requires ApiKeys.Injective(c.hash) && m <= |actions| && ApiKeys.Dead(Run(c, actions[..m]).keys.table, id)
    requires Project(Run(c, actions[..m]).trace, r) == []
    requires var s := Run(c, actions);
      var es := Project(s.trace, r);
      es != [] && es[0].Authenticated? && r in s.requests && s.requests[r].bearer.None?
    ensures Project(Run(c, actions).trace, r)[0].id.user != id
  {
    assert actions[..|actions|] == actions;
    var n := AuthenticatedWhileUsable(c, actions, |actions|, r);
    if n < m {
      StoryBegan(c, actions, n + 1, m, r);
    } else {
      RunKeepsRevoked(c, actions, m, n, id);
    }
  }

  /**
   The chain of trust, end to end: in every run of the gateway with the default rules, the
   identity behind any request comes from a bearer token that was valid when the request was
   authenticated, or from an API key that was live and unexpired then, whose root Create fixed
   the identity, and which an audited admin of that very tenant put into the table.
   */
  lemma {:induction false} IdentitiesAreVouchedFor(c: Config, actions: seq<Action>, r: nat) returns (n: nat)
    requires ApiKeys.Injective(c.hash) && c.rules == DefaultRules.RULES
    requires var es := Project(Run(c, actions).trace, r); es != [] && es[0].Authenticated?
    ensures n < |actions| && Authenticates(c, actions, n, r, Run(c, actions))
    ensures var s := Run(c, actions);
      var id := Project(s.trace, r)[0].id;
      s.requests[r].bearer.None? ==>
        && KeyedIn(s.keys, s.requests[r].apiKey, id) && id.user in s.ledger.inserted
        && ActedAsAdmin(c, s, s.ledger.inserted[id.user], id.tenant)
  {
    assert actions[..|actions|] == actions;
    n := AuthenticatedWhileUsable(c, actions, |actions|, r);
    RunGrounds(c, actions);
    RunKeepsKeys(c, actions);
    var s := Run(c, actions);
    assert Grounded(c, s, r);
    if s.requests[r].bearer.None? {
      var id := Project(s.trace, r)[0].id;
      KeysAreManagedByAdmins(c, actions, id.user);
      assert ApiKeys.RowOk(s.keys.table[id.user], id.user, s.keys.past, c.hash);
    }
  }

  /** No request carries a token that was built under the issuer's secret by anyone but the issuer. */
  ghost predicate Unforged(s: State, records: seq<Jwt.Record>, iss: Jwt.Issuer) {
    forall r :: r in s.requests && s.requests[r].bearer.Some? ==>
      Jwt.Unforged(records, s.requests[r].bearer.value, iss)
  }

  /**
   The token is one the issuer signed, its chain began with an Issue for the identity, and that
   chain had not run out at this time.
   */
  ghost predicate IssuedFor(iss: Jwt.Issuer, issued: seq<Jwt.Action>, t: Jwt.Token, id: Identity, at: int) {
    var records := Jwt.Run(iss, issued);
    && Jwt.Issuable(id)
    && exists k :: 0 <= k < |records| && records[k].token == t && Jwt.Bounded(iss, issued, records[k], id, at)
  }

  /**
   The chain of trust to its two roots: for every history of the issuer and every run of the
   gateway whose requests carry no forged token, the identity behind a request was issued, by an
   Issue with which the chain of the presented token began and which had not run out when the
   request was authenticated; or it is the scope of the Create behind a key that was live then
   and that an audited admin of the tenant put into the table.
   */
  lemma {:induction false} IdentitiesHaveRoots(c: Config, issued: seq<Jwt.Action>, actions: seq<Action>, r: nat)
      returns (n: nat)
    requires ApiKeys.Injective(c.hash) && c.rules == DefaultRules.RULES && Jwt.Honest(c.issuer, issued)
    requires Unforged(Run(c, actions), Jwt.Run(c.issuer, issued), c.issuer)
    requires var es := Project(Run(c, actions).trace, r); es != [] && es[0].Authenticated?
    ensures n < |actions| && Authenticates(c, actions, n, r, Run(c, actions))
    ensures var s := Run(c, actions);
      var q, e := s.requests[r], Project(s.trace, r)[0];
      && (q.bearer.Some? ==> IssuedFor(c.issuer, issued, q.bearer.value, e.id, e.at))
      && (q.bearer.None? ==>
            && KeyedIn(s.keys, q.apiKey, e.id) && e.id.user in s.ledger.inserted
            && ActedAsAdmin(c, s, s.ledger.inserted[e.id.user], e.id.tenant))
  {
    n := IdentitiesAreVouchedFor(c, actions, r);
    var s := Run(c, actions);
    var e := Project(s.trace, r)[0];
    if s.requests[r].bearer.Some? {
      TokenWasIssued(c.issuer, issued, s.requests[r].bearer.value, e.id, e.at);
    }
  }

  lemma {:induction false} TokenWasIssued(
      iss: Jwt.Issuer, issued: seq<Jwt.Action>, t: Jwt.Token, id: Identity, at: int)
    requires Jwt.Honest(iss, issued) && Jwt.Unforged(Jwt.Run(iss, issued), t, iss)
    requires Jwt.Validate(iss, t, at) == Jwt.Ok(id)
    ensures IssuedFor(iss, issued, t, id, at)
  {
    Jwt.AcceptedIdentitiesWereIssued(iss, issued, t, at);
  }
}
