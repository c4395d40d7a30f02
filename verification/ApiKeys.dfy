/**
 The API key table (internal/auth/apikey_postgres.go): Create, Rotate, Revoke and Resolve over
 committed rows. Rotate is a transaction of several statements that holds a row lock; it
 interleaves with everything else and may roll back at any point. Every key belongs to the
 lineage of the Create it descends from.
 */
module ApiKeys {
  import opened Common
  import opened Identities

  datatype Spec = Spec(tenant: string, name: string, role: Role, region: string, supplier: string, expires: Option<int>)

  datatype Row = Row(
    tenant: string, name: string, hash: string, role: Role,
    region: Option<string>, supplier: Option<string>, expires: Option<int>, revokedAt: Option<int>)

  type Table = map<string, Row>

  datatype KeyError = NotFound | Revoked | Expired | Invalid | InsertFailed

  datatype Result<T> = Ok(value: T) | Err(error: KeyError)

  function Nullify(s: string): Option<string> {
    if s == "" then None else Some(s)
  }

  function Deref(s: Option<string>): string {
    match s case None => "" case Some(v) => v
  }

  predicate Acceptable(spec: Spec) {
    spec.tenant != "" && ValidRole(spec.role)
  }

  function NewRow(spec: Spec, hash: string): Row {
    Row(spec.tenant, spec.name, hash, spec.role, Nullify(spec.region), Nullify(spec.supplier), spec.expires, None)
  }

  /** The row that replaces `row` on rotation. */
  function Successor(row: Row, tenant: string, hash: string): Row {
    Row(tenant, row.name, hash, row.role, row.region, row.supplier, row.expires, None)
  }

  predicate Live(table: Table, id: string) {
    id in table && table[id].revokedAt.None?
  }

  predicate Owns(table: Table, tenant: string, id: string) {
    id in table && table[id].tenant == tenant
  }

  /** The checks Resolve makes on the row it found. */
  function Check(id: string, row: Row, now: int): Result<Identity> {
    if row.revokedAt.Some? then Err(Revoked)
    else if row.expires.Some? && row.expires.value <= now then Err(Expired)
    else if !ValidRole(row.role) then Err(NotFound)
    else Ok(Identity(row.tenant, id, row.role, Deref(row.region), Deref(row.supplier)))
  }

  predicate HashAt(table: Table, id: string, hash: string) {
    id in table && table[id].hash == hash
  }

  ghost function Resolve(table: Table, hash: string, now: int): Result<Identity> {
    if id :| HashAt(table, id, hash) then Check(id, table[id], now) else Err(NotFound)
  }

  // ------------------------------------------------------------ transactions

  /** A rotation in progress: the row it locked, and what it has written so far. */
  datatype Rotation = Rotation(tenant: string, id: string, row: Row, stage: Stage)

  datatype Stage = Locked | OldRevoked(at: int) | NewInserted(at: int, newId: string, secret: string)

  /** Lineage bookkeeping: the root and the secret of every key, and the head of every lineage. */
  datatype History = History(
    secrets: map<string, string>,   // key id -> its secret
    keyOf: map<string, string>,     // secret -> key id
    insertedBy: map<string, nat>,   // key id -> the rotation that inserted it
    root: map<string, string>,      // committed key id -> the id of the Create it descends from
    head: map<string, string>,      // root -> the last committed key of the lineage
    specs: map<string, Spec>,       // root -> what was asked of Create
    ended: set<string>)             // roots revoked outright

  /** Committed rows, row locks, rotations in progress, and the history. */
  datatype State = State(table: Table, locks: map<string, nat>, rotations: map<nat, Rotation>, past: History)

  const EMPTY := State(map[], map[], map[], History(map[], map[], map[], map[], map[], map[], {}))

  datatype Action =
    | Create(spec: Spec, id: string, secret: string)
    | SelectForUpdate(tx: nat, tenant: string, id: string)
    | RevokeOld(tx: nat, now: int)
    | InsertNew(tx: nat, newId: string, secret: string)
    | Commit(tx: nat)
    | Rollback(tx: nat)
    | Revoke(tenant: string, id: string, now: int)

  /** Ids and secrets come from a random source and never repeat. */
  predicate FreshKey(s: State, id: string, secret: string) {
    id !in s.past.secrets && secret !in s.past.keyOf
  }

  /**
   Whether a step takes effect. Every committed key has a root (see Scoped), so the last
   condition on Commit and Revoke always holds.
   */
  predicate Enabled(s: State, a: Action) {
    match a
    case Create(spec, id, secret) => Acceptable(spec) && FreshKey(s, id, secret)
    case SelectForUpdate(tx, tenant, id) =>
      tx !in s.rotations && id !in s.locks && Owns(s.table, tenant, id) && Live(s.table, id)
    case RevokeOld(tx, _) => tx in s.rotations && s.rotations[tx].stage.Locked?
    case InsertNew(tx, newId, secret) =>
      tx in s.rotations && s.rotations[tx].stage.OldRevoked? && FreshKey(s, newId, secret)
    case Commit(tx) => tx in s.rotations && s.rotations[tx].stage.NewInserted? && s.rotations[tx].id in s.past.root
    case Rollback(tx) => tx in s.rotations
    case Revoke(tenant, id, _) =>
      id !in s.locks && Owns(s.table, tenant, id) && Live(s.table, id) && id in s.past.root
  }

  function Mint(h: History, id: string, secret: string): History {
    h.(secrets := h.secrets[id := secret], keyOf := h.keyOf[secret := id])
  }

  function ApplyCreate(s: State, spec: Spec, id: string, secret: string, hash: string -> string): State {
    var h := Mint(s.past, id, secret);
    s.(table := s.table[id := NewRow(spec, hash(secret))],
       past := h.(root := h.root[id := id], head := h.head[id := id], specs := h.specs[id := spec]))
  }

  function ApplySelect(s: State, tx: nat, tenant: string, id: string): State
    requires id in s.table
  {
    s.(locks := s.locks[id := tx], rotations := s.rotations[tx := Rotation(tenant, id, s.table[id], Locked)])
  }

  function ApplyStage(s: State, tx: nat, stage: Stage): State
    requires tx in s.rotations
  {
    s.(rotations := s.rotations[tx := s.rotations[tx].(stage := stage)])
  }

  function ApplyInsert(s: State, tx: nat, at: int, newId: string, secret: string): State
    requires tx in s.rotations
  {
    var h := Mint(s.past, newId, secret);
    ApplyStage(s, tx, NewInserted(at, newId, secret)).(past := h.(insertedBy := h.insertedBy[newId := tx]))
  }

  /** Both writes of a finished rotation become visible together, and its lock is released. */
  function ApplyCommit(s: State, tx: nat, hash: string -> string): State
    requires tx in s.rotations && s.rotations[tx].stage.NewInserted? && s.rotations[tx].id in s.past.root
  {
    var q := s.rotations[tx];
    var newId, r := q.stage.newId, s.past.root[q.id];
    State(
      s.table[q.id := q.row.(revokedAt := Some(q.stage.at))][newId := Successor(q.row, q.tenant, hash(q.stage.secret))],
      s.locks - {q.id}, s.rotations - {tx},
      s.past.(root := s.past.root[newId := r], head := s.past.head[r := newId]))
  }

  function ApplyRollback(s: State, tx: nat): State
    requires tx in s.rotations
  {
    s.(locks := s.locks - {s.rotations[tx].id}, rotations := s.rotations - {tx})
  }

  function ApplyRevoke(s: State, id: string, now: int): State
    requires id in s.table && id in s.past.root
  {
    s.(table := s.table[id := s.table[id].(revokedAt := Some(now))],
       past := s.past.(ended := s.past.ended + {s.past.root[id]}))
  }

  /**
   One step. A step that is not enabled changes nothing: it is an error return of the code
   (unknown or revoked key, another tenant's key) or a statement still waiting for a row lock.
   */
  function Apply(s: State, a: Action, hash: string -> string): State {
    if !Enabled(s, a) then s else
      match a
      case Create(spec, id, secret) => ApplyCreate(s, spec, id, secret, hash)
      case SelectForUpdate(tx, tenant, id) => ApplySelect(s, tx, tenant, id)
      case RevokeOld(tx, now) => ApplyStage(s, tx, OldRevoked(now))
      case InsertNew(tx, newId, secret) => ApplyInsert(s, tx, s.rotations[tx].stage.at, newId, secret)
      case Commit(tx) => ApplyCommit(s, tx, hash)
      case Rollback(tx) => ApplyRollback(s, tx)
      case Revoke(_, id, now) => ApplyRevoke(s, id, now)
  }

  function Execute(s: State, actions: seq<Action>, hash: string -> string): State {
    if actions == [] then s else Apply(Execute(s, actions[..|actions| - 1], hash), actions[|actions| - 1], hash)
  }

  // ------------------------------------------------------------ the invariant

  predicate Carries(row: Row, spec: Spec) {
    && Acceptable(spec)
    && row.tenant == spec.tenant && row.name == spec.name && row.role == spec.role
    && row.region == Nullify(spec.region) && row.supplier == Nullify(spec.supplier) && row.expires == spec.expires
  }

  /** A committed row carries the secret, the scope and the expiry of its lineage. */
  predicate RowOk(row: Row, id: string, h: History, hash: string -> string) {
    && id in h.secrets && row.hash == hash(h.secrets[id])
    && id in h.root && h.root[id] in h.specs && Carries(row, h.specs[h.root[id]])
  }

  ghost predicate Scoped(s: State, hash: string -> string) {
    forall id :: id in s.table ==> RowOk(s.table[id], id, s.past, hash)
  }

  ghost predicate SecretsPaired(h: History) {
    && (forall id :: id in h.secrets ==> h.secrets[id] in h.keyOf && h.keyOf[h.secrets[id]] == id)
    && (forall x :: x in h.keyOf ==> h.keyOf[x] in h.secrets && h.secrets[h.keyOf[x]] == x)
  }

  /** A rotation holds the lock on a live committed row of its tenant; what it inserted is not visible yet. */
  predicate RotationOk(s: State, t: nat)
    requires t in s.rotations
  {
    var q := s.rotations[t];
    && q.id in s.locks && s.locks[q.id] == t
    && Live(s.table, q.id) && s.table[q.id] == q.row && q.row.tenant == q.tenant
    && (q.stage.NewInserted? ==>
          && q.stage.newId !in s.table
          && q.stage.newId in s.past.secrets && s.past.secrets[q.stage.newId] == q.stage.secret
          && q.stage.newId in s.past.insertedBy && s.past.insertedBy[q.stage.newId] == t)
  }

  ghost predicate RotationsOk(s: State) {
    forall t :: t in s.rotations ==> RotationOk(s, t)
  }

  /** The live committed keys are exactly the heads of the lineages that were not revoked. */
  ghost predicate HeadsLive(s: State) {
    && (forall id :: Live(s.table, id) && id in s.past.root ==> IsHead(s, id))
    && (forall r :: r in s.past.specs ==> r in s.past.head)
    && (forall r :: r in s.past.head && r !in s.past.ended ==> HeadLives(s, r))
    && (forall r :: r in s.past.head ==> r in s.past.secrets)
    && (forall r :: r in s.past.ended ==> r in s.past.head)
  }

  predicate IsHead(s: State, id: string)
    requires id in s.past.root
  {
    var r := s.past.root[id];
    r in s.past.head && s.past.head[r] == id && r !in s.past.ended
  }

  predicate HeadLives(s: State, r: string)
    requires r in s.past.head
  {
    var id := s.past.head[r];
    Live(s.table, id) && id in s.past.root && s.past.root[id] == r
  }

  ghost predicate Invariant(s: State, hash: string -> string) {
    SecretsPaired(s.past) && Scoped(s, hash) && RotationsOk(s) && HeadsLive(s)
  }

  // ------------------------------------------------------------ preservation

  lemma {:induction false} CreateScoped(s: State, spec: Spec, id: string, secret: string, hash: string -> string)
    requires Invariant(s, hash) && Acceptable(spec) && FreshKey(s, id, secret)
    ensures Scoped(ApplyCreate(s, spec, id, secret, hash), hash)
  {
    var s' := ApplyCreate(s, spec, id, secret, hash);
    forall k | k in s'.table ensures RowOk(s'.table[k], k, s'.past, hash) {
      if k != id { assert RowOk(s.table[k], k, s.past, hash); }
    }
  }

  lemma {:induction false} MintPairs(h: History, id: string, secret: string)
    requires SecretsPaired(h) && id !in h.secrets && secret !in h.keyOf
    ensures SecretsPaired(Mint(h, id, secret))
  {}

  lemma {:induction false} CreateRotations(s: State, spec: Spec, id: string, secret: string, hash: string -> string)
    requires Scoped(s, hash) && RotationsOk(s) && FreshKey(s, id, secret)
    ensures RotationsOk(ApplyCreate(s, spec, id, secret, hash))
  {}

  lemma {:induction false} CreateHeads(s: State, spec: Spec, id: string, secret: string, hash: string -> string)
    requires Scoped(s, hash) && HeadsLive(s) && FreshKey(s, id, secret)
    ensures HeadsLive(ApplyCreate(s, spec, id, secret, hash))
  {
    var s' := ApplyCreate(s, spec, id, secret, hash);
    forall k | Live(s'.table, k) && k in s'.past.root ensures IsHead(s', k) {
      if k != id { assert IsHead(s, k); }
    }
    forall r | r in s'.past.head && r !in s'.past.ended ensures HeadLives(s', r) {
      if r != id { assert HeadLives(s, r); }
    }
  }

  /** Steps that leave the committed rows and the lineages alone keep what is said about them. */
  lemma {:induction false} TableFrame(s: State, s': State, hash: string -> string)
    requires Scoped(s, hash) && HeadsLive(s) && s'.table == s.table && s'.past == s.past
    ensures Scoped(s', hash) && HeadsLive(s')
  {
    forall k | Live(s'.table, k) && k in s'.past.root ensures IsHead(s', k) {
      assert IsHead(s, k);
    }
    forall r | r in s'.past.head && r !in s'.past.ended ensures HeadLives(s', r) {
      assert HeadLives(s, r);
    }
  }

  lemma {:induction false} SelectRotations(s: State, tx: nat, tenant: string, id: string)
    requires RotationsOk(s) && Enabled(s, SelectForUpdate(tx, tenant, id))
    ensures RotationsOk(ApplySelect(s, tx, tenant, id))
  {
    forall t | t in ApplySelect(s, tx, tenant, id).rotations ensures RotationOk(ApplySelect(s, tx, tenant, id), t) {
      if t != tx { assert RotationOk(s, t); }
    }
  }

  lemma {:induction false} StageRotations(s: State, tx: nat, now: int)
    requires RotationsOk(s) && tx in s.rotations
    ensures RotationsOk(ApplyStage(s, tx, OldRevoked(now)))
  {
    forall t | t in s.rotations ensures RotationOk(ApplyStage(s, tx, OldRevoked(now)), t) {
      assert RotationOk(s, t);
    }
  }

  lemma {:induction false} InsertScoped(
      s: State, tx: nat, at: int, newId: string, secret: string, hash: string -> string)
    requires Scoped(s, hash) && HeadsLive(s) && tx in s.rotations && FreshKey(s, newId, secret)
    ensures Scoped(ApplyInsert(s, tx, at, newId, secret), hash) && HeadsLive(ApplyInsert(s, tx, at, newId, secret))
  {
    var s' := ApplyInsert(s, tx, at, newId, secret);
    forall k | k in s'.table ensures RowOk(s'.table[k], k, s'.past, hash) {
      assert RowOk(s.table[k], k, s.past, hash);
    }
    forall k | Live(s'.table, k) && k in s'.past.root ensures IsHead(s', k) {
      assert IsHead(s, k);
    }
    forall r | r in s'.past.head && r !in s'.past.ended ensures HeadLives(s', r) {
      assert HeadLives(s, r);
    }
  }

  lemma {:induction false} InsertRotations(
      s: State, tx: nat, at: int, newId: string, secret: string, hash: string -> string)
    requires Scoped(s, hash) && RotationsOk(s) && tx in s.rotations && FreshKey(s, newId, secret)
    ensures RotationsOk(ApplyInsert(s, tx, at, newId, secret))
  {
    var s' := ApplyInsert(s, tx, at, newId, secret);
    forall t | t in s'.rotations ensures RotationOk(s', t) {
      assert RotationOk(s, t);
    }
  }

  lemma {:induction false} CommitScoped(s: State, tx: nat, hash: string -> string)
    requires Invariant(s, hash) && Enabled(s, Commit(tx))
    ensures Scoped(ApplyCommit(s, tx, hash), hash)
  {
    var q := s.rotations[tx];
    assert RotationOk(s, tx) && RowOk(q.row, q.id, s.past, hash);
  }

  lemma {:induction false} CommitRotations(s: State, tx: nat, hash: string -> string)
    requires RotationsOk(s) && Enabled(s, Commit(tx))
    ensures RotationsOk(ApplyCommit(s, tx, hash))
  {
    var s' := ApplyCommit(s, tx, hash);
    assert RotationOk(s, tx);
    forall t | t in s'.rotations ensures RotationOk(s', t) {
      assert RotationOk(s, t);
    }
  }

  lemma {:induction false} CommitHeads(s: State, tx: nat, hash: string -> string)
    requires Scoped(s, hash) && HeadsLive(s) && Enabled(s, Commit(tx)) && RotationOk(s, tx)
    ensures HeadsLive(ApplyCommit(s, tx, hash))
  {
    var s', q := ApplyCommit(s, tx, hash), s.rotations[tx];
    assert IsHead(s, q.id);
    forall k | Live(s'.table, k) && k in s'.past.root ensures IsHead(s', k) {
      if k != q.stage.newId { assert IsHead(s, k); }
    }
    forall r | r in s'.past.head && r !in s'.past.ended ensures HeadLives(s', r) {
      if r != s.past.root[q.id] { assert HeadLives(s, r); }
    }
  }

  lemma {:induction false} RollbackRotations(s: State, tx: nat)
    requires RotationsOk(s) && tx in s.rotations
    ensures RotationsOk(ApplyRollback(s, tx))
  {
    assert RotationOk(s, tx);
    forall t | t in ApplyRollback(s, tx).rotations ensures RotationOk(ApplyRollback(s, tx), t) {
      assert RotationOk(s, t);
    }
  }

  lemma {:induction false} RevokeRows(s: State, id: string, now: int, hash: string -> string)
    requires Invariant(s, hash) && id in s.table && id !in s.locks && id in s.past.root
    ensures Scoped(ApplyRevoke(s, id, now), hash) && RotationsOk(ApplyRevoke(s, id, now))
  {
    forall t | t in s.rotations ensures RotationOk(ApplyRevoke(s, id, now), t) {
      assert RotationOk(s, t);
    }
  }

  lemma {:induction false} RevokeHeads(s: State, id: string, now: int)
    requires HeadsLive(s) && Live(s.table, id) && id in s.past.root
    ensures HeadsLive(ApplyRevoke(s, id, now))
  {
    var s' := ApplyRevoke(s, id, now);
    assert IsHead(s, id);
    forall k | Live(s'.table, k) && k in s'.past.root ensures IsHead(s', k) {
      assert IsHead(s, k);
    }
    forall r | r in s'.past.head && r !in s'.past.ended ensures HeadLives(s', r) {
      assert HeadLives(s, r);
    }
  }

  lemma {:induction false} CreateKeepsInvariant(
      s: State, spec: Spec, id: string, secret: string, hash: string -> string)
    requires Invariant(s, hash) && Enabled(s, Create(spec, id, secret))
    ensures Invariant(ApplyCreate(s, spec, id, secret, hash), hash)
  {
    MintPairs(s.past, id, secret);
    CreateScoped(s, spec, id, secret, hash);
    CreateRotations(s, spec, id, secret, hash);
    CreateHeads(s, spec, id, secret, hash);
  }

  lemma {:induction false} InsertKeepsInvariant(
      s: State, tx: nat, at: int, newId: string, secret: string, hash: string -> string)
    requires Invariant(s, hash) && Enabled(s, InsertNew(tx, newId, secret))
    ensures Invariant(ApplyInsert(s, tx, at, newId, secret), hash)
  {
    MintPairs(s.past, newId, secret);
    InsertScoped(s, tx, at, newId, secret, hash);
    InsertRotations(s, tx, at, newId, secret, hash);
  }

  lemma {:induction false} CommitKeepsInvariant(s: State, tx: nat, hash: string -> string)
    requires Invariant(s, hash) && Enabled(s, Commit(tx))
    ensures Invariant(ApplyCommit(s, tx, hash), hash)
  {
    CommitScoped(s, tx, hash);
    CommitRotations(s, tx, hash);
    CommitHeads(s, tx, hash);
  }

  /** The steps of a rotation that leave rows and lineages alone. */
  lemma {:induction false} QuietKeepsInvariant(s: State, a: Action, hash: string -> string)
    requires Invariant(s, hash) && Enabled(s, a) && (a.SelectForUpdate? || a.RevokeOld? || a.Rollback?)
    ensures Invariant(Apply(s, a, hash), hash)
  {
    TableFrame(s, Apply(s, a, hash), hash);
    match a {
      case SelectForUpdate(tx, tenant, id) => SelectRotations(s, tx, tenant, id);
      case RevokeOld(tx, now) => StageRotations(s, tx, now);
      case Rollback(tx) => RollbackRotations(s, tx);
    }
  }

  lemma {:induction false} ApplyKeepsInvariant(s: State, a: Action, hash: string -> string)
    requires Invariant(s, hash)
    ensures Invariant(Apply(s, a, hash), hash)
  {
    if Enabled(s, a) {
      match a {
        case Create(spec, id, secret) => CreateKeepsInvariant(s, spec, id, secret, hash);
        case InsertNew(tx, newId, secret) =>
          InsertKeepsInvariant(s, tx, s.rotations[tx].stage.at, newId, secret, hash);
        case Commit(tx) => CommitKeepsInvariant(s, tx, hash);
        case Revoke(_, id, now) =>
          RevokeRows(s, id, now, hash);
          RevokeHeads(s, id, now);
        case _ => QuietKeepsInvariant(s, a, hash);
      }
    }
  }

  lemma {:induction false} ExecuteKeepsInvariant(s: State, actions: seq<Action>, hash: string -> string)
    requires Invariant(s, hash)
    ensures Invariant(Execute(s, actions, hash), hash)
  {
    if actions != [] {
      ExecuteKeepsInvariant(s, actions[..|actions| - 1], hash);
      ApplyKeepsInvariant(Execute(s, actions[..|actions| - 1], hash), actions[|actions| - 1], hash);
    }
  }

  // ------------------------------------------------------------ the main results

  /** `id` is a live committed key descending from the Create of `r`. */
  predicate LiveIn(s: State, id: string, r: string) {
    Live(s.table, id) && id in s.past.root && s.past.root[id] == r
  }

  /**
   In every interleaving of creates, rotations, revocations and rollbacks, each committed state
   has exactly one live key per lineage until the lineage is revoked, and none afterwards.
   */
  lemma {:induction false} OneLiveKeyPerLineage(actions: seq<Action>, hash: string -> string, r: string)
    ensures var s := Execute(EMPTY, actions, hash);
      && (forall id, id' :: LiveIn(s, id, r) && LiveIn(s, id', r) ==> id == id')
      && (r in s.past.specs ==> (r in s.past.ended <==> !exists id :: LiveIn(s, id, r)))
  {
    ExecuteKeepsInvariant(EMPTY, actions, hash);
    var s := Execute(EMPTY, actions, hash);
    forall id | LiveIn(s, id, r) ensures s.past.head[r] == id && r !in s.past.ended {
      assert IsHead(s, id);
    }
    if r in s.past.specs && r !in s.past.ended {
      assert HeadLives(s, r) && LiveIn(s, s.past.head[r], r);
    }
  }

  lemma {:induction false} StepGrows(s: State, a: Action, hash: string -> string)
    ensures s.past.ended <= Apply(s, a, hash).past.ended
    ensures s.past.specs.Keys <= Apply(s, a, hash).past.specs.Keys
  {}

  lemma {:induction false} HistoryGrows(s: State, actions: seq<Action>, hash: string -> string)
    ensures s.past.ended <= Execute(s, actions, hash).past.ended
    ensures s.past.specs.Keys <= Execute(s, actions, hash).past.specs.Keys
  {
    if actions != [] {
      var init := actions[..|actions| - 1];
      HistoryGrows(s, init, hash);
      StepGrows(Execute(s, init, hash), actions[|actions| - 1], hash);
    }
  }

  lemma {:induction false} ExecuteAppend(s: State, before: seq<Action>, after: seq<Action>, hash: string -> string)
    ensures Execute(s, before + after, hash) == Execute(Execute(s, before, hash), after, hash)
  {
    if after == [] {
      assert before + after == before;
    } else {
      var init := after[..|after| - 1];
      ExecuteAppend(s, before, init, hash);
      assert (before + after)[..|before + after| - 1] == before + init;
    }
  }

  /** A lineage without a live key stays without one, whatever happens next. */
  lemma {:induction false} DeadLineagesStayDead(
      before: seq<Action>, after: seq<Action>, hash: string -> string, r: string)
    requires var s := Execute(EMPTY, before, hash); r in s.past.specs && !exists id :: LiveIn(s, id, r)
    ensures !exists id :: LiveIn(Execute(EMPTY, before + after, hash), id, r)
  {
    OneLiveKeyPerLineage(before, hash, r);
    OneLiveKeyPerLineage(before + after, hash, r);
    HistoryGrows(Execute(EMPTY, before, hash), after, hash);
    ExecuteAppend(EMPTY, before, after, hash);
  }

  ghost predicate Injective(hash: string -> string) {
    forall a, b :: hash(a) == hash(b) ==> a == b
  }

  /** The verdict on a presented secret: what the key minted with it, and the root of that key, make of it. */
  function Verdict(s: State, secret: string, now: int): Result<Identity>
    requires secret in s.past.keyOf && s.past.keyOf[secret] in s.past.root
    requires s.past.root[s.past.keyOf[secret]] in s.past.specs
  {
    var id := s.past.keyOf[secret];
    var spec := s.past.specs[s.past.root[id]];
    if !Live(s.table, id) then Err(Revoked)
    else if spec.expires.Some? && spec.expires.value <= now then Err(Expired)
    else Ok(Identity(spec.tenant, id, spec.role, spec.region, spec.supplier))
  }

  lemma {:induction false} ResolveInState(s: State, hash: string -> string, secret: string, now: int)
    requires Invariant(s, hash) && Injective(hash)
    ensures var result := Resolve(s.table, hash(secret), now);
      if secret in s.past.keyOf && s.past.keyOf[secret] in s.table then
        && s.past.keyOf[secret] in s.past.root && s.past.root[s.past.keyOf[secret]] in s.past.specs
        && result == Verdict(s, secret, now)
      else result == Err(NotFound)
  {
    forall id | HashAt(s.table, id, hash(secret)) ensures secret in s.past.keyOf && s.past.keyOf[secret] == id {
      assert RowOk(s.table[id], id, s.past, hash);
    }
    if secret in s.past.keyOf && s.past.keyOf[secret] in s.table {
      var id := s.past.keyOf[secret];
      assert RowOk(s.table[id], id, s.past, hash);
      assert HashAt(s.table, id, hash(secret));
    }
  }

  /**
   After any run, a presented secret resolves to exactly the verdict on the one key that was
   minted with it, and to NotFound if no committed key was. A key that resolves gives the
   tenant, role, region and supplier of the root Create, never at or after the root's expiry:
   rotating neither widens scope nor extends life.
   */
  lemma {:induction false} ResolveIsExact(actions: seq<Action>, hash: string -> string, secret: string, now: int)
    requires Injective(hash)
    ensures var s := Execute(EMPTY, actions, hash);
      var result := Resolve(s.table, hash(secret), now);
      if secret in s.past.keyOf && s.past.keyOf[secret] in s.table then
        && s.past.keyOf[secret] in s.past.root && s.past.root[s.past.keyOf[secret]] in s.past.specs
        && result == Verdict(s, secret, now)
      else result == Err(NotFound)
  {
    ExecuteKeepsInvariant(EMPTY, actions, hash);
    ResolveInState(Execute(EMPTY, actions, hash), hash, secret, now);
  }

  /** Every committed key has a row of its own, and so has every root; locks are on rows. */
  ghost predicate Rooted(s: State) {
    && (forall id :: id in s.past.root ==> id in s.table)
    && (forall id :: id in s.locks ==> id in s.table)
    && (forall r :: r in s.past.specs ==> r in s.past.secrets)
  }

  /** `h'` remembers everything that `h` does. */
  ghost predicate Remembers(h: History, h': History) {
    && (forall id :: id in h.secrets ==> id in h'.secrets && h'.secrets[id] == h.secrets[id])
    && (forall id :: id in h.root ==> id in h'.root && h'.root[id] == h.root[id])
    && (forall r :: r in h.specs ==> r in h'.specs && h'.specs[r] == h.specs[r])
  }

  lemma {:induction false} CreateRemembers(s: State, spec: Spec, id: string, secret: string, hash: string -> string)
    requires Scoped(s, hash) && Rooted(s) && FreshKey(s, id, secret)
    ensures var s' := ApplyCreate(s, spec, id, secret, hash); Rooted(s') && Remembers(s.past, s'.past)
  {
    forall k | k in s.table ensures k in s.past.secrets {
      assert RowOk(s.table[k], k, s.past, hash);
    }
  }

  lemma {:induction false} CommitRemembers(s: State, tx: nat, hash: string -> string)
    requires Rooted(s) && Enabled(s, Commit(tx)) && RotationOk(s, tx)
    ensures var s' := ApplyCommit(s, tx, hash); Rooted(s') && Remembers(s.past, s'.past)
  {}

  lemma {:induction false} InsertRemembers(s: State, tx: nat, at: int, newId: string, secret: string)
    requires Rooted(s) && tx in s.rotations && FreshKey(s, newId, secret)
    ensures var s' := ApplyInsert(s, tx, at, newId, secret); Rooted(s') && Remembers(s.past, s'.past)
  {}

  lemma {:induction false} RevokeRemembers(s: State, id: string, now: int)
    requires Rooted(s) && id in s.table && id in s.past.root
    ensures var s' := ApplyRevoke(s, id, now); Rooted(s') && Remembers(s.past, s'.past)
  {}

  lemma {:induction false} SameRemembers(s: State, s': State)
    requires Rooted(s) && s'.table == s.table && s'.past == s.past && forall id :: id in s'.locks ==> id in s.table
    ensures Rooted(s') && Remembers(s.past, s'.past)
  {}

  lemma {:induction false} QuietRemembers(s: State, a: Action, hash: string -> string)
    requires Rooted(s) && Enabled(s, a) && (a.SelectForUpdate? || a.RevokeOld? || a.Rollback?)
    ensures Rooted(Apply(s, a, hash)) && Remembers(s.past, Apply(s, a, hash).past)
  {
    SameRemembers(s, Apply(s, a, hash));
  }

  /** No step ever forgets or changes a key's secret, its root, or what was asked of its Create. */
  lemma {:induction false} ApplyRemembers(s: State, a: Action, hash: string -> string)
    requires Invariant(s, hash) && Rooted(s)
    ensures Rooted(Apply(s, a, hash)) && Remembers(s.past, Apply(s, a, hash).past)
  {
    if Enabled(s, a) {
      match a {
        case Create(spec, id, secret) => CreateRemembers(s, spec, id, secret, hash);
        case InsertNew(tx, newId, secret) => InsertRemembers(s, tx, s.rotations[tx].stage.at, newId, secret);
        case Commit(tx) =>
          assert RotationOk(s, tx);
          CommitRemembers(s, tx, hash);
        case Revoke(_, id, now) => RevokeRemembers(s, id, now);
        case _ => QuietRemembers(s, a, hash);
      }
    }
  }

  predicate Dead(table: Table, id: string) {
    id in table && table[id].revokedAt.Some?
  }

  /** Revocation is final. */
  lemma {:induction false} ApplyKeepsRevoked(s: State, a: Action, hash: string -> string, id: string)
    requires Scoped(s, hash) && RotationsOk(s) && Dead(s.table, id)
    ensures Dead(Apply(s, a, hash).table, id)
  {
    assert RowOk(s.table[id], id, s.past, hash);
    if a.Commit? && a.tx in s.rotations { assert RotationOk(s, a.tx); }
  }

  /** The tenant on whose behalf a step acts. */
  function Actor(s: State, a: Action): string {
    match a
    case Create(spec, _, _) => spec.tenant
    case SelectForUpdate(_, tenant, _) => tenant
    case Revoke(tenant, _, _) => tenant
    case RevokeOld(tx, _) => TenantOf(s, tx)
    case InsertNew(tx, _, _) => TenantOf(s, tx)
    case Commit(tx) => TenantOf(s, tx)
    case Rollback(tx) => TenantOf(s, tx)
  }

  function TenantOf(s: State, tx: nat): string {
    if tx in s.rotations then s.rotations[tx].tenant else ""
  }

  /**
   No step of one tenant changes another tenant's rows, although the UPDATE inside Rotate
   names the row by id alone; and only Create, Commit and Revoke change the table at all, so a
   rotation that fails at any point leaves no trace.
   */
  lemma {:induction false} TenantsAreIsolated(actions: seq<Action>, a: Action, hash: string -> string, id: string)
    ensures var s := Execute(EMPTY, actions, hash);
      var s' := Apply(s, a, hash);
      && (!a.Create? && !a.Commit? && !a.Revoke? ==> s'.table == s.table)
      && (id in s.table ==> id in s'.table && s'.table[id].tenant == s.table[id].tenant)
      && (id in s.table && s.table[id].tenant != Actor(s, a) ==> s'.table[id] == s.table[id])
      && (id in s'.table && id !in s.table ==> s'.table[id].tenant == Actor(s, a))
  {
    ExecuteKeepsInvariant(EMPTY, actions, hash);
    ApplyIsIsolated(Execute(EMPTY, actions, hash), a, hash, id);
  }

  lemma {:induction false} ApplyIsIsolated(s: State, a: Action, hash: string -> string, id: string)
    requires Scoped(s, hash) && RotationsOk(s)
    ensures var s' := Apply(s, a, hash);
      && (!a.Create? && !a.Commit? && !a.Revoke? ==> s'.table == s.table)
      && (id in s.table ==> id in s'.table && s'.table[id].tenant == s.table[id].tenant)
      && (id in s.table && s.table[id].tenant != Actor(s, a) ==> s'.table[id] == s.table[id])
      && (id in s'.table && id !in s.table ==> s'.table[id].tenant == Actor(s, a))
  {
    if Enabled(s, a) {
      if a.Commit? { assert RotationOk(s, a.tx); }
      if a.Create? && id in s.table { assert RowOk(s.table[id], id, s.past, hash); }
    }
  }

  /** The unique index on key_hash. */
  ghost predicate UniqueHashes(table: Table) {
    forall id, id' :: id in table && id' in table && table[id].hash == table[id'].hash ==> id == id'
  }

  lemma {:induction false} HashesAreUnique(s: State, hash: string -> string)
    requires Invariant(s, hash) && Injective(hash)
    ensures UniqueHashes(s.table)
  {
    forall id, id' | id in s.table && id' in s.table && s.table[id].hash == s.table[id'].hash ensures id == id' {
      assert RowOk(s.table[id], id, s.past, hash) && RowOk(s.table[id'], id', s.past, hash);
    }
  }

  /** With an injective hash the statements of any interleaving respect it. */
  lemma {:induction false} HashesStayUnique(actions: seq<Action>, hash: string -> string)
    requires Injective(hash)
    ensures UniqueHashes(Execute(EMPTY, actions, hash).table)
  {
    ExecuteKeepsInvariant(EMPTY, actions, hash);
    HashesAreUnique(Execute(EMPTY, actions, hash), hash);
  }

  // ------------------------------------------------------------ the store, one call at a time

  /** What a rotation leaves in the table. */
  function Rotated(table: Table, id: string, newId: string, hash: string, now: int): Table
    requires id in table
  {
    table[id := table[id].(revokedAt := Some(now))][newId := Successor(table[id], table[id].tenant, hash)]
  }

  predicate HashTaken(table: Table, hash: string) {
    exists id :: id in table && table[id].hash == hash
  }

  class KeyStore {
    var table: Table

    ghost predicate Valid()
      reads this
    {
      UniqueHashes(table)
    }

    constructor ()
      ensures Valid() && table == map[]
    {
      table := map[];
    }

    method Create(spec: Spec, id: string, hash: string) returns (r: Result<string>)
      requires Valid() && id !in table
      modifies this
      ensures Valid()
      ensures r == if !Acceptable(spec) then Err(Invalid)
                   else if HashTaken(old(table), hash) then Err(InsertFailed)
                   else Ok(id)
      ensures table == if r.Ok? then old(table)[id := NewRow(spec, hash)] else old(table)
    {
      if spec.tenant == "" || !ValidRole(spec.role) {
        return Err(Invalid);
      }
      if HashTaken(table, hash) {
        return Err(InsertFailed);
      }
      table := table[id := NewRow(spec, hash)];
      return Ok(id);
    }

    method Rotate(tenant: string, id: string, newId: string, hash: string, now: int) returns (r: Result<string>)
      requires Valid() && newId !in table
      modifies this
      ensures Valid()
      ensures r == if !Owns(old(table), tenant, id) then Err(NotFound)
                   else if !Live(old(table), id) then Err(Revoked)
                   else if HashTaken(old(table), hash) then Err(InsertFailed)
                   else Ok(newId)
      ensures table == if r.Ok? then Rotated(old(table), id, newId, hash, now) else old(table)
    {
      if id !in table || table[id].tenant != tenant {
        return Err(NotFound);
      }
      var before, row := table, table[id];
      if row.revokedAt.Some? {
        return Err(Revoked);
      }
      table := table[id := row.(revokedAt := Some(now))];
      if HashTaken(table, hash) {
        assert forall k :: k in before <==> k in table;
        assert forall k :: k in before ==> before[k].hash == table[k].hash;
        table := before;  // rollback
        return Err(InsertFailed);
      }
      assert forall k :: k in before ==> before[k].hash == table[k].hash;
      table := table[newId := Row(tenant, row.name, hash, row.role, row.region, row.supplier, row.expires, None)];
      return Ok(newId);
    }

    method Revoke(tenant: string, id: string, now: int) returns (r: Result<()>)
      requires Valid()
      modifies this
      ensures Valid()
      ensures r == if Owns(old(table), tenant, id) && Live(old(table), id) then Ok(()) else Err(NotFound)
      ensures table == if r.Ok? then old(table)[id := old(table)[id].(revokedAt := Some(now))] else old(table)
    {
      if id in table && table[id].tenant == tenant && table[id].revokedAt.None? {
        table := table[id := table[id].(revokedAt := Some(now))];
        return Ok(());
      }
      return Err(NotFound);
    }

    method Lookup(hash: string, now: int) returns (r: Result<Identity>)
      requires Valid()
      ensures r == Resolve(table, hash, now)
    {
      var found := set id | id in table && table[id].hash == hash;
      if found == {} {
        assert forall id :: HashAt(table, id, hash) ==> id in found;
        return Err(NotFound);
      }
      var id :| id in found;
      assert HashAt(table, id, hash);
      return Check(id, table[id], now);
    }
  }

  /** Run without interruption, the four statements of a rotation do what Rotate promises. */
  lemma {:induction false} RotateIsItsStatements(
      s: State, tx: nat, tenant: string, id: string, newId: string, secret: string, now: int, hash: string -> string)
    requires Enabled(s, SelectForUpdate(tx, tenant, id)) && FreshKey(s, newId, secret) && id in s.past.root
    ensures var s1 := Apply(s, SelectForUpdate(tx, tenant, id), hash);
      var s2 := Apply(s1, RevokeOld(tx, now), hash);
      var s3 := Apply(s2, InsertNew(tx, newId, secret), hash);
      && s1.table == s2.table == s3.table == s.table
      && Apply(s3, Commit(tx), hash).table == Rotated(s.table, id, newId, hash(secret), now)
  {
  }

  // ------------------------------------------------------------ what each operation achieves

  /** Along a run, keys keep their secrets and roots. */
  lemma {:induction false} ExecuteRemembers(before: seq<Action>, after: seq<Action>, hash: string -> string)
    ensures Rooted(Execute(EMPTY, before, hash))
    ensures Remembers(Execute(EMPTY, before, hash).past, Execute(Execute(EMPTY, before, hash), after, hash).past)
  {
    ExecuteKeepsRooted(before, hash);
    if after != [] {
      var init := after[..|after| - 1];
      ExecuteRemembers(before, init, hash);
      ExecuteAppend(EMPTY, before, init, hash);
      ExecuteKeepsInvariant(EMPTY, before + init, hash);
      ExecuteKeepsRooted(before + init, hash);
      ApplyRemembers(Execute(EMPTY, before + init, hash), after[|after| - 1], hash);
    }
  }

  lemma {:induction false} ExecuteKeepsRooted(actions: seq<Action>, hash: string -> string)
    ensures Rooted(Execute(EMPTY, actions, hash))
  {
    if actions != [] {
      var init := actions[..|actions| - 1];
      ExecuteKeepsRooted(init, hash);
      ExecuteKeepsInvariant(EMPTY, init, hash);
      ApplyRemembers(Execute(EMPTY, init, hash), actions[|actions| - 1], hash);
    }
  }

  lemma {:induction false} ExecuteKeepsRevoked(
      before: seq<Action>, after: seq<Action>, hash: string -> string, id: string)
    requires Dead(Execute(EMPTY, before, hash).table, id)
    ensures Dead(Execute(EMPTY, before + after, hash).table, id)
  {
    ExecuteAppend(EMPTY, before, after, hash);
    if after == [] {
      assert before + after == before;
    } else {
      var init := after[..|after| - 1];
      ExecuteKeepsRevoked(before, init, hash, id);
      ExecuteAppend(EMPTY, before, init, hash);
      ExecuteKeepsInvariant(EMPTY, before + init, hash);
      ApplyKeepsRevoked(Execute(EMPTY, before + init, hash), after[|after| - 1], hash, id);
    }
  }

  /** A live key of the tenant that no rotation has locked. */
  predicate Free(s: State, tenant: string, id: string) {
    id in s.table && s.table[id].tenant == tenant && s.table[id].revokedAt.None? && id !in s.locks
  }

  /** Revoking a free key always takes effect, on that key alone. */
  lemma {:induction false} RevokeTakesEffect(s: State, hash: string -> string, tenant: string, id: string, now: int)
    requires Invariant(s, hash) && Free(s, tenant, id)
    ensures Apply(s, Revoke(tenant, id, now), hash).table == s.table[id := s.table[id].(revokedAt := Some(now))]
  {
    assert RowOk(s.table[id], id, s.past, hash);
  }

  /** A committed key keeps the secret that was minted with it. */
  lemma {:induction false} SecretStays(before: seq<Action>, after: seq<Action>, hash: string -> string, id: string)
    requires id in Execute(EMPTY, before, hash).table
    ensures var s, s' := Execute(EMPTY, before, hash), Execute(EMPTY, before + after, hash);
      && id in s.past.secrets && id in s'.past.secrets && s'.past.secrets[id] == s.past.secrets[id]
      && s.past.secrets[id] in s'.past.keyOf && s'.past.keyOf[s.past.secrets[id]] == id
  {
    var s := Execute(EMPTY, before, hash);
    ExecuteKeepsInvariant(EMPTY, before, hash);
    ExecuteKeepsInvariant(EMPTY, before + after, hash);
    ExecuteRemembers(before, after, hash);
    ExecuteAppend(EMPTY, before, after, hash);
    assert RowOk(s.table[id], id, s.past, hash);
  }

  lemma {:induction false} DeadResolvesRevoked(s: State, hash: string -> string, id: string, secret: string, later: int)
    requires Invariant(s, hash) && Injective(hash) && Dead(s.table, id)
    requires secret in s.past.keyOf && s.past.keyOf[secret] == id
    ensures Resolve(s.table, hash(secret), later) == Err(Revoked)
  {
    ResolveInState(s, hash, secret, later);
  }

  lemma {:induction false} RevokedIsDead(
      before: seq<Action>, after: seq<Action>, hash: string -> string, tenant: string, id: string, now: int)
    requires Free(Execute(EMPTY, before, hash), tenant, id)
    ensures Dead(Execute(EMPTY, before + [Revoke(tenant, id, now)] + after, hash).table, id)
  {
    var revoked := before + [Revoke(tenant, id, now)];
    assert revoked[..|before|] == before;
    ExecuteKeepsInvariant(EMPTY, before, hash);
    RevokeTakesEffect(Execute(EMPTY, before, hash), hash, tenant, id, now);
    ExecuteKeepsRevoked(revoked, after, hash, id);
  }

  /** From then on its secret resolves to nothing but the verdict that it was revoked, at any time. */
  lemma {:induction false} RevokedForGood(
      before: seq<Action>, after: seq<Action>, hash: string -> string, tenant: string, id: string, now: int, later: int)
    requires Injective(hash) && Free(Execute(EMPTY, before, hash), tenant, id)
    ensures var s, actions := Execute(EMPTY, before, hash), before + [Revoke(tenant, id, now)] + after;
      && id in s.past.secrets
      && Resolve(Execute(EMPTY, actions, hash).table, hash(s.past.secrets[id]), later) == Err(Revoked)
  {
    var actions := before + [Revoke(tenant, id, now)] + after;
    RevokedIsDead(before, after, hash, tenant, id, now);
    SecretStays(before, [Revoke(tenant, id, now)] + after, hash, id);
    assert before + ([Revoke(tenant, id, now)] + after) == actions;
    ExecuteKeepsInvariant(EMPTY, actions, hash);
    DeadResolvesRevoked(Execute(EMPTY, actions, hash), hash, id, Execute(EMPTY, before, hash).past.secrets[id], later);
  }

  /** Creating a key for a tenant and a valid role always takes effect. */
  lemma {:induction false} CreateTakesEffect(s: State, hash: string -> string, spec: Spec, id: string, secret: string)
    requires spec.tenant != "" && ValidRole(spec.role) && id !in s.past.secrets && secret !in s.past.keyOf
    ensures Apply(s, Create(spec, id, secret), hash).table == s.table[id :=
      Row(spec.tenant, spec.name, hash(secret), spec.role,
          if spec.region == "" then None else Some(spec.region),
          if spec.supplier == "" then None else Some(spec.supplier), spec.expires, None)]
  {}

  lemma {:induction false} CreatedResolves(
      s: State, hash: string -> string, spec: Spec, id: string, secret: string, now: int)
    requires Invariant(s, hash) && Injective(hash)
    requires spec.tenant != "" && ValidRole(spec.role) && id !in s.past.secrets && secret !in s.past.keyOf
    ensures Resolve(Apply(s, Create(spec, id, secret), hash).table, hash(secret), now)
      == if spec.expires.Some? && spec.expires.value <= now then Err(Expired)
         else Ok(Identity(spec.tenant, id, spec.role, spec.region, spec.supplier))
  {
    var a := Create(spec, id, secret);
    ApplyKeepsInvariant(s, a, hash);
    ResolveInState(Apply(s, a, hash), hash, secret, now);
  }

  /** After it, the secret resolves to exactly the scope that was asked for, until it expires. */
  lemma {:induction false} CreatedForUse(
      actions: seq<Action>, hash: string -> string, spec: Spec, id: string, secret: string, now: int)
    requires Injective(hash) && spec.tenant != "" && ValidRole(spec.role)
    requires var s := Execute(EMPTY, actions, hash); id !in s.past.secrets && secret !in s.past.keyOf
    ensures Resolve(Execute(EMPTY, actions + [Create(spec, id, secret)], hash).table, hash(secret), now)
      == if spec.expires.Some? && spec.expires.value <= now then Err(Expired)
         else Ok(Identity(spec.tenant, id, spec.role, spec.region, spec.supplier))
  {
    ExecuteKeepsInvariant(EMPTY, actions, hash);
    assert (actions + [Create(spec, id, secret)])[..|actions|] == actions;
    CreatedResolves(Execute(EMPTY, actions, hash), hash, spec, id, secret, now);
  }

  /** Rotating a free key always takes effect: its four statements are one rotation. */
  lemma {:induction false} RotationTakesEffect(
      s: State, hash: string -> string, tx: nat, tenant: string, id: string, newId: string, secret: string, now: int)
    requires Invariant(s, hash) && Free(s, tenant, id) && tx !in s.rotations
    requires newId !in s.past.secrets && secret !in s.past.keyOf
    ensures var s1 := Apply(s, SelectForUpdate(tx, tenant, id), hash);
      var s2 := Apply(s1, RevokeOld(tx, now), hash);
      var s3 := Apply(s2, InsertNew(tx, newId, secret), hash);
      var row := s.table[id];
      && Apply(s3, Commit(tx), hash).table
         == s.table[id := row.(revokedAt := Some(now))]
                   [newId := Row(tenant, row.name, hash(secret), row.role, row.region, row.supplier, row.expires, None)]
      && Apply(s3, Rollback(tx), hash).table == s.table
      && Apply(s3, Rollback(tx), hash).locks == s.locks && Apply(s3, Rollback(tx), hash).rotations == s.rotations
  {
    assert RowOk(s.table[id], id, s.past, hash);
    RotateIsItsStatements(s, tx, tenant, id, newId, secret, now, hash);
    RollbackIsComplete(s, tx, tenant, id, newId, secret, now, hash);
  }

  lemma {:induction false} RollbackIsComplete(
      s: State, tx: nat, tenant: string, id: string, newId: string, secret: string, now: int, hash: string -> string)
    requires Enabled(s, SelectForUpdate(tx, tenant, id)) && FreshKey(s, newId, secret)
    ensures var s1 := Apply(s, SelectForUpdate(tx, tenant, id), hash);
      var s2 := Apply(s1, RevokeOld(tx, now), hash);
      var s3 := Apply(s2, InsertNew(tx, newId, secret), hash);
      var s4 := Apply(s3, Rollback(tx), hash);
      s4.table == s.table && s4.locks == s.locks && s4.rotations == s.rotations
  {}
}
