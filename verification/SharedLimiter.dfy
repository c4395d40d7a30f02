/**
 The RateLimit middleware over its real state: one Redis keyspace for all tenants and routes,
 and one in-memory map per gateway instance (internal/gateway/middleware/ratelimit.go,
 shared/storage/redis.go). Failover follows one (tenant, route) pair; here all of them run
 together, and each pair is shown to see its own traffic alone.
 */
module SharedLimiter {
  import F = Failover
  import LossyLimiter
  import R = RedisLimiter
  import M = MemoryLimiter
  import SW = SlidingWindow
  import Keys

  /** A request of a tenant on a route. */
  datatype Tagged = Tagged(tenant: string, path: string, request: F.Request)

  datatype Stores = Stores(keyspace: map<string, R.ZSet>, logs: seq<map<string, seq<int>>>)

  function Initial(n: nat): Stores {
    Stores(map[], seq(n, _ => map[]))
  }

  function ZSetAt(s: Stores, key: string): R.ZSet {
    if key in s.keyspace then s.keyspace[key] else R.ABSENT
  }

  function RedisKey(tenant: string, path: string): string {
    Keys.RedisKey(tenant, Keys.RateSuffix(path))
  }

  function MemoryKey(tenant: string, path: string): string {
    Keys.MemoryKey(tenant, Keys.RateSuffix(path))
  }

  /** Run the script on a key. */
  function Evaluate(s: Stores, key: string, c: R.Call, limit: int, window: int): (Stores, bool) {
    var v := R.Script(ZSetAt(s, key), c, limit, window, true);
    (s.(keyspace := s.keyspace[key := v.zset]), v.allowed)
  }

  /** Let an instance decide on its own log. */
  function FallBack(s: Stores, instance: nat, key: string, now: int, limit: int, window: int): (Stores, bool)
    requires instance < |s.logs|
  {
    var v := SW.Step(M.LogAt(s.logs[instance], key), now, limit, window);
    (s.(logs := s.logs[instance := s.logs[instance][key := v.log]]), v.allowed)
  }

  /** A value of another type takes the place of whatever the key held. */
  function Overwrite(s: Stores, key: string): Stores {
    s.(keyspace := s.keyspace - {key})
  }

  datatype Outcome = Outcome(stores: Stores, admitted: bool)

  /** The middleware on one request: the contract of Failover.RateLimit. */
  function Serve(s: Stores, q: Tagged, limit: int, window: int): Outcome
    requires q.request.instance < |s.logs|
  {
    var redis :=
      if q.request.reply.Unreachable? then (s, false)
      else Evaluate(s, RedisKey(q.tenant, q.path), q.request.redis, limit, window);
    if q.request.reply.Answered? then Outcome(redis.0, redis.1)
    else
      var key := MemoryKey(q.tenant, q.path);
      var memory := FallBack(redis.0, q.request.instance, key, q.request.fallbackClock, limit, window);
      Outcome(memory.0, memory.1)
  }

  ghost predicate Addressed(qs: seq<Tagged>, n: nat) {
    forall i :: 0 <= i < |qs| ==> qs[i].request.instance < n
  }

  function Run(qs: seq<Tagged>, n: nat, limit: int, window: int): (s: Stores)
    requires Addressed(qs, n)
    ensures |s.logs| == n
  {
    if qs == [] then Initial(n)
    else Serve(Run(qs[..|qs| - 1], n, limit, window), qs[|qs| - 1], limit, window).stores
  }

  lemma {:induction false} RunSnoc(qs: seq<Tagged>, q: Tagged, n: nat, limit: int, window: int)
    requires Addressed(qs, n) && q.request.instance < n
    ensures Addressed(qs + [q], n)
    ensures Run(qs + [q], n, limit, window) == Serve(Run(qs, n, limit, window), q, limit, window).stores
  {
    assert (qs + [q])[..|qs|] == qs;
  }

  /** The requests of one tenant on one route. */
  function Own(qs: seq<Tagged>, tenant: string, path: string): seq<F.Request> {
    if qs == [] then [] else
      var init, q := Own(qs[..|qs| - 1], tenant, path), qs[|qs| - 1];
      if q.tenant == tenant && q.path == path then init + [q.request] else init
  }

  lemma {:induction false} OwnSnoc(qs: seq<Tagged>, q: Tagged, tenant: string, path: string)
    ensures Own(qs + [q], tenant, path)
      == if q.tenant == tenant && q.path == path then Own(qs, tenant, path) + [q.request] else Own(qs, tenant, path)
  {
    assert (qs + [q])[..|qs|] == qs;
  }

  lemma {:induction false} OwnAddressed(qs: seq<Tagged>, n: nat, tenant: string, path: string)
    requires Addressed(qs, n)
    ensures F.Addressed(Own(qs, tenant, path), n)
  {
    if qs != [] { OwnAddressed(qs[..|qs| - 1], n, tenant, path); }
  }

  /** Every route is a plain pattern; tenant ids are unconstrained. */
  ghost predicate Plain(qs: seq<Tagged>) {
    forall i :: 0 <= i < |qs| ==> Keys.PlainPattern(qs[i].path)
  }

  // ---------------------------------------------------------- independence of pairs

  /** What the shared stores hold for a pair is what its own limiters would hold. */
  ghost predicate Mirrors(s: Stores, own: F.System, tenant: string, path: string) {
    && |s.logs| == |own.memory|
    && ZSetAt(s, RedisKey(tenant, path)) == own.redis.zset
    && forall i :: 0 <= i < |s.logs| ==> M.LogAt(s.logs[i], MemoryKey(tenant, path)) == own.memory[i].log
  }

  lemma {:induction false} ServeOwn(s: Stores, own: F.System, q: Tagged, limit: int, window: int)
    requires Mirrors(s, own, q.tenant, q.path) && q.request.instance < |s.logs|
    ensures var o, o' := Serve(s, q, limit, window), F.Serve(own, q.request, limit, window);
      o.admitted == o'.admitted && Mirrors(o.stores, o'.system, q.tenant, q.path)
  {}

  /** A request changes nothing under the keys of another pair. */
  lemma {:induction false} ServeOther(
      s: Stores, own: F.System, q: Tagged, limit: int, window: int, tenant: string, path: string)
    requires Mirrors(s, own, tenant, path) && q.request.instance < |s.logs|
    requires RedisKey(q.tenant, q.path) != RedisKey(tenant, path)
    requires MemoryKey(q.tenant, q.path) != MemoryKey(tenant, path)
    ensures Mirrors(Serve(s, q, limit, window).stores, own, tenant, path)
  {}

  lemma {:induction false} OverwriteOther(s: Stores, own: F.System, key: string, tenant: string, path: string)
    requires Mirrors(s, own, tenant, path) && key != RedisKey(tenant, path)
    ensures Mirrors(Overwrite(s, key), own, tenant, path)
  {}

  lemma {:induction false} OverwriteOwn(s: Stores, own: F.System, tenant: string, path: string)
    requires Mirrors(s, own, tenant, path)
    ensures Mirrors(Overwrite(s, RedisKey(tenant, path)), LossyLimiter.Blank(own), tenant, path)
  {}

  lemma {:induction false} PairsHaveTheirOwnKeys(t1: string, p1: string, t2: string, p2: string)
    requires Keys.PlainPattern(p1) && Keys.PlainPattern(p2) && !(t1 == t2 && p1 == p2)
    ensures RedisKey(t1, p1) != RedisKey(t2, p2) && MemoryKey(t1, p1) != MemoryKey(t2, p2)
  {
    Keys.MemoryKeyInjective(t1, p1, t2, p2);
    Keys.RateKeyInjective(t1, p1, t2, p2);
  }

  lemma {:induction false} ServeMirrors(
      s: Stores, own: F.System, q: Tagged, limit: int, window: int, tenant: string, path: string)
    requires Mirrors(s, own, tenant, path) && q.request.instance < |s.logs|
    requires Keys.PlainPattern(path) && Keys.PlainPattern(q.path)
    ensures var mine := q.tenant == tenant && q.path == path;
      var own' := if mine then F.Serve(own, q.request, limit, window).system else own;
      Mirrors(Serve(s, q, limit, window).stores, own', tenant, path)
  {
    if q.tenant == tenant && q.path == path {
      ServeOwn(s, own, q, limit, window);
    } else {
      PairsHaveTheirOwnKeys(q.tenant, q.path, tenant, path);
      ServeOther(s, own, q, limit, window, tenant, path);
    }
  }

  /**
   In every run of all tenants over the shared stores, what the stores hold for a tenant's route
   is what that tenant's own requests on that route produce alone.
   */
  lemma {:induction false} PairsAreIndependent(
      qs: seq<Tagged>, n: nat, limit: int, window: int, tenant: string, path: string)
    requires Addressed(qs, n) && Plain(qs) && Keys.PlainPattern(path)
    ensures F.Addressed(Own(qs, tenant, path), n)
    ensures Mirrors(Run(qs, n, limit, window), F.Run(Own(qs, tenant, path), n, limit, window), tenant, path)
  {
    OwnAddressed(qs, n, tenant, path);
    if qs != [] {
      var init, q := qs[..|qs| - 1], qs[|qs| - 1];
      PairsAreIndependent(init, n, limit, window, tenant, path);
      var s, own := Run(init, n, limit, window), F.Run(Own(init, tenant, path), n, limit, window);
      ServeMirrors(s, own, q, limit, window, tenant, path);
      if q.tenant == tenant && q.path == path {
        F.RunSnoc(Own(init, tenant, path), q.request, n, limit, window);
      }
    }
  }

  /**
   Every decision over the shared stores is the one the pair's own limiters would take on the
   pair's own requests: no other tenant and no other route ever influences it.
   */
  lemma {:induction false} DecisionsAreOwn(qs: seq<Tagged>, q: Tagged, n: nat, limit: int, window: int)
    requires Addressed(qs, n) && Plain(qs) && q.request.instance < n && Keys.PlainPattern(q.path)
    ensures F.Addressed(Own(qs, q.tenant, q.path), n)
    ensures Serve(Run(qs, n, limit, window), q, limit, window).admitted
      == F.Serve(F.Run(Own(qs, q.tenant, q.path), n, limit, window), q.request, limit, window).admitted
  {
    PairsAreIndependent(qs, n, limit, window, q.tenant, q.path);
    ServeOwn(Run(qs, n, limit, window), F.Run(Own(qs, q.tenant, q.path), n, limit, window), q, limit, window);
  }

  /** In particular the sorted set of a pair is the one its own calls build alone. */
  lemma {:induction false} RedisKeysAreIndependent(
      qs: seq<Tagged>, n: nat, limit: int, window: int, tenant: string, path: string)
    requires Addressed(qs, n) && Plain(qs) && Keys.PlainPattern(path)
    ensures ZSetAt(Run(qs, n, limit, window), RedisKey(tenant, path))
      == R.Run(F.RedisCalls(Own(qs, tenant, path)), limit, window, true).zset
  {
    PairsAreIndependent(qs, n, limit, window, tenant, path);
    F.RedisProjects(Own(qs, tenant, path), n, limit, window);
  }

  // ---------------------------------------------------------- two runs, one tenant

  /** Two stores hold the same for a tenant's route. */
  ghost predicate AgreeOn(s: Stores, s': Stores, tenant: string, path: string) {
    && ZSetAt(s, RedisKey(tenant, path)) == ZSetAt(s', RedisKey(tenant, path))
    && |s.logs| == |s'.logs|
    && forall i :: 0 <= i < |s.logs| ==>
         M.LogAt(s.logs[i], MemoryKey(tenant, path)) == M.LogAt(s'.logs[i], MemoryKey(tenant, path))
  }

  /** Two stores hold the same for a tenant. */
  ghost predicate AgreeFor(s: Stores, s': Stores, tenant: string) {
    |s.logs| == |s'.logs| && forall path :: Keys.PlainPattern(path) ==> AgreeOn(s, s', tenant, path)
  }

  lemma {:induction false} ServeSame(s: Stores, s': Stores, q: Tagged, limit: int, window: int)
    requires AgreeOn(s, s', q.tenant, q.path) && q.request.instance < |s.logs|
    ensures var o, o' := Serve(s, q, limit, window), Serve(s', q, limit, window);
      o.admitted == o'.admitted && AgreeOn(o.stores, o'.stores, q.tenant, q.path)
  {}

  lemma {:induction false} ServeElsewhere(
      s: Stores, s': Stores, q: Tagged, limit: int, window: int, tenant: string, path: string)
    requires AgreeOn(s, s', tenant, path) && q.request.instance < |s.logs|
    requires RedisKey(q.tenant, q.path) != RedisKey(tenant, path)
    requires MemoryKey(q.tenant, q.path) != MemoryKey(tenant, path)
    ensures AgreeOn(Serve(s, q, limit, window).stores, s', tenant, path)
    ensures AgreeOn(s, Serve(s', q, limit, window).stores, tenant, path)
  {}

  /** A tenant's own request is decided alike, and leaves what the tenant sees alike. */
  lemma {:induction false} OwnRequestAgrees(s: Stores, s': Stores, q: Tagged, limit: int, window: int)
    requires AgreeFor(s, s', q.tenant) && Keys.PlainPattern(q.path) && q.request.instance < |s.logs|
    ensures var o, o' := Serve(s, q, limit, window), Serve(s', q, limit, window);
      o.admitted == o'.admitted && AgreeFor(o.stores, o'.stores, q.tenant)
  {
    var o, o' := Serve(s, q, limit, window), Serve(s', q, limit, window);
    assert AgreeOn(s, s', q.tenant, q.path);
    ServeSame(s, s', q, limit, window);
    forall path | Keys.PlainPattern(path) ensures AgreeOn(o.stores, o'.stores, q.tenant, path) {
      if path != q.path {
        PairsHaveTheirOwnKeys(q.tenant, q.path, q.tenant, path);
        ServeElsewhere(s, s', q, limit, window, q.tenant, path);
        ServeElsewhere(o.stores, s', q, limit, window, q.tenant, path);
      }
    }
  }

  /** Another tenant's request changes nothing that the tenant sees. */
  lemma {:induction false} OtherRequestAgrees(s: Stores, s': Stores, q: Tagged, limit: int, window: int, tenant: string)
    requires AgreeFor(s, s', tenant) && Keys.PlainPattern(q.path) && q.request.instance < |s.logs| && q.tenant != tenant
    ensures AgreeFor(Serve(s, q, limit, window).stores, s', tenant)
  {
    forall path | Keys.PlainPattern(path) ensures AgreeOn(Serve(s, q, limit, window).stores, s', tenant, path) {
      PairsHaveTheirOwnKeys(q.tenant, q.path, tenant, path);
      ServeElsewhere(s, s', q, limit, window, tenant, path);
    }
  }

  lemma {:induction false} OwnOverwriteAgrees(s: Stores, s': Stores, key: string, tenant: string)
    requires AgreeFor(s, s', tenant)
    ensures AgreeFor(Overwrite(s, key), Overwrite(s', key), tenant)
  {
    forall path | Keys.PlainPattern(path) ensures AgreeOn(Overwrite(s, key), Overwrite(s', key), tenant, path) {
      assert AgreeOn(s, s', tenant, path);
    }
  }

  lemma {:induction false} OtherOverwriteAgrees(s: Stores, s': Stores, key: string, tenant: string)
    requires AgreeFor(s, s', tenant)
    requires forall path :: Keys.PlainPattern(path) ==> key != RedisKey(tenant, path)
    ensures AgreeFor(Overwrite(s, key), s', tenant)
  {
    forall path | Keys.PlainPattern(path) ensures AgreeOn(Overwrite(s, key), s', tenant, path) {
      assert AgreeOn(s, s', tenant, path);
    }
  }
}
