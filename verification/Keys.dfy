/**
 Key construction. Redis keys are "tenant:{tenant}:{suffix}" (shared/storage/redis.go), the
 in-memory limiter keys its map by tenant + "|" + suffix (internal/gateway/middleware/ratelimit.go),
 and the suffixes themselves are built from the route pattern and the idempotency key.
 */
module Keys {

  function RedisKey(tenant: string, suffix: string): string {
    "tenant:" + tenant + ":" + suffix
  }

  function MemoryKey(tenant: string, suffix: string): string {
    tenant + "|" + suffix
  }

  function RateSuffix(path: string): string {
    "ratelimit:" + path
  }

  function IdemSuffix(path: string, key: string): string {
    "idem:" + path + ":" + key
  }

  /** `b` starts with `a` followed by the separator. */
  predicate Extends(a: string, b: string, sep: char) {
    a + [sep] <= b
  }

  /** Two joins a1·sep·b1 and a2·sep·b2 agree only if the heads agree or one head extends the other. */
  lemma {:induction false} JoinHeads(a1: string, b1: string, a2: string, b2: string, sep: char)
    requires a1 + [sep] + b1 == a2 + [sep] + b2
    ensures a1 == a2 || Extends(a1, a2, sep) || Extends(a2, a1, sep)
    ensures a1 == a2 ==> b1 == b2
  {
    var s := a1 + [sep] + b1;
    assert s[..|a1|] == a1 && s[|a1|] == sep && s[|a1| + 1..] == b1;
    assert s[..|a2|] == a2 && s[|a2|] == sep && s[|a2| + 1..] == b2;
    if |a1| < |a2| {
      assert a1 + [sep] == s[..|a1| + 1] == a2[..|a1| + 1];
    } else if |a2| < |a1| {
      assert a2 + [sep] == s[..|a2| + 1] == a1[..|a2| + 1];
    }
  }

  /**
   Exactly when two different tenants can be driven to one Redis key: when one tenant id is
   the other followed by a colon. Ids without a colon (UUIDs, in this schema) never are.
   */
  lemma {:induction false} RedisKeysCollideExactlyWhen(t1: string, t2: string)
    requires t1 != t2
    ensures (exists s1, s2 :: RedisKey(t1, s1) == RedisKey(t2, s2)) <==> Extends(t1, t2, ':') || Extends(t2, t1, ':')
  {
    if s1, s2 :| RedisKey(t1, s1) == RedisKey(t2, s2) {
      RedisKeyJoin(t1, s1, t2, s2);
      JoinHeads(t1, s1, t2, s2, ':');
    }
    if Extends(t1, t2, ':') { RedisKeyExtends(t1, t2); }
    if Extends(t2, t1, ':') { RedisKeyExtends(t2, t1); }
  }

  lemma {:induction false} RedisKeyExtends(t1: string, t2: string)
    requires Extends(t1, t2, ':')
    ensures exists s1, s2 :: RedisKey(t1, s1) == RedisKey(t2, s2)
  {
    var s1 := t2[|t1| + 1..] + ":";
    assert t2 == t1 + ":" + t2[|t1| + 1..];
    assert RedisKey(t1, s1) == RedisKey(t2, "");
  }

  lemma {:induction false} RedisKeyJoin(t1: string, s1: string, t2: string, s2: string)
    requires RedisKey(t1, s1) == RedisKey(t2, s2)
    ensures t1 + [':'] + s1 == t2 + [':'] + s2
  {
    var p := "tenant:";
    assert RedisKey(t1, s1) == p + (t1 + [':'] + s1);
    assert RedisKey(t2, s2) == p + (t2 + [':'] + s2);
    assert RedisKey(t1, s1)[|p|..] == t1 + [':'] + s1;
    assert RedisKey(t2, s2)[|p|..] == t2 + [':'] + s2;
  }

  /** For colon-free tenants a Redis key determines its tenant and its suffix. */
  lemma {:induction false} RedisKeyInjective(t1: string, s1: string, t2: string, s2: string)
    requires ':' !in t1 && ':' !in t2
    ensures RedisKey(t1, s1) == RedisKey(t2, s2) <==> t1 == t2 && s1 == s2
  {
    if RedisKey(t1, s1) == RedisKey(t2, s2) {
      RedisKeyJoin(t1, s1, t2, s2);
      JoinHeads(t1, s1, t2, s2, ':');
      ExtensionHasSeparator(t1, t2, ':');
      ExtensionHasSeparator(t2, t1, ':');
    }
  }

  lemma {:induction false} ExtensionHasSeparator(a: string, b: string, sep: char)
    ensures Extends(a, b, sep) ==> sep in b
  {
    if Extends(a, b, sep) { assert (a + [sep])[|a|] == b[|a|]; }
  }

  /** For route patterns without '|' the in-memory key determines its tenant and its route. */
  lemma {:induction false} MemoryKeyInjective(t1: string, p1: string, t2: string, p2: string)
    requires '|' !in p1 && '|' !in p2
    ensures MemoryKey(t1, RateSuffix(p1)) == MemoryKey(t2, RateSuffix(p2)) <==> t1 == t2 && p1 == p2
  {
    var s1, s2 := RateSuffix(p1), RateSuffix(p2);
    if MemoryKey(t1, s1) == MemoryKey(t2, s2) {
      LongerHead(t1, s1, t2, s2, '|');
      LongerHead(t2, s2, t1, s1, '|');
      JoinHeads(t1, s1, t2, s2, '|');
      RateSuffixInjective(p1, p2);
    }
  }

  lemma {:induction false} RateSuffixInjective(p1: string, p2: string)
    ensures RateSuffix(p1) == RateSuffix(p2) <==> p1 == p2
  {
    assert RateSuffix(p1)[|"ratelimit:"|..] == p1 && RateSuffix(p2)[|"ratelimit:"|..] == p2;
  }

  /** If the second head is the longer one, the separator occurs in the first tail. */
  lemma {:induction false} LongerHead(a1: string, b1: string, a2: string, b2: string, sep: char)
    requires a1 + [sep] + b1 == a2 + [sep] + b2
    ensures |a1| < |a2| ==> sep in b1
  {
    if |a1| < |a2| { assert b1[|a2| - |a1| - 1] == (a1 + [sep] + b1)[|a2|] == sep; }
  }

  /**
   Exactly when two different routes can share an idempotency record of one tenant: when one
   pattern is the other followed by a colon. The gateway applies the middleware to a single
   route pattern, so no two of its routes ever do.
   */
  lemma {:induction false} IdemSuffixesCollideExactlyWhen(p1: string, p2: string)
    requires p1 != p2
    ensures (exists k1, k2 :: IdemSuffix(p1, k1) == IdemSuffix(p2, k2))
      <==> Extends(p1, p2, ':') || Extends(p2, p1, ':')
  {
    if k1, k2 :| IdemSuffix(p1, k1) == IdemSuffix(p2, k2) {
      IdemSuffixJoin(p1, k1, p2, k2);
      JoinHeads(p1, k1, p2, k2, ':');
    }
    if Extends(p1, p2, ':') { IdemSuffixExtends(p1, p2); }
    if Extends(p2, p1, ':') { IdemSuffixExtends(p2, p1); }
  }

  lemma {:induction false} IdemSuffixExtends(p1: string, p2: string)
    requires Extends(p1, p2, ':')
    ensures exists k1, k2 :: IdemSuffix(p1, k1) == IdemSuffix(p2, k2)
  {
    var k1 := p2[|p1| + 1..] + ":";
    assert p2 == p1 + ":" + p2[|p1| + 1..];
    assert IdemSuffix(p1, k1) == IdemSuffix(p2, "");
  }

  lemma {:induction false} IdemSuffixJoin(p1: string, k1: string, p2: string, k2: string)
    requires IdemSuffix(p1, k1) == IdemSuffix(p2, k2)
    ensures p1 + [':'] + k1 == p2 + [':'] + k2
  {
    var h := "idem:";
    assert IdemSuffix(p1, k1) == h + (p1 + [':'] + k1);
    assert IdemSuffix(p2, k2) == h + (p2 + [':'] + k2);
    assert IdemSuffix(p1, k1)[|h|..] == p1 + [':'] + k1;
    assert IdemSuffix(p2, k2)[|h|..] == p2 + [':'] + k2;
  }

  // ------------------------------------------------------------ keys of the gateway's routes

  /** A route pattern begins with '/', and a colon in it, which opens a parameter, follows '/'. */
  predicate Pattern(p: string) {
    p != "" && p[0] == '/' && forall i :: 0 <= i < |p| && p[i] == ':' ==> i > 0 && p[i - 1] == '/'
  }

  /** A pattern that has no '|' either, the separator of the in-memory keys. */
  predicate PlainPattern(p: string) {
    '|' !in p && Pattern(p)
  }

  /** A pattern without parameters, such as that of the one route with idempotency records. */
  predicate FixedPattern(p: string) {
    p != "" && p[0] == '/' && ':' !in p
  }

  /** Where the parts of a limiter key lie, after its fixed head. */
  lemma {:induction false} RateParts(t: string, p: string)
    ensures var s, n := t + [':'] + RateSuffix(p), |t|;
      && |s| == n + 11 + |p| && s[..n] == t && s[n + 11..] == p
      && s[n] == ':' && s[n + 10] == ':' && s[n + 9] == 't'
      && forall i :: n < i < n + 10 ==> s[i] != ':' && s[i] != '/'
  {
    var s, n, w := t + [':'] + RateSuffix(p), |t|, "ratelimit:";
    assert s == t + [':'] + w + p;
    assert forall i :: n < i < n + 11 ==> s[i] == w[i - n - 1];
  }

  /** Limiter keys of route patterns determine tenant and route, whatever the tenant ids. */
  lemma {:induction false} RateKeyInjective(t1: string, p1: string, t2: string, p2: string)
    requires Pattern(p1) && Pattern(p2)
    ensures RedisKey(t1, RateSuffix(p1)) == RedisKey(t2, RateSuffix(p2)) <==> t1 == t2 && p1 == p2
  {
    if RedisKey(t1, RateSuffix(p1)) == RedisKey(t2, RateSuffix(p2)) {
      RedisKeyJoin(t1, RateSuffix(p1), t2, RateSuffix(p2));
      RateTails(t1, p1, t2, p2);
      RateTails(t2, p2, t1, p1);
      RateParts(t1, p1);
      RateParts(t2, p2);
    }
  }

  lemma {:induction false} RateTails(t1: string, p1: string, t2: string, p2: string)
    requires Pattern(p2) && t1 + [':'] + RateSuffix(p1) == t2 + [':'] + RateSuffix(p2)
    ensures |p2| <= |p1|
  {
    RateParts(t1, p1);
    RateParts(t2, p2);
    RouteColons(t2, p2);
  }

  /** In the route of a limiter key every colon follows '/'. */
  lemma {:induction false} RouteColons(t: string, p: string)
    requires Pattern(p)
    ensures var s, n := t + [':'] + RateSuffix(p), |t| + 11;
      s[n] == '/' && forall i :: n <= i < |s| && s[i] == ':' ==> i > n && s[i - 1] == '/'
  {
    var s, n := t + [':'] + RateSuffix(p), |t| + 11;
    RateParts(t, p);
    forall i | n <= i < |s| ensures s[i] == p[i - n] {
      assert s[n..][i - n] == p[i - n];
    }
  }

  /** Where the parts of a record key lie, after its fixed head. */
  lemma {:induction false} IdemParts(t: string, p: string, k: string)
    ensures var s, n := t + [':'] + IdemSuffix(p, k), |t|;
      && |s| == n + 7 + |p| + |k| && s[..n] == t && s[n + 6..n + 6 + |p|] == p && s[n + 7 + |p|..] == k
      && s[..n + 7 + |p|] == t + ":idem:" + p + ":"
      && s[n] == ':' && s[n + 4] == 'm' && s[n + 5] == ':' && s[n + 6 + |p|] == ':'
      && forall i :: n < i < n + 5 ==> s[i] != ':' && s[i] != '/'
  {
    var s, n, w := t + [':'] + IdemSuffix(p, k), |t|, "idem:";
    assert s == t + [':'] + w + p + [':'] + k == t + ":idem:" + p + ":" + k;
    assert forall i :: n < i < n + 6 ==> s[i] == w[i - n - 1];
  }

  /** The route in a record key begins with '/' and has no colon. */
  lemma {:induction false} RecordBody(t: string, p: string, k: string)
    requires FixedPattern(p)
    ensures var s, n := t + [':'] + IdemSuffix(p, k), |t| + 6;
      |s| >= n + |p| && s[n] == '/' && forall i :: n <= i < n + |p| ==> s[i] != ':'
  {
    var s, n := t + [':'] + IdemSuffix(p, k), |t| + 6;
    IdemParts(t, p, k);
    forall i | n <= i < n + |p| ensures s[i] == p[i - n] {
      assert s[n..n + |p|][i - n] == p[i - n];
    }
  }

  /**
   Tenant `a` can name keys of tenant `b` by its choice of an Idempotency-Key on the route: b's id
   continues a's id with what a record key has between tenant and Idempotency-Key.
   */
  predicate Crosses(a: string, b: string, path: string) {
    a + ":idem:" + path + ":" <= b + ":"
  }

  /** Neither tenant can name keys of the other. */
  predicate Apart(a: string, b: string, path: string) {
    a == b || (!Crosses(a, b, path) && !Crosses(b, a, path))
  }

  /** Tenants without a colon, UUIDs among them, are apart from all tenants without a colon. */
  lemma {:induction false} PlainTenantsAreApart(a: string, b: string, path: string)
    requires ':' !in a && ':' !in b
    ensures Apart(a, b, path)
  {
    PlainIsNotCrossed(a, b, path);
    PlainIsNotCrossed(b, a, path);
  }

  lemma {:induction false} PlainIsNotCrossed(a: string, b: string, path: string)
    requires ':' !in b
    ensures !Crosses(a, b, path)
  {
    var head := a + ":idem:" + path + ":";
    assert head[|a|] == ':' && |a| + 6 < |head|;
    assert forall i :: 0 <= i < |b| ==> (b + ":")[i] == b[i];
  }

  /** A record key of one tenant whose head ends inside another tenant's id crosses into it. */
  lemma {:induction false} HeadWithin(a: string, p: string, k: string, b: string, tail: string)
    requires a + [':'] + IdemSuffix(p, k) == b + [':'] + tail && |a| + 6 + |p| <= |b|
    ensures Crosses(a, b, p)
  {
    var s, n := a + [':'] + IdemSuffix(p, k), |a| + 7 + |p|;
    IdemParts(a, p, k);
    assert b + ":" == s[..|b| + 1];
    assert a + ":idem:" + p + ":" == s[..n] == s[..|b| + 1][..n];
  }

  /** The head of one record key never ends inside the fixed part of another. */
  lemma {:induction false} RecordHeads(a: string, k: string, b: string, k': string, p: string)
    requires FixedPattern(p) && a + [':'] + IdemSuffix(p, k) == b + [':'] + IdemSuffix(p, k') && |a| < |b|
    ensures |a| + 6 + |p| <= |b|
  {
    IdemParts(a, p, k);
    IdemParts(b, p, k');
    RecordBody(a, p, k);
    RecordBody(b, p, k');
  }

  /** Records of different tenants on one route meet only if one tenant crosses into the other. */
  lemma {:induction false} RecordsMeetOnlyIf(a: string, k: string, b: string, k': string, p: string)
    requires FixedPattern(p) && RedisKey(a, IdemSuffix(p, k)) == RedisKey(b, IdemSuffix(p, k'))
    ensures a == b || Crosses(a, b, p) || Crosses(b, a, p)
  {
    RedisKeyJoin(a, IdemSuffix(p, k), b, IdemSuffix(p, k'));
    if |a| < |b| {
      RecordHeads(a, k, b, k', p);
      HeadWithin(a, p, k, b, IdemSuffix(p, k'));
    } else if |b| < |a| {
      RecordHeads(b, k', a, k, p);
      HeadWithin(b, p, k', a, IdemSuffix(p, k));
    } else {
      IdemParts(a, p, k);
      IdemParts(b, p, k');
    }
  }

  /** A tenant that crosses into another has an Idempotency-Key for each key that starts with the other's id. */
  lemma {:induction false} CrossingKey(a: string, b: string, suffix: string, p: string) returns (k: string)
    requires Crosses(a, b, p) && suffix != ""
    ensures k != "" && RedisKey(a, IdemSuffix(p, k)) == RedisKey(b, suffix)
  {
    var head := a + ":idem:" + p + ":";
    var rest := (b + ":")[|head|..];
    k := rest + suffix;
    assert b + ":" == head + rest;
    assert RedisKey(b, suffix) == "tenant:" + (b + ":") + suffix == "tenant:" + head + rest + suffix;
    assert RedisKey(a, IdemSuffix(p, k)) == "tenant:" + head + rest + suffix;
  }

  /**
   Exactly when two tenants can share an idempotency record on a route: when one of them crosses
   into the other. The middleware accepts every non-empty Idempotency-Key.
   */
  lemma {:induction false} RecordsMeetExactlyWhen(a: string, b: string, p: string)
    requires a != b && FixedPattern(p)
    ensures (exists k, k' :: k != "" && k' != "" && RedisKey(a, IdemSuffix(p, k)) == RedisKey(b, IdemSuffix(p, k')))
      <==> !Apart(a, b, p)
  {
    if k, k' :| k != "" && k' != "" && RedisKey(a, IdemSuffix(p, k)) == RedisKey(b, IdemSuffix(p, k')) {
      RecordsMeetOnlyIf(a, k, b, k', p);
    }
    if !Apart(a, b, p) {
      var k, k' := SharedRecord(a, b, p);
    }
  }

  /** Idempotency-Keys with which two tenants that are not apart share a record. */
  lemma {:induction false} SharedRecord(a: string, b: string, p: string) returns (k: string, k': string)
    requires !Apart(a, b, p)
    ensures k != "" && k' != "" && RedisKey(a, IdemSuffix(p, k)) == RedisKey(b, IdemSuffix(p, k'))
  {
    if Crosses(a, b, p) {
      k' := "k";
      k := CrossingKey(a, b, IdemSuffix(p, k'), p);
    } else {
      k := "k";
      k' := CrossingKey(b, a, IdemSuffix(p, k), p);
    }
  }

  /** On one route, for tenants that are apart, the record key determines tenant and Idempotency-Key. */
  lemma {:induction false} IdemKeyInjective(t1: string, k1: string, t2: string, k2: string, path: string)
    requires FixedPattern(path) && Apart(t1, t2, path)
    ensures RedisKey(t1, IdemSuffix(path, k1)) == RedisKey(t2, IdemSuffix(path, k2)) <==> t1 == t2 && k1 == k2
  {
    if RedisKey(t1, IdemSuffix(path, k1)) == RedisKey(t2, IdemSuffix(path, k2)) {
      RecordsMeetOnlyIf(t1, k1, t2, k2, path);
      RedisKeyJoin(t1, IdemSuffix(path, k1), t2, IdemSuffix(path, k2));
      IdemParts(t1, path, k1);
      IdemParts(t2, path, k2);
    }
  }

  /** The head of a record key never ends inside the fixed part of a limiter key or inside its route. */
  lemma {:induction false} RecordHeadInLimiterKey(t: string, p: string, a: string, path: string, k: string)
    requires Pattern(p) && FixedPattern(path) && t + [':'] + RateSuffix(p) == a + [':'] + IdemSuffix(path, k)
    ensures |a| + 6 + |path| <= |t|
  {
    RateParts(t, p);
    RouteColons(t, p);
    IdemParts(a, path, k);
    RecordBody(a, path, k);
  }

  /**
   Exactly when a tenant's idempotency records on a route can hit another tenant's limiter key:
   when it crosses into that tenant.
   */
  lemma {:induction false} NamespacesMeetExactlyWhen(t: string, p: string, a: string, path: string)
    requires Pattern(p) && FixedPattern(path)
    ensures (exists k :: k != "" && RedisKey(t, RateSuffix(p)) == RedisKey(a, IdemSuffix(path, k)))
      <==> Crosses(a, t, path)
  {
    if k :| k != "" && RedisKey(t, RateSuffix(p)) == RedisKey(a, IdemSuffix(path, k)) {
      NamespacesMeetOnlyIf(t, p, a, path, k);
    }
    if Crosses(a, t, path) {
      var k := CrossingKey(a, t, RateSuffix(p), path);
    }
  }

  lemma {:induction false} NamespacesMeetOnlyIf(t: string, p: string, a: string, path: string, k: string)
    requires Pattern(p) && FixedPattern(path) && RedisKey(t, RateSuffix(p)) == RedisKey(a, IdemSuffix(path, k))
    ensures Crosses(a, t, path)
  {
    RedisKeyJoin(t, RateSuffix(p), a, IdemSuffix(path, k));
    RecordHeadInLimiterKey(t, p, a, path, k);
    HeadWithin(a, path, k, t, RateSuffix(p));
  }

  /** The key is a record of the tenant on the route. */
  predicate RecordOf(key: string, tenant: string, path: string) {
    RedisKey(tenant, IdemSuffix(path, "")) <= key
  }

  /** For tenants that are apart, a record belongs to the tenant it was built for and to no other. */
  lemma {:induction false} RecordsBelongExactly(t: string, k: string, tenant: string, path: string)
    requires FixedPattern(path) && Apart(t, tenant, path)
    ensures RecordOf(RedisKey(t, IdemSuffix(path, k)), tenant, path) <==> t == tenant
  {
    var key, head := RedisKey(t, IdemSuffix(path, k)), RedisKey(tenant, IdemSuffix(path, ""));
    if RecordOf(key, tenant, path) {
      assert key == head + key[|head|..] == RedisKey(tenant, IdemSuffix(path, key[|head|..]));
      RecordsMeetOnlyIf(t, k, tenant, key[|head|..], path);
    }
    if t == tenant {
      assert key == head + k;
    }
  }
}
