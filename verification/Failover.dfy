/**
 The RateLimit middleware over N gateway instances: the shared Redis limiter is consulted
 first, and on any Redis error the instance's own in-memory limiter decides instead
 (internal/gateway/middleware/ratelimit.go). One (tenant, route) pair is followed here, with
 histories; SharedLimiter runs all pairs over the stores they share.
 */
module Failover {
  import opened Common
  import SW = SlidingWindow
  import R = RedisLimiter
  import M = MemoryLimiter
  import Keys

  /** What became of the call to Redis: a lost reply means the script ran but an error came back. */
  datatype Reply = Answered | Unreachable | ReplyLost

  /** One request: the instance, the Redis call it makes, its fate, and the clock of a fallback call. */
  datatype Request = Request(instance: nat, redis: R.Call, reply: Reply, fallbackClock: int)

  /** The shared sorted set and the log of every instance, each with its history. */
  datatype System = System(redis: R.History, memory: seq<SW.History>)

  function Initial(n: nat): System {
    System(R.FRESH, seq(n, _ => SW.FRESH))
  }

  datatype Outcome = Outcome(system: System, admitted: bool)

  function Last<T>(s: seq<T>): T requires s != [] { s[|s| - 1] }

  /** The middleware on one request. */
  function Serve(s: System, q: Request, limit: int, window: int): Outcome
    requires q.instance < |s.memory|
  {
    var redis := if q.reply.Unreachable? then s.redis else R.Extend(s.redis, q.redis, limit, window, true);
    if q.reply.Answered? then
      Outcome(System(redis, s.memory), Last(redis.decisions))
    else
      var log := SW.Extend(s.memory[q.instance], q.fallbackClock, limit, window);
      Outcome(System(redis, s.memory[q.instance := log]), Last(log.decisions))
  }

  ghost predicate Addressed(qs: seq<Request>, n: nat) {
    forall i :: 0 <= i < |qs| ==> qs[i].instance < n
  }

  function Run(qs: seq<Request>, n: nat, limit: int, window: int): (s: System)
    requires Addressed(qs, n)
    ensures |s.memory| == n
  {
    if qs == [] then Initial(n)
    else Serve(Run(qs[..|qs| - 1], n, limit, window), qs[|qs| - 1], limit, window).system
  }

  /** The stamp under which a request is admitted, if it is. */
  function Stamp(q: Request): int {
    if q.reply.Answered? then q.redis.clock else q.fallbackClock
  }

  /** How many requests the middleware let through with a stamp in (lo, hi]. */
  function AdmittedIn(qs: seq<Request>, n: nat, limit: int, window: int, lo: int, hi: int): nat
    requires Addressed(qs, n)
  {
    if qs == [] then 0 else
      var init, q := qs[..|qs| - 1], qs[|qs| - 1];
      var admitted := Serve(Run(init, n, limit, window), q, limit, window).admitted;
      AdmittedIn(init, n, limit, window, lo, hi) + (if admitted && lo < Stamp(q) <= hi then 1 else 0)
  }

  // ---------------------------------------------------------- the middleware method

  /** RateLimit on one instance, on the heap. */
  method RateLimit(
      server: R.Server, fallback: M.Limiter, tenant: string, path: string, q: Request, limit: int, window: int)
    returns (admitted: bool)
    requires fallback.Valid()
    modifies server, fallback, fallback.repr
    ensures fallback.Valid() && fresh(fallback.repr - old(fallback.repr))
    ensures var key := Keys.RedisKey(tenant, Keys.RateSuffix(path));
      var v := R.Script(old(server.At(key)), q.redis, limit, window, true);
      && server.At(key) == (if q.reply.Unreachable? then old(server.At(key)) else v.zset)
      && (q.reply.Answered? ==> admitted == v.allowed)
      && forall k :: k != key ==> server.At(k) == old(server.At(k))
    ensures var key := Keys.MemoryKey(tenant, Keys.RateSuffix(path));
      var v := SW.Step(old(fallback.Log(key)), q.fallbackClock, limit, window);
      && fallback.Log(key) == (if q.reply.Answered? then old(fallback.Log(key)) else v.log)
      && (!q.reply.Answered? ==> admitted == v.allowed)
      && forall k :: k != key ==> fallback.Log(k) == old(fallback.Log(k))
  {
    var suffix := Keys.RateSuffix(path);
    admitted := false;
    if !q.reply.Unreachable? {
      admitted := server.Allow(tenant, suffix, q.redis, limit, window);
    }
    if !q.reply.Answered? {
      admitted := fallback.Allow(tenant, suffix, q.fallbackClock, limit, window);
    }
  }

  /** Serving a request is the contract of RateLimit on the pair's own set and logs. */
  lemma {:induction false} ServeIsRateLimit(s: System, q: Request, limit: int, window: int)
    requires q.instance < |s.memory|
    ensures var o := Serve(s, q, limit, window);
      var redis := R.Script(s.redis.zset, q.redis, limit, window, true);
      var memory := SW.Step(s.memory[q.instance].log, q.fallbackClock, limit, window);
      && o.admitted == (if q.reply.Answered? then redis.allowed else memory.allowed)
      && o.system.redis.zset == (if q.reply.Unreachable? then s.redis.zset else redis.zset)
      && |o.system.memory| == |s.memory|
      && o.system.memory[q.instance].log == (if q.reply.Answered? then s.memory[q.instance].log else memory.log)
      && forall i :: 0 <= i < |s.memory| && i != q.instance ==> o.system.memory[i] == s.memory[i]
  {}

  // ---------------------------------------------------------- projections

  /** The calls whose script ran, in order. */
  function RedisCalls(qs: seq<Request>): seq<R.Call> {
    if qs == [] then [] else
      var init, q := RedisCalls(qs[..|qs| - 1]), qs[|qs| - 1];
      if q.reply.Unreachable? then init else init + [q.redis]
  }

  /** The clocks of the fallback calls of one instance, in order. */
  function FallbackClocks(qs: seq<Request>, instance: nat): seq<int> {
    if qs == [] then [] else
      var init, q := FallbackClocks(qs[..|qs| - 1], instance), qs[|qs| - 1];
      if q.instance == instance && !q.reply.Answered? then init + [q.fallbackClock] else init
  }

  lemma {:induction false} RunSnoc(qs: seq<Request>, q: Request, n: nat, limit: int, window: int)
    requires Addressed(qs, n) && q.instance < n
    ensures Addressed(qs + [q], n)
    ensures Run(qs + [q], n, limit, window) == Serve(Run(qs, n, limit, window), q, limit, window).system
  {
    assert (qs + [q])[..|qs|] == qs;
  }

  lemma {:induction false} RedisProjects(qs: seq<Request>, n: nat, limit: int, window: int)
    requires Addressed(qs, n)
    ensures Run(qs, n, limit, window).redis == R.Run(RedisCalls(qs), limit, window, true)
  {
    if qs != [] {
      var init, q := qs[..|qs| - 1], qs[|qs| - 1];
      RedisProjects(init, n, limit, window);
      if q.reply.Unreachable? {
        assert RedisCalls(qs) == RedisCalls(init);
      } else {
        R.RunSnoc(RedisCalls(init), q.redis, limit, window, true);
      }
    }
  }

  lemma {:induction false} MemoryProjects(qs: seq<Request>, n: nat, limit: int, window: int, i: nat)
    requires Addressed(qs, n) && i < n
    ensures Run(qs, n, limit, window).memory[i] == SW.Run(FallbackClocks(qs, i), limit, window)
  {
    if qs != [] {
      var init, q := qs[..|qs| - 1], qs[|qs| - 1];
      MemoryProjects(init, n, limit, window, i);
      if q.instance == i && !q.reply.Answered? {
        SW.RunSnoc(FallbackClocks(init, i), q.fallbackClock, limit, window);
      } else {
        assert FallbackClocks(qs, i) == FallbackClocks(init, i);
      }
    }
  }

  /** Each limiter sees exactly its own calls: the system is the product of its parts. */
  lemma {:induction false} RunProjects(qs: seq<Request>, n: nat, limit: int, window: int)
    requires Addressed(qs, n)
    ensures Run(qs, n, limit, window).redis == R.Run(RedisCalls(qs), limit, window, true)
    ensures forall i :: 0 <= i < n ==>
      Run(qs, n, limit, window).memory[i] == SW.Run(FallbackClocks(qs, i), limit, window)
  {
    RedisProjects(qs, n, limit, window);
    forall i | 0 <= i < n
      ensures Run(qs, n, limit, window).memory[i] == SW.Run(FallbackClocks(qs, i), limit, window)
    {
      MemoryProjects(qs, n, limit, window, i);
    }
  }

  // ---------------------------------------------------------- the bound

  /** Admissions recorded in the logs of the first k instances. */
  function MemoryIn(memory: seq<SW.History>, k: nat, lo: int, hi: int): nat
    requires k <= |memory|
  {
    if k == 0 then 0 else MemoryIn(memory, k - 1, lo, hi) + SW.CountIn(memory[k - 1].admitted, lo, hi)
  }

  lemma {:induction false} MemoryInUpdate(memory: seq<SW.History>, k: nat, i: nat, h: SW.History, lo: int, hi: int)
    requires k <= |memory| && i < |memory|
    ensures MemoryIn(memory[i := h], k, lo, hi) == MemoryIn(memory, k, lo, hi)
      + (if i < k then SW.CountIn(h.admitted, lo, hi) - SW.CountIn(memory[i].admitted, lo, hi) else 0)
  {
    if k > 0 { MemoryInUpdate(memory, k - 1, i, h, lo, hi); }
  }

  /** Redis answered a request with a stamp in (lo, hi]. */
  ghost predicate AnsweredWithin(qs: seq<Request>, lo: int, hi: int) {
    exists j :: 0 <= j < |qs| && qs[j].reply.Answered? && lo < qs[j].redis.clock <= hi
  }

  /** The instance fell back to its own limiter for a request with a stamp in (lo, hi]. */
  ghost predicate FellBackWithin(qs: seq<Request>, i: nat, lo: int, hi: int) {
    exists j :: 0 <= j < |qs| && qs[j].instance == i && !qs[j].reply.Answered? && lo < qs[j].fallbackClock <= hi
  }

  /** How many of the first k instances fell back within (lo, hi]. */
  ghost function FallenBack(qs: seq<Request>, k: nat, lo: int, hi: int): (m: nat)
    ensures m <= k
  {
    if k == 0 then 0 else FallenBack(qs, k - 1, lo, hi) + (if FellBackWithin(qs, k - 1, lo, hi) then 1 else 0)
  }

  /** The instance's own calls in the interval are the requests for which it fell back. */
  lemma {:induction false} FallbackCalls(qs: seq<Request>, i: nat, lo: int, hi: int)
    ensures SW.CountIn(FallbackClocks(qs, i), lo, hi) > 0 <==> FellBackWithin(qs, i, lo, hi)
  {
    if qs != [] {
      var init, q := qs[..|qs| - 1], qs[|qs| - 1];
      FallbackCalls(init, i, lo, hi);
      FellBackSnoc(init, q, i, lo, hi);
      assert qs == init + [q];
      if q.instance == i && !q.reply.Answered? {
        SW.CountSnoc(FallbackClocks(init, i), q.fallbackClock, lo, hi);
      } else {
        assert FallbackClocks(qs, i) == FallbackClocks(init, i);
      }
    }
  }

  lemma {:induction false} FellBackSnoc(qs: seq<Request>, q: Request, i: nat, lo: int, hi: int)
    ensures FellBackWithin(qs + [q], i, lo, hi)
      <==> FellBackWithin(qs, i, lo, hi) || (q.instance == i && !q.reply.Answered? && lo < q.fallbackClock <= hi)
  {
    var qs' := qs + [q];
    assert qs'[|qs|] == q;
    if FellBackWithin(qs, i, lo, hi) {
      var j :| 0 <= j < |qs| && qs[j].instance == i && !qs[j].reply.Answered? && lo < qs[j].fallbackClock <= hi;
      assert qs'[j] == qs[j];
    }
  }

  /** An instance records at most `limit` admissions, and none unless it fell back. */
  ghost predicate Shared(qs: seq<Request>, memory: seq<SW.History>, i: nat, lo: int, hi: int, limit: nat)
    requires i < |memory|
  {
    SW.CountIn(memory[i].admitted, lo, hi) <= if FellBackWithin(qs, i, lo, hi) then limit else 0
  }

  lemma {:induction false} MemoryInBound(
      qs: seq<Request>, memory: seq<SW.History>, k: nat, lo: int, hi: int, limit: nat)
    requires k <= |memory| && forall i :: 0 <= i < k ==> Shared(qs, memory, i, lo, hi, limit)
    ensures MemoryIn(memory, k, lo, hi) <= FallenBack(qs, k, lo, hi) * limit
  {
    if k > 0 {
      MemoryInBound(qs, memory, k - 1, lo, hi, limit);
      OneMore(FallenBack(qs, k - 1, lo, hi), limit);
      assert Shared(qs, memory, k - 1, lo, hi, limit);
    }
  }

  /** Serving one request records at least what it admits, and exactly that unless a reply is lost. */
  lemma {:induction false} ServeRecords(s: System, q: Request, limit: int, window: int, lo: int, hi: int)
    requires q.instance < |s.memory| && q.redis.member !in s.redis.admitted
    ensures var o := Serve(s, q, limit, window);
      var more := if o.admitted && lo < Stamp(q) <= hi then 1 else 0;
      var viaRedis := |R.InWindow(s.redis.admitted, lo, hi)| + (if q.reply.Answered? then more else 0);
      && |R.InWindow(o.system.redis.admitted, lo, hi)| >= viaRedis
      && (!q.reply.ReplyLost? ==> |R.InWindow(o.system.redis.admitted, lo, hi)| == viaRedis)
      && MemoryIn(o.system.memory, |s.memory|, lo, hi)
         == MemoryIn(s.memory, |s.memory|, lo, hi) + (if q.reply.Answered? then 0 else more)
  {
    if !q.reply.Unreachable? {
      RedisRecords(s.redis, q.redis, limit, window, lo, hi);
    }
    if !q.reply.Answered? {
      MemoryRecords(s.memory, q.instance, q.fallbackClock, limit, window, lo, hi);
    }
  }

  lemma {:induction false} MemoryRecords(
      memory: seq<SW.History>, i: nat, now: int, limit: int, window: int, lo: int, hi: int)
    requires i < |memory|
    ensures var h := SW.Extend(memory[i], now, limit, window);
      MemoryIn(memory[i := h], |memory|, lo, hi)
      == MemoryIn(memory, |memory|, lo, hi) + (if Last(h.decisions) && lo < now <= hi then 1 else 0)
  {
    var h := SW.Extend(memory[i], now, limit, window);
    MemoryInUpdate(memory, |memory|, i, h, lo, hi);
    if Last(h.decisions) {
      SW.CountSnoc(memory[i].admitted, now, lo, hi);
    }
  }

  lemma {:induction false} RedisRecords(h: R.History, c: R.Call, limit: int, window: int, lo: int, hi: int)
    requires c.member !in h.admitted
    ensures var h' := R.Extend(h, c, limit, window, true);
      |R.InWindow(h'.admitted, lo, hi)|
      == |R.InWindow(h.admitted, lo, hi)| + (if Last(h'.decisions) && lo < c.clock <= hi then 1 else 0)
  {
    var h' := R.Extend(h, c, limit, window, true);
    if Last(h'.decisions) {
      R.InWindowAdd(h.admitted, c.member, c.clock, lo, hi);
    }
  }

  /** Admissions are recorded in Redis, if it answered at all within the interval, or in the fallback logs. */
  ghost predicate Recorded(qs: seq<Request>, n: nat, limit: int, window: int, lo: int, hi: int)
    requires Addressed(qs, n)
  {
    var s := Run(qs, n, limit, window);
    var viaRedis, viaMemory := |R.InWindow(s.redis.admitted, lo, hi)|, MemoryIn(s.memory, n, lo, hi);
    && AdmittedIn(qs, n, limit, window, lo, hi) <= (if AnsweredWithin(qs, lo, hi) then viaRedis else 0) + viaMemory
    && (NoReplyLost(qs) ==> AdmittedIn(qs, n, limit, window, lo, hi) == viaRedis + viaMemory)
  }

  lemma {:induction false} AdmissionsAreRecorded(qs: seq<Request>, n: nat, limit: int, window: int, lo: int, hi: int)
    requires Addressed(qs, n) && FreshMembers(qs)
    ensures Recorded(qs, n, limit, window, lo, hi)
  {
    if qs == [] {
      NothingRecorded(n, n, lo, hi);
    } else {
      var init, q := qs[..|qs| - 1], qs[|qs| - 1];
      AdmissionsAreRecorded(init, n, limit, window, lo, hi);
      MemberIsFresh(init, q.redis.member, n, limit, window);
      RecordedSnoc(init, q, n, limit, window, lo, hi);
      assert init + [q] == qs;
    }
  }

  lemma {:induction false} ServeSnoc(qs: seq<Request>, q: Request, n: nat, limit: int, window: int, lo: int, hi: int)
    requires Addressed(qs, n) && q.instance < n
    ensures Addressed(qs + [q], n)
    ensures var o := Serve(Run(qs, n, limit, window), q, limit, window);
      && Run(qs + [q], n, limit, window) == o.system
      && AdmittedIn(qs + [q], n, limit, window, lo, hi)
         == AdmittedIn(qs, n, limit, window, lo, hi) + (if o.admitted && lo < Stamp(q) <= hi then 1 else 0)
  {
    assert (qs + [q])[..|qs|] == qs;
  }

  lemma {:induction false} MemberIsFresh(qs: seq<Request>, m: string, n: nat, limit: int, window: int)
    requires Addressed(qs, n) && forall i :: 0 <= i < |qs| ==> qs[i].redis.member != m
    ensures m !in Run(qs, n, limit, window).redis.admitted
  {
    RedisProjects(qs, n, limit, window);
    RedisCallsUnused(qs, m);
    R.MembersWereCalled(RedisCalls(qs), limit, window, true, m);
  }

  lemma {:induction false} RecordedSnoc(
      qs: seq<Request>, q: Request, n: nat, limit: int, window: int, lo: int, hi: int)
    requires Addressed(qs, n) && q.instance < n && Recorded(qs, n, limit, window, lo, hi)
    requires q.redis.member !in Run(qs, n, limit, window).redis.admitted
    ensures Addressed(qs + [q], n) && Recorded(qs + [q], n, limit, window, lo, hi)
  {
    ServeSnoc(qs, q, n, limit, window, lo, hi);
    ServeRecords(Run(qs, n, limit, window), q, limit, window, lo, hi);
    AnsweredSnoc(qs, q, lo, hi);
    assert (qs + [q])[|qs|] == q && forall i :: 0 <= i < |qs| ==> (qs + [q])[i] == qs[i];
  }

  lemma {:induction false} NothingRecorded(n: nat, k: nat, lo: int, hi: int)
    requires k <= n
    ensures MemoryIn(Initial(n).memory, k, lo, hi) == 0
  {
    if k > 0 { NothingRecorded(n, k - 1, lo, hi); }
  }

  lemma {:induction false} AnsweredSnoc(qs: seq<Request>, q: Request, lo: int, hi: int)
    ensures AnsweredWithin(qs + [q], lo, hi)
      <==> AnsweredWithin(qs, lo, hi) || (q.reply.Answered? && lo < q.redis.clock <= hi)
  {
    var qs' := qs + [q];
    assert qs'[|qs|] == q;
    if AnsweredWithin(qs, lo, hi) {
      var j :| 0 <= j < |qs| && qs[j].reply.Answered? && lo < qs[j].redis.clock <= hi;
      assert qs'[j] == qs[j];
    }
  }

  ghost predicate NoReplyLost(qs: seq<Request>) {
    forall i :: 0 <= i < |qs| ==> !qs[i].reply.ReplyLost?
  }

  ghost predicate FreshMembers(qs: seq<Request>) {
    forall i, j :: 0 <= i < j < |qs| ==> qs[i].redis.member != qs[j].redis.member
  }

  lemma {:induction false} RedisCallsUnused(qs: seq<Request>, m: string)
    requires forall i :: 0 <= i < |qs| ==> qs[i].redis.member != m
    ensures R.Unused(RedisCalls(qs), m)
  {
    if qs != [] { RedisCallsUnused(qs[..|qs| - 1], m); }
  }

  lemma {:induction false} RedisCallsFresh(qs: seq<Request>)
    requires FreshMembers(qs)
    ensures R.FreshMembers(RedisCalls(qs))
  {
    if qs != [] {
      var init := qs[..|qs| - 1];
      RedisCallsFresh(init);
      RedisCallsUnused(init, qs[|qs| - 1].redis.member);
    }
  }

  /** Clock discipline: instances within e of the server, and each fallback log out of order by at most d. */
  ghost predicate Clocked(qs: seq<Request>, n: nat, e: int, d: int) {
    && R.Clocked(RedisCalls(qs), e)
    && forall i :: 0 <= i < n ==> SW.OutOfOrderBy(FallbackClocks(qs, i), d)
  }

  lemma {:induction false} RedisShare(
      qs: seq<Request>, n: nat, limit: int, window: int, e: nat, d: nat, x: int, hi: int)
    requires Addressed(qs, n) && FreshMembers(qs) && Clocked(qs, n, e, d) && hi <= x + window - 2 * e
    ensures |R.InWindow(Run(qs, n, limit, window).redis.admitted, x, hi)| <= Max(limit, 0)
  {
    RedisProjects(qs, n, limit, window);
    RedisCallsFresh(qs);
    R.RedisWindowBoundWithin(RedisCalls(qs), limit, window, true, e, x, hi);
  }

  lemma {:induction false} MemoryShare(
      qs: seq<Request>, n: nat, limit: int, window: int, e: nat, d: nat, x: int, hi: int)
    requires Addressed(qs, n) && Clocked(qs, n, e, d) && hi <= x + window - d
    ensures MemoryIn(Run(qs, n, limit, window).memory, n, x, hi) <= FallenBack(qs, n, x, hi) * Max(limit, 0)
  {
    var memory := Run(qs, n, limit, window).memory;
    forall i | 0 <= i < n ensures Shared(qs, memory, i, x, hi, Max(limit, 0)) {
      InstanceShare(qs, n, limit, window, d, x, hi, i);
    }
    MemoryInBound(qs, memory, n, x, hi, Max(limit, 0));
  }

  lemma {:induction false} InstanceShare(
      qs: seq<Request>, n: nat, limit: int, window: int, d: nat, x: int, hi: int, i: nat)
    requires Addressed(qs, n) && hi <= x + window - d && i < n && SW.OutOfOrderBy(FallbackClocks(qs, i), d)
    ensures Shared(qs, Run(qs, n, limit, window).memory, i, x, hi, Max(limit, 0))
  {
    MemoryProjects(qs, n, limit, window, i);
    SW.WindowBoundWithin(FallbackClocks(qs, i), limit, window, d, x, hi);
    SW.AdmissionsAreCalls(FallbackClocks(qs, i), limit, window, x, hi);
    FallbackCalls(qs, i, x, hi);
  }

  /** The shares of the limit in an interval: one for each instance that fell back, one more if Redis answered. */
  ghost function Shares(qs: seq<Request>, n: nat, lo: int, hi: int): (m: nat)
    ensures m <= n + 1
  {
    FallenBack(qs, n, lo, hi) + (if AnsweredWithin(qs, lo, hi) then 1 else 0)
  }

  /**
   The documented degradation, quantified. For any pattern of Redis errors, lost replies
   included, the requests let through for one tenant and route in a window number at most limit
   for each instance that fell back within it, and limit more if Redis answered within it. The
   window may straddle an outage; clock skew e and disorder d shorten it by max(2e, d).
   */
  lemma {:induction false} FailoverShares(
      qs: seq<Request>, n: nat, limit: int, window: int, e: nat, d: nat, x: int, hi: int)
    requires Addressed(qs, n) && FreshMembers(qs) && Clocked(qs, n, e, d) && hi <= x + window - Max(2 * e, d)
    ensures AdmittedIn(qs, n, limit, window, x, hi) <= Shares(qs, n, x, hi) * Max(limit, 0)
  {
    var s := Run(qs, n, limit, window);
    RedisShare(qs, n, limit, window, e, d, x, hi);
    MemoryShare(qs, n, limit, window, e, d, x, hi);
    AdmissionsAreRecorded(qs, n, limit, window, x, hi);
    AddShares(AdmittedIn(qs, n, limit, window, x, hi), |R.InWindow(s.redis.admitted, x, hi)|,
              MemoryIn(s.memory, n, x, hi), FallenBack(qs, n, x, hi), AnsweredWithin(qs, x, hi),
              Shares(qs, n, x, hi), Max(limit, 0));
  }

  lemma {:induction false} AddShares(
      admitted: nat, viaRedis: nat, viaMemory: nat, fallen: nat, answered: bool, shares: nat, limit: nat)
    requires admitted <= (if answered then viaRedis else 0) + viaMemory
    requires viaRedis <= limit && viaMemory <= fallen * limit && shares == fallen + (if answered then 1 else 0)
    ensures admitted <= shares * limit
  {
    OneMore(fallen, limit);
  }

  /**
   Whatever happens, N instances let at most (N + 1) * limit requests through; and N * limit, the
   factor the comment on RateLimit gives, if Redis answered nothing within the window or some
   instance did not fall back within it.
   */
  lemma {:induction false} FailoverBound(
      qs: seq<Request>, n: nat, limit: int, window: int, e: nat, d: nat, x: int, hi: int)
    requires Addressed(qs, n) && FreshMembers(qs) && Clocked(qs, n, e, d) && hi <= x + window - Max(2 * e, d)
    ensures AdmittedIn(qs, n, limit, window, x, hi) <= (n + 1) * Max(limit, 0)
    ensures !AnsweredWithin(qs, x, hi) || FallenBack(qs, n, x, hi) < n ==>
      AdmittedIn(qs, n, limit, window, x, hi) <= n * Max(limit, 0)
  {
    FailoverShares(qs, n, limit, window, e, d, x, hi);
    SharesAreFew(qs, n, x, hi, AdmittedIn(qs, n, limit, window, x, hi), Max(limit, 0));
  }

  /** There are at most N + 1 shares, and only N unless all instances fell back and Redis answered too. */
  lemma {:induction false} SharesAreFew(qs: seq<Request>, n: nat, x: int, hi: int, admitted: nat, limit: nat)
    requires admitted <= Shares(qs, n, x, hi) * limit
    ensures admitted <= (n + 1) * limit
    ensures !AnsweredWithin(qs, x, hi) || FallenBack(qs, n, x, hi) < n ==> admitted <= n * limit
  {
    AtMostShares(admitted, Shares(qs, n, x, hi), n, limit);
  }

  lemma {:induction false} AtMostShares(admitted: nat, shares: nat, n: nat, limit: nat)
    requires admitted <= shares * limit && shares <= n + 1
    ensures admitted <= (n + 1) * limit
    ensures shares <= n ==> admitted <= n * limit
  {
    if shares <= n { assert shares * limit <= n * limit; }
  }

  lemma OneMore(n: nat, m: nat)
    ensures (n + 1) * m == n * m + m
  {}

}
