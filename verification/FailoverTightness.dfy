/**
 The bounds of Failover are attained: for every number of instances that fall back, and with
 Redis answering or not, a run uses up every share. So the factor N of the comment on RateLimit
 (internal/gateway/middleware/ratelimit.go) is right exactly when not all shares come together.
 */
module FailoverTightness {
  import opened Common
  import opened Failover
  import SW = SlidingWindow
  import R = RedisLimiter

  // ---------------------------------------------------------- the run

  /** `qs`, then m more requests at instant t on one instance; name(k) is the k-th member drawn. */
  function Then(qs: seq<Request>, t: int, instance: nat, reply: Reply, m: nat, name: nat -> string): seq<Request> {
    if m == 0 then qs else
      var more := Then(qs, t, instance, reply, m - 1, name);
      more + [Request(instance, R.Call(t, t, name(|more|)), reply, t)]
  }

  /**
   At one instant, a burst through Redis if it answers, then one through the fallback of each of
   the first k instances.
   */
  function Storm(k: nat, answers: bool, limit: nat, t: int, name: nat -> string): seq<Request> {
    if k == 0 then Then([], t, 0, Answered, if answers then limit else 0, name)
    else Then(Storm(k - 1, answers, limit, t, name), t, k - 1, Unreachable, limit, name)
  }

  ghost predicate Instant(qs: seq<Request>, n: nat, t: int, name: nat -> string) {
    forall k :: 0 <= k < |qs| ==>
      && qs[k].redis == R.Call(t, t, name(k)) && qs[k].fallbackClock == t
      && qs[k].instance < n && !qs[k].reply.ReplyLost?
  }

  lemma {:induction false} RedisSnoc(qs: seq<Request>, q: Request)
    ensures |RedisCalls(qs + [q])| == |RedisCalls(qs)| + (if q.reply.Unreachable? then 0 else 1)
  {
    assert (qs + [q])[..|qs|] == qs;
  }

  lemma {:induction false} FallbackSnoc(qs: seq<Request>, q: Request, i: nat)
    ensures |FallbackClocks(qs + [q], i)|
      == |FallbackClocks(qs, i)| + (if q.instance == i && !q.reply.Answered? then 1 else 0)
  {
    assert (qs + [q])[..|qs|] == qs;
  }

  lemma {:induction false} ThenInstant(
      qs: seq<Request>, t: int, instance: nat, reply: Reply, m: nat, name: nat -> string, n: nat)
    requires Instant(qs, n, t, name) && instance < n && !reply.ReplyLost?
    ensures Instant(Then(qs, t, instance, reply, m, name), n, t, name)
  {
    if m > 0 { ThenInstant(qs, t, instance, reply, m - 1, name, n); }
  }

  lemma {:induction false} ThenRedis(qs: seq<Request>, t: int, instance: nat, reply: Reply, m: nat, name: nat -> string)
    requires !reply.ReplyLost?
    ensures |RedisCalls(Then(qs, t, instance, reply, m, name))| == |RedisCalls(qs)| + (if reply.Answered? then m else 0)
  {
    if m > 0 {
      var less := Then(qs, t, instance, reply, m - 1, name);
      ThenRedis(qs, t, instance, reply, m - 1, name);
      RedisSnoc(less, Request(instance, R.Call(t, t, name(|less|)), reply, t));
    }
  }

  lemma {:induction false} ThenFallback(
      qs: seq<Request>, t: int, instance: nat, reply: Reply, m: nat, name: nat -> string, i: nat)
    requires !reply.ReplyLost?
    ensures |FallbackClocks(Then(qs, t, instance, reply, m, name), i)|
      == |FallbackClocks(qs, i)| + (if i == instance && reply.Unreachable? then m else 0)
  {
    if m > 0 {
      var less := Then(qs, t, instance, reply, m - 1, name);
      ThenFallback(qs, t, instance, reply, m - 1, name, i);
      FallbackSnoc(less, Request(instance, R.Call(t, t, name(|less|)), reply, t), i);
    }
  }

  lemma {:induction false} StormInstant(k: nat, answers: bool, limit: nat, t: int, name: nat -> string, n: nat)
    requires k <= n && n >= 1
    ensures Instant(Storm(k, answers, limit, t, name), n, t, name)
  {
    if k == 0 {
      ThenInstant([], t, 0, Answered, if answers then limit else 0, name, n);
    } else {
      StormInstant(k - 1, answers, limit, t, name, n);
      ThenInstant(Storm(k - 1, answers, limit, t, name), t, k - 1, Unreachable, limit, name, n);
    }
  }

  lemma {:induction false} StormRedis(k: nat, answers: bool, limit: nat, t: int, name: nat -> string)
    ensures |RedisCalls(Storm(k, answers, limit, t, name))| == if answers then limit else 0
  {
    if k == 0 {
      var m := if answers then limit else 0;
      ThenRedis([], t, 0, Answered, m, name);
    } else {
      StormRedis(k - 1, answers, limit, t, name);
      ThenRedis(Storm(k - 1, answers, limit, t, name), t, k - 1, Unreachable, limit, name);
    }
  }

  lemma {:induction false} StormFallback(k: nat, answers: bool, limit: nat, t: int, name: nat -> string, i: nat)
    ensures |FallbackClocks(Storm(k, answers, limit, t, name), i)| == if i < k then limit else 0
  {
    if k == 0 {
      ThenFallback([], t, 0, Answered, if answers then limit else 0, name, i);
    } else {
      StormFallback(k - 1, answers, limit, t, name, i);
      ThenFallback(Storm(k - 1, answers, limit, t, name), t, k - 1, Unreachable, limit, name, i);
    }
  }

  // ---------------------------------------------------------- what it admits

  lemma {:induction false} InstantIsFresh(qs: seq<Request>, n: nat, t: int, name: nat -> string)
    requires Instant(qs, n, t, name) && R.Distinct(name)
    ensures Addressed(qs, n) && NoReplyLost(qs) && FreshMembers(qs)
  {}

  lemma {:induction false} CallsAtInstant(qs: seq<Request>, n: nat, t: int, name: nat -> string)
    requires Instant(qs, n, t, name)
    ensures R.SameInstant(RedisCalls(qs), t)
  {
    if qs != [] { CallsAtInstant(qs[..|qs| - 1], n, t, name); }
  }

  lemma {:induction false} FallbacksAtInstant(qs: seq<Request>, n: nat, t: int, name: nat -> string, i: nat)
    requires Instant(qs, n, t, name)
    ensures SW.AllEqual(FallbackClocks(qs, i), t)
  {
    if qs != [] { FallbacksAtInstant(qs[..|qs| - 1], n, t, name, i); }
  }

  lemma {:induction false} AnsweredAtInstant(qs: seq<Request>, n: nat, t: int, name: nat -> string, lo: int, hi: int)
    requires Instant(qs, n, t, name) && lo < t <= hi
    ensures AnsweredWithin(qs, lo, hi) <==> RedisCalls(qs) != []
  {
    if qs != [] {
      var init, q := qs[..|qs| - 1], qs[|qs| - 1];
      AnsweredAtInstant(init, n, t, name, lo, hi);
      AnsweredSnoc(init, q, lo, hi);
      assert qs == init + [q];
    }
  }

  /** The first k instances fell back in a burst at instant t, and no other did. */
  ghost predicate Bursts(qs: seq<Request>, n: nat, k: nat, limit: nat, t: int) {
    forall i :: 0 <= i < n ==>
      SW.AllEqual(FallbackClocks(qs, i), t) && |FallbackClocks(qs, i)| == if i < k then limit else 0
  }

  lemma {:induction false} BurstsAreClocked(qs: seq<Request>, n: nat, k: nat, limit: nat, t: int)
    requires Bursts(qs, n, k, limit, t) && R.SameInstant(RedisCalls(qs), t)
    ensures Clocked(qs, n, 0, 0)
  {}

  lemma {:induction false} BurstsFallBack(
      qs: seq<Request>, n: nat, j: nat, k: nat, limit: nat, t: int, lo: int, hi: int)
    requires j <= n && Bursts(qs, n, k, limit, t) && limit >= 1 && lo < t <= hi
    ensures FallenBack(qs, j, lo, hi) == if j <= k then j else k
  {
    if j > 0 {
      BurstsFallBack(qs, n, j - 1, k, limit, t, lo, hi);
      FallbackCalls(qs, j - 1, lo, hi);
      SW.CountAll(FallbackClocks(qs, j - 1), lo, hi);
    }
  }

  lemma {:induction false} InstanceAdmits(
      qs: seq<Request>, n: nat, i: nat, k: nat, limit: nat, window: int, t: int, lo: int, hi: int)
    requires Addressed(qs, n) && i < n && Bursts(qs, n, k, limit, t) && window >= 1 && lo < t <= hi
    ensures SW.CountIn(Run(qs, n, limit, window).memory[i].admitted, lo, hi) == if i < k then limit else 0
  {
    MemoryProjects(qs, n, limit, window, i);
    SW.RunBurst(FallbackClocks(qs, i), t, limit, window);
    SW.CountAll(FallbackClocks(qs, i), lo, hi);
  }

  lemma {:induction false} FallbacksAdmit(memory: seq<SW.History>, j: nat, k: nat, limit: nat, lo: int, hi: int)
    requires j <= |memory|
    requires forall i :: 0 <= i < j ==> SW.CountIn(memory[i].admitted, lo, hi) == if i < k then limit else 0
    ensures MemoryIn(memory, j, lo, hi) == if j <= k then j * limit else k * limit
  {
    if j > 0 {
      FallbacksAdmit(memory, j - 1, k, limit, lo, hi);
      if j <= k { OneMore(j - 1, limit); }
    }
  }

  lemma {:induction false} AllInstancesAdmit(
      qs: seq<Request>, n: nat, k: nat, limit: nat, window: int, t: int, lo: int, hi: int)
    requires Addressed(qs, n) && k <= n && Bursts(qs, n, k, limit, t) && window >= 1 && lo < t <= hi
    ensures MemoryIn(Run(qs, n, limit, window).memory, n, lo, hi) == k * limit
  {
    var memory := Run(qs, n, limit, window).memory;
    forall i | 0 <= i < n ensures SW.CountIn(memory[i].admitted, lo, hi) == if i < k then limit else 0 {
      InstanceAdmits(qs, n, i, k, limit, window, t, lo, hi);
    }
    FallbacksAdmit(memory, n, k, limit, lo, hi);
  }

  lemma {:induction false} RedisAdmits(qs: seq<Request>, n: nat, limit: nat, window: int, t: int, lo: int, hi: int)
    requires Addressed(qs, n) && FreshMembers(qs) && window >= 1 && lo < t <= hi
    requires |RedisCalls(qs)| <= limit && R.SameInstant(RedisCalls(qs), t)
    ensures |R.InWindow(Run(qs, n, limit, window).redis.admitted, lo, hi)| == |RedisCalls(qs)|
  {
    RedisProjects(qs, n, limit, window);
    RedisCallsFresh(qs);
    R.RunBurst(RedisCalls(qs), t, limit, window, true);
    R.BurstIsIn(Run(qs, n, limit, window).redis, t, window, lo, hi);
  }

  lemma {:induction false} BurstsPass(
      qs: seq<Request>, n: nat, k: nat, answers: bool, limit: nat, window: int, t: int, lo: int, hi: int)
    requires Addressed(qs, n) && NoReplyLost(qs) && FreshMembers(qs) && window >= 1 && lo < t <= hi && k <= n
    requires |RedisCalls(qs)| == (if answers then limit else 0) && R.SameInstant(RedisCalls(qs), t)
    requires Bursts(qs, n, k, limit, t)
    ensures AdmittedIn(qs, n, limit, window, lo, hi) == (k + Share(answers)) * limit
  {
    AllInstancesAdmit(qs, n, k, limit, window, t, lo, hi);
    RedisAdmits(qs, n, limit, window, t, lo, hi);
    AdmissionsAreRecorded(qs, n, limit, window, lo, hi);
    AddBursts(AdmittedIn(qs, n, limit, window, lo, hi), |RedisCalls(qs)|, k, answers, limit);
  }

  lemma {:induction false} AddBursts(admitted: nat, viaRedis: nat, k: nat, answers: bool, limit: nat)
    requires admitted == viaRedis + k * limit && viaRedis == if answers then limit else 0
    ensures admitted == (k + Share(answers)) * limit
  {
    OneMore(k, limit);
  }

  function Share(answers: bool): nat {
    if answers then 1 else 0
  }

  // ---------------------------------------------------------- the main results

  /** An admissible run in whose window (x, hi] k instances fell back and Redis answered or not. */
  ghost predicate Degraded(
      qs: seq<Request>, n: nat, window: int, e: nat, d: nat, x: int, hi: int, k: nat, answers: bool)
  {
    && Addressed(qs, n) && FreshMembers(qs) && Clocked(qs, n, e, d) && hi <= x + window - Max(2 * e, d)
    && FallenBack(qs, n, x, hi) == k
    && (AnsweredWithin(qs, x, hi) <==> answers)
  }

  /**
   Every share that FailoverShares allows can be used up: for every number k of instances that
   fall back, with Redis answering or not, and for every limit and window, some run lets exactly
   (k + 1) * limit or k * limit requests through, all of them within one millisecond.
   */
  lemma {:induction false} FailoverSharesAreAttained(
      n: nat, k: nat, answers: bool, limit: nat, window: int, t: int, name: nat -> string)
    requires n >= 1 && k <= n && window >= 1 && R.Distinct(name)
    ensures var qs := Storm(k, answers, limit, t, name);
      && Addressed(qs, n) && FreshMembers(qs) && Clocked(qs, n, 0, 0)
      && (limit >= 1 ==> Degraded(qs, n, window, 0, 0, t - 1, t, k, answers))
      && AdmittedIn(qs, n, limit, window, t - 1, t) == (k + Share(answers)) * limit
  {
    StormFacts(n, k, answers, limit, t, name);
    var qs := Storm(k, answers, limit, t, name);
    BurstsAreClocked(qs, n, k, limit, t);
    BurstsPass(qs, n, k, answers, limit, window, t, t - 1, t);
    if limit >= 1 { StormDegrades(qs, n, k, answers, limit, window, t, name); }
  }

  lemma {:induction false} StormDegrades(
      qs: seq<Request>, n: nat, k: nat, answers: bool, limit: nat, window: int, t: int, name: nat -> string)
    requires k <= n && window >= 1 && limit >= 1 && Instant(qs, n, t, name)
    requires Addressed(qs, n) && FreshMembers(qs) && Clocked(qs, n, 0, 0)
    requires |RedisCalls(qs)| == (if answers then limit else 0) && Bursts(qs, n, k, limit, t)
    ensures Degraded(qs, n, window, 0, 0, t - 1, t, k, answers)
  {
    BurstsFallBack(qs, n, n, k, limit, t, t - 1, t);
    AnsweredAtInstant(qs, n, t, name, t - 1, t);
  }

  lemma {:induction false} StormFacts(n: nat, k: nat, answers: bool, limit: nat, t: int, name: nat -> string)
    requires n >= 1 && k <= n && R.Distinct(name)
    ensures var qs := Storm(k, answers, limit, t, name);
      && Instant(qs, n, t, name) && Addressed(qs, n) && NoReplyLost(qs) && FreshMembers(qs)
      && |RedisCalls(qs)| == (if answers then limit else 0) && R.SameInstant(RedisCalls(qs), t)
      && Bursts(qs, n, k, limit, t)
  {
    var qs := Storm(k, answers, limit, t, name);
    StormInstant(k, answers, limit, t, name, n);
    InstantIsFresh(qs, n, t, name);
    StormRedis(k, answers, limit, t, name);
    CallsAtInstant(qs, n, t, name);
    forall i: nat | i < n
      ensures SW.AllEqual(FallbackClocks(qs, i), t) && |FallbackClocks(qs, i)| == if i < k then limit else 0
    {
      FallbacksAtInstant(qs, n, t, name, i);
      StormFallback(k, answers, limit, t, name, i);
    }
  }

  /** The comment's bound, N * limit, holds in every run of this kind. */
  ghost predicate FactorNHolds(n: nat, k: nat, answers: bool, limit: nat, window: int) {
    forall qs, e: nat, d: nat, x, hi :: Degraded(qs, n, window, e, d, x, hi, k, answers) ==>
      AdmittedIn(qs, n, limit, window, x, hi) <= n * limit
  }

  /**
   Exactly when the factor N of the comment holds: unless all N instances fell back within the
   window and Redis also answered within it, that is, unless the window straddles the start or
   the end of an outage that all of them saw.
   */
  lemma {:induction false} FactorNHoldsExactlyWhen(
      n: nat, k: nat, answers: bool, limit: nat, window: int, name: nat -> string)
    requires n >= 1 && k <= n && limit >= 1 && window >= 1 && R.Distinct(name)
    ensures FactorNHolds(n, k, answers, limit, window) <==> !(k == n && answers)
  {
    if k == n && answers {
      FailoverSharesAreAttained(n, n, true, limit, window, 1, name);
      Exceeds(Storm(n, true, limit, 1, name), n, limit, window);
    } else {
      forall qs, e: nat, d: nat, x, hi | Degraded(qs, n, window, e, d, x, hi, k, answers)
        ensures AdmittedIn(qs, n, limit, window, x, hi) <= n * limit
      {
        FailoverBound(qs, n, limit, window, e, d, x, hi);
      }
    }
  }

  lemma {:induction false} Exceeds(qs: seq<Request>, n: nat, limit: nat, window: int)
    requires limit >= 1 && Degraded(qs, n, window, 0, 0, 0, 1, n, true)
    requires AdmittedIn(qs, n, limit, window, 0, 1) == (n + 1) * limit
    ensures !FactorNHolds(n, n, true, limit, window)
  {
    OneMore(n, limit);
  }
}
