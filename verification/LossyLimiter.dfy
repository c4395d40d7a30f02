/**
 The limiters of one tenant and route when the sorted set in Redis can be lost between calls,
 because a value of another type takes the place of its key. Calls fail while that value lives,
 and find no set once it has lapsed.
 */
module LossyLimiter {
  import opened Common
  import F = Failover
  import R = RedisLimiter

  /** A request of the pair, or the loss of its set at some time of the server's clock. */
  datatype Step = Ask(request: F.Request) | Lose(at: int)

  /** The limiters without the sorted set. */
  function Blank(s: F.System): F.System {
    s.(redis := s.redis.(zset := R.ABSENT))
  }

  ghost predicate Addressed(steps: seq<Step>, n: nat) {
    forall i :: 0 <= i < |steps| && steps[i].Ask? ==> steps[i].request.instance < n
  }

  function Next(s: F.System, a: Step, limit: int, window: int): F.System
    requires a.Ask? ==> a.request.instance < |s.memory|
  {
    if a.Ask? then F.Serve(s, a.request, limit, window).system else Blank(s)
  }

  function Run(steps: seq<Step>, n: nat, limit: int, window: int): (s: F.System)
    requires Addressed(steps, n)
    ensures |s.memory| == n
  {
    if steps == [] then F.Initial(n)
    else Next(Run(steps[..|steps| - 1], n, limit, window), steps[|steps| - 1], limit, window)
  }

  /** The requests of the run, in order. */
  function Requests(steps: seq<Step>): seq<F.Request> {
    if steps == [] then [] else
      var init, a := Requests(steps[..|steps| - 1]), steps[|steps| - 1];
      if a.Ask? then init + [a.request] else init
  }

  /** How many requests pass with a stamp in (lo, hi]. */
  function AdmittedIn(steps: seq<Step>, n: nat, limit: int, window: int, lo: int, hi: int): nat
    requires Addressed(steps, n)
  {
    if steps == [] then 0 else
      var init, a := steps[..|steps| - 1], steps[|steps| - 1];
      AdmittedIn(init, n, limit, window, lo, hi) + Counts(Run(init, n, limit, window), a, limit, window, lo, hi)
  }

  function Counts(s: F.System, a: Step, limit: int, window: int, lo: int, hi: int): nat
    requires a.Ask? ==> a.request.instance < |s.memory|
  {
    if a.Ask? && F.Serve(s, a.request, limit, window).admitted && lo < F.Stamp(a.request) <= hi then 1 else 0
  }

  predicate Reaches(a: Step) {
    a.Ask? && !a.request.reply.Unreachable?
  }

  /** The set is lost no earlier than it was last called, and not called again for `gap` after that. */
  ghost predicate Timely(steps: seq<Step>, gap: int) {
    steps != [] ==>
      var init, a := steps[..|steps| - 1], steps[|steps| - 1];
      && Timely(init, gap)
      && (a.Lose? ==> R.ServerAtMost(F.RedisCalls(Requests(init)), a.at))
      && (Reaches(a) ==> forall i :: 0 <= i < |init| && init[i].Lose? ==> init[i].at + gap <= a.request.redis.server)
  }

  lemma {:induction false} RunSnoc(steps: seq<Step>, a: Step, n: nat, limit: int, window: int, lo: int, hi: int)
    requires Addressed(steps, n) && (a.Ask? ==> a.request.instance < n)
    ensures Addressed(steps + [a], n)
    ensures Requests(steps + [a]) == if a.Ask? then Requests(steps) + [a.request] else Requests(steps)
    ensures Run(steps + [a], n, limit, window) == Next(Run(steps, n, limit, window), a, limit, window)
    ensures AdmittedIn(steps + [a], n, limit, window, lo, hi)
      == AdmittedIn(steps, n, limit, window, lo, hi) + Counts(Run(steps, n, limit, window), a, limit, window, lo, hi)
  {
    assert (steps + [a])[..|steps|] == steps;
  }

  lemma {:induction false} TimelySnoc(steps: seq<Step>, a: Step, gap: int)
    requires Timely(steps, gap) && (a.Lose? ==> R.ServerAtMost(F.RedisCalls(Requests(steps)), a.at))
    requires Reaches(a) ==>
      forall i :: 0 <= i < |steps| && steps[i].Lose? ==> steps[i].at + gap <= a.request.redis.server
    ensures Timely(steps + [a], gap)
  {
    assert (steps + [a])[..|steps|] == steps;
  }

  lemma {:induction false} RequestsAddressed(steps: seq<Step>, n: nat)
    requires Addressed(steps, n)
    ensures F.Addressed(Requests(steps), n)
  {
    if steps != [] { RequestsAddressed(steps[..|steps| - 1], n); }
  }

  /** The calls that reached Redis, after one more step. */
  lemma {:induction false} CallsSnoc(qs: seq<F.Request>, q: F.Request)
    ensures F.RedisCalls(qs + [q]) == if q.reply.Unreachable? then F.RedisCalls(qs) else F.RedisCalls(qs) + [q.redis]
  {
    assert (qs + [q])[..|qs|] == qs;
  }

  // ------------------------------------------------------------ the instances' own logs

  /** The fallback logs know nothing of the set. */
  lemma {:induction false} MemoryIsUnaffected(steps: seq<Step>, n: nat, limit: int, window: int)
    requires Addressed(steps, n)
    ensures F.Addressed(Requests(steps), n)
    ensures Run(steps, n, limit, window).memory == F.Run(Requests(steps), n, limit, window).memory
  {
    RequestsAddressed(steps, n);
    if steps != [] {
      var init, a := steps[..|steps| - 1], steps[|steps| - 1];
      MemoryIsUnaffected(init, n, limit, window);
      if a.Ask? { F.RunSnoc(Requests(init), a.request, n, limit, window); }
    }
  }

  // ------------------------------------------------------------ what the set holds

  /** Members and clocks of the calls are as the window bound needs them. */
  ghost predicate Orderly(steps: seq<Step>, e: int) {
    var calls := F.RedisCalls(Requests(steps));
    R.Clocked(calls, e) && R.FreshMembers(calls)
  }

  lemma {:induction false} EarlierIsOrderly(steps: seq<Step>, e: int)
    requires steps != [] && Orderly(steps, e)
    ensures var init, a := steps[..|steps| - 1], steps[|steps| - 1];
      var calls := F.RedisCalls(Requests(init));
      && Orderly(init, e)
      && (Reaches(a) ==>
            && R.ServerAtMost(calls, a.request.redis.server) && R.Unused(calls, a.request.redis.member)
            && a.request.redis.server - e <= a.request.redis.clock <= a.request.redis.server + e)
  {
    var init, a := steps[..|steps| - 1], steps[|steps| - 1];
    if a.Ask? { CallsSnoc(Requests(init), a.request); }
    if Reaches(a) {
      var calls := F.RedisCalls(Requests(init));
      var all := F.RedisCalls(Requests(steps));
      assert all == calls + [a.request.redis] && all[..|all| - 1] == calls;
      R.LastCall(all, e);
    }
  }

  lemma {:induction false} EarlierCalls(steps: seq<Step>, t: int)
    requires steps != [] && R.ServerAtMost(F.RedisCalls(Requests(steps)), t)
    ensures R.ServerAtMost(F.RedisCalls(Requests(steps[..|steps| - 1])), t)
    ensures Reaches(steps[|steps| - 1]) ==> steps[|steps| - 1].request.redis.server <= t
  {
    var init, a := steps[..|steps| - 1], steps[|steps| - 1];
    if a.Ask? { CallsSnoc(Requests(init), a.request); }
    if Reaches(a) {
      var all := F.RedisCalls(Requests(steps));
      assert all[|all| - 1] == a.request.redis;
      assert forall i :: 0 <= i < |all| - 1 ==> all[i] == F.RedisCalls(Requests(init))[i];
    }
  }

  lemma {:induction false} MembersWereCalled(steps: seq<Step>, n: nat, limit: int, window: int, m: string)
    requires Addressed(steps, n) && R.Unused(F.RedisCalls(Requests(steps)), m)
    ensures m !in Run(steps, n, limit, window).redis.admitted
  {
    if steps != [] {
      var init, a := steps[..|steps| - 1], steps[|steps| - 1];
      if a.Ask? { CallsSnoc(Requests(init), a.request); }
      EarlierUnused(steps, m);
      MembersWereCalled(init, n, limit, window, m);
    }
  }

  lemma {:induction false} EarlierUnused(steps: seq<Step>, m: string)
    requires steps != [] && R.Unused(F.RedisCalls(Requests(steps)), m)
    ensures R.Unused(F.RedisCalls(Requests(steps[..|steps| - 1])), m)
    ensures Reaches(steps[|steps| - 1]) ==> steps[|steps| - 1].request.redis.member != m
  {
    var init, a := steps[..|steps| - 1], steps[|steps| - 1];
    if a.Ask? { CallsSnoc(Requests(init), a.request); }
    if Reaches(a) {
      var all := F.RedisCalls(Requests(steps));
      assert all[|all| - 1] == a.request.redis;
      assert forall i :: 0 <= i < |all| - 1 ==> all[i] == F.RedisCalls(Requests(init))[i];
    }
  }

  /** The history of Redis after a step. */
  lemma {:induction false} NextRedis(s: F.System, a: Step, limit: int, window: int)
    requires a.Ask? ==> a.request.instance < |s.memory|
    ensures Next(s, a, limit, window).redis ==
      if Reaches(a) then R.Extend(s.redis, a.request.redis, limit, window, true)
      else if a.Ask? then s.redis else s.redis.(zset := R.ABSENT)
  {}

  /** Stamps stay within the skew of the last call, those in the set and all others. */
  ghost predicate StampsAtMost(h: R.History, t: int) {
    R.ScoresAtMost(h, t) && forall m :: m in h.admitted ==> h.admitted[m] <= t
  }

  lemma {:induction false} RunCoherent(steps: seq<Step>, n: nat, limit: int, window: int, e: int, t: int)
    requires Addressed(steps, n) && Orderly(steps, e) && R.ServerAtMost(F.RedisCalls(Requests(steps)), t)
    ensures var h := Run(steps, n, limit, window).redis; R.Coherent(h, window, e) && StampsAtMost(h, t + e)
  {
    if steps != [] {
      var init, a := steps[..|steps| - 1], steps[|steps| - 1];
      EarlierIsOrderly(steps, e);
      EarlierCalls(steps, t);
      var s := Run(init, n, limit, window);
      NextRedis(s, a, limit, window);
      RunCoherent(init, n, limit, window, e, if Reaches(a) then a.request.redis.server else t);
      if Reaches(a) {
        MembersWereCalled(init, n, limit, window, a.request.redis.member);
        R.ExtendCoherent(s.redis, a.request.redis, limit, window, true, e);
      }
    }
  }

  /** Every loss came so early that no admission above x was lost with the set. */
  ghost predicate LostBefore(steps: seq<Step>, t: int) {
    forall i :: 0 <= i < |steps| && steps[i].Lose? ==> steps[i].at <= t
  }

  lemma {:induction false} Retained(steps: seq<Step>, n: nat, limit: int, window: int, e: int, x: int, gap: int)
    requires Addressed(steps, n) && Orderly(steps, e) && Timely(steps, gap)
    requires R.ServerAtMost(F.RedisCalls(Requests(steps)), x + window - e) && LostBefore(steps, x - e)
    ensures R.Holds(Run(steps, n, limit, window).redis, x)
  {
    if steps != [] {
      var init, a := steps[..|steps| - 1], steps[|steps| - 1];
      EarlierIsOrderly(steps, e);
      EarlierCalls(steps, x + window - e);
      Retained(init, n, limit, window, e, x, gap);
      var s := Run(init, n, limit, window);
      NextRedis(s, a, limit, window);
      if Reaches(a) {
        RunCoherent(init, n, limit, window, e, a.request.redis.server);
        MembersWereCalled(init, n, limit, window, a.request.redis.member);
        R.ExtendHolds(s.redis, a.request.redis, limit, window, true, e, x);
      } else if a.Lose? {
        RunCoherent(init, n, limit, window, e, a.at);
      }
    }
  }

  /**
   The window bound survives the loss of the set, any number of times, if Redis does not answer
   for a window after each loss.
   */
  lemma {:induction false} WindowBound(steps: seq<Step>, n: nat, limit: int, window: int, e: nat, x: int)
    requires Addressed(steps, n) && Orderly(steps, e) && Timely(steps, window)
    ensures |R.InWindow(Run(steps, n, limit, window).redis.admitted, x, x + window - 2 * e)| <= Max(limit, 0)
  {
    if steps != [] {
      var init, a := steps[..|steps| - 1], steps[|steps| - 1];
      EarlierIsOrderly(steps, e);
      WindowBound(init, n, limit, window, e, x);
      var s := Run(init, n, limit, window);
      NextRedis(s, a, limit, window);
      if Reaches(a) {
        MembersWereCalled(init, n, limit, window, a.request.redis.member);
        if a.request.redis.clock <= x + window - 2 * e { KeepsWindow(steps, n, limit, window, e, x); }
        R.ExtendWithin(s.redis, a.request.redis, limit, window, true, x, x + window - 2 * e);
      }
    }
  }

  lemma {:induction false} KeepsWindow(steps: seq<Step>, n: nat, limit: int, window: int, e: nat, x: int)
    requires Addressed(steps, n) && Orderly(steps, e) && Timely(steps, window)
    requires steps != [] && Reaches(steps[|steps| - 1])
    requires steps[|steps| - 1].request.redis.clock <= x + window - 2 * e
    ensures var h := Run(steps[..|steps| - 1], n, limit, window).redis;
      R.Kept(h, steps[|steps| - 1].request.redis, window, true) >= R.InWindow(h.admitted, x, x + window - 2 * e)
  {
    var init, c := steps[..|steps| - 1], steps[|steps| - 1].request.redis;
    EarlierIsOrderly(steps, e);
    Retained(init, n, limit, window, e, x, window);
    RunCoherent(init, n, limit, window, e, c.server);
    R.KeptHolds(Run(init, n, limit, window).redis, c, window, true, e, x, x + window - 2 * e);
  }

  // ------------------------------------------------------------ the shares

  /** Admissions are recorded in Redis, if it answered at all within the interval, or in the fallback logs. */
  ghost predicate Recorded(steps: seq<Step>, n: nat, limit: int, window: int, lo: int, hi: int)
    requires Addressed(steps, n)
  {
    var s := Run(steps, n, limit, window);
    AdmittedIn(steps, n, limit, window, lo, hi)
      <= (if F.AnsweredWithin(Requests(steps), lo, hi) then |R.InWindow(s.redis.admitted, lo, hi)| else 0)
         + F.MemoryIn(s.memory, n, lo, hi)
  }

  lemma {:induction false} AdmissionsAreRecorded(steps: seq<Step>, n: nat, limit: int, window: int, lo: int, hi: int)
    requires Addressed(steps, n) && F.FreshMembers(Requests(steps))
    ensures Recorded(steps, n, limit, window, lo, hi)
  {
    if steps == [] {
      F.NothingRecorded(n, n, lo, hi);
    } else {
      var init, a := steps[..|steps| - 1], steps[|steps| - 1];
      EarlierIsFresh(steps);
      AdmissionsAreRecorded(init, n, limit, window, lo, hi);
      if a.Ask? {
        MembersWereCalled(init, n, limit, window, a.request.redis.member);
        AskRecorded(init, a.request, n, limit, window, lo, hi);
        assert init + [a] == steps;
      }
    }
  }

  lemma {:induction false} EarlierIsFresh(steps: seq<Step>)
    requires steps != [] && F.FreshMembers(Requests(steps))
    ensures var init, a := steps[..|steps| - 1], steps[|steps| - 1];
      && F.FreshMembers(Requests(init))
      && (a.Ask? ==> R.Unused(F.RedisCalls(Requests(init)), a.request.redis.member))
  {
    var init, a := steps[..|steps| - 1], steps[|steps| - 1];
    if a.Ask? {
      var qs, all := Requests(init), Requests(steps);
      assert all[|qs|] == a.request && forall i :: 0 <= i < |qs| ==> all[i] == qs[i];
      F.RedisCallsUnused(qs, a.request.redis.member);
    }
  }

  lemma {:induction false} AskRecorded(
      steps: seq<Step>, q: F.Request, n: nat, limit: int, window: int, lo: int, hi: int)
    requires Addressed(steps, n) && q.instance < n && Recorded(steps, n, limit, window, lo, hi)
    requires q.redis.member !in Run(steps, n, limit, window).redis.admitted
    ensures Addressed(steps + [Ask(q)], n) && Recorded(steps + [Ask(q)], n, limit, window, lo, hi)
  {
    RunSnoc(steps, Ask(q), n, limit, window, lo, hi);
    F.ServeRecords(Run(steps, n, limit, window), q, limit, window, lo, hi);
    F.AnsweredSnoc(Requests(steps), q, lo, hi);
  }

  /**
   The shares of the limit that pass in a window, with the set lost any number of times: as many
   as if it were never lost, if Redis does not answer for a window after each loss.
   */
  lemma {:induction false} SharesHold(
      steps: seq<Step>, n: nat, limit: int, window: int, e: nat, d: nat, x: int, hi: int)
    requires Addressed(steps, n) && Timely(steps, window) && hi <= x + window - Max(2 * e, d)
    requires F.FreshMembers(Requests(steps)) && F.Clocked(Requests(steps), n, e, d)
    ensures AdmittedIn(steps, n, limit, window, x, hi) <= F.Shares(Requests(steps), n, x, hi) * Max(limit, 0)
  {
    var s, qs := Run(steps, n, limit, window), Requests(steps);
    F.RedisCallsFresh(qs);
    WindowBound(steps, n, limit, window, e, x);
    R.SubsetSize(R.InWindow(s.redis.admitted, x, hi), R.InWindow(s.redis.admitted, x, x + window - 2 * e));
    MemoryIsUnaffected(steps, n, limit, window);
    F.MemoryShare(qs, n, limit, window, e, d, x, hi);
    AdmissionsAreRecorded(steps, n, limit, window, x, hi);
    F.AddShares(AdmittedIn(steps, n, limit, window, x, hi), |R.InWindow(s.redis.admitted, x, hi)|,
                F.MemoryIn(s.memory, n, x, hi), F.FallenBack(qs, n, x, hi), F.AnsweredWithin(qs, x, hi),
                F.Shares(qs, n, x, hi), Max(limit, 0));
  }

  // ------------------------------------------------------------ losses that nobody sees

  /** The loss of the set changes no decision if Redis does not answer before the set would have expired. */
  lemma {:induction false} LossIsUnseen(own: F.System, q: F.Request, limit: int, window: int, t: int)
    requires q.instance < |own.memory|
    requires !q.reply.Unreachable? ==> R.ExpiresBy(own.redis.zset, t) && t < q.redis.server
    ensures var o, o' := F.Serve(own, q, limit, window), F.Serve(Blank(own), q, limit, window);
      && o'.admitted == o.admitted
      && if q.reply.Unreachable? then o'.system == Blank(o.system) && o.system.redis == own.redis
         else o'.system == o.system
  {
    if !q.reply.Unreachable? { R.ExpiredIsAbsent(own.redis, q.redis, limit, window, t); }
  }

  /** The last loss, if Redis has not answered since. */
  function Pending(steps: seq<Step>): Option<int> {
    if steps == [] then None else
      var a := steps[|steps| - 1];
      if a.Lose? then Some(a.at) else if Reaches(a) then None else Pending(steps[..|steps| - 1])
  }

  lemma {:induction false} PendingIsLoss(steps: seq<Step>) returns (i: int)
    requires Pending(steps).Some?
    ensures 0 <= i < |steps| && steps[i].Lose? && steps[i].at == Pending(steps).value
  {
    if steps[|steps| - 1].Lose? { i := |steps| - 1; } else { i := PendingIsLoss(steps[..|steps| - 1]); }
  }

  /** The limiters are those that never lost a set, or lack a set that has expired when Redis answers again. */
  ghost predicate Unseen(s: F.System, own: F.System, pending: Option<int>, window: int) {
    match pending
    case None => s == own
    case Some(t) => s == Blank(own) && R.ExpiresBy(own.redis.zset, t + window)
  }

  lemma {:induction false} AskIsUnseen(
      s: F.System, own: F.System, pending: Option<int>, q: F.Request, limit: int, window: int, lo: int, hi: int)
    requires Unseen(s, own, pending, window) && q.instance < |s.memory|
    requires !q.reply.Unreachable? && pending.Some? ==> pending.value + window < q.redis.server
    ensures q.instance < |own.memory|
    ensures var pending' := if q.reply.Unreachable? then pending else None;
      Unseen(F.Serve(s, q, limit, window).system, F.Serve(own, q, limit, window).system, pending', window)
    ensures F.Serve(s, q, limit, window).admitted == F.Serve(own, q, limit, window).admitted
  {
    if pending.Some? { LossIsUnseen(own, q, limit, window, pending.value + window); }
  }

  /**
   If Redis does not answer for more than a window after each loss, losses are unobservable: the
   same requests pass as if the set were never lost.
   */
  lemma {:induction false} LossesAreUnseen(steps: seq<Step>, n: nat, limit: int, window: int, lo: int, hi: int)
    requires Addressed(steps, n) && Timely(steps, window + 1)
    ensures F.Addressed(Requests(steps), n)
    ensures Unseen(Run(steps, n, limit, window), F.Run(Requests(steps), n, limit, window), Pending(steps), window)
    ensures AdmittedIn(steps, n, limit, window, lo, hi) == F.AdmittedIn(Requests(steps), n, limit, window, lo, hi)
  {
    RequestsAddressed(steps, n);
    if steps != [] {
      var init, a := steps[..|steps| - 1], steps[|steps| - 1];
      LossesAreUnseen(init, n, limit, window, lo, hi);
      var s, own := Run(init, n, limit, window), F.Run(Requests(init), n, limit, window);
      if a.Ask? {
        if Pending(init).Some? { var i := PendingIsLoss(init); }
        AskIsUnseen(s, own, Pending(init), a.request, limit, window, lo, hi);
        F.ServeSnoc(Requests(init), a.request, n, limit, window, lo, hi);
      } else {
        F.RedisProjects(Requests(init), n, limit, window);
        R.EveryCallIsDecided(F.RedisCalls(Requests(init)), limit, window, true);
        R.SetExpires(F.RedisCalls(Requests(init)), limit, window, a.at);
      }
    }
  }
}
