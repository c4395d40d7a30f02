/**
 The sliding-window log of one (tenant, route) pair, as the in-memory limiter keeps it
 (internal/gateway/middleware/ratelimit.go). A call reads the clock before it takes the
 lock, so the clocks of successive calls on the log need not be in order. Runs are
 sequences of those clocks, in the order in which the calls took the lock.
 */
module SlidingWindow {
  import opened Common

  /** The stamps after `cutoff`, in their original order. */
  function Prune(stamps: seq<int>, cutoff: int): (kept: seq<int>)
    ensures |kept| <= |stamps|
  {
    if stamps == [] then [] else
      var rest := Prune(stamps[..|stamps| - 1], cutoff);
      var last := stamps[|stamps| - 1];
      if last > cutoff then rest + [last] else rest
  }

  /** How many stamps lie in the half-open interval (lo, hi]. */
  function CountIn(stamps: seq<int>, lo: int, hi: int): (n: nat)
    ensures n <= |stamps|
    ensures hi <= lo ==> n == 0
  {
    if stamps == [] then 0 else
      var last := stamps[|stamps| - 1];
      CountIn(stamps[..|stamps| - 1], lo, hi) + (if lo < last <= hi then 1 else 0)
  }

  datatype Verdict = Verdict(log: seq<int>, allowed: bool)

  /** One call of the in-memory limiter on its log. */
  function Step(log: seq<int>, now: int, limit: int, window: int): Verdict {
    var kept := Prune(log, now - window);
    if |kept| >= limit then Verdict(kept, false) else Verdict(kept + [now], true)
  }

  /** What a run leaves behind: the log, every stamp ever admitted, and every decision. */
  datatype History = History(log: seq<int>, admitted: seq<int>, decisions: seq<bool>)

  const FRESH := History([], [], [])

  function Extend(h: History, now: int, limit: int, window: int): History {
    var v := Step(h.log, now, limit, window);
    History(v.log, if v.allowed then h.admitted + [now] else h.admitted, h.decisions + [v.allowed])
  }

  function Run(clocks: seq<int>, limit: int, window: int): History {
    if clocks == [] then FRESH
    else Extend(Run(clocks[..|clocks| - 1], limit, window), clocks[|clocks| - 1], limit, window)
  }

  /** No clock is more than `d` behind a clock that reached the log before it. */
  ghost predicate OutOfOrderBy(clocks: seq<int>, d: int) {
    forall i, j :: 0 <= i < j < |clocks| ==> clocks[i] <= clocks[j] + d
  }

  // ---------------------------------------------------------------- counting

  ghost predicate AllAtMost(stamps: seq<int>, hi: int) {
    forall i :: 0 <= i < |stamps| ==> stamps[i] <= hi
  }

  lemma {:induction false} CountSnoc(stamps: seq<int>, t: int, lo: int, hi: int)
    ensures CountIn(stamps + [t], lo, hi) == CountIn(stamps, lo, hi) + (if lo < t <= hi then 1 else 0)
  {
    assert (stamps + [t])[..|stamps|] == stamps;
  }

  lemma {:induction false} PruneSnoc(stamps: seq<int>, t: int, cutoff: int)
    ensures Prune(stamps + [t], cutoff) == if t > cutoff then Prune(stamps, cutoff) + [t] else Prune(stamps, cutoff)
  {
    assert (stamps + [t])[..|stamps|] == stamps;
  }

  lemma CountWiden(stamps: seq<int>, lo: int, hi: int, hi': int)
    requires hi <= hi'
    ensures CountIn(stamps, lo, hi) <= CountIn(stamps, lo, hi')
  {}

  /** Pruning below an interval does not change what the interval holds. */
  lemma {:induction false} PruneKeepsCount(stamps: seq<int>, cutoff: int, lo: int, hi: int)
    requires cutoff <= lo
    ensures CountIn(Prune(stamps, cutoff), lo, hi) == CountIn(stamps, lo, hi)
  {
    if stamps != [] {
      var init, last := stamps[..|stamps| - 1], stamps[|stamps| - 1];
      PruneKeepsCount(init, cutoff, lo, hi);
      if last > cutoff { CountSnoc(Prune(init, cutoff), last, lo, hi); }
    }
  }

  /** The kept log is as long as the count of stamps above the cutoff. */
  lemma {:induction false} PruneLength(stamps: seq<int>, cutoff: int, hi: int)
    requires AllAtMost(stamps, hi)
    ensures |Prune(stamps, cutoff)| == CountIn(stamps, cutoff, hi)
  {
    if stamps != [] { PruneLength(stamps[..|stamps| - 1], cutoff, hi); }
  }

  /** Prune is exactly the order-preserving filter: it distributes over concatenation. */
  lemma {:induction false} PruneConcat(s: seq<int>, t: seq<int>, cutoff: int)
    ensures Prune(s + t, cutoff) == Prune(s, cutoff) + Prune(t, cutoff)
  {
    if t == [] {
      assert s + t == s;
    } else {
      PruneConcat(s, t[..|t| - 1], cutoff);
      assert (s + t)[..|s + t| - 1] == s + t[..|t| - 1];
    }
  }

  // ------------------------------------------------------------ the window bound

  lemma LastClock(clocks: seq<int>, d: int)
    requires clocks != [] && OutOfOrderBy(clocks, d)
    ensures OutOfOrderBy(clocks[..|clocks| - 1], d)
    ensures AllAtMost(clocks[..|clocks| - 1], clocks[|clocks| - 1] + d)
  {}

  lemma {:induction false} RunSize(clocks: seq<int>, limit: int, window: int)
    ensures |Run(clocks, limit, window).log| <= Max(limit, 0)
    ensures |Run(clocks, limit, window).decisions| == |clocks|
  {
    if clocks != [] { RunSize(clocks[..|clocks| - 1], limit, window); }
  }

  /** While no clock has passed x + window, no admitted stamp above x has been pruned. */
  lemma {:induction false} Retained(clocks: seq<int>, limit: int, window: int, x: int, hi: int)
    requires AllAtMost(clocks, x + window)
    ensures CountIn(Run(clocks, limit, window).log, x, hi) == CountIn(Run(clocks, limit, window).admitted, x, hi)
  {
    if clocks != [] {
      var init, now := clocks[..|clocks| - 1], clocks[|clocks| - 1];
      Retained(init, limit, window, x, hi);
      ExtendRetains(Run(init, limit, window), now, limit, window, x, hi);
    }
  }

  lemma {:induction false} ExtendRetains(h: History, now: int, limit: int, window: int, x: int, hi: int)
    requires now <= x + window
    requires CountIn(h.log, x, hi) == CountIn(h.admitted, x, hi)
    ensures var h' := Extend(h, now, limit, window);
      CountIn(h'.log, x, hi) == CountIn(h'.admitted, x, hi)
  {
    var kept, h' := Prune(h.log, now - window), Extend(h, now, limit, window);
    PruneKeepsCount(h.log, now - window, x, hi);
    if |kept| >= limit {
      assert h'.log == kept && h'.admitted == h.admitted;
    } else {
      assert h'.log == kept + [now] && h'.admitted == h.admitted + [now];
      CountSnocBoth(kept, h.admitted, now, x, hi);
    }
  }

  lemma {:induction false} CountSnocBoth(s: seq<int>, s': seq<int>, t: int, lo: int, hi: int)
    requires CountIn(s, lo, hi) == CountIn(s', lo, hi)
    ensures CountIn(s + [t], lo, hi) == CountIn(s' + [t], lo, hi)
  {
    CountSnoc(s, t, lo, hi);
    CountSnoc(s', t, lo, hi);
  }

  /**
   The sliding-window limit over whole runs, with clocks that reach the log out of order by
   at most `d`: no interval of length window - d ever holds more than `limit` admitted
   stamps. With d == 0 this is the exact sliding-window limit.
   */
  lemma {:induction false} WindowBound(clocks: seq<int>, limit: int, window: int, d: nat, x: int)
    requires OutOfOrderBy(clocks, d)
    ensures CountIn(Run(clocks, limit, window).admitted, x, x + window - d) <= Max(limit, 0)
  {
    if clocks != [] {
      var init, now, hi := clocks[..|clocks| - 1], clocks[|clocks| - 1], x + window - d;
      LastClock(clocks, d);
      WindowBound(init, limit, window, d, x);
      if now <= hi { Retained(init, limit, window, x, hi); }
      ExtendWithin(Run(init, limit, window), now, limit, window, x, hi);
    }
  }

  lemma {:induction false} ExtendWithin(h: History, now: int, limit: int, window: int, x: int, hi: int)
    requires CountIn(h.admitted, x, hi) <= Max(limit, 0)
    requires now <= hi ==> now <= x + window && CountIn(h.log, x, hi) == CountIn(h.admitted, x, hi)
    ensures CountIn(Extend(h, now, limit, window).admitted, x, hi) <= Max(limit, 0)
  {
    var kept := Prune(h.log, now - window);
    if |kept| < limit {
      assert Extend(h, now, limit, window).admitted == h.admitted + [now];
      CountSnoc(h.admitted, now, x, hi);
      if now <= hi { PruneKeepsCount(h.log, now - window, x, hi); }
    }
  }

  lemma {:induction false} WindowBoundWithin(clocks: seq<int>, limit: int, window: int, d: nat, x: int, hi: int)
    requires OutOfOrderBy(clocks, d) && hi <= x + window - d
    ensures CountIn(Run(clocks, limit, window).admitted, x, hi) <= Max(limit, 0)
  {
    WindowBound(clocks, limit, window, d, x);
    CountWiden(Run(clocks, limit, window).admitted, x, hi, x + window - d);
  }

  /** Only clocks are admitted: an interval never holds more admissions than calls. */
  lemma {:induction false} AdmissionsAreCalls(clocks: seq<int>, limit: int, window: int, lo: int, hi: int)
    ensures CountIn(Run(clocks, limit, window).admitted, lo, hi) <= CountIn(clocks, lo, hi)
  {
    if clocks != [] {
      var init, now := clocks[..|clocks| - 1], clocks[|clocks| - 1];
      AdmissionsAreCalls(init, limit, window, lo, hi);
      CountSnoc(Run(init, limit, window).admitted, now, lo, hi);
    }
  }

  // ---------------------------------------------------------------- tightness

  function Repeat(t: int, n: nat): (s: seq<int>)
    ensures |s| == n && AllEqual(s, t)
  {
    seq(n, _ => t)
  }

  ghost predicate AllEqual(stamps: seq<int>, t: int) {
    forall i :: 0 <= i < |stamps| ==> stamps[i] == t
  }

  /** Up to the limit, every call of a burst is admitted. */
  lemma {:induction false} RunBurst(clocks: seq<int>, t: int, limit: nat, window: int)
    requires AllEqual(clocks, t) && |clocks| <= limit && window >= 1
    ensures Run(clocks, limit, window).log == clocks
    ensures Run(clocks, limit, window).admitted == clocks
  {
    if clocks != [] {
      var init := clocks[..|clocks| - 1];
      RunBurst(init, t, limit, window);
      ExtendBurst(Run(init, limit, window), t, limit, window);
      assert init + [t] == clocks;
    }
  }

  lemma {:induction false} ExtendBurst(h: History, now: int, limit: int, window: int)
    requires AllEqual(h.log, now) && |h.log| < limit && window >= 1
    ensures var h' := Extend(h, now, limit, window); h'.log == h.log + [now] && h'.admitted == h.admitted + [now]
  {
    PruneNothing(h.log, now - window);
  }

  lemma {:induction false} PruneNothing(stamps: seq<int>, cutoff: int)
    requires forall i :: 0 <= i < |stamps| ==> stamps[i] > cutoff
    ensures Prune(stamps, cutoff) == stamps
  {
    if stamps != [] {
      PruneNothing(stamps[..|stamps| - 1], cutoff);
    }
  }

  lemma {:induction false} PruneEverything(stamps: seq<int>, cutoff: int)
    requires AllAtMost(stamps, cutoff)
    ensures Prune(stamps, cutoff) == []
  {
    if stamps != [] { PruneEverything(stamps[..|stamps| - 1], cutoff); }
  }

  lemma {:induction false} CountAll(stamps: seq<int>, lo: int, hi: int)
    requires forall i :: 0 <= i < |stamps| ==> lo < stamps[i] <= hi
    ensures CountIn(stamps, lo, hi) == |stamps|
  {
    if stamps != [] {
      CountAll(stamps[..|stamps| - 1], lo, hi);
    }
  }

  /** A burst of `limit` calls at a, one call a whole window later, and one call lagging it by d. */
  function BurstAndLag(limit: nat, window: int, d: nat, a: int): seq<int> {
    Repeat(a, limit) + [a + window] + [a + window - d]
  }

  /**
   WindowBound cannot be improved by a single millisecond. For every limit of at least two,
   every window and every disorder 0 <= d < window there is a run, out of order by at most d,
   that puts more than limit admitted stamps into an interval of length window - d + 1.
   */
  lemma {:induction false} WindowBoundIsTight(limit: nat, window: int, d: nat, a: int)
    requires limit >= 2 && d < window
    ensures OutOfOrderBy(BurstAndLag(limit, window, d, a), d)
    ensures CountIn(Run(BurstAndLag(limit, window, d, a), limit, window).admitted, a - 1, a + window - d) > limit
  {
    BurstAndLagIsOrdered(limit, window, d, a);
    RunBurstAndLag(limit, window, d, a);
    CountBurstAndLag(Repeat(a, limit), a + window, a + window - d, a - 1);
  }

  lemma {:induction false} BurstAndLagIsOrdered(limit: nat, window: int, d: nat, a: int)
    requires d < window
    ensures OutOfOrderBy(BurstAndLag(limit, window, d, a), d)
  {
    var clocks := BurstAndLag(limit, window, d, a);
    assert clocks[limit] == a + window && clocks[limit + 1] == a + window - d;
  }

  lemma {:induction false} CountBurstAndLag(burst: seq<int>, ahead: int, behind: int, lo: int)
    requires behind <= ahead && lo < behind && forall i :: 0 <= i < |burst| ==> lo < burst[i] <= behind
    ensures CountIn(burst + [ahead] + [behind], lo, behind) > |burst|
  {
    CountAll(burst, lo, behind);
    CountSnoc(burst, ahead, lo, behind);
    CountSnoc(burst + [ahead], behind, lo, behind);
  }

  lemma {:induction false} RunBurstAndLag(limit: nat, window: int, d: nat, a: int)
    requires limit >= 2 && d < window
    ensures Run(BurstAndLag(limit, window, d, a), limit, window).admitted == BurstAndLag(limit, window, d, a)
  {
    var burst, ahead, behind := Repeat(a, limit), a + window, a + window - d;
    RunBurst(burst, a, limit, window);
    RunSnoc(burst, ahead, limit, window);
    ExtendAfter(Run(burst, limit, window), ahead, limit, window);
    RunSnoc(burst + [ahead], behind, limit, window);
    ExtendBehind(Run(burst + [ahead], limit, window), ahead, behind, limit, window);
  }

  /** A call that outlives every stamp of the log leaves itself as the only stamp. */
  lemma {:induction false} ExtendAfter(h: History, now: int, limit: int, window: int)
    requires AllAtMost(h.log, now - window) && limit >= 1
    ensures var h' := Extend(h, now, limit, window); h'.log == [now] && h'.admitted == h.admitted + [now]
  {
    PruneEverything(h.log, now - window);
  }

  lemma {:induction false} ExtendBehind(h: History, ahead: int, behind: int, limit: int, window: int)
    requires h.log == [ahead] && limit >= 2 && behind - window < ahead
    ensures Extend(h, behind, limit, window).admitted == h.admitted + [behind]
  {
    PruneNothing([ahead], behind - window);
  }

  lemma {:induction false} RunSnoc(clocks: seq<int>, now: int, limit: int, window: int)
    ensures Run(clocks + [now], limit, window) == Extend(Run(clocks, limit, window), now, limit, window)
  {
    assert (clocks + [now])[..|clocks|] == clocks;
  }

  /** Successive stamps lie at least a window apart. */
  ghost predicate Spaced(stamps: seq<int>, window: int) {
    forall i, j :: 0 <= i < j < |stamps| ==> stamps[i] + window <= stamps[j]
  }

  /** With a limit of one the log is the last admission, and admissions are a window apart. */
  ghost predicate LoneLog(h: History, window: int) {
    Spaced(h.admitted, window) && h.log == if h.admitted == [] then [] else [h.admitted[|h.admitted| - 1]]
  }

  lemma {:induction false} LimitOneIsSpaced(clocks: seq<int>, window: int)
    requires window >= 1
    ensures LoneLog(Run(clocks, 1, window), window)
  {
    if clocks != [] {
      LimitOneIsSpaced(clocks[..|clocks| - 1], window);
      ExtendSpaced(Run(clocks[..|clocks| - 1], 1, window), clocks[|clocks| - 1], window);
    }
  }

  lemma {:induction false} ExtendSpaced(h: History, now: int, window: int)
    requires window >= 1 && LoneLog(h, window)
    ensures LoneLog(Extend(h, now, 1, window), window)
  {
    if h.log != [] && h.log[0] > now - window {
      PruneNothing(h.log, now - window);
      assert Extend(h, now, 1, window).admitted == h.admitted;
    } else {
      ExtendAfter(h, now, 1, window);
      SpacedSnoc(h.admitted, now, window);
    }
  }

  lemma {:induction false} SpacedSnoc(stamps: seq<int>, t: int, window: int)
    requires window >= 1 && Spaced(stamps, window) && (stamps != [] ==> stamps[|stamps| - 1] + window <= t)
    ensures Spaced(stamps + [t], window)
  {
    forall i | 0 <= i < |stamps| ensures stamps[i] + window <= t {
      if i < |stamps| - 1 { assert stamps[i] + window <= stamps[|stamps| - 1]; }
    }
  }

  lemma {:induction false} SpacedCount(stamps: seq<int>, window: int, x: int)
    requires window >= 1 && Spaced(stamps, window)
    ensures CountIn(stamps, x, x + window) <= 1
  {
    if stamps != [] {
      var init, last := stamps[..|stamps| - 1], stamps[|stamps| - 1];
      SpacedCount(init, window, x);
      if last <= x + window { CountBelow(init, x, x + window); }
    }
  }

  lemma {:induction false} CountBelow(stamps: seq<int>, lo: int, hi: int)
    requires AllAtMost(stamps, lo)
    ensures CountIn(stamps, lo, hi) == 0
  {
    if stamps != [] { CountBelow(stamps[..|stamps| - 1], lo, hi); }
  }

  /**
   A limit of one is the exception to that tightness: it keeps the exact window however far
   out of order the clocks reach the log.
   */
  lemma {:induction false} LimitOneNeedsNoOrder(clocks: seq<int>, window: int, x: int)
    requires window >= 1
    ensures CountIn(Run(clocks, 1, window).admitted, x, x + window) <= 1
  {
    LimitOneIsSpaced(clocks, window);
    SpacedCount(Run(clocks, 1, window).admitted, window, x);
  }

  // ---------------------------------------------------------------- refinement

  /** The limiter nobody would ship: keep every admission and count the ones in (now - window, now]. */
  datatype Unpruned = Unpruned(admitted: seq<int>, decisions: seq<bool>)

  function SpecExtend(u: Unpruned, now: int, limit: int, window: int): Unpruned {
    var ok := CountIn(u.admitted, now - window, now) < limit;
    Unpruned(if ok then u.admitted + [now] else u.admitted, u.decisions + [ok])
  }

  function SpecRun(clocks: seq<int>, limit: int, window: int): Unpruned {
    if clocks == [] then Unpruned([], [])
    else SpecExtend(SpecRun(clocks[..|clocks| - 1], limit, window), clocks[|clocks| - 1], limit, window)
  }

  lemma {:induction false} SpecRunSnoc(clocks: seq<int>, now: int, limit: int, window: int)
    ensures SpecRun(clocks + [now], limit, window) == SpecExtend(SpecRun(clocks, limit, window), now, limit, window)
  {
    assert (clocks + [now])[..|clocks|] == clocks;
  }

  function Observed(h: History): Unpruned {
    Unpruned(h.admitted, h.decisions)
  }

  lemma {:induction false} StampsAreClocks(clocks: seq<int>, limit: int, window: int, hi: int)
    requires AllAtMost(clocks, hi)
    ensures AllAtMost(Run(clocks, limit, window).log, hi)
    ensures AllAtMost(Run(clocks, limit, window).admitted, hi)
  {
    if clocks != [] {
      var init, now := clocks[..|clocks| - 1], clocks[|clocks| - 1];
      StampsAreClocks(init, limit, window, hi);
      PruneWithin(Run(init, limit, window).log, now - window, hi);
    }
  }

  lemma {:induction false} PruneWithin(stamps: seq<int>, cutoff: int, hi: int)
    requires AllAtMost(stamps, hi)
    ensures AllAtMost(Prune(stamps, cutoff), hi)
  {
    if stamps != [] { PruneWithin(stamps[..|stamps| - 1], cutoff, hi); }
  }

  /**
   Under a monotone clock the limiter takes exactly the decisions of the unpruned
   specification: pruning, and not recording denials, are unobservable.
   */
  lemma {:induction false} MemoryRefinesSpec(clocks: seq<int>, limit: int, window: int)
    requires OutOfOrderBy(clocks, 0)
    ensures Observed(Run(clocks, limit, window)) == SpecRun(clocks, limit, window)
  {
    if clocks != [] {
      var init, now := clocks[..|clocks| - 1], clocks[|clocks| - 1];
      LastClock(clocks, 0);
      MemoryRefinesSpec(init, limit, window);
      Retained(init, limit, window, now - window, now);
      StampsAreClocks(init, limit, window, now);
      ExtendRefines(Run(init, limit, window), now, limit, window);
    }
  }

  lemma {:induction false} ExtendRefines(h: History, now: int, limit: int, window: int)
    requires CountIn(h.log, now - window, now) == CountIn(h.admitted, now - window, now)
    requires AllAtMost(h.log, now)
    ensures Observed(Extend(h, now, limit, window)) == SpecExtend(Observed(h), now, limit, window)
  {
    PruneLength(h.log, now - window, now);
  }

  // ---------------------------------------------------------------- every decision, exactly

  /** Call i was admitted, and its stamp is less than a window behind every clock after it and before call k. */
  ghost predicate Survives(clocks: seq<int>, decisions: seq<bool>, window: int, i: nat, k: nat)
    requires i < |decisions| && i < |clocks| && k <= |clocks|
  {
    decisions[i] && forall j: nat :: i < j < k ==> clocks[i] > clocks[j] - window
  }

  /** The stamps of those of the first m calls that survive up to call k. */
  ghost function Survivors(clocks: seq<int>, decisions: seq<bool>, window: int, m: nat, k: nat): seq<int>
    requires m <= |decisions| && m <= |clocks| && k <= |clocks|
  {
    if m == 0 then [] else
      var init := Survivors(clocks, decisions, window, m - 1, k);
      if Survives(clocks, decisions, window, m - 1, k) then init + [clocks[m - 1]] else init
  }

  lemma {:induction false} SurvivorsPrefix(
      clocks: seq<int>, decisions: seq<bool>, more: seq<int>, dmore: seq<bool>, window: int, m: nat, k: nat)
    requires m <= |decisions| && m <= |clocks| && k <= |clocks| && clocks <= more && decisions <= dmore
    ensures Survivors(more, dmore, window, m, k) == Survivors(clocks, decisions, window, m, k)
  {
    if m > 0 { SurvivorsPrefix(clocks, decisions, more, dmore, window, m - 1, k); }
  }

  /** A call drops exactly the survivors that are a window behind its clock. */
  lemma {:induction false} PruneSurvivors(clocks: seq<int>, decisions: seq<bool>, window: int, m: nat, k: nat)
    requires m <= |decisions| && m <= k < |clocks|
    ensures Prune(Survivors(clocks, decisions, window, m, k), clocks[k] - window)
      == Survivors(clocks, decisions, window, m, k + 1)
  {
    if m > 0 {
      PruneSurvivors(clocks, decisions, window, m - 1, k);
      PruneSnoc(Survivors(clocks, decisions, window, m - 1, k), clocks[m - 1], clocks[k] - window);
    }
  }

  ghost predicate HoldsSurvivors(clocks: seq<int>, h: History, window: int) {
    |h.decisions| == |clocks| && h.log == Survivors(clocks, h.decisions, window, |clocks|, |clocks|)
  }

  /** The decision on call k is told from the calls and decisions before it. */
  ghost predicate Decided(clocks: seq<int>, decisions: seq<bool>, limit: int, window: int, k: nat) {
    && k < |clocks| && k < |decisions|
    && (decisions[k] <==> |Survivors(clocks, decisions, window, k, k + 1)| < limit)
  }

  /** What a call counts are the survivors. */
  lemma {:induction false} KeptSurvive(clocks: seq<int>, decisions: seq<bool>, a: bool, now: int, window: int)
    requires |decisions| == |clocks|
    ensures var n := |clocks|;
      Prune(Survivors(clocks, decisions, window, n, n), now - window)
      == Survivors(clocks + [now], decisions + [a], window, n, n + 1)
  {
    SurvivorsPrefix(clocks, decisions, clocks + [now], decisions + [a], window, |clocks|, |clocks|);
    PruneSurvivors(clocks + [now], decisions + [a], window, |clocks|, |clocks|);
  }

  lemma {:induction false} NewSurvives(clocks: seq<int>, decisions: seq<bool>, a: bool, now: int, window: int)
    requires |decisions| == |clocks|
    ensures var all, more, n := clocks + [now], decisions + [a], |clocks|;
      Survivors(all, more, window, n + 1, n + 1)
      == if a then Survivors(all, more, window, n, n + 1) + [now] else Survivors(all, more, window, n, n + 1)
  {}

  lemma {:induction false} ExtendDecides(clocks: seq<int>, h: History, now: int, limit: int, window: int)
    requires HoldsSurvivors(clocks, h, window)
    ensures var h' := Extend(h, now, limit, window);
      && HoldsSurvivors(clocks + [now], h', window)
      && Decided(clocks + [now], h'.decisions, limit, window, |clocks|)
  {
    var a := |Prune(h.log, now - window)| < limit;
    KeptSurvive(clocks, h.decisions, a, now, window);
    NewSurvives(clocks, h.decisions, a, now, window);
  }

  lemma {:induction false} DecidedBefore(
      clocks: seq<int>, decisions: seq<bool>, more: seq<int>, dmore: seq<bool>, limit: int, window: int, k: nat)
    requires clocks <= more && decisions <= dmore && Decided(clocks, decisions, limit, window, k)
    ensures Decided(more, dmore, limit, window, k)
  {
    SurvivorsPrefix(clocks, decisions, more, dmore, window, k, k + 1);
  }

  /**
   Every decision of the limiter, exactly, for any clocks at all: a call is admitted if and only if
   fewer than limit earlier admissions are less than a window behind its clock and behind every
   clock since. So an admission that one fast clock has pruned is never counted again.
   */
  lemma {:induction false} DecidedExactly(clocks: seq<int>, limit: int, window: int)
    ensures HoldsSurvivors(clocks, Run(clocks, limit, window), window)
    ensures forall k: nat :: k < |clocks| ==> Decided(clocks, Run(clocks, limit, window).decisions, limit, window, k)
  {
    if clocks != [] {
      var init, now := clocks[..|clocks| - 1], clocks[|clocks| - 1];
      var h, h' := Run(init, limit, window), Run(clocks, limit, window);
      DecidedExactly(init, limit, window);
      ExtendDecides(init, h, now, limit, window);
      assert init + [now] == clocks;
      forall k: nat | k < |init| ensures Decided(clocks, h'.decisions, limit, window, k) {
        DecidedBefore(init, h.decisions, clocks, h'.decisions, limit, window, k);
      }
    }
  }
}
