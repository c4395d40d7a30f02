/**
 The Redis limiter: the atomic Lua script over a sorted set with key expiry
 (internal/gateway/middleware/ratelimit.go). Each instance reads its own clock before the
 script runs; Redis expires keys by the server's clock.
 */
module RedisLimiter {
  import opened Common
  import SW = SlidingWindow
  import Keys

  /** A sorted set: members with scores, and the server time after which the whole key is gone. */
  datatype ZSet = ZSet(scores: map<string, int>, deadline: Option<int>)

  /** Redis has no empty sorted sets: a key without members is absent, and so is its expiry. */
  const ABSENT := ZSet(map[], None)

  /** One evaluation of the script, with the server's clock at that moment. */
  datatype Call = Call(server: int, clock: int, member: string)

  predicate Expired(z: ZSet, server: int) {
    z.deadline.Some? && server > z.deadline.value
  }

  function RemoveRange(scores: map<string, int>, lo: int, hi: int): map<string, int> {
    map m | m in scores && !(lo <= scores[m] <= hi) :: scores[m]
  }

  datatype Verdict = Verdict(zset: ZSet, allowed: bool)

  /** The script. With `expiry` off it runs without PEXPIRE, and keys live for ever. */
  function Script(z: ZSet, c: Call, limit: int, window: int, expiry: bool): Verdict {
    var live := if expiry && Expired(z, c.server) then ABSENT else z;
    var kept := RemoveRange(live.scores, 0, c.clock - window);
    if |kept| < limit then
      var added := kept[c.member := c.clock];
      // PEXPIRE with a non-positive time deletes the key
      var stored :=
        if !expiry then ZSet(added, None)
        else if window <= 0 then ABSENT
        else ZSet(added, Some(c.server + window));
      Verdict(stored, true)
    else
      Verdict(if kept == map[] then ABSENT else ZSet(kept, live.deadline), false)
  }

  // ------------------------------------------------------------ the server

  class Server {
    var keyspace: map<string, ZSet>

    ghost function At(key: string): ZSet
      reads this
    {
      if key in keyspace then keyspace[key] else ABSENT
    }

    constructor ()
      ensures forall k :: At(k) == ABSENT
    {
      keyspace := map[];
    }

    /** Lazy expiry: a key is dropped when it is touched after its deadline. */
    method Touch(key: string, server: int)
      modifies this
      ensures At(key) == if Expired(old(At(key)), server) then ABSENT else old(At(key))
      ensures forall k :: k != key ==> At(k) == old(At(k))
    {
      if key in keyspace && Expired(keyspace[key], server) {
        keyspace := keyspace - {key};
      }
    }

    method ZRemRangeByScore(key: string, lo: int, hi: int)
      modifies this
      ensures var kept := RemoveRange(old(At(key)).scores, lo, hi);
        At(key) == if kept == map[] then ABSENT else ZSet(kept, old(At(key)).deadline)
      ensures forall k :: k != key ==> At(k) == old(At(k))
    {
      if key in keyspace {
        var kept := RemoveRange(keyspace[key].scores, lo, hi);
        keyspace := if kept == map[] then keyspace - {key} else keyspace[key := ZSet(kept, keyspace[key].deadline)];
      }
    }

    method ZCard(key: string) returns (n: int)
      ensures n == |At(key).scores|
    {
      n := if key in keyspace then |keyspace[key].scores| else 0;
    }

    method ZAdd(key: string, score: int, member: string)
      modifies this
      ensures At(key) == ZSet(old(At(key)).scores[member := score], old(At(key)).deadline)
      ensures forall k :: k != key ==> At(k) == old(At(k))
    {
      var z := if key in keyspace then keyspace[key] else ABSENT;
      keyspace := keyspace[key := ZSet(z.scores[member := score], z.deadline)];
    }

    method PExpire(key: string, server: int, ttl: int)
      requires At(key).scores != map[]
      modifies this
      ensures At(key) == if ttl <= 0 then ABSENT else ZSet(old(At(key)).scores, Some(server + ttl))
      ensures forall k :: k != key ==> At(k) == old(At(k))
    {
      if ttl <= 0 {
        keyspace := keyspace - {key};
      } else {
        keyspace := keyspace[key := ZSet(keyspace[key].scores, Some(server + ttl))];
      }
    }

    /** The script, command by command, on one key; every other key is untouched. */
    method Eval(key: string, c: Call, limit: int, window: int) returns (reply: int)
      modifies this
      ensures Verdict(At(key), reply == 1) == Script(old(At(key)), c, limit, window, true)
      ensures reply == 0 || reply == 1
      ensures reply == 0 && At(key) != ABSENT ==> At(key).deadline == old(At(key)).deadline
      ensures forall k :: k != key ==> At(k) == old(At(k))
    {
      Touch(key, c.server);
      ZRemRangeByScore(key, 0, c.clock - window);
      var count := ZCard(key);
      if count < limit {
        ZAdd(key, c.clock, c.member);
        assert c.member in At(key).scores;
        PExpire(key, c.server, window);
        return 1;
      }
      return 0;
    }

    /** RedisLimiter.Allow when the server answers. */
    method Allow(tenant: string, suffix: string, c: Call, limit: int, window: int) returns (allowed: bool)
      modifies this
      ensures var key := Keys.RedisKey(tenant, suffix);
        && Verdict(At(key), allowed) == Script(old(At(key)), c, limit, window, true)
        && forall k :: k != key ==> At(k) == old(At(k))
    {
      var v := Eval(Keys.RedisKey(tenant, suffix), c, limit, window);
      allowed := v == 1;
    }
  }

  // ------------------------------------------------------------ runs

  /** The sorted set, every admission ever made by member, their stamps in order, and the decisions. */
  datatype History = History(zset: ZSet, admitted: map<string, int>, stamps: seq<int>, decisions: seq<bool>)

  const FRESH := History(ABSENT, map[], [], [])

  function Extend(h: History, c: Call, limit: int, window: int, expiry: bool): History {
    var v := Script(h.zset, c, limit, window, expiry);
    History(
      v.zset,
      if v.allowed then h.admitted[c.member := c.clock] else h.admitted,
      if v.allowed then h.stamps + [c.clock] else h.stamps,
      h.decisions + [v.allowed])
  }

  function Run(calls: seq<Call>, limit: int, window: int, expiry: bool): History {
    if calls == [] then FRESH
    else Extend(Run(calls[..|calls| - 1], limit, window, expiry), calls[|calls| - 1], limit, window, expiry)
  }

  lemma {:induction false} RunSnoc(calls: seq<Call>, c: Call, limit: int, window: int, expiry: bool)
    ensures Run(calls + [c], limit, window, expiry)
      == Extend(Run(calls, limit, window, expiry), c, limit, window, expiry)
  {
    assert (calls + [c])[..|calls|] == calls;
  }

  /** The members admitted with a stamp in (lo, hi]. */
  function InWindow(admitted: map<string, int>, lo: int, hi: int): set<string> {
    set m | m in admitted && lo < admitted[m] <= hi
  }

  /** Members are UUIDs: no two calls share one. */
  ghost predicate FreshMembers(calls: seq<Call>) {
    forall i, j :: 0 <= i < j < |calls| ==> calls[i].member != calls[j].member
  }

  /** The server's clock never runs backwards and every instance clock is within `e` of it. */
  ghost predicate Clocked(calls: seq<Call>, e: int) {
    && (forall i, j :: 0 <= i < j < |calls| ==> calls[i].server <= calls[j].server)
    && (forall i :: 0 <= i < |calls| ==> calls[i].server - e <= calls[i].clock <= calls[i].server + e)
  }

  ghost predicate Unused(calls: seq<Call>, m: string) {
    forall i :: 0 <= i < |calls| ==> calls[i].member != m
  }

  ghost predicate ServerAtMost(calls: seq<Call>, hi: int) {
    forall i :: 0 <= i < |calls| ==> calls[i].server <= hi
  }

  /** The key is gone after time t. */
  predicate ExpiresBy(z: ZSet, t: int) {
    z == ABSENT || (z.deadline.Some? && z.deadline.value <= t)
  }

  lemma {:induction false} EveryCallIsDecided(calls: seq<Call>, limit: int, window: int, expiry: bool)
    ensures |Run(calls, limit, window, expiry).decisions| == |calls|
  {
    if calls != [] { EveryCallIsDecided(calls[..|calls| - 1], limit, window, expiry); }
  }

  /** Every admission came by time t. */
  ghost predicate AdmittedBy(calls: seq<Call>, decisions: seq<bool>, t: int)
    requires |decisions| == |calls|
  {
    forall i :: 0 <= i < |calls| && decisions[i] ==> calls[i].server <= t
  }

  /** A set is gone a window after its last admission, however many calls it denied since. */
  lemma {:induction false} SetExpires(calls: seq<Call>, limit: int, window: int, t: int)
    requires |Run(calls, limit, window, true).decisions| == |calls|
    requires AdmittedBy(calls, Run(calls, limit, window, true).decisions, t)
    ensures ExpiresBy(Run(calls, limit, window, true).zset, t + window)
  {
    if calls != [] {
      var init := calls[..|calls| - 1];
      EveryCallIsDecided(init, limit, window, true);
      var h, h' := Run(init, limit, window, true), Run(calls, limit, window, true);
      assert forall i :: 0 <= i < |init| ==> h.decisions[i] == h'.decisions[i];
      SetExpires(init, limit, window, t);
    }
  }

  /** Losing a set that has expired is unobservable. */
  lemma {:induction false} ExpiredIsAbsent(h: History, c: Call, limit: int, window: int, t: int)
    requires ExpiresBy(h.zset, t) && t < c.server
    ensures Extend(h, c, limit, window, true) == Extend(h.(zset := ABSENT), c, limit, window, true)
  {}

  lemma LastCall(calls: seq<Call>, e: int)
    requires calls != [] && Clocked(calls, e) && FreshMembers(calls)
    ensures Clocked(calls[..|calls| - 1], e) && FreshMembers(calls[..|calls| - 1])
    ensures ServerAtMost(calls[..|calls| - 1], calls[|calls| - 1].server)
    ensures Unused(calls[..|calls| - 1], calls[|calls| - 1].member)
  {}

  lemma {:induction false} MembersWereCalled(calls: seq<Call>, limit: int, window: int, expiry: bool, m: string)
    requires Unused(calls, m)
    ensures m !in Run(calls, limit, window, expiry).admitted
  {
    if calls != [] {
      MembersWereCalled(calls[..|calls| - 1], limit, window, expiry, m);
    }
  }

  // ------------------------------------------------------------ what the set holds

  /** The set holds only admissions, and its deadline is late enough for each of them. */
  ghost predicate Coherent(h: History, window: int, e: int) {
    && (forall m :: m in h.zset.scores ==> m in h.admitted && h.admitted[m] == h.zset.scores[m])
    && (h.zset.deadline.Some? ==>
          forall m :: m in h.zset.scores ==> h.zset.scores[m] <= h.zset.deadline.value - window + e)
  }

  /** Every admission above x is still in the set. */
  ghost predicate Holds(h: History, x: int) {
    forall m :: m in h.admitted && h.admitted[m] > x ==> m in h.zset.scores
  }

  ghost predicate ScoresAtMost(h: History, hi: int) {
    forall m :: m in h.zset.scores ==> h.zset.scores[m] <= hi
  }

  lemma ExtendCoherent(h: History, c: Call, limit: int, window: int, expiry: bool, e: int)
    requires Coherent(h, window, e) && ScoresAtMost(h, c.server + e)
    requires c.clock <= c.server + e && c.member !in h.admitted
    ensures Coherent(Extend(h, c, limit, window, expiry), window, e)
    ensures ScoresAtMost(Extend(h, c, limit, window, expiry), c.server + e)
  {}

  lemma ExtendHolds(h: History, c: Call, limit: int, window: int, expiry: bool, e: int, x: int)
    requires Coherent(h, window, e) && ScoresAtMost(h, c.server + e) && Holds(h, x)
    requires c.clock <= c.server + e && c.server <= x + window - e && c.member !in h.admitted
    ensures Holds(Extend(h, c, limit, window, expiry), x)
  {}

  lemma {:induction false} RunCoherent(calls: seq<Call>, limit: int, window: int, expiry: bool, e: int, hi: int)
    requires Clocked(calls, e) && FreshMembers(calls) && ServerAtMost(calls, hi)
    ensures Coherent(Run(calls, limit, window, expiry), window, e)
    ensures ScoresAtMost(Run(calls, limit, window, expiry), hi + e)
  {
    if calls != [] {
      var init, c := calls[..|calls| - 1], calls[|calls| - 1];
      LastCall(calls, e);
      RunCoherent(init, limit, window, expiry, e, c.server);
      MembersWereCalled(init, limit, window, expiry, c.member);
      ExtendCoherent(Run(init, limit, window, expiry), c, limit, window, expiry, e);
    }
  }

  /** Until the server passes x + window - e, neither pruning nor expiry loses an admission above x. */
  lemma {:induction false} Retained(calls: seq<Call>, limit: int, window: int, expiry: bool, e: int, x: int)
    requires Clocked(calls, e) && FreshMembers(calls) && ServerAtMost(calls, x + window - e)
    ensures Holds(Run(calls, limit, window, expiry), x)
  {
    if calls != [] {
      var init, c := calls[..|calls| - 1], calls[|calls| - 1];
      LastCall(calls, e);
      Retained(init, limit, window, expiry, e, x);
      RunCoherent(init, limit, window, expiry, e, c.server);
      MembersWereCalled(init, limit, window, expiry, c.member);
      ExtendHolds(Run(init, limit, window, expiry), c, limit, window, expiry, e, x);
    }
  }

  // ------------------------------------------------------------ the window bound

  lemma {:induction false} SubsetSize<T>(a: set<T>, b: set<T>)
    requires a <= b
    ensures |a| <= |b|
  {
    if a != {} {
      var x :| x in a;
      SubsetSize(a - {x}, b - {x});
    }
  }

  lemma {:induction false} ExtendWithin(h: History, c: Call, limit: int, window: int, expiry: bool, x: int, hi: int)
    requires |InWindow(h.admitted, x, hi)| <= Max(limit, 0)
    requires c.member !in h.admitted
    requires c.clock <= hi ==> Kept(h, c, window, expiry) >= InWindow(h.admitted, x, hi)
    ensures |InWindow(Extend(h, c, limit, window, expiry).admitted, x, hi)| <= Max(limit, 0)
  {
    InWindowAdd(h.admitted, c.member, c.clock, x, hi);
    if c.clock <= hi {
      SubsetSize(InWindow(h.admitted, x, hi), Kept(h, c, window, expiry));
    }
  }

  lemma {:induction false} InWindowAdd(admitted: map<string, int>, m: string, t: int, lo: int, hi: int)
    requires m !in admitted
    ensures |InWindow(admitted[m := t], lo, hi)| == |InWindow(admitted, lo, hi)| + (if lo < t <= hi then 1 else 0)
  {
    assert InWindow(admitted[m := t], lo, hi) == InWindow(admitted, lo, hi) + (if lo < t <= hi then {m} else {});
  }

  /** What ZREMRANGEBYSCORE leaves for ZCARD to count. */
  function Kept(h: History, c: Call, window: int, expiry: bool): set<string> {
    var live := if expiry && Expired(h.zset, c.server) then ABSENT else h.zset;
    RemoveRange(live.scores, 0, c.clock - window).Keys
  }

  lemma KeptHolds(h: History, c: Call, window: int, expiry: bool, e: int, x: int, hi: int)
    requires Coherent(h, window, e) && Holds(h, x)
    requires c.clock <= c.server + e && c.server <= x + window - e
    ensures Kept(h, c, window, expiry) >= InWindow(h.admitted, x, hi)
  {}

  /**
   The Redis limiter keeps the limit although whole keys expire: if every instance clock is
   within `e` of the server's, no interval of length window - 2e ever holds more than `limit`
   admissions, over every run and every pattern of instances.
   */
  lemma {:induction false} RedisWindowBound(calls: seq<Call>, limit: int, window: int, expiry: bool, e: nat, x: int)
    requires Clocked(calls, e) && FreshMembers(calls)
    ensures |InWindow(Run(calls, limit, window, expiry).admitted, x, x + window - 2 * e)| <= Max(limit, 0)
  {
    if calls != [] {
      var init, c, hi := calls[..|calls| - 1], calls[|calls| - 1], x + window - 2 * e;
      var h := Run(init, limit, window, expiry);
      LastCall(calls, e);
      RedisWindowBound(init, limit, window, expiry, e, x);
      MembersWereCalled(init, limit, window, expiry, c.member);
      if c.clock <= hi {
        Retained(init, limit, window, expiry, e, x);
        RunCoherent(init, limit, window, expiry, e, c.server);
        KeptHolds(h, c, window, expiry, e, x, hi);
      }
      ExtendWithin(h, c, limit, window, expiry, x, hi);
    }
  }

  lemma {:induction false} RedisWindowBoundWithin(
      calls: seq<Call>, limit: int, window: int, expiry: bool, e: nat, x: int, hi: int)
    requires Clocked(calls, e) && FreshMembers(calls) && hi <= x + window - 2 * e
    ensures |InWindow(Run(calls, limit, window, expiry).admitted, x, hi)| <= Max(limit, 0)
  {
    RedisWindowBound(calls, limit, window, expiry, e, x);
    var admitted := Run(calls, limit, window, expiry).admitted;
    SubsetSize(InWindow(admitted, x, hi), InWindow(admitted, x, x + window - 2 * e));
  }

  // ------------------------------------------------------------ tightness

  /** `n` calls at instant t on every clock; name(k) is the k-th member drawn. */
  function Burst(t: int, n: nat, name: nat -> string): (calls: seq<Call>)
    ensures |calls| == n && forall i :: 0 <= i < n ==> calls[i] == Call(t, t, name(i))
  {
    seq(n, i requires 0 <= i < n => Call(t, t, name(i)))
  }

  ghost predicate SameInstant(calls: seq<Call>, t: int) {
    forall i :: 0 <= i < |calls| ==> calls[i].server == calls[i].clock == t
  }

  /** Everything admitted bears the stamp t and is still in the set, which outlives t. */
  ghost predicate Bursting(h: History, t: int, window: int) {
    && h.zset.scores == h.admitted && (forall m :: m in h.admitted ==> h.admitted[m] == t)
    && (h.zset.deadline.Some? ==> h.zset.deadline.value == t + window)
  }

  lemma {:induction false} ExtendBurst(h: History, c: Call, t: int, limit: int, window: int, expiry: bool)
    requires Bursting(h, t, window) && |h.admitted| < limit && window >= 1
    requires c.server == c.clock == t && c.member !in h.admitted
    ensures var h' := Extend(h, c, limit, window, expiry);
      Bursting(h', t, window) && |h'.admitted| == |h.admitted| + 1
  {
    assert RemoveRange(h.zset.scores, 0, t - window) == h.admitted;
    AddSize(h.admitted, c.member, t);
  }

  lemma {:induction false} AddSize(scores: map<string, int>, m: string, t: int)
    requires m !in scores
    ensures |scores[m := t]| == |scores| + 1
  {
    assert scores[m := t].Keys == scores.Keys + {m};
  }

  /** Up to the limit, Redis admits every call made at one instant. */
  lemma {:induction false} RunBurst(calls: seq<Call>, t: int, limit: int, window: int, expiry: bool)
    requires SameInstant(calls, t) && FreshMembers(calls) && |calls| <= limit && window >= 1
    ensures var h := Run(calls, limit, window, expiry); Bursting(h, t, window) && |h.admitted| == |calls|
  {
    if calls != [] {
      var init, c := calls[..|calls| - 1], calls[|calls| - 1];
      RunBurst(init, t, limit, window, expiry);
      MembersWereCalled(init, limit, window, expiry, c.member);
      ExtendBurst(Run(init, limit, window, expiry), c, t, limit, window, expiry);
    }
  }

  lemma {:induction false} BurstIsIn(h: History, t: int, window: int, lo: int, hi: int)
    requires Bursting(h, t, window) && lo < t <= hi
    ensures |InWindow(h.admitted, lo, hi)| == |h.admitted|
  {
    assert InWindow(h.admitted, lo, hi) == h.admitted.Keys;
  }

  ghost predicate Distinct(name: nat -> string) {
    forall j, k :: name(j) == name(k) ==> j == k
  }

  /** A supply of names. */
  function Unary(n: nat): string {
    seq(n, _ => '1')
  }

  lemma {:induction false} SomeNamesAreDistinct()
    ensures Distinct(Unary)
  {
    forall i: nat, j: nat | Unary(i) == Unary(j) ensures i == j {
      assert |Unary(i)| == i && |Unary(j)| == j;
    }
  }

  /** A call of an instance e ahead of the server, and one e behind it, at the same server time. */
  function Fast(window: int, e: nat, a: int, m: string): Call {
    Call(a + window - e, a + window, m)
  }

  function Slow(window: int, e: nat, a: int, m: string): Call {
    Call(a + window - e, a + window - 2 * e, m)
  }

  /** A burst at a, and a window later a fast and a slow call. */
  function Volley(limit: nat, window: int, e: nat, a: int, name: nat -> string): seq<Call> {
    Burst(a, limit, name) + [Fast(window, e, a, name(limit))] + [Slow(window, e, a, name(limit + 1))]
  }

  /**
   RedisWindowBound cannot be improved by a single millisecond, whether keys expire or not. For
   every limit of at least two and every skew e of at most half the window there is a run within
   that skew that puts more than limit admissions into an interval of length window - 2e + 1.
   */
  lemma {:induction false} RedisWindowBoundIsTight(
      limit: nat, window: int, expiry: bool, e: nat, a: nat, name: nat -> string)
    requires limit >= 2 && window >= 1 && 2 * e <= window && Distinct(name)
    ensures var calls := Volley(limit, window, e, a, name);
      && Clocked(calls, e) && FreshMembers(calls)
      && |InWindow(Run(calls, limit, window, expiry).admitted, a - 1, a + window - 2 * e)| > limit
  {
    VolleyIsClocked(limit, window, e, a, name);
    BurstMembers(a, limit, name);
    RunVolley(
      Burst(a, limit, name), Fast(window, e, a, name(limit)), Slow(window, e, a, name(limit + 1)),
      a, limit, window, expiry);
  }

  lemma {:induction false} RunVolley(
      burst: seq<Call>, fast: Call, slow: Call, a: nat, limit: nat, window: int, expiry: bool)
    requires |burst| == limit && limit >= 2 && window >= 1 && SameInstant(burst, a) && FreshMembers(burst)
    requires Unused(burst, fast.member) && Unused(burst, slow.member) && slow.member != fast.member
    requires fast.clock == a + window && fast.server <= a + window
    requires slow.server == fast.server && a <= slow.clock <= fast.clock
    ensures |InWindow(Run(burst + [fast] + [slow], limit, window, expiry).admitted, a - 1, slow.clock)| > limit
  {
    RunSnocTwo(burst, fast, slow, limit, window, expiry);
    RunBurst(burst, a, limit, window, expiry);
    MembersWereCalled(burst, limit, window, expiry, fast.member);
    MembersWereCalled(burst, limit, window, expiry, slow.member);
    FastThenSlow(Run(burst, limit, window, expiry), fast, slow, a, limit, window, expiry);
  }

  lemma {:induction false} RunSnocTwo(calls: seq<Call>, c1: Call, c2: Call, limit: int, window: int, expiry: bool)
    ensures Run(calls + [c1] + [c2], limit, window, expiry)
      == Extend(Extend(Run(calls, limit, window, expiry), c1, limit, window, expiry), c2, limit, window, expiry)
  {
    RunSnoc(calls, c1, limit, window, expiry);
    RunSnoc(calls + [c1], c2, limit, window, expiry);
  }

  lemma {:induction false} BurstMembers(t: int, n: nat, name: nat -> string)
    requires Distinct(name)
    ensures SameInstant(Burst(t, n, name), t) && FreshMembers(Burst(t, n, name))
    ensures forall k :: k >= n ==> Unused(Burst(t, n, name), name(k))
  {
    forall i, j | 0 <= i < j < n ensures Burst(t, n, name)[i].member != Burst(t, n, name)[j].member {}
  }

  lemma {:induction false} VolleyIsClocked(limit: nat, window: int, e: nat, a: int, name: nat -> string)
    requires 2 * e <= window && Distinct(name)
    ensures Clocked(Volley(limit, window, e, a, name), e) && FreshMembers(Volley(limit, window, e, a, name))
  {
    var calls := Volley(limit, window, e, a, name);
    forall i | 0 <= i < |calls|
      ensures calls[i].member == name(i)
      ensures calls[i].server == if i < limit then a else a + window - e
      ensures calls[i].server - e <= calls[i].clock <= calls[i].server + e
    {
      if i < limit { assert calls[i] == Burst(a, limit, name)[i]; }
    }
  }

  lemma {:induction false} FastThenSlow(
      h: History, fast: Call, slow: Call, a: int, limit: int, window: int, expiry: bool)
    requires Bursting(h, a, window) && |h.admitted| == limit && limit >= 2 && window >= 1 && a >= 0
    requires fast.member !in h.admitted && slow.member !in h.admitted && slow.member != fast.member
    requires fast.clock == a + window && fast.server <= a + window
    requires slow.server == fast.server && a <= slow.clock <= fast.clock
    ensures var h' := Extend(Extend(h, fast, limit, window, expiry), slow, limit, window, expiry);
      |InWindow(h'.admitted, a - 1, slow.clock)| > limit
  {
    var h1 := Extend(h, fast, limit, window, expiry);
    ExtendFast(h, fast, a, limit, window, expiry);
    ExtendSlow(h1, fast, slow, limit, window, expiry);
    BurstIsIn(h, a, window, a - 1, slow.clock);
    InWindowAdd(h.admitted, fast.member, fast.clock, a - 1, slow.clock);
    InWindowAdd(h1.admitted, slow.member, slow.clock, a - 1, slow.clock);
  }

  lemma {:induction false} ExtendFast(h: History, fast: Call, a: int, limit: int, window: int, expiry: bool)
    requires Bursting(h, a, window) && limit >= 2 && window >= 1 && a >= 0
    requires fast.clock == a + window && fast.server <= a + window
    ensures var h' := Extend(h, fast, limit, window, expiry);
      && h'.admitted == h.admitted[fast.member := fast.clock]
      && h'.zset == ZSet(map[fast.member := fast.clock], if expiry then Some(fast.server + window) else None)
  {
    assert RemoveRange(h.zset.scores, 0, a) == map[];
  }

  lemma {:induction false} ExtendSlow(h: History, fast: Call, slow: Call, limit: int, window: int, expiry: bool)
    requires h.zset == ZSet(map[fast.member := fast.clock], if expiry then Some(fast.server + window) else None)
    requires limit >= 2 && window >= 1 && slow.server == fast.server && slow.clock <= fast.clock
    ensures Extend(h, slow, limit, window, expiry).admitted == h.admitted[slow.member := slow.clock]
  {
    assert RemoveRange(h.zset.scores, 0, slow.clock - window) == h.zset.scores;
  }

  // ------------------------------------------------------------ refinement

  function Clocks(calls: seq<Call>): (clocks: seq<int>)
    ensures |clocks| == |calls| && forall i :: 0 <= i < |calls| ==> clocks[i] == calls[i].clock
  {
    seq(|calls|, i requires 0 <= i < |calls| => calls[i].clock)
  }

  function Observed(h: History): SW.Unpruned {
    SW.Unpruned(h.stamps, h.decisions)
  }

  /** Counting members and counting stamps agree. */
  ghost predicate Counted(h: History) {
    forall lo, hi :: |InWindow(h.admitted, lo, hi)| == SW.CountIn(h.stamps, lo, hi)
  }

  lemma {:induction false} ExtendCounted(h: History, c: Call, limit: int, window: int, expiry: bool)
    requires Counted(h) && c.member !in h.admitted
    ensures Counted(Extend(h, c, limit, window, expiry))
  {
    var h' := Extend(h, c, limit, window, expiry);
    forall lo, hi ensures |InWindow(h'.admitted, lo, hi)| == SW.CountIn(h'.stamps, lo, hi) {
      SW.CountSnoc(h.stamps, c.clock, lo, hi);
      InWindowAdd(h.admitted, c.member, c.clock, lo, hi);
    }
  }

  lemma {:induction false} RunCounted(calls: seq<Call>, limit: int, window: int, expiry: bool)
    requires FreshMembers(calls)
    ensures Counted(Run(calls, limit, window, expiry))
  {
    if calls != [] {
      var init, c := calls[..|calls| - 1], calls[|calls| - 1];
      RunCounted(init, limit, window, expiry);
      MembersWereCalled(init, limit, window, expiry, c.member);
      ExtendCounted(Run(init, limit, window, expiry), c, limit, window, expiry);
    }
  }

  ghost predicate ScoresNonNegative(h: History) {
    forall m :: m in h.zset.scores ==> h.zset.scores[m] >= 0
  }

  lemma {:induction false} ExtendRefines(h: History, c: Call, limit: int, window: int, expiry: bool)
    requires Coherent(h, window, 0) && Holds(h, c.clock - window) && Counted(h)
    requires ScoresAtMost(h, c.clock) && ScoresNonNegative(h)
    requires c.clock == c.server
    ensures Observed(Extend(h, c, limit, window, expiry)) == SW.SpecExtend(Observed(h), c.clock, limit, window)
  {
    KeptHolds(h, c, window, expiry, 0, c.clock - window, c.clock);
    assert Kept(h, c, window, expiry) == InWindow(h.admitted, c.clock - window, c.clock);
    KeptCount(h, c, window, expiry);
  }

  lemma KeptCount(h: History, c: Call, window: int, expiry: bool)
    ensures var live := if expiry && Expired(h.zset, c.server) then ABSENT else h.zset;
      |RemoveRange(live.scores, 0, c.clock - window)| == |Kept(h, c, window, expiry)|
  {}

  lemma {:induction false} SpecRunLast(calls: seq<Call>, limit: int, window: int)
    requires calls != []
    ensures var init, c := calls[..|calls| - 1], calls[|calls| - 1];
      SW.SpecRun(Clocks(calls), limit, window)
      == SW.SpecExtend(SW.SpecRun(Clocks(init), limit, window), c.clock, limit, window)
  {
    var init, c := calls[..|calls| - 1], calls[|calls| - 1];
    SW.SpecRunSnoc(Clocks(init), c.clock, limit, window);
    assert Clocks(calls) == Clocks(init) + [c.clock];
  }

  lemma {:induction false} RunNonNegative(calls: seq<Call>, limit: int, window: int, expiry: bool)
    requires forall i :: 0 <= i < |calls| ==> calls[i].clock >= 0
    ensures ScoresNonNegative(Run(calls, limit, window, expiry))
  {
    if calls != [] { RunNonNegative(calls[..|calls| - 1], limit, window, expiry); }
  }

  /**
   With instance clocks equal to the server's, the script decides exactly as the unpruned
   specification does, with PEXPIRE and without it. Scores count from the epoch; the script
   only ever removes scores from 0 upwards.
   */
  lemma {:induction false} RedisRefinesSpec(calls: seq<Call>, limit: int, window: int, expiry: bool)
    requires Clocked(calls, 0) && FreshMembers(calls)
    requires forall i :: 0 <= i < |calls| ==> calls[i].clock >= 0
    ensures Observed(Run(calls, limit, window, expiry)) == SW.SpecRun(Clocks(calls), limit, window)
  {
    if calls != [] {
      var init, c := calls[..|calls| - 1], calls[|calls| - 1];
      LastCall(calls, 0);
      RedisRefinesSpec(init, limit, window, expiry);
      RunCoherent(init, limit, window, expiry, 0, c.server);
      Retained(init, limit, window, expiry, 0, c.clock - window);
      RunCounted(init, limit, window, expiry);
      RunNonNegative(init, limit, window, expiry);
      ExtendRefines(Run(init, limit, window, expiry), c, limit, window, expiry);
      SpecRunLast(calls, limit, window);
    }
  }

  /**
   The two implementations are one limiter: on every run under a common monotone clock, the
   script with key expiry, the script without it, and the in-memory log take the same decision
   at every step.
   */
  lemma {:induction false} LimitersAgree(calls: seq<Call>, limit: int, window: int)
    requires Clocked(calls, 0) && FreshMembers(calls)
    requires forall i :: 0 <= i < |calls| ==> calls[i].clock >= 0
    ensures var memory := SW.Run(Clocks(calls), limit, window).decisions;
      Run(calls, limit, window, true).decisions == Run(calls, limit, window, false).decisions == memory
  {
    RedisRefinesSpec(calls, limit, window, true);
    RedisRefinesSpec(calls, limit, window, false);
    SW.MemoryRefinesSpec(Clocks(calls), limit, window);
  }

  /**
   That agreement needs equal clocks. For every positive skew and every window there is a run
   within that skew, a call by a fast instance and then one by a slow instance just after the
   key has expired, whose second request passes only because of the expiry.
   */
  lemma {:induction false} ExpiryMattersUnderSkew(e: nat, window: int, base: int, m1: string, m2: string)
    requires e >= 1 && window >= 1 && m1 != m2
    ensures var calls := [Call(base, base + e, m1), Call(base + window + 1, base + window + 1 - e, m2)];
      && Clocked(calls, e) && FreshMembers(calls)
      && Run(calls, 1, window, true).decisions == [true, true]
      && Run(calls, 1, window, false).decisions == [true, false]
  {
    var c1, c2 := Call(base, base + e, m1), Call(base + window + 1, base + window + 1 - e, m2);
    FastThenSlowDecisions(c1, c2, window);
    RunTwo(c1, c2, 1, window, true);
    RunTwo(c1, c2, 1, window, false);
  }

  lemma {:induction false} FastThenSlowDecisions(c1: Call, c2: Call, window: int)
    requires window >= 1 && c2.server > c1.server + window && c1.clock > c2.clock - window
    ensures Extend(Extend(FRESH, c1, 1, window, true), c2, 1, window, true).decisions == [true, true]
    ensures Extend(Extend(FRESH, c1, 1, window, false), c2, 1, window, false).decisions == [true, false]
  {
    var scores := map[c1.member := c1.clock];
    assert RemoveRange(scores, 0, c2.clock - window) == scores;
  }

  lemma {:induction false} RunTwo(c1: Call, c2: Call, limit: int, window: int, expiry: bool)
    ensures Run([c1, c2], limit, window, expiry)
      == Extend(Extend(FRESH, c1, limit, window, expiry), c2, limit, window, expiry)
  {
    RunSnocTwo([], c1, c2, limit, window, expiry);
    assert [] + [c1] + [c2] == [c1, c2];
  }

  // ------------------------------------------------------------ every decision, exactly

  /** The last admission before call k, or -1. */
  function LastAdmitted(decisions: seq<bool>, k: nat): (i: int)
    requires k <= |decisions|
    ensures -1 <= i < k
    ensures i >= 0 ==> decisions[i]
    ensures forall j :: i < j < k ==> !decisions[j]
  {
    if k == 0 then -1 else if decisions[k - 1] then k - 1 else LastAdmitted(decisions, k - 1)
  }

  /** By call k more than a window has passed on the server since the last admission. */
  predicate Silent(calls: seq<Call>, decisions: seq<bool>, window: int, k: nat)
    requires k < |calls| && k <= |decisions|
  {
    var i := LastAdmitted(decisions, k);
    i >= 0 && calls[k].server > calls[i].server + window
  }

  /** The stamp of call i lies a window or more behind the clock of call j. */
  predicate Outdated(calls: seq<Call>, window: int, i: nat, j: nat)
    requires i < |calls| && j < |calls|
  {
    0 <= calls[i].clock <= calls[j].clock - window
  }

  /** Call i was admitted, and no call after it and before k found it outdated or the key silent. */
  ghost predicate Survives(calls: seq<Call>, decisions: seq<bool>, window: int, expiry: bool, i: nat, k: nat)
    requires k <= |calls| && k <= |decisions| + 1 && i < |decisions|
  {
    && i < k && decisions[i] && (expiry ==> window > 0)
    && forall j: nat :: i < j < k && j <= |decisions| ==>
         !Outdated(calls, window, i, j) && !(expiry && Silent(calls, decisions, window, j))
  }

  /** The members of the admissions that call k finds. */
  ghost function Found(calls: seq<Call>, decisions: seq<bool>, window: int, expiry: bool, k: nat): set<string>
    requires k < |calls| && k <= |decisions|
  {
    set i: nat | i < k && Survives(calls, decisions, window, expiry, i, k + 1) :: calls[i].member
  }

  /** Every survivor is in the set, with its stamp. */
  ghost predicate SurvivorsIn(
      calls: seq<Call>, decisions: seq<bool>, scores: map<string, int>, window: int, expiry: bool)
    requires |decisions| == |calls|
  {
    forall i: nat :: i < |calls| && Survives(calls, decisions, window, expiry, i, |calls|) ==>
      calls[i].member in scores && scores[calls[i].member] == calls[i].clock
  }

  /** The member is that of a survivor. */
  ghost predicate IsSurvivor(calls: seq<Call>, decisions: seq<bool>, window: int, expiry: bool, m: string)
    requires |decisions| == |calls|
  {
    exists i: nat :: i < |calls| && calls[i].member == m && Survives(calls, decisions, window, expiry, i, |calls|)
  }

  ghost predicate OnlySurvivors(
      calls: seq<Call>, decisions: seq<bool>, scores: map<string, int>, window: int, expiry: bool)
    requires |decisions| == |calls|
  {
    forall m :: m in scores ==> IsSurvivor(calls, decisions, window, expiry, m)
  }

  /** The key expires a window after the last admission. */
  ghost predicate DeadlineFits(calls: seq<Call>, decisions: seq<bool>, z: ZSet, window: int, expiry: bool)
    requires |decisions| == |calls|
  {
    z.scores != map[] ==>
      var last := LastAdmitted(decisions, |calls|);
      last >= 0 && z.deadline == if expiry then Some(calls[last].server + window) else None
  }

  /** What the sorted set holds after all calls, told from the calls and decisions alone. */
  ghost predicate HoldsSurvivors(calls: seq<Call>, h: History, window: int, expiry: bool) {
    && |h.decisions| == |calls|
    && SurvivorsIn(calls, h.decisions, h.zset.scores, window, expiry)
    && OnlySurvivors(calls, h.decisions, h.zset.scores, window, expiry)
    && DeadlineFits(calls, h.decisions, h.zset, window, expiry)
  }

  lemma {:induction false} LastAdmittedPrefix(decisions: seq<bool>, more: seq<bool>, k: nat)
    requires k <= |decisions| && decisions <= more
    ensures LastAdmitted(more, k) == LastAdmitted(decisions, k)
  {
    if k > 0 { LastAdmittedPrefix(decisions, more, k - 1); }
  }

  lemma {:induction false} SilentPrefix(
      calls: seq<Call>, decisions: seq<bool>, more: seq<Call>, dmore: seq<bool>, window: int, k: nat)
    requires calls <= more && decisions <= dmore && k < |calls| && k <= |decisions|
    ensures Silent(more, dmore, window, k) == Silent(calls, decisions, window, k)
  {
    LastAdmittedPrefix(decisions, dmore, k);
  }

  /** What happens later does not change who survived up to call k. */
  lemma {:induction false} SurvivesPrefix(
      calls: seq<Call>, decisions: seq<bool>, more: seq<Call>, dmore: seq<bool>,
      window: int, expiry: bool, i: nat, k: nat)
    requires calls <= more && decisions <= dmore && i < k <= |calls| && k <= |decisions| + 1 && i < |decisions|
    ensures Survives(more, dmore, window, expiry, i, k) <==> Survives(calls, decisions, window, expiry, i, k)
  {
    forall j: nat | j < k && j <= |decisions|
      ensures Outdated(more, window, i, j) == Outdated(calls, window, i, j)
      ensures Silent(more, dmore, window, j) == Silent(calls, decisions, window, j)
    {
      SilentPrefix(calls, decisions, more, dmore, window, j);
    }
  }

  lemma {:induction false} FoundPrefix(
      calls: seq<Call>, decisions: seq<bool>, more: seq<Call>, dmore: seq<bool>, window: int, expiry: bool, k: nat)
    requires calls <= more && decisions <= dmore && k < |calls| && k <= |decisions|
    ensures Found(more, dmore, window, expiry, k) == Found(calls, decisions, window, expiry, k)
  {
    var n := k + 1;
    forall i: nat | i < k
      ensures Survives(more, dmore, window, expiry, i, n) <==> Survives(calls, decisions, window, expiry, i, n)
    {
      SurvivesPrefix(calls, decisions, more, dmore, window, expiry, i, n);
    }
  }

  /** One call more, found silent or outdated by it or not. */
  lemma {:induction false} SurvivesNext(
      calls: seq<Call>, decisions: seq<bool>, window: int, expiry: bool, i: nat, k: nat)
    requires i < k < |calls| && k <= |decisions|
    ensures Survives(calls, decisions, window, expiry, i, k + 1)
      <==> Survives(calls, decisions, window, expiry, i, k)
           && !Outdated(calls, window, i, k) && !(expiry && Silent(calls, decisions, window, k))
  {}

  /** The set that the script counts. */
  function Live(h: History, c: Call, window: int, expiry: bool): map<string, int> {
    RemoveRange((if expiry && Expired(h.zset, c.server) then ABSENT else h.zset).scores, 0, c.clock - window)
  }

  /** Whether call n drops what is in the set: the key has been silent for too long. */
  lemma {:induction false} ExpiredIsSilent(calls: seq<Call>, h: History, c: Call, window: int, expiry: bool)
    requires HoldsSurvivors(calls, h, window, expiry) && h.zset.scores != map[]
    ensures expiry && Expired(h.zset, c.server) <==> expiry && Silent(calls + [c], h.decisions, window, |calls|)
  {
    var last := LastAdmitted(h.decisions, |calls|);
    assert (calls + [c])[last] == calls[last];
  }

  lemma {:induction false} SurvivesCall(
      calls: seq<Call>, h: History, c: Call, window: int, expiry: bool, i: nat)
    requires i < |calls| == |h.decisions|
    ensures var n, all := |calls|, calls + [c];
      Survives(all, h.decisions, window, expiry, i, n + 1)
      <==> Survives(calls, h.decisions, window, expiry, i, n)
           && !(0 <= calls[i].clock <= c.clock - window) && !(expiry && Silent(all, h.decisions, window, n))
  {
    SurvivesPrefix(calls, h.decisions, calls + [c], h.decisions, window, expiry, i, |calls|);
    SurvivesNext(calls + [c], h.decisions, window, expiry, i, |calls|);
  }

  lemma {:induction false} LiveIsFound(calls: seq<Call>, h: History, c: Call, window: int, expiry: bool, m: string)
    requires HoldsSurvivors(calls, h, window, expiry) && m in Live(h, c, window, expiry)
    ensures m in Found(calls + [c], h.decisions, window, expiry, |calls|)
  {
    ExpiredIsSilent(calls, h, c, window, expiry);
    var i: nat :| i < |calls| && calls[i].member == m && Survives(calls, h.decisions, window, expiry, i, |calls|);
    SurvivesCall(calls, h, c, window, expiry, i);
    assert (calls + [c])[i].member == m;
  }

  lemma {:induction false} FoundIsLive(calls: seq<Call>, h: History, c: Call, window: int, expiry: bool, m: string)
    requires HoldsSurvivors(calls, h, window, expiry)
    requires m in Found(calls + [c], h.decisions, window, expiry, |calls|)
    ensures m in Live(h, c, window, expiry)
  {
    var n, all := |calls|, calls + [c];
    var i: nat :| i < n && Survives(all, h.decisions, window, expiry, i, n + 1) && all[i].member == m;
    SurvivesCall(calls, h, c, window, expiry, i);
    ExpiredIsSilent(calls, h, c, window, expiry);
  }

  /** The script counts exactly the survivors. */
  lemma {:induction false} ExtendDecides(
      calls: seq<Call>, h: History, c: Call, limit: int, window: int, expiry: bool)
    requires HoldsSurvivors(calls, h, window, expiry)
    ensures var h' := Extend(h, c, limit, window, expiry);
      h'.decisions == h.decisions + [|Found(calls + [c], h.decisions, window, expiry, |calls|)| < limit]
  {
    var live, found := Live(h, c, window, expiry), Found(calls + [c], h.decisions, window, expiry, |calls|);
    forall m | m in live ensures m in found {
      LiveIsFound(calls, h, c, window, expiry, m);
    }
    forall m | m in found ensures m in live {
      FoundIsLive(calls, h, c, window, expiry, m);
    }
    assert live.Keys == found && |live| == |live.Keys|;
  }

  lemma {:induction false} SurvivesLater(
      calls: seq<Call>, h: History, a: bool, c: Call, window: int, expiry: bool, i: nat)
    requires HoldsSurvivors(calls, h, window, expiry) && i < |calls|
    ensures Survives(calls + [c], h.decisions + [a], window, expiry, i, |calls| + 1) <==>
      Survives(calls, h.decisions, window, expiry, i, |calls|) && calls[i].member in Live(h, c, window, expiry)
  {
    if h.zset.scores != map[] { ExpiredIsSilent(calls, h, c, window, expiry); }
    SurvivesPrefix(calls + [c], h.decisions, calls + [c], h.decisions + [a], window, expiry, i, |calls| + 1);
    SurvivesCall(calls, h, c, window, expiry, i);
  }

  lemma {:induction false} NewSurvives(
      calls: seq<Call>, decisions: seq<bool>, a: bool, c: Call, window: int, expiry: bool)
    requires |decisions| == |calls|
    ensures Survives(calls + [c], decisions + [a], window, expiry, |calls|, |calls| + 1)
      <==> a && (expiry ==> window > 0)
  {}

  /** What the script leaves in the set, after a denial and after an admission. */
  lemma {:induction false} ExtendScores(h: History, c: Call, limit: int, window: int, expiry: bool)
    ensures var h', live := Extend(h, c, limit, window, expiry), Live(h, c, window, expiry);
      && h'.decisions == h.decisions + [|live| < limit]
      && (|live| >= limit ==>
            && h'.zset.scores == live
            && (live != map[] && !(expiry && Expired(h.zset, c.server)) ==> h'.zset.deadline == h.zset.deadline))
      && (|live| < limit ==>
            && h'.zset.scores == (if expiry && window <= 0 then map[] else live[c.member := c.clock])
            && (h'.zset.scores != map[] ==> h'.zset.deadline == if expiry then Some(c.server + window) else None))
  {}

  lemma {:induction false} SurvivorsStay(
      calls: seq<Call>, h: History, c: Call, limit: int, window: int, expiry: bool)
    requires HoldsSurvivors(calls, h, window, expiry) && Unused(calls, c.member)
    ensures var h' := Extend(h, c, limit, window, expiry);
      |h'.decisions| == |calls| + 1 && SurvivorsIn(calls + [c], h'.decisions, h'.zset.scores, window, expiry)
  {
    var n, all, h', live := |calls|, calls + [c], Extend(h, c, limit, window, expiry), Live(h, c, window, expiry);
    ExtendScores(h, c, limit, window, expiry);
    forall i: nat | i < |all| && Survives(all, h'.decisions, window, expiry, i, |all|)
      ensures all[i].member in h'.zset.scores && h'.zset.scores[all[i].member] == all[i].clock
    {
      if i < n {
        SurvivesLater(calls, h, |live| < limit, c, window, expiry, i);
      } else {
        NewSurvives(calls, h.decisions, |live| < limit, c, window, expiry);
      }
    }
  }

  lemma {:induction false} MemberStays(
      calls: seq<Call>, h: History, c: Call, limit: int, window: int, expiry: bool, m: string)
    requires HoldsSurvivors(calls, h, window, expiry)
    requires m in Extend(h, c, limit, window, expiry).zset.scores
    ensures var h' := Extend(h, c, limit, window, expiry);
      |h'.decisions| == |calls| + 1 && IsSurvivor(calls + [c], h'.decisions, window, expiry, m)
  {
    var n, all, h', live := |calls|, calls + [c], Extend(h, c, limit, window, expiry), Live(h, c, window, expiry);
    ExtendScores(h, c, limit, window, expiry);
    if m in live {
      var i: nat :| i < n && calls[i].member == m && Survives(calls, h.decisions, window, expiry, i, n);
      SurvivesLater(calls, h, |live| < limit, c, window, expiry, i);
      assert all[i].member == m && Survives(all, h'.decisions, window, expiry, i, |all|);
    } else {
      NewSurvives(calls, h.decisions, |live| < limit, c, window, expiry);
      assert all[n].member == m && Survives(all, h'.decisions, window, expiry, n, |all|);
    }
  }

  lemma {:induction false} OnlySurvivorsStay(
      calls: seq<Call>, h: History, c: Call, limit: int, window: int, expiry: bool)
    requires HoldsSurvivors(calls, h, window, expiry)
    ensures var h' := Extend(h, c, limit, window, expiry);
      |h'.decisions| == |calls| + 1 && OnlySurvivors(calls + [c], h'.decisions, h'.zset.scores, window, expiry)
  {
    ExtendScores(h, c, limit, window, expiry);
    forall m | m in Extend(h, c, limit, window, expiry).zset.scores
      ensures IsSurvivor(calls + [c], Extend(h, c, limit, window, expiry).decisions, window, expiry, m)
    {
      MemberStays(calls, h, c, limit, window, expiry, m);
    }
  }

  lemma {:induction false} DeadlineNext(
      calls: seq<Call>, decisions: seq<bool>, a: bool, c: Call, z: ZSet, z': ZSet, window: int, expiry: bool)
    requires |decisions| == |calls| && DeadlineFits(calls, decisions, z, window, expiry)
    requires z'.scores != map[] ==>
      if a then z'.deadline == if expiry then Some(c.server + window) else None
      else z.scores != map[] && z'.deadline == z.deadline
    ensures DeadlineFits(calls + [c], decisions + [a], z', window, expiry)
  {
    LastAdmittedSnoc(decisions, a);
    if !a && z'.scores != map[] {
      var last := LastAdmitted(decisions, |calls|);
      assert (calls + [c])[last] == calls[last];
    }
  }

  lemma {:induction false} LiveWasThere(h: History, c: Call, window: int, expiry: bool)
    requires Live(h, c, window, expiry) != map[]
    ensures h.zset.scores != map[] && !(expiry && Expired(h.zset, c.server))
  {}

  lemma {:induction false} DeadlineStays(calls: seq<Call>, h: History, c: Call, limit: int, window: int, expiry: bool)
    requires HoldsSurvivors(calls, h, window, expiry)
    ensures var h' := Extend(h, c, limit, window, expiry);
      |h'.decisions| == |calls| + 1 && DeadlineFits(calls + [c], h'.decisions, h'.zset, window, expiry)
  {
    var h', live := Extend(h, c, limit, window, expiry), Live(h, c, window, expiry);
    ExtendScores(h, c, limit, window, expiry);
    if live != map[] { LiveWasThere(h, c, window, expiry); }
    DeadlineNext(calls, h.decisions, |live| < limit, c, h.zset, h'.zset, window, expiry);
  }

  lemma {:induction false} LastAdmittedSnoc(decisions: seq<bool>, a: bool)
    ensures LastAdmitted(decisions + [a], |decisions| + 1)
      == if a then |decisions| else LastAdmitted(decisions, |decisions|)
  {
    LastAdmittedPrefix(decisions, decisions + [a], |decisions|);
  }

  lemma {:induction false} ExtendHoldsSurvivors(
      calls: seq<Call>, h: History, c: Call, limit: int, window: int, expiry: bool)
    requires HoldsSurvivors(calls, h, window, expiry) && Unused(calls, c.member)
    ensures HoldsSurvivors(calls + [c], Extend(h, c, limit, window, expiry), window, expiry)
  {
    SurvivorsStay(calls, h, c, limit, window, expiry);
    OnlySurvivorsStay(calls, h, c, limit, window, expiry);
    DeadlineStays(calls, h, c, limit, window, expiry);
  }

  lemma {:induction false} RunHoldsSurvivors(calls: seq<Call>, limit: int, window: int, expiry: bool)
    requires FreshMembers(calls)
    ensures HoldsSurvivors(calls, Run(calls, limit, window, expiry), window, expiry)
  {
    if calls != [] {
      var init, c := calls[..|calls| - 1], calls[|calls| - 1];
      RunHoldsSurvivors(init, limit, window, expiry);
      ExtendHoldsSurvivors(init, Run(init, limit, window, expiry), c, limit, window, expiry);
      assert init + [c] == calls;
    }
  }

  /** The decision on call k is told from the calls and decisions before it. */
  ghost predicate Decided(calls: seq<Call>, decisions: seq<bool>, limit: int, window: int, expiry: bool, k: nat) {
    && k < |calls| && k < |decisions|
    && (decisions[k] <==> |Found(calls, decisions, window, expiry, k)| < limit)
  }

  lemma {:induction false} DecidedBefore(
      calls: seq<Call>, decisions: seq<bool>, more: seq<Call>, dmore: seq<bool>,
      limit: int, window: int, expiry: bool, k: nat)
    requires calls <= more && decisions <= dmore && Decided(calls, decisions, limit, window, expiry, k)
    ensures Decided(more, dmore, limit, window, expiry, k)
  {
    FoundPrefix(calls, decisions, more, dmore, window, expiry, k);
  }

  lemma {:induction false} DecidedNow(
      calls: seq<Call>, h: History, c: Call, limit: int, window: int, expiry: bool)
    requires HoldsSurvivors(calls, h, window, expiry)
    ensures var h' := Extend(h, c, limit, window, expiry);
      |h'.decisions| == |calls| + 1 && Decided(calls + [c], h'.decisions, limit, window, expiry, |calls|)
  {
    var h' := Extend(h, c, limit, window, expiry);
    ExtendDecides(calls, h, c, limit, window, expiry);
    FoundPrefix(calls + [c], h.decisions, calls + [c], h'.decisions, window, expiry, |calls|);
  }

  ghost predicate AllDecided(calls: seq<Call>, decisions: seq<bool>, limit: int, window: int, expiry: bool) {
    forall k: nat :: k < |calls| ==> Decided(calls, decisions, limit, window, expiry, k)
  }

  lemma {:induction false} NextDecided(
      calls: seq<Call>, h: History, c: Call, limit: int, window: int, expiry: bool)
    requires HoldsSurvivors(calls, h, window, expiry) && AllDecided(calls, h.decisions, limit, window, expiry)
    ensures AllDecided(calls + [c], Extend(h, c, limit, window, expiry).decisions, limit, window, expiry)
  {
    var h' := Extend(h, c, limit, window, expiry);
    DecidedNow(calls, h, c, limit, window, expiry);
    forall k: nat | k < |calls| ensures Decided(calls + [c], h'.decisions, limit, window, expiry, k) {
      DecidedBefore(calls, h.decisions, calls + [c], h'.decisions, limit, window, expiry, k);
    }
  }

  /**
   Every decision of the script, exactly, for any clocks at all: a call is admitted if and only if
   it finds fewer than limit earlier admissions whose stamps no call up to it found a window
   behind its own clock, the keys not having been silent for a window since an admission.
   */
  lemma {:induction false} DecidedExactly(calls: seq<Call>, limit: int, window: int, expiry: bool)
    requires FreshMembers(calls)
    ensures var decisions := Run(calls, limit, window, expiry).decisions;
      |decisions| == |calls| && forall k: nat :: k < |calls| ==> Decided(calls, decisions, limit, window, expiry, k)
  {
    RunHoldsSurvivors(calls, limit, window, expiry);
    if calls != [] {
      var init, c := calls[..|calls| - 1], calls[|calls| - 1];
      RunHoldsSurvivors(init, limit, window, expiry);
      DecidedExactly(init, limit, window, expiry);
      NextDecided(init, Run(init, limit, window, expiry), c, limit, window, expiry);
      assert init + [c] == calls;
    }
  }
}
