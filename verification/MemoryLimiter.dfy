/**
 The in-memory fallback limiter on the heap: a map from composite keys to Go slices, pruned
 in place (internal/gateway/middleware/ratelimit.go).
 */
module MemoryLimiter {
  import opened SlidingWindow
  import Keys

  /** A Go slice that starts at the front of its backing array; its capacity is arr.Length. */
  datatype Slice = Slice(arr: array<int>, len: nat)

  /**
   Go's built-in append: write into spare capacity, or move to a larger array. How much larger
   is the runtime's choice; nothing below depends on it.
   */
  method Append(s: Slice, x: int) returns (t: Slice)
    requires s.len <= s.arr.Length
    modifies s.arr
    ensures t.len == s.len + 1 <= t.arr.Length
    ensures t.arr == s.arr || fresh(t.arr)
    ensures t.arr[..t.len] == old(s.arr[..s.len]) + [x]
  {
    if s.len < s.arr.Length {
      s.arr[s.len] := x;
      t := Slice(s.arr, s.len + 1);
    } else {
      var bigger := new int[2 * s.len + 1];
      for i := 0 to s.len
        invariant bigger[..i] == s.arr[..i]
        invariant s.arr[..] == old(s.arr[..])
      {
        bigger[i] := s.arr[i];
      }
      bigger[s.len] := x;
      t := Slice(bigger, s.len + 1);
    }
  }

  /**
   `kept := stamps[:0]` followed by the filtering loop: the writes go into the array that is
   being read, and still leave exactly the order-preserving filter at its front.
   */
  method PruneInPlace(stamps: Slice, cutoff: int) returns (kept: Slice)
    requires stamps.len <= stamps.arr.Length
    modifies stamps.arr
    ensures kept.arr == stamps.arr && kept.len <= stamps.len
    ensures kept.arr[..kept.len] == Prune(old(stamps.arr[..stamps.len]), cutoff)
  {
    var a := stamps.arr;
    kept := Slice(a, 0);
    for i := 0 to stamps.len
      invariant kept.arr == a && kept.len <= i
      invariant a[..kept.len] == Prune(old(a[..i]), cutoff)
      invariant forall j :: i <= j < stamps.len ==> a[j] == old(a[j])
    {
      var ts := a[i];
      PruneSnoc(old(a[..i]), ts, cutoff);
      assert old(a[..i + 1]) == old(a[..i]) + [ts];
      if ts > cutoff {
        a[kept.len] := ts;
        kept := Slice(a, kept.len + 1);
      }
    }
  }

  /** The body of the critical section, on the slice of one key. */
  method StepInPlace(stamps: Slice, now: int, limit: int, window: int) returns (stored: Slice, allowed: bool)
    requires stamps.len <= stamps.arr.Length
    modifies stamps.arr
    ensures stored.len <= stored.arr.Length
    ensures stored.arr == stamps.arr || fresh(stored.arr)
    ensures Verdict(stored.arr[..stored.len], allowed) == Step(old(stamps.arr[..stamps.len]), now, limit, window)
  {
    stored := PruneInPlace(stamps, now - window);
    allowed := stored.len < limit;
    if allowed {
      stored := Append(stored, now);
    }
  }

  class Limiter {
    var windows: map<string, Slice>

    ghost var repr: set<array<int>>  // the backing arrays

    /** Every slice fits its array, and no two keys share one. */
    ghost predicate Valid()
      reads this
    {
      && (forall k :: k in windows ==> windows[k].arr in repr && windows[k].len <= windows[k].arr.Length)
      && (forall k, k' :: k in windows && k' in windows && k != k' ==> windows[k].arr != windows[k'].arr)
    }

    /** The log stored under a key; an absent key holds the nil slice. */
    ghost function Log(key: string): seq<int>
      requires Valid()
      reads this, repr
    {
      if key in windows then windows[key].arr[..windows[key].len] else []
    }

    constructor ()
      ensures Valid() && repr == {} && forall k :: Log(k) == []
    {
      windows, repr := map[], {};
    }

    /** Indexing the map: an absent key yields the nil slice. */
    method Load(key: string) returns (s: Slice)
      requires Valid()
      ensures s.len <= s.arr.Length
      ensures if key in windows then s == windows[key] else fresh(s.arr) && s.len == 0
    {
      if key in windows {
        return windows[key];
      }
      var empty := new int[0];
      return Slice(empty, 0);
    }

    method Allow(tenant: string, suffix: string, now: int, limit: int, window: int) returns (allowed: bool)
      requires Valid()
      modifies this, repr
      ensures Valid() && fresh(repr - old(repr))
      ensures var key := Keys.MemoryKey(tenant, suffix);
        && Verdict(Log(key), allowed) == Step(old(Log(key)), now, limit, window)
        && forall k :: k != key ==> Log(k) == old(Log(k))
    {
      var key := Keys.MemoryKey(tenant, suffix);
      var stamps := Load(key);
      var stored;
      assert stamps.arr[..stamps.len] == old(Log(key));
      stored, allowed := StepInPlace(stamps, now, limit, window);
      forall k | k in windows && k != key ensures windows[k].arr != stored.arr && Log(k) == old(Log(k)) {
        assert windows[k].arr != stamps.arr;
      }
      windows, repr := windows[key := stored], repr + {stored.arr};
    }
  }

  // ------------------------------------------------------- independence of keys

  datatype Call = Call(tenant: string, path: string, clock: int)

  function KeyOf(c: Call): string {
    Keys.MemoryKey(c.tenant, Keys.RateSuffix(c.path))
  }

  function LogAt(logs: map<string, seq<int>>, key: string): seq<int> {
    if key in logs then logs[key] else []
  }

  /** A run of the whole limiter: the contract of Limiter.Allow, call after call. */
  function RunAll(calls: seq<Call>, limit: int, window: int): map<string, seq<int>> {
    if calls == [] then map[] else
      var logs := RunAll(calls[..|calls| - 1], limit, window);
      var c := calls[|calls| - 1];
      logs[KeyOf(c) := Step(LogAt(logs, KeyOf(c)), c.clock, limit, window).log]
  }

  /** The clocks of one tenant on one route. */
  function ClocksOf(calls: seq<Call>, tenant: string, path: string): seq<int> {
    if calls == [] then [] else
      var init, c := ClocksOf(calls[..|calls| - 1], tenant, path), calls[|calls| - 1];
      if c.tenant == tenant && c.path == path then init + [c.clock] else init
  }

  /**
   In every run the log of a tenant's route is the one that tenant's own traffic on that
   route produces alone: no other tenant and no other route influences it.
   */
  lemma {:induction false} TenantsAreIndependent(
      calls: seq<Call>, tenant: string, path: string, limit: int, window: int)
    requires '|' !in path && forall i :: 0 <= i < |calls| ==> '|' !in calls[i].path
    ensures LogAt(RunAll(calls, limit, window), KeyOf(Call(tenant, path, 0)))
      == Run(ClocksOf(calls, tenant, path), limit, window).log
  {
    if calls != [] {
      var init, c := calls[..|calls| - 1], calls[|calls| - 1];
      TenantsAreIndependent(init, tenant, path, limit, window);
      Keys.MemoryKeyInjective(c.tenant, c.path, tenant, path);
      if c.tenant == tenant && c.path == path {
        RunSnoc(ClocksOf(init, tenant, path), c.clock, limit, window);
      } else {
        assert ClocksOf(calls, tenant, path) == ClocksOf(init, tenant, path);
      }
    }
  }
}
