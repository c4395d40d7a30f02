/**
 The Idempotency middleware: Get, execute, Set against a TTL store, as separate steps that
 interleave with those of other requests (internal/gateway/middleware/idempotency.go).
 Stored values are modelled after JSON decoding; encoding a response and decoding it again is
 taken to be the identity.
 */
module Idempotency {
  import opened Common
  import Keys

  datatype Response = Response(status: int, body: string, contentType: string)

  datatype Value = Json(response: Response) | Undecodable

  /** A stored value and the server time after which it is gone, if any. */
  datatype Cell = Cell(value: Value, deadline: Option<int>)

  type Cells = map<string, Cell>

  datatype Lookup = Hit(response: Response) | Miss | Broken | Unavailable

  predicate Live(cells: Cells, key: string, now: int) {
    key in cells && (cells[key].deadline.Some? ==> now <= cells[key].deadline.value)
  }

  function Get(cells: Cells, key: string, now: int, up: bool): Lookup {
    if !up then Unavailable
    else if !Live(cells, key, now) then Miss
    else if cells[key].value.Json? then Hit(cells[key].value.response)
    else Broken
  }

  /** A zero TTL stores without expiry. */
  function Deadline(now: int, ttl: nat): Option<int> {
    if ttl == 0 then None else Some(now + ttl)
  }

  function Set(cells: Cells, key: string, response: Response, now: int, ttl: nat): Cells {
    cells[key := Cell(Json(response), Deadline(now, ttl))]
  }

  predicate Cacheable(status: int) {
    200 <= status < 500
  }

  predicate Lapsed(stored: int, ttl: nat, now: int) {
    ttl > 0 && now > stored + ttl
  }

  // ------------------------------------------------------------ interleavings

  datatype Event =
    | Got(req: nat, key: string, time: int, result: Lookup)
    | Ran(req: nat, key: string, response: Response)
    | Put(req: nat, key: string, time: int, response: Response, ok: bool)

  /** Where a request stands between its atomic steps. */
  datatype Phase =
    | Running(key: string, capture: bool)
    | Storing(key: string, response: Response)
    | Done

  datatype State = State(cells: Cells, phases: map<nat, Phase>, clock: int, trace: seq<Event>)

  datatype Action =
    | DoGet(req: nat, key: string, time: int, up: bool)
    | DoRun(req: nat, response: Response)
    | DoSet(req: nat, time: int, up: bool)

  predicate Enabled(s: State, a: Action) {
    match a
    case DoGet(r, _, time, _) => r !in s.phases && s.clock <= time
    case DoRun(r, _) => r in s.phases && s.phases[r].Running?
    case DoSet(r, time, _) => r in s.phases && s.phases[r].Storing? && s.clock <= time
  }

  /** One atomic step; a step that is not enabled changes nothing. */
  function Apply(s: State, a: Action, ttl: nat): State {
    if !Enabled(s, a) then s else
      match a
      case DoGet(r, key, time, up) =>
        var result := Get(s.cells, key, time, up);
        s.(phases := s.phases[r := if result.Hit? then Done else Running(key, !result.Unavailable?)],
           clock := time, trace := s.trace + [Got(r, key, time, result)])
      case DoRun(r, response) =>
        var p := s.phases[r];
        s.(phases := s.phases[r := if p.capture && Cacheable(response.status) then Storing(p.key, response) else Done],
           trace := s.trace + [Ran(r, p.key, response)])
      case DoSet(r, time, up) =>
        var p := s.phases[r];
        s.(cells := if up then Set(s.cells, p.key, p.response, time, ttl) else s.cells,
           phases := s.phases[r := Done], clock := time,
           trace := s.trace + [Put(r, p.key, time, p.response, up)])
  }

  /** The store may start with values that do not decode, but with no stored response. */
  predicate Initial(s: State) {
    s.phases == map[] && s.trace == [] && forall k :: k in s.cells ==> s.cells[k].value.Undecodable?
  }

  function Execute(s: State, actions: seq<Action>, ttl: nat): State {
    if actions == [] then s else Apply(Execute(s, actions[..|actions| - 1], ttl), actions[|actions| - 1], ttl)
  }

  lemma {:induction false} ApplyGrows(s: State, a: Action, ttl: nat)
    ensures s.trace <= Apply(s, a, ttl).trace
  {}

  // ------------------------------------------------------------ what every step keeps

  /** A successful Set of `key` at index m of the trace. */
  predicate StoredAt(tr: seq<Event>, m: int, key: string) {
    0 <= m < |tr| && tr[m].Put? && tr[m].ok && tr[m].key == key
  }

  /** The last successful Set of `key` before index i is at m. */
  ghost predicate LastStored(tr: seq<Event>, m: int, key: string, i: int) {
    m < i && StoredAt(tr, m, key) && forall m' :: m < m' < i ==> !StoredAt(tr, m', key)
  }

  /** The replay at i returns what was last stored under the key, by the request that ran it, not yet lapsed. */
  ghost predicate ReplayJustified(tr: seq<Event>, i: int, ttl: nat)
    requires 0 <= i < |tr| && tr[i].Got? && tr[i].result.Hit?
  {
    exists j, m :: j < m && LastStored(tr, m, tr[i].key, i)
      && !Lapsed(tr[m].time, ttl, tr[i].time)
      && tr[m].response == tr[i].result.response
      && RanFor(tr, j, tr[m].req, tr[i].key, tr[i].result.response)
  }

  /** The Get at g let its request through: the store was down, or every earlier stored response had lapsed. */
  ghost predicate PassJustified(tr: seq<Event>, g: int, ttl: nat)
    requires 0 <= g < |tr| && tr[g].Got?
  {
    tr[g].result.Unavailable? || forall m :: m < g && StoredAt(tr, m, tr[g].key) ==> Lapsed(tr[m].time, ttl, tr[g].time)
  }

  /** The execution at i belongs to a request whose Get passed. */
  ghost predicate RunJustified(tr: seq<Event>, i: int, ttl: nat)
    requires 0 <= i < |tr| && tr[i].Ran?
  {
    exists g :: 0 <= g < i && PassedFor(tr, g, tr[i].req, tr[i].key) && PassJustified(tr, g, ttl)
  }

  predicate PassedFor(tr: seq<Event>, g: int, req: nat, key: string) {
    0 <= g < |tr| && tr[g].Got? && tr[g].req == req && tr[g].key == key && !tr[g].result.Hit?
  }

  predicate RanFor(tr: seq<Event>, j: int, req: nat, key: string, response: Response) {
    0 <= j < |tr| && tr[j] == Ran(req, key, response)
  }

  /** The request passed a Get that the store answered, at g, and then ran to this response, at j. */
  predicate CapturedFor(tr: seq<Event>, g: int, j: int, req: nat, key: string, response: Response) {
    && g < j && PassedFor(tr, g, req, key) && !tr[g].result.Unavailable?
    && RanFor(tr, j, req, key, response)
  }

  ghost predicate EventJustified(tr: seq<Event>, i: int, ttl: nat)
    requires 0 <= i < |tr|
  {
    match tr[i]
    case Got(_, _, _, result) => if result.Hit? then ReplayJustified(tr, i, ttl) else PassJustified(tr, i, ttl)
    case Ran(_, _, _) => RunJustified(tr, i, ttl)
    case Put(r, key, _, response, _) =>
      Cacheable(response.status) && exists g, j :: j < i && CapturedFor(tr, g, j, r, key, response)
  }

  ghost predicate Justified(tr: seq<Event>, ttl: nat) {
    forall i :: 0 <= i < |tr| ==> EventJustified(tr, i, ttl)
  }

  /** The store and the trace agree on what has been stored and until when. */
  ghost predicate StoreMatches(s: State, ttl: nat) {
    && (forall k :: k in s.cells && s.cells[k].value.Json? ==>
          exists m :: LastStored(s.trace, m, k, |s.trace|) && s.trace[m].response == s.cells[k].value.response
                      && s.cells[k].deadline == Deadline(s.trace[m].time, ttl))
    && (forall m, k :: StoredAt(s.trace, m, k) ==>
          && k in s.cells && s.cells[k].value.Json?
          && (ttl == 0 ==> s.cells[k].deadline.None?)
          && (ttl > 0 ==> s.cells[k].deadline.Some? && s.cells[k].deadline.value >= s.trace[m].time + ttl))
    && (forall m, k :: StoredAt(s.trace, m, k) ==> s.trace[m].time <= s.clock)
  }

  ghost predicate PhasesMatch(s: State) {
    && (forall r :: r in s.phases && s.phases[r].Running? ==>
          exists g :: PassedFor(s.trace, g, r, s.phases[r].key)
                      && (s.phases[r].capture <==> !s.trace[g].result.Unavailable?))
    && (forall r :: r in s.phases && s.phases[r].Storing? ==>
          && Cacheable(s.phases[r].response.status)
          && exists g, j :: CapturedFor(s.trace, g, j, r, s.phases[r].key, s.phases[r].response))
  }

  ghost predicate Invariant(s: State, ttl: nat) {
    Justified(s.trace, ttl) && StoreMatches(s, ttl) && PhasesMatch(s)
  }

  // ------------------------------------------------------------ preservation

  /** Justifications survive longer traces. */
  lemma {:induction false} JustifiedExtends(tr: seq<Event>, e: Event, ttl: nat)
    requires Justified(tr, ttl)
    requires EventJustified(tr + [e], |tr|, ttl)
    ensures Justified(tr + [e], ttl)
  {
    var tr' := tr + [e];
    forall i | 0 <= i < |tr'| ensures EventJustified(tr', i, ttl) {
      if i < |tr| { EventStillJustified(tr, e, i, ttl); }
    }
  }

  lemma {:induction false} EventStillJustified(tr: seq<Event>, e: Event, i: int, ttl: nat)
    requires 0 <= i < |tr| && EventJustified(tr, i, ttl)
    ensures EventJustified(tr + [e], i, ttl)
  {
    var tr' := tr + [e];
    match tr[i] {
      case Got(_, key, _, result) =>
        if result.Hit? {
          var j, m :| j < m && LastStored(tr, m, key, i)
            && !Lapsed(tr[m].time, ttl, tr[i].time) && tr[m].response == result.response
            && RanFor(tr, j, tr[m].req, key, result.response);
          LastStillStored(tr, e, m, key, i);
          assert RanFor(tr', j, tr[m].req, key, result.response);
        } else {
          PassStillJustified(tr, e, i, ttl);
        }
      case Ran(r, key, _) =>
        var g :| 0 <= g < i && PassedFor(tr, g, r, key) && PassJustified(tr, g, ttl);
        PassStillJustified(tr, e, g, ttl);
        assert PassedFor(tr', g, r, key);
      case Put(r, key, _, response, _) =>
        var g, j :| j < i && CapturedFor(tr, g, j, r, key, response);
        assert CapturedFor(tr', g, j, r, key, response);
    }
  }

  lemma {:induction false} LastStillStored(tr: seq<Event>, e: Event, m: int, key: string, i: int)
    requires LastStored(tr, m, key, i) && i <= |tr|
    ensures LastStored(tr + [e], m, key, i)
  {
    forall m' | m < m' < i ensures !StoredAt(tr + [e], m', key) {
      assert !StoredAt(tr, m', key);
    }
  }

  lemma {:induction false} PassStillJustified(tr: seq<Event>, e: Event, g: int, ttl: nat)
    requires 0 <= g < |tr| && tr[g].Got? && PassJustified(tr, g, ttl)
    ensures PassJustified(tr + [e], g, ttl)
  {
    forall m | m < g && StoredAt(tr + [e], m, tr[g].key)
      ensures tr[g].result.Unavailable? || Lapsed((tr + [e])[m].time, ttl, tr[g].time)
    {
      assert StoredAt(tr, m, tr[g].key);
    }
  }

  lemma {:induction false} GetJustified(s: State, r: nat, key: string, time: int, up: bool, ttl: nat)
    requires Invariant(s, ttl)
    ensures EventJustified(s.trace + [Got(r, key, time, Get(s.cells, key, time, up))], |s.trace|, ttl)
  {
    var result := Get(s.cells, key, time, up);
    var tr' := s.trace + [Got(r, key, time, result)];
    if result.Hit? {
      var m :| LastStored(s.trace, m, key, |s.trace|) && s.trace[m].response == result.response
        && s.cells[key].deadline == Deadline(s.trace[m].time, ttl);
      assert EventJustified(s.trace, m, ttl);
      var g, j :| j < m && CapturedFor(s.trace, g, j, s.trace[m].req, key, result.response);
      LastStillStored(s.trace, tr'[|s.trace|], m, key, |s.trace|);
      assert RanFor(tr', j, s.trace[m].req, key, result.response);
    } else if up {
      forall m | m < |s.trace| && StoredAt(tr', m, key) ensures Lapsed(tr'[m].time, ttl, time) {
        assert StoredAt(s.trace, m, key);
      }
    }
  }

  lemma {:induction false} RunEventJustified(s: State, r: nat, response: Response, ttl: nat)
    requires Invariant(s, ttl) && r in s.phases && s.phases[r].Running?
    ensures EventJustified(s.trace + [Ran(r, s.phases[r].key, response)], |s.trace|, ttl)
  {
    var key := s.phases[r].key;
    var e := Ran(r, key, response);
    var g :| PassedFor(s.trace, g, r, key);
    assert EventJustified(s.trace, g, ttl);
    PassStillJustified(s.trace, e, g, ttl);
    assert PassedFor(s.trace + [e], g, r, key);
  }

  lemma {:induction false} SetJustified(s: State, r: nat, time: int, up: bool, ttl: nat)
    requires Invariant(s, ttl) && r in s.phases && s.phases[r].Storing?
    ensures var p := s.phases[r];
      EventJustified(s.trace + [Put(r, p.key, time, p.response, up)], |s.trace|, ttl)
  {
    var p := s.phases[r];
    var g, j :| CapturedFor(s.trace, g, j, r, p.key, p.response);
    assert CapturedFor(s.trace + [Put(r, p.key, time, p.response, up)], g, j, r, p.key, p.response);
  }

  lemma {:induction false} StoreStillMatches(s: State, a: Action, ttl: nat)
    requires StoreMatches(s, ttl) && Enabled(s, a)
    ensures StoreMatches(Apply(s, a, ttl), ttl)
  {
    var s' := Apply(s, a, ttl);
    var n := |s.trace|;
    assert s'.trace == s.trace + [s'.trace[n]];
    forall k | k in s'.cells && s'.cells[k].value.Json?
      ensures exists m :: LastStored(s'.trace, m, k, |s'.trace|) && s'.trace[m].response == s'.cells[k].value.response
                          && s'.cells[k].deadline == Deadline(s'.trace[m].time, ttl)
    {
      if a.DoSet? && a.up && k == s.phases[a.req].key {
        assert LastStored(s'.trace, n, k, |s'.trace|);
      } else {
        var m :| LastStored(s.trace, m, k, n) && s.trace[m].response == s.cells[k].value.response
          && s.cells[k].deadline == Deadline(s.trace[m].time, ttl);
        LastStillStored(s.trace, s'.trace[n], m, k, n);
        assert !StoredAt(s'.trace, n, k) && LastStored(s'.trace, m, k, |s'.trace|);
      }
    }
    forall m, k | StoredAt(s'.trace, m, k) && m < n ensures StoredAt(s.trace, m, k) {}
  }

  lemma {:induction false} PhasesStillMatch(s: State, a: Action, ttl: nat)
    requires PhasesMatch(s) && Enabled(s, a)
    ensures PhasesMatch(Apply(s, a, ttl))
  {
    var s' := Apply(s, a, ttl);
    var n := |s.trace|;
    forall r | r in s'.phases && s'.phases[r].Running?
      ensures exists g :: PassedFor(s'.trace, g, r, s'.phases[r].key)
                          && (s'.phases[r].capture <==> !s'.trace[g].result.Unavailable?)
    {
      if a.DoGet? && a.req == r {
        assert PassedFor(s'.trace, n, r, a.key);
      } else {
        var g :| PassedFor(s.trace, g, r, s.phases[r].key)
          && (s.phases[r].capture <==> !s.trace[g].result.Unavailable?);
        assert PassedFor(s'.trace, g, r, s.phases[r].key);
      }
    }
    forall r | r in s'.phases && s'.phases[r].Storing?
      ensures Cacheable(s'.phases[r].response.status)
      ensures exists g, j :: CapturedFor(s'.trace, g, j, r, s'.phases[r].key, s'.phases[r].response)
    {
      if a.DoRun? && a.req == r {
        var g :| PassedFor(s.trace, g, r, s.phases[r].key)
          && (s.phases[r].capture <==> !s.trace[g].result.Unavailable?);
        assert CapturedFor(s'.trace, g, n, r, s'.phases[r].key, s'.phases[r].response);
      } else {
        var g, j :| CapturedFor(s.trace, g, j, r, s.phases[r].key, s.phases[r].response);
        assert CapturedFor(s'.trace, g, j, r, s.phases[r].key, s.phases[r].response);
      }
    }
  }

  lemma {:induction false} ApplyKeepsInvariant(s: State, a: Action, ttl: nat)
    requires Invariant(s, ttl)
    ensures Invariant(Apply(s, a, ttl), ttl)
  {
    if Enabled(s, a) {
      StoreStillMatches(s, a, ttl);
      PhasesStillMatch(s, a, ttl);
      match a {
        case DoGet(r, key, time, up) =>
          GetJustified(s, r, key, time, up, ttl);
          JustifiedExtends(s.trace, Got(r, key, time, Get(s.cells, key, time, up)), ttl);
        case DoRun(r, response) =>
          RunEventJustified(s, r, response, ttl);
          JustifiedExtends(s.trace, Ran(r, s.phases[r].key, response), ttl);
        case DoSet(r, time, up) =>
          SetJustified(s, r, time, up, ttl);
          JustifiedExtends(s.trace, Put(r, s.phases[r].key, time, s.phases[r].response, up), ttl);
      }
    }
  }

  lemma {:induction false} ExecuteKeepsInvariant(s: State, actions: seq<Action>, ttl: nat)
    requires Initial(s)
    ensures Invariant(Execute(s, actions, ttl), ttl)
  {
    if actions != [] {
      ExecuteKeepsInvariant(s, actions[..|actions| - 1], ttl);
      ApplyKeepsInvariant(Execute(s, actions[..|actions| - 1], ttl), actions[|actions| - 1], ttl);
    }
  }

  // ------------------------------------------------------------ the main results

  /**
   In every interleaving, a replay returns exactly the response of the last successful Set of
   its key before it, which the storing request itself had produced and which had not lapsed.
   */
  lemma {:induction false} ReplaysAreFaithful(s: State, actions: seq<Action>, ttl: nat, i: int)
    returns (j: int, m: int)
    requires Initial(s)
    requires var tr := Execute(s, actions, ttl).trace; 0 <= i < |tr| && tr[i].Got? && tr[i].result.Hit?
    ensures var tr := Execute(s, actions, ttl).trace;
      && 0 <= j < m < i && LastStored(tr, m, tr[i].key, i)
      && tr[m].response == tr[i].result.response && !Lapsed(tr[m].time, ttl, tr[i].time)
      && RanFor(tr, j, tr[m].req, tr[i].key, tr[i].result.response)
  {
    ExecuteKeepsInvariant(s, actions, ttl);
    var tr := Execute(s, actions, ttl).trace;
    assert EventJustified(tr, i, ttl);
    j, m :| j < m && LastStored(tr, m, tr[i].key, i)
      && !Lapsed(tr[m].time, ttl, tr[i].time)
      && tr[m].response == tr[i].result.response
      && RanFor(tr, j, tr[m].req, tr[i].key, tr[i].result.response);
  }

  /** Two replays of a key with no successful Set of it between them return the same response. */
  lemma {:induction false} ReplaysAgree(s: State, actions: seq<Action>, ttl: nat, i: int, i': int)
    requires Initial(s)
    requires var tr := Execute(s, actions, ttl).trace;
      && 0 <= i < i' < |tr| && tr[i].Got? && tr[i'].Got? && tr[i].result.Hit? && tr[i'].result.Hit?
      && tr[i].key == tr[i'].key && forall m :: i < m < i' ==> !StoredAt(tr, m, tr[i].key)
    ensures var tr := Execute(s, actions, ttl).trace; tr[i].result == tr[i'].result
  {
    var tr := Execute(s, actions, ttl).trace;
    var j, m := ReplaysAreFaithful(s, actions, ttl, i);
    var j', m' := ReplaysAreFaithful(s, actions, ttl, i');
    assert StoredAt(tr, m, tr[i].key) && StoredAt(tr, m', tr[i].key);
    assert !StoredAt(tr, i, tr[i].key);
  }

  /**
   Only responses with a status from 200 to 499 are ever put into the store, and only by the
   request that produced them after a Get that the store answered: transient failures stay retryable.
   */
  lemma {:induction false} StoresAreCaptured(s: State, actions: seq<Action>, ttl: nat, m: int) returns (g: int, j: int)
    requires Initial(s)
    requires var tr := Execute(s, actions, ttl).trace; 0 <= m < |tr| && tr[m].Put?
    ensures var tr := Execute(s, actions, ttl).trace;
      && 200 <= tr[m].response.status < 500
      && g < j < m && CapturedFor(tr, g, j, tr[m].req, tr[m].key, tr[m].response)
  {
    ExecuteKeepsInvariant(s, actions, ttl);
    var tr := Execute(s, actions, ttl).trace;
    assert EventJustified(tr, m, ttl);
    g, j :| j < m && CapturedFor(tr, g, j, tr[m].req, tr[m].key, tr[m].response);
  }

  /**
   Conversely every such response is stored: a request that runs to a status from 200 to 499 after
   a Get that the store answered is next to store its response, and once the Set has succeeded the
   key replays it until the TTL has passed, or for ever if that is zero. Any other status ends the
   request, and leaves the store as it was.
   */
  lemma {:induction false} AnswersAreStored(
      s: State, r: nat, key: string, t: int, response: Response, t': int, later: int, ttl: nat)
    requires r !in s.phases && s.clock <= t <= t' && !Get(s.cells, key, t, true).Hit?
    ensures var ran := Apply(Apply(s, DoGet(r, key, t, true), ttl), DoRun(r, response), ttl);
      var stored := Apply(ran, DoSet(r, t', true), ttl);
      && ran.cells == s.cells && r in ran.phases
      && (200 <= response.status < 500 ==>
            && ran.phases[r] == Storing(key, response)
            && (ttl == 0 || later <= t' + ttl ==> Get(stored.cells, key, later, true) == Hit(response))
            && (ttl != 0 && later > t' + ttl ==> Get(stored.cells, key, later, true) == Miss))
      && (response.status < 200 || response.status >= 500 ==> ran.phases[r] == Done && stored.cells == s.cells)
  {}

  /** The store answered every Get, and nothing stored lapsed before any later Get. */
  ghost predicate StoreUpWithinTTL(tr: seq<Event>, ttl: nat) {
    && (forall i :: 0 <= i < |tr| && tr[i].Got? ==> !tr[i].result.Unavailable?)
    && (forall m, i :: 0 <= m < i < |tr| && tr[m].Put? && tr[i].Got? ==> !Lapsed(tr[m].time, ttl, tr[i].time))
  }

  /**
   In every interleaving, the handler runs only in a request whose own Get passed: the store
   was down for that Get, or every response stored under the key before it had lapsed. With
   the store up and no lapse, that Get therefore precedes the key's first successful Set.
   */
  lemma {:induction false} ExecutionsPrecedeFirstStore(
      s: State, actions: seq<Action>, ttl: nat, i: int) returns (g: int)
    requires Initial(s)
    requires var tr := Execute(s, actions, ttl).trace; 0 <= i < |tr| && tr[i].Ran?
    ensures var tr := Execute(s, actions, ttl).trace;
      && 0 <= g < i && PassedFor(tr, g, tr[i].req, tr[i].key) && PassJustified(tr, g, ttl)
      && (StoreUpWithinTTL(tr, ttl) ==> forall m :: StoredAt(tr, m, tr[i].key) ==> g < m)
  {
    ExecuteKeepsInvariant(s, actions, ttl);
    var tr := Execute(s, actions, ttl).trace;
    assert EventJustified(tr, i, ttl);
    g :| 0 <= g < i && PassedFor(tr, g, tr[i].req, tr[i].key) && PassJustified(tr, g, ttl);
    if StoreUpWithinTTL(tr, ttl) { PassPrecedesStores(tr, g, ttl); }
  }

  lemma {:induction false} PassPrecedesStores(tr: seq<Event>, g: int, ttl: nat)
    requires 0 <= g < |tr| && tr[g].Got? && PassJustified(tr, g, ttl) && StoreUpWithinTTL(tr, ttl)
    ensures forall m :: StoredAt(tr, m, tr[g].key) ==> g < m
  {
    forall m | StoredAt(tr, m, tr[g].key) ensures g < m {
      assert tr[m].Put? && tr[g].Got?;
    }
  }

  /**
   Exactly when a duplicate is replayed: while the store answers, a Get is a replay if and only
   if some response stored under its key before it has not lapsed.
   */
  lemma {:induction false} ReplaysExactlyWhen(s: State, actions: seq<Action>, ttl: nat, g: int)
    requires Initial(s)
    requires var tr := Execute(s, actions, ttl).trace; 0 <= g < |tr| && tr[g].Got? && !tr[g].result.Unavailable?
    ensures var tr := Execute(s, actions, ttl).trace;
      tr[g].result.Hit? <==> exists m :: m < g && StoredAt(tr, m, tr[g].key) && !Lapsed(tr[m].time, ttl, tr[g].time)
  {
    ExecuteKeepsInvariant(s, actions, ttl);
    assert EventJustified(Execute(s, actions, ttl).trace, g, ttl);
  }

  /**
   A duplicate that overlaps the first request is not replayed: two requests with one key, both
   past their Get before either has stored, both run the handler although the store never fails.
   */
  lemma {:induction false} OverlappingDuplicatesBothRun(
      key: string, first: Response, second: Response, t: int, ttl: nat)
    ensures var s := State(map[], map[], t, []);
      var actions := [DoGet(0, key, t, true), DoGet(1, key, t, true), DoRun(0, first), DoRun(1, second)];
      && Initial(s)
      && Execute(s, actions, ttl).trace
         == [Got(0, key, t, Miss), Got(1, key, t, Miss), Ran(0, key, first), Ran(1, key, second)]
  {
    var s0 := State(map[], map[], t, []);
    var a := [DoGet(0, key, t, true), DoGet(1, key, t, true), DoRun(0, first), DoRun(1, second)];
    assert a[..3] == [a[0], a[1], a[2]] && a[..3][..2] == [a[0], a[1]];
    assert [a[0], a[1]][..1] == [a[0]] && [a[0]][..0] == [];
    var s1 := Apply(s0, a[0], ttl);
    assert s1 == Execute(s0, [a[0]], ttl);
    var s2 := Apply(s1, a[1], ttl);
    assert s2 == Execute(s0, [a[0], a[1]], ttl);
    var s3 := Apply(s2, a[2], ttl);
    assert s3 == Execute(s0, a[..3], ttl);
  }

  // ------------------------------------------------------------ independence of keys

  /** A set of keys, such as one key, or all keys of a tenant. */
  type Selection = string -> bool

  /** The step takes effect, and on a selected key. */
  predicate Concerns(s: State, a: Action, mine: Selection) {
    && Enabled(s, a)
    && match a
       case DoGet(_, key, _, _) => mine(key)
       case DoRun(r, _) => mine(s.phases[r].key)
       case DoSet(r, _, _) => mine(s.phases[r].key)
  }

  /** The run without the steps on keys that are not selected. */
  function Erase(s: State, actions: seq<Action>, ttl: nat, mine: Selection): seq<Action> {
    if actions == [] then [] else
      var init, a := actions[..|actions| - 1], actions[|actions| - 1];
      if Concerns(Execute(s, init, ttl), a, mine) then Erase(s, init, ttl, mine) + [a] else Erase(s, init, ttl, mine)
  }

  /** The events on selected keys. */
  function EventsOn(tr: seq<Event>, mine: Selection): seq<Event> {
    if tr == [] then [] else
      var init, e := EventsOn(tr[..|tr| - 1], mine), tr[|tr| - 1];
      if mine(e.key) then init + [e] else init
  }

  lemma {:induction false} EventsSnoc(tr: seq<Event>, e: Event, mine: Selection)
    ensures EventsOn(tr + [e], mine) == if mine(e.key) then EventsOn(tr, mine) + [e] else EventsOn(tr, mine)
  {
    assert (tr + [e])[..|tr|] == tr;
  }

  predicate Pending(p: Phase, mine: Selection) {
    !p.Done? && mine(p.key)
  }

  /** `part` has the selected keys, their requests and their events of `whole`, and nothing else. */
  ghost predicate Agrees(whole: State, part: State, mine: Selection) {
    && (forall k :: mine(k) ==> (k in whole.cells <==> k in part.cells))
    && (forall k :: mine(k) && k in whole.cells ==> whole.cells[k] == part.cells[k])
    && (forall r :: r in part.phases ==> r in whole.phases && part.phases[r] == whole.phases[r])
    && (forall r :: r in whole.phases && Pending(whole.phases[r], mine) ==> r in part.phases)
    && part.clock <= whole.clock
    && part.trace == EventsOn(whole.trace, mine)
  }

  /** Requests of the erased run are on selected keys. */
  ghost predicate Selected(s: State, mine: Selection) {
    forall r :: r in s.phases && !s.phases[r].Done? ==> mine(s.phases[r].key)
  }

  lemma {:induction false} GetAgrees(
      whole: State, part: State, r: nat, key: string, time: int, up: bool, ttl: nat, mine: Selection)
    requires Agrees(whole, part, mine) && Concerns(whole, DoGet(r, key, time, up), mine)
    ensures Agrees(Apply(whole, DoGet(r, key, time, up), ttl), Apply(part, DoGet(r, key, time, up), ttl), mine)
  {
    GetSame(whole.cells, part.cells, key, time, up);
    EventsSnoc(whole.trace, Got(r, key, time, Get(whole.cells, key, time, up)), mine);
  }

  lemma {:induction false} GetSame(cells: Cells, cells': Cells, key: string, time: int, up: bool)
    requires (key in cells <==> key in cells') && (key in cells ==> cells[key] == cells'[key])
    ensures Get(cells, key, time, up) == Get(cells', key, time, up)
  {}

  lemma {:induction false} RunAgrees(
      whole: State, part: State, r: nat, response: Response, ttl: nat, mine: Selection)
    requires Agrees(whole, part, mine) && Concerns(whole, DoRun(r, response), mine)
    ensures Agrees(Apply(whole, DoRun(r, response), ttl), Apply(part, DoRun(r, response), ttl), mine)
  {
    EventsSnoc(whole.trace, Ran(r, whole.phases[r].key, response), mine);
  }

  lemma {:induction false} SetAgrees(
      whole: State, part: State, r: nat, time: int, up: bool, ttl: nat, mine: Selection)
    requires Agrees(whole, part, mine) && Concerns(whole, DoSet(r, time, up), mine)
    ensures Agrees(Apply(whole, DoSet(r, time, up), ttl), Apply(part, DoSet(r, time, up), ttl), mine)
  {
    var p := whole.phases[r];
    EventsSnoc(whole.trace, Put(r, p.key, time, p.response, up), mine);
  }

  lemma {:induction false} ConcernedStepAgrees(whole: State, part: State, a: Action, ttl: nat, mine: Selection)
    requires Agrees(whole, part, mine) && Concerns(whole, a, mine)
    ensures Agrees(Apply(whole, a, ttl), Apply(part, a, ttl), mine)
  {
    match a {
      case DoGet(r, key, time, up) => GetAgrees(whole, part, r, key, time, up, ttl, mine);
      case DoRun(r, response) => RunAgrees(whole, part, r, response, ttl, mine);
      case DoSet(r, time, up) => SetAgrees(whole, part, r, time, up, ttl, mine);
    }
  }

  lemma {:induction false} OtherStepAgrees(whole: State, part: State, a: Action, ttl: nat, mine: Selection)
    requires Agrees(whole, part, mine) && !Concerns(whole, a, mine)
    requires Selected(part, mine)
    ensures Agrees(Apply(whole, a, ttl), part, mine)
  {
    if Enabled(whole, a) {
      var whole' := Apply(whole, a, ttl);
      EventsSnoc(whole.trace, whole'.trace[|whole.trace|], mine);
    }
  }

  lemma {:induction false} ExecuteSnoc(s: State, actions: seq<Action>, a: Action, ttl: nat)
    ensures Execute(s, actions + [a], ttl) == Apply(Execute(s, actions, ttl), a, ttl)
  {
    assert (actions + [a])[..|actions|] == actions;
  }

  /**
   Erasing every step on other keys from a run leaves the selected keys exactly as they were: the
   same cells, the same requests in the same phases, and the same events in the same order. So
   every Get on a selected key returns what it returned with all the other traffic present.
   */
  lemma {:induction false} KeysAreIndependent(s: State, actions: seq<Action>, ttl: nat, mine: Selection)
    requires Initial(s)
    ensures Agrees(Execute(s, actions, ttl), Execute(s, Erase(s, actions, ttl, mine), ttl), mine)
    ensures Selected(Execute(s, Erase(s, actions, ttl, mine), ttl), mine)
  {
    if actions != [] {
      var init, a := actions[..|actions| - 1], actions[|actions| - 1];
      KeysAreIndependent(s, init, ttl, mine);
      var whole, part := Execute(s, init, ttl), Execute(s, Erase(s, init, ttl, mine), ttl);
      if Concerns(whole, a, mine) {
        ExecuteSnoc(s, Erase(s, init, ttl, mine), a, ttl);
        ConcernedStepAgrees(whole, part, a, ttl, mine);
      } else {
        OtherStepAgrees(whole, part, a, ttl, mine);
      }
    }
  }

  /**
   Erasing all other traffic from a run leaves a tenant's records on a route, and the result of
   each Get of them, unchanged. A record of another tenant is among the erased ones if the two
   tenants are apart.
   */
  lemma {:induction false} TenantsAreIndependent(
      s: State, actions: seq<Action>, ttl: nat, tenant: string, path: string)
    requires Initial(s) && Keys.FixedPattern(path)
    ensures var mine: Selection := key => Keys.RecordOf(key, tenant, path);
      && Execute(s, Erase(s, actions, ttl, mine), ttl).trace == EventsOn(Execute(s, actions, ttl).trace, mine)
      && forall t, k :: Keys.Apart(t, tenant, path) ==>
           (mine(Keys.RedisKey(t, Keys.IdemSuffix(path, k))) <==> t == tenant)
  {
    var mine: Selection := key => Keys.RecordOf(key, tenant, path);
    KeysAreIndependent(s, actions, ttl, mine);
    forall t, k | Keys.Apart(t, tenant, path)
      ensures mine(Keys.RedisKey(t, Keys.IdemSuffix(path, k))) <==> t == tenant
    {
      Keys.RecordsBelongExactly(t, k, tenant, path);
    }
  }

  // ------------------------------------------------------------ one request at a time

  /** What the world does to one request: the store's answers, and the handler's response write by write. */
  datatype Attempt = Attempt(
    getTime: int, getUp: bool,
    writes: seq<string>, status: int, contentType: string,
    setTime: int, setUp: bool)

  function Concat(writes: seq<string>): string {
    if writes == [] then "" else Concat(writes[..|writes| - 1]) + writes[|writes| - 1]
  }

  function Produced(a: Attempt): Response {
    Response(a.status, Concat(a.writes), a.contentType)
  }

  datatype Kind =
    | Replayed
    | Undeduplicated  // the store was down for the Get
    | Transient       // a status that is not cached
    | Unsaved         // the Set failed
    | Saved

  datatype Outcome = Outcome(kind: Kind, response: Response)

  function Conclude(cells: Cells, key: string, a: Attempt): Outcome {
    var result := Get(cells, key, a.getTime, a.getUp);
    if result.Hit? then Outcome(Replayed, result.response)
    else if result.Unavailable? then Outcome(Undeduplicated, Produced(a))
    else if !Cacheable(a.status) then Outcome(Transient, Produced(a))
    else if !a.setUp then Outcome(Unsaved, Produced(a))
    else Outcome(Saved, Produced(a))
  }

  function After(cells: Cells, key: string, a: Attempt, ttl: nat): Cells {
    var o := Conclude(cells, key, a);
    if o.kind.Saved? then Set(cells, key, o.response, a.setTime, ttl) else cells
  }

  /** The steps of one request that no other request interrupts. */
  function Steps(s: State, r: nat, key: string, a: Attempt, ttl: nat): State {
    var got := Apply(s, DoGet(r, key, a.getTime, a.getUp), ttl);
    var ran := Apply(got, DoRun(r, Produced(a)), ttl);
    Apply(ran, DoSet(r, a.setTime, a.setUp), ttl)
  }

  /** What one request adds to the trace: a replay, or an execution that may be put into the store. */
  function Footprint(r: nat, key: string, a: Attempt, result: Lookup): seq<Event> {
    var got := Got(r, key, a.getTime, result);
    if result.Hit? then [got]
    else if result.Unavailable? || !Cacheable(a.status) then [got, Ran(r, key, Produced(a))]
    else [got, Ran(r, key, Produced(a)), Put(r, key, a.setTime, Produced(a), a.setUp)]
  }

  /** An uninterrupted request is its Get, its execution and its Set: the two views of the protocol are one. */
  lemma {:induction false} AttemptIsItsSteps(s: State, r: nat, key: string, a: Attempt, ttl: nat)
    requires r !in s.phases && s.clock <= a.getTime <= a.setTime
    ensures var s' := Steps(s, r, key, a, ttl);
      && s'.cells == After(s.cells, key, a, ttl)
      && s'.phases == s.phases[r := Done]
      && s'.trace == s.trace + Footprint(r, key, a, Get(s.cells, key, a.getTime, a.getUp))
  {
    var got := Apply(s, DoGet(r, key, a.getTime, a.getUp), ttl);
    var ran := Apply(got, DoRun(r, Produced(a)), ttl);
    var result := Get(s.cells, key, a.getTime, a.getUp);
    assert got.trace == s.trace + [Got(r, key, a.getTime, result)];
    if !result.Hit? {
      assert ran.trace == s.trace + [Got(r, key, a.getTime, result), Ran(r, key, Produced(a))];
    }
  }

  /** captureWriter: tees every write into a buffer while passing it on to the client. */
  class CaptureWriter {
    var body: string
    var sent: string

    constructor ()
      ensures body == "" && sent == ""
    {
      body, sent := "", "";
    }

    method Write(b: string)
      modifies this
      ensures body == old(body) + b && sent == old(sent) + b
    {
      body := body + b;
      sent := sent + b;
    }
  }

  class Store {
    var cells: Cells

    constructor ()
      ensures cells == map[]
    {
      cells := map[];
    }

    /**
     The middleware on one request from its arrival to its end. The client sees the response
     of the outcome, and what is saved for replay is byte for byte what it saw: the
     concatenation of everything the handler wrote.
     */
    method Serve(key: string, a: Attempt, ttl: nat) returns (seen: Response, replay: bool)
      modifies this
      ensures cells == After(old(cells), key, a, ttl)
      ensures var o := Conclude(old(cells), key, a); seen == o.response && replay == o.kind.Replayed?
      ensures !replay ==> seen == Response(a.status, Concat(a.writes), a.contentType)
      ensures cells ==
        if !replay && a.getUp && a.setUp && 200 <= a.status < 500
        then old(cells)[key := Cell(Json(seen), if ttl == 0 then None else Some(a.setTime + ttl))]
        else old(cells)
    {
      var result := Get(cells, key, a.getTime, a.getUp);
      if result.Hit? {
        return result.response, true;
      }
      var cw := new CaptureWriter();
      for i := 0 to |a.writes|
        invariant cw.body == cw.sent == Concat(a.writes[..i])
        invariant cells == old(cells)
      {
        assert a.writes[..i + 1][..i] == a.writes[..i];
        cw.Write(a.writes[i]);
      }
      assert a.writes[..|a.writes|] == a.writes;
      seen, replay := Response(a.status, cw.sent, a.contentType), false;
      if !result.Unavailable? && Cacheable(a.status) {
        if a.setUp {
          cells := Set(cells, key, Response(a.status, cw.body, a.contentType), a.setTime, ttl);
        }
      }
    }
  }

  // ------------------------------------------------------------ counting executions

  /** How a run of non-overlapping requests with one key turned out, outcome by outcome. */
  function Outcomes(cells: Cells, key: string, attempts: seq<Attempt>, ttl: nat): (os: seq<Outcome>)
    ensures |os| == |attempts|
  {
    if attempts == [] then []
    else Outcomes(cells, key, attempts[..|attempts| - 1], ttl)
         + [Conclude(AfterAll(cells, key, attempts[..|attempts| - 1], ttl), key, attempts[|attempts| - 1])]
  }

  function AfterAll(cells: Cells, key: string, attempts: seq<Attempt>, ttl: nat): Cells {
    if attempts == [] then cells
    else After(AfterAll(cells, key, attempts[..|attempts| - 1], ttl), key, attempts[|attempts| - 1], ttl)
  }

  function Count(os: seq<Outcome>, kind: Kind): (n: nat)
    ensures n <= |os|
  {
    if os == [] then 0 else Count(os[..|os| - 1], kind) + (if os[|os| - 1].kind == kind then 1 else 0)
  }

  function Executions(os: seq<Outcome>): nat {
    |os| - Count(os, Replayed)
  }

  ghost predicate WithinTTL(attempts: seq<Attempt>, ttl: nat) {
    forall i, j :: 0 <= i < j < |attempts| ==> !Lapsed(attempts[i].setTime, ttl, attempts[j].getTime)
  }

  /** Once a response has been saved, the key holds it, and nothing saved lapses within the run. */
  ghost predicate Settled(cells: Cells, key: string, attempts: seq<Attempt>, os: seq<Outcome>, ttl: nat)
    requires |os| == |attempts|
  {
    && Count(os, Saved) <= 1
    && (Count(os, Saved) == 1 ==>
          exists i :: 0 <= i < |os| && os[i].kind.Saved? && key in cells
                      && cells[key] == Cell(Json(os[i].response), Deadline(attempts[i].setTime, ttl)))
    && (Count(os, Saved) == 0 ==> key in cells ==> cells[key].value.Undecodable?)
  }

  lemma {:induction false} RunSettles(cells: Cells, key: string, attempts: seq<Attempt>, ttl: nat)
    requires WithinTTL(attempts, ttl) && (key in cells ==> cells[key].value.Undecodable?)
    ensures Settled(AfterAll(cells, key, attempts, ttl), key, attempts, Outcomes(cells, key, attempts, ttl), ttl)
  {
    if attempts != [] {
      var n := |attempts| - 1;
      var init, a := attempts[..n], attempts[n];
      RunSettles(cells, key, init, ttl);
      var before, os := AfterAll(cells, key, init, ttl), Outcomes(cells, key, init, ttl);
      var os' := Outcomes(cells, key, attempts, ttl);
      assert os'[..n] == os;
      if Count(os, Saved) == 1 {
        var i :| 0 <= i < |os| && os[i].kind.Saved? && key in before
          && before[key] == Cell(Json(os[i].response), Deadline(init[i].setTime, ttl));
        assert attempts[i] == init[i] && os'[i] == os[i];
        assert !os'[n].kind.Saved?;
      } else if os'[n].kind.Saved? {
        assert AfterAll(cells, key, attempts, ttl)[key] == Cell(Json(os'[n].response), Deadline(a.setTime, ttl));
      }
    }
  }

  /** How many attempts went a certain way. */
  function Tally(attempts: seq<Attempt>, went: Attempt -> bool): nat {
    if attempts == [] then 0 else
      Tally(attempts[..|attempts| - 1], went) + (if went(attempts[|attempts| - 1]) then 1 else 0)
  }

  /** Undeduplicated, transient and unsaved executions have their cause in the attempt. */
  lemma {:induction false} KindsHaveCauses(cells: Cells, key: string, attempts: seq<Attempt>, ttl: nat)
    ensures var os := Outcomes(cells, key, attempts, ttl);
      && Count(os, Undeduplicated) <= Tally(attempts, (a: Attempt) => !a.getUp)
      && Count(os, Transient) <= Tally(attempts, (a: Attempt) => a.status < 200 || a.status >= 500)
      && Count(os, Unsaved) <= Tally(attempts, (a: Attempt) => !a.setUp)
  {
    if attempts != [] {
      var init := attempts[..|attempts| - 1];
      KindsHaveCauses(cells, key, init, ttl);
      assert Outcomes(cells, key, attempts, ttl)[..|init|] == Outcomes(cells, key, init, ttl);
    }
  }

  /** Every execution is of exactly one kind. */
  lemma {:induction false} ExecutionsByKind(os: seq<Outcome>)
    ensures Executions(os) == Count(os, Undeduplicated) + Count(os, Transient)
      + Count(os, Unsaved) + Count(os, Saved)
  {
    if os != [] { ExecutionsByKind(os[..|os| - 1]); }
  }

  /**
   Over any run of non-overlapping requests with one key inside the TTL, the handler executes
   at most once plus once for every Get that found the store down, every response with a status
   outside 200 to 499, and every Set that failed.
   */
  lemma {:induction false} SequentialExecutions(cells: Cells, key: string, attempts: seq<Attempt>, ttl: nat)
    requires WithinTTL(attempts, ttl) && (key in cells ==> cells[key].value.Undecodable?)
    ensures var os := Outcomes(cells, key, attempts, ttl);
      && Executions(os) <= 1 + Count(os, Undeduplicated) + Count(os, Transient) + Count(os, Unsaved)
      && Executions(os) <= 1 + Tally(attempts, (a: Attempt) => !a.getUp)
           + Tally(attempts, (a: Attempt) => a.status < 200 || a.status >= 500)
           + Tally(attempts, (a: Attempt) => !a.setUp)
  {
    RunSettles(cells, key, attempts, ttl);
    KindsHaveCauses(cells, key, attempts, ttl);
    ExecutionsByKind(Outcomes(cells, key, attempts, ttl));
  }
}
