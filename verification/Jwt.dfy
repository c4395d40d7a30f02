/**
 Issuing, validating and refreshing tokens (internal/auth/jwt.go), over symbolic signatures:
 a MAC is a term that names its algorithm, its key and the claims it covers, and nobody but
 the issuer can build one under the issuer's secret. Times are in nanoseconds.
 */
module Jwt {
  import opened Common
  import opened Identities

  datatype Alg = HS256 | HS384 | HS512 | Other(name: string)

  predicate IsHmac(alg: Alg) {
    !alg.Other?
  }

  datatype Use = Access | Refresh | OtherUse(name: string)

  datatype Claims = Claims(
    tenant: string, role: Role, region: string, supplier: string, use: Use,
    subject: string, issuedAt: int, expiresAt: Option<int>)

  datatype Signature = Mac(alg: Alg, key: string, claims: Claims) | Bytes(raw: string)

  datatype Token = Malformed(raw: string) | Token(alg: Alg, claims: Claims, signature: Signature)

  datatype Pair = Pair(access: Token, refresh: Token, expiresAt: int)

  datatype AuthError = ErrExpired | ErrInvalid | ErrWrongUse

  datatype Result<T> = Ok(value: T) | Err(error: AuthError)

  datatype Issuer = Issuer(secret: string, accessTTL: int, refreshTTL: int)

  const SECOND := 1_000_000_000

  /** NumericDate keeps whole seconds, rounding down. */
  function Truncate(t: int): int {
    t / SECOND * SECOND
  }

  predicate Issuable(id: Identity) {
    ValidRole(id.role) && id.tenant != "" && id.user != ""
  }

  function Sign(iss: Issuer, id: Identity, use: Use, iat: int, exp: int): Token {
    var claims := Claims(id.tenant, id.role, id.region, id.supplier, use, id.user, Truncate(iat), Some(Truncate(exp)));
    Token(HS256, claims, Mac(HS256, iss.secret, claims))
  }

  function Issue(iss: Issuer, id: Identity, now: int): Result<Pair> {
    if !ValidRole(id.role) then Err(ErrInvalid)
    else if id.tenant == "" || id.user == "" then Err(ErrInvalid)
    else Ok(Pair(
      Sign(iss, id, Access, now, now + iss.accessTTL),
      Sign(iss, id, Refresh, now, now + iss.refreshTTL),
      now + iss.accessTTL))
  }

  /** Algorithm, then signature, then expiry: a token is expired from the instant `exp` on. */
  function Parse(iss: Issuer, t: Token, now: int): Result<Claims> {
    if t.Malformed? then Err(ErrInvalid)
    else if !IsHmac(t.alg) then Err(ErrInvalid)
    else if t.signature != Mac(t.alg, iss.secret, t.claims) then Err(ErrInvalid)
    else if t.claims.expiresAt.Some? && now >= t.claims.expiresAt.value then Err(ErrExpired)
    else Ok(t.claims)
  }

  function ToIdentity(c: Claims): Result<Identity> {
    if !ValidRole(c.role) then Err(ErrInvalid)
    else Ok(Identity(c.tenant, c.subject, c.role, c.region, c.supplier))
  }

  function Validate(iss: Issuer, t: Token, now: int): Result<Identity> {
    match Parse(iss, t, now)
    case Err(e) => Err(e)
    case Ok(c) => if c.use != Access then Err(ErrWrongUse) else ToIdentity(c)
  }

  function DoRefresh(iss: Issuer, t: Token, now: int): Result<Pair> {
    match Parse(iss, t, now)
    case Err(e) => Err(e)
    case Ok(c) =>
      if c.use != Refresh then Err(ErrWrongUse) else
        match ToIdentity(c)
        case Err(e) => Err(e)
        case Ok(id) => Issue(iss, id, now)
  }

  // ------------------------------------------------------------ round trip

  lemma WholeSeconds(t: int)
    ensures Truncate(t) <= t < Truncate(t) + 1_000_000_000 && Truncate(t) % 1_000_000_000 == 0
  {}

  /**
   A pair issued to an identity: the access token validates to that identity until its expiry,
   truncated to the second, and never as a refresh token; the refresh token yields a new pair
   for the same identity, and never validates.
   */
  lemma IssueRoundTrip(iss: Issuer, id: Identity, at: int, now: int)
    ensures Issue(iss, id, at).Ok? <==> Issuable(id)
    ensures Issuable(id) ==>
      var p := Issue(iss, id, at).value;
      && Validate(iss, p.access, now) == (if now < Truncate(at + iss.accessTTL) then Ok(id) else Err(ErrExpired))
      && DoRefresh(iss, p.refresh, now)
         == (if now < Truncate(at + iss.refreshTTL) then Issue(iss, id, now) else Err(ErrExpired))
      && DoRefresh(iss, p.access, now).Err? && Validate(iss, p.refresh, now).Err?
  {}

  /** What a pair says of itself: when its access token expires, and that both expiries are whole seconds. */
  predicate Announces(iss: Issuer, p: Pair, t: int) {
    && (Validate(iss, p.access, t).Ok? ==> t < p.expiresAt)
    && (t + 1_000_000_000 <= p.expiresAt ==> Validate(iss, p.access, t).Ok?)
    && p.access.Token? && p.access.claims.expiresAt.Some? && p.access.claims.expiresAt.value % 1_000_000_000 == 0
    && p.refresh.Token? && p.refresh.claims.expiresAt.Some? && p.refresh.claims.expiresAt.value % 1_000_000_000 == 0
  }

  /** The token was signed at this time, told in whole seconds. */
  predicate SignedAt(t: Token, at: int) {
    t.Token? && t.claims.issuedAt <= at < t.claims.issuedAt + 1_000_000_000 && t.claims.issuedAt % 1_000_000_000 == 0
  }

  lemma IssuedPairsAnnounce(iss: Issuer, id: Identity, at: int, t: int)
    requires Issuable(id)
    ensures var p := Issue(iss, id, at).value;
      Announces(iss, p, t) && p.expiresAt == at + iss.accessTTL && SignedAt(p.access, at) && SignedAt(p.refresh, at)
  {
    var p := Issue(iss, id, at).value;
    var exp := Truncate(at + iss.accessTTL);
    assert Validate(iss, p.access, t).Ok? <==> t < exp by {
      IssueRoundTrip(iss, id, at, t);
    }
    assert p.access.claims.expiresAt == Some(exp);
    WholeSeconds(at);
    WholeSeconds(at + iss.accessTTL);
    WholeSeconds(at + iss.refreshTTL);
  }

  /**
   Every issued pair announces the expiry of its access token to within a second, and so does every
   refreshed one: the token is not accepted from the announced time on, and is accepted until a
   second before it.
   */
  lemma {:induction false} PairsAnnounceTheirExpiry(iss: Issuer, id: Identity, token: Token, at: int, t: int)
    ensures var r := Issue(iss, id, at);
      r.Ok? ==>
        && Announces(iss, r.value, t) && r.value.expiresAt == at + iss.accessTTL
        && SignedAt(r.value.access, at) && SignedAt(r.value.refresh, at)
    ensures var r := DoRefresh(iss, token, at);
      r.Ok? ==> Announces(iss, r.value, t) && r.value.expiresAt == at + iss.accessTTL
  {
    if Issuable(id) {
      IssuedPairsAnnounce(iss, id, at, t);
    }
    var r := DoRefresh(iss, token, at);
    if r.Ok? {
      var of := ToIdentity(token.claims).value;
      assert r == Issue(iss, of, at);
      IssuedPairsAnnounce(iss, of, at, t);
    }
  }

  /** A token carries a MAC of its own claims under the issuer's secret, and has not expired. */
  predicate Genuine(iss: Issuer, t: Token, now: int) {
    && t.Token? && (t.alg.HS256? || t.alg.HS384? || t.alg.HS512?)
    && t.signature.Mac? && t.signature.alg == t.alg && t.signature.key == iss.secret && t.signature.claims == t.claims
    && (t.claims.expiresAt.Some? ==> now < t.claims.expiresAt.value)
  }

  /** One of the four roles the platform knows. */
  predicate Known(r: Role) {
    r.Admin? || r.Supplier? || r.WarehouseManager? || r.Analyst?
  }

  /**
   Validation, exactly: a genuine access token with a valid role is accepted as the identity that its
   claims spell out, under any HMAC, and nothing else is accepted; and just so with refresh tokens.
   */
  lemma {:induction false} AcceptedExactlyWhen(iss: Issuer, t: Token, now: int)
    ensures Validate(iss, t, now).Ok? <==> Genuine(iss, t, now) && t.claims.use.Access? && Known(t.claims.role)
    ensures Validate(iss, t, now).Ok? ==>
      var c := t.claims;
      Validate(iss, t, now).value == Identity(c.tenant, c.subject, c.role, c.region, c.supplier)
    ensures DoRefresh(iss, t, now).Ok? <==>
      && Genuine(iss, t, now) && t.claims.use.Refresh? && Known(t.claims.role)
      && t.claims.tenant != "" && t.claims.subject != ""
  {}

  /**
   Why a token is turned away: one that is altered, unsigned or signed another way is invalid; one
   that is the issuer's own is expired from its expiry on, and before it serves the other use only.
   */
  lemma {:induction false} TurnedAway(iss: Issuer, id: Identity, at: int, t: int, forged: Token)
    requires Issuable(id)
    ensures var p := Issue(iss, id, at).value;
      && DoRefresh(iss, p.access, t)
         == Err(if t < p.access.claims.expiresAt.value then ErrWrongUse else ErrExpired)
      && Validate(iss, p.refresh, t)
         == Err(if t < p.refresh.claims.expiresAt.value then ErrWrongUse else ErrExpired)
    ensures forged.Malformed? || forged.alg.Other? || forged.signature != Mac(forged.alg, iss.secret, forged.claims) ==>
      Validate(iss, forged, t) == Err(ErrInvalid) && DoRefresh(iss, forged, t) == Err(ErrInvalid)
  {}

  // ------------------------------------------------------------ runs with an adversary

  /** A token the issuer signed: for whom and when the chain started, and after how many refreshes. */
  datatype Record = Record(token: Token, root: Identity, start: int, hops: nat, at: int)

  datatype Action = DoIssue(id: Identity, now: int) | Present(token: Token, now: int)

  /**
   Unforgeability: whoever presents a MAC under the issuer's secret got it from the issuer.
   Anything else may be presented: other keys, other algorithms, issued signatures on altered
   claims.
   */
  ghost predicate Unforged(records: seq<Record>, t: Token, iss: Issuer) {
    t.Token? && t.signature.Mac? && t.signature.key == iss.secret ==>
      exists k :: 0 <= k < |records| && records[k].token.Token? && records[k].token.signature == t.signature
  }

  function Find(records: seq<Record>, t: Token): (k: int)
    ensures -1 <= k < |records|
    ensures k >= 0 ==> records[k].token == t
    ensures k == -1 ==> forall i :: 0 <= i < |records| ==> records[i].token != t
  {
    if records == [] then -1
    else if records[|records| - 1].token == t then |records| - 1
    else Find(records[..|records| - 1], t)
  }

  function Log(records: seq<Record>, p: Pair, root: Identity, start: int, hops: nat, at: int): seq<Record> {
    records + [Record(p.access, root, start, hops, at), Record(p.refresh, root, start, hops, at)]
  }

  /** Tokens signed so far after an Issue, or after somebody presents a token for refresh. */
  function Apply(iss: Issuer, records: seq<Record>, a: Action): seq<Record> {
    match a
    case DoIssue(id, now) =>
      var r := Issue(iss, id, now);
      if r.Ok? then Log(records, r.value, id, now, 0, now) else records
    case Present(t, now) =>
      var r, k := DoRefresh(iss, t, now), Find(records, t);
      if r.Ok? && k >= 0
      then Log(records, r.value, records[k].root, records[k].start, records[k].hops + 1, now)
      else records
  }

  function Run(iss: Issuer, actions: seq<Action>): seq<Record> {
    if actions == [] then [] else Apply(iss, Run(iss, actions[..|actions| - 1]), actions[|actions| - 1])
  }

  /** Everything presented along the run is unforged at that moment. */
  ghost predicate Honest(iss: Issuer, actions: seq<Action>) {
    actions != [] ==>
      && Honest(iss, actions[..|actions| - 1])
      && (actions[|actions| - 1].Present? ==>
            Unforged(Run(iss, actions[..|actions| - 1]), actions[|actions| - 1].token, iss))
  }

  /** A signed token still speaks for its root, and was signed no later than its hops allow. */
  predicate RecordOk(iss: Issuer, r: Record) {
    && Issuable(r.root)
    && r.at <= r.start + r.hops * iss.refreshTTL
    && (|| r.token == Sign(iss, r.root, Access, r.at, r.at + iss.accessTTL)
        || r.token == Sign(iss, r.root, Refresh, r.at, r.at + iss.refreshTTL))
  }

  ghost predicate AllOk(iss: Issuer, records: seq<Record>) {
    forall k :: 0 <= k < |records| ==> RecordOk(iss, records[k])
  }

  /** An unforged token that parses is one the issuer signed: altering anything breaks the MAC. */
  lemma {:induction false} ParsedWasSigned(iss: Issuer, records: seq<Record>, t: Token, now: int)
    requires AllOk(iss, records) && Unforged(records, t, iss) && Parse(iss, t, now).Ok?
    ensures Find(records, t) >= 0
  {
    var k :| 0 <= k < |records| && records[k].token.Token? && records[k].token.signature == t.signature;
    assert RecordOk(iss, records[k]);
    assert records[k].token == t;
  }

  lemma {:induction false} RefreshKeeps(iss: Issuer, r: Record, now: int)
    requires RecordOk(iss, r) && DoRefresh(iss, r.token, now).Ok?
    ensures DoRefresh(iss, r.token, now) == Issue(iss, r.root, now)
    ensures now <= r.start + (r.hops + 1) * iss.refreshTTL
  {
    WholeSeconds(r.at + iss.refreshTTL);
    assert (r.hops + 1) * iss.refreshTTL == r.hops * iss.refreshTTL + iss.refreshTTL;
  }

  lemma {:induction false} RunKeeps(iss: Issuer, actions: seq<Action>)
    requires Honest(iss, actions)
    ensures AllOk(iss, Run(iss, actions))
  {
    if actions != [] {
      var init, a := actions[..|actions| - 1], actions[|actions| - 1];
      RunKeeps(iss, init);
      var records := Run(iss, init);
      if a.Present? && DoRefresh(iss, a.token, a.now).Ok? {
        ParsedWasSigned(iss, records, a.token, a.now);
        var k := Find(records, a.token);
        RefreshKeeps(iss, records[k], a.now);
        LogKeeps(iss, records, records[k].root, records[k].start, records[k].hops + 1, a.now);
      } else if a.DoIssue? && Issuable(a.id) {
        LogKeeps(iss, records, a.id, a.now, 0, a.now);
      }
    }
  }

  lemma {:induction false} LogKeeps(iss: Issuer, records: seq<Record>, root: Identity, start: int, hops: nat, at: int)
    requires AllOk(iss, records) && Issuable(root) && at <= start + hops * iss.refreshTTL
    ensures AllOk(iss, Log(records, Issue(iss, root, at).value, root, start, hops, at))
  {}

  /** Every record's chain began with an Issue in the run, for that identity at that time. */
  lemma {:induction false} ChainsStartAtIssue(iss: Issuer, actions: seq<Action>, k: int) returns (i: int)
    requires 0 <= k < |Run(iss, actions)|
    ensures 0 <= i < |actions|
    ensures actions[i] == DoIssue(Run(iss, actions)[k].root, Run(iss, actions)[k].start)
  {
    var init, a := actions[..|actions| - 1], actions[|actions| - 1];
    var records := Run(iss, init);
    if k < |records| {
      i := ChainsStartAtIssue(iss, init, k);
    } else if a.DoIssue? {
      i := |actions| - 1;
    } else {
      i := ChainsStartAtIssue(iss, init, Find(records, a.token));
    }
  }

  /** The chain of the record began with an Issue of the run, for its root identity at its start. */
  ghost predicate BeganIn(actions: seq<Action>, r: Record) {
    exists i :: 0 <= i < |actions| && actions[i] == DoIssue(r.root, r.start)
  }

  /** The token of a record speaks for the root of its own chain, and not after what its own hops allow. */
  ghost predicate Bounded(iss: Issuer, actions: seq<Action>, r: Record, id: Identity, now: int) {
    BeganIn(actions, r) && r.root == id && now < r.start + r.hops * iss.refreshTTL + iss.accessTTL
  }

  /**
   Whatever anyone presents after any run of issues and refreshes, a token accepted by Validate is
   one the issuer signed, and every record of it says the same: the identity is that of the Issue
   with which the token's own chain began, and after n refreshes along that chain the token is not
   accepted at or after start + n * refreshTTL + accessTTL. The identity has a valid role and
   non-empty tenant and user, and no token is accepted by both Validate and Refresh.
   */
  lemma {:induction false} AcceptedIdentitiesWereIssued(iss: Issuer, actions: seq<Action>, t: Token, now: int)
    requires Honest(iss, actions) && Unforged(Run(iss, actions), t, iss) && Validate(iss, t, now).Ok?
    ensures var records := Run(iss, actions);
      && (exists k :: 0 <= k < |records| && records[k].token == t)
      && forall k :: 0 <= k < |records| && records[k].token == t ==>
           Bounded(iss, actions, records[k], Validate(iss, t, now).value, now)
    ensures Issuable(Validate(iss, t, now).value)
    ensures DoRefresh(iss, t, now).Err?
  {
    RunKeeps(iss, actions);
    var records := Run(iss, actions);
    ParsedWasSigned(iss, records, t, now);
    assert RecordOk(iss, records[Find(records, t)]);
    forall k | 0 <= k < |records| && records[k].token == t
      ensures Bounded(iss, actions, records[k], Validate(iss, t, now).value, now)
    {
      var i := ChainsStartAtIssue(iss, actions, k);
      RecordIsBounded(iss, records[k], now);
    }
  }

  lemma {:induction false} RecordIsBounded(iss: Issuer, r: Record, now: int)
    requires RecordOk(iss, r) && Validate(iss, r.token, now).Ok?
    ensures Validate(iss, r.token, now).value == r.root
    ensures now < r.start + r.hops * iss.refreshTTL + iss.accessTTL
  {
    WholeSeconds(r.at + iss.accessTTL);
  }
}
