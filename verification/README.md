# ChainPulse gateway: a verified model

ChainPulse's gateway sits in front of every module: it authenticates a caller by JWT or API key,
rate-limits per tenant and route, deduplicates retried writes, authorizes and audits, and only
then lets a handler run. This project models that code in Dafny and proves what it promises over
whole runs, with requests of several gateway instances interleaving at every step.

| file | what it holds |
|---|---|
| `SlidingWindow.dfy` | the sliding-window log of one tenant and route, its runs, and the window bound |
| `MemoryLimiter.dfy` | the in-memory limiter on the heap, pruning slices in place |
| `RedisLimiter.dfy` | the Lua script over a sorted set with key expiry, and its runs |
| `Failover.dfy` | N instances falling back from Redis to memory, and what they let through together |
| `FailoverTightness.dfy` | runs that use up every share of that bound, and when the documented factor holds |
| `Keys.dfy` | key construction and exactly when keys collide |
| `LossyLimiter.dfy` | the same limiters when the sorted set can be lost between calls |
| `SharedLimiter.dfy`, `RouteLimits.dfy` | all tenants and routes over one Redis keyspace and one map per instance, and which endpoints share a limit |
| `Idempotency.dfy` | Get / execute / Set against a TTL store: interleavings, independence of keys, one request at a time |
| `ApiKeys.dfy`, `ApiKeyParts.dfy` | the key table: creates, rotations as transactions with row locks, revocations, resolution; and one tenant's part of it |
| `Jwt.dfy` | issuing, validating and refreshing tokens over symbolic MACs, with an adversary presenting tokens |
| `Policy.dfy`, `DefaultRules.dfy` | the deny-overrides engine for any rule list, Enforce, and the static rule set |
| `Routing.dfy`, `Endpoints.dfy` | the protected routes, and who may use which endpoint |
| `Pipeline.dfy`, `PipelineSteps.dfy` | the router's middleware chain as one state machine over the shared limiter, store, keys and audit log, and what each step does to its request |
| `PipelineLimits.dfy`, `PipelineStore.dfy`, `PipelineReplays.dfy`, `PipelineKeys.dfy` | what holds end to end: limits, deduplication, replays, credentials and key management |
| `PipelineAccess.dfy`, `PipelineProgress.dfy` | what a caller gets, endpoint by endpoint, and that every request can be answered |
| `PipelineSharing.dfy` | runs in which an answer reaches another tenant or another actor, and exactly when that can happen |
| `PipelineDisplacement.dfy` | the run in which a record of another tenant breaks the rate limit, and exactly when there is one |
| `PipelineIsolation.dfy` | a whole run with all other tenants erased from it |
| `DotEnv.dfy` | the `.env` loader |
| `Common.dfy`, `Identities.dfy` | shared types |

Runs are sequences of atomic steps. A step that is not enabled changes nothing, so a theorem about
every sequence of steps is a theorem about every interleaving.

## Assumptions

- Limit and window are constant along a run. Window bounds hold for every window; a window of zero or less makes them empty.
- UUID members, key ids and key secrets never repeat.
- A MAC under the issuer's secret can only come from the issuer; the API key hash is injective.
- Encoding a stored response as JSON and decoding it again is the identity.
- Redis does not evict keys before they expire. `docker-compose.yml` configures allkeys-lru, under which this can fail.
- The Redis server's clock counts from the epoch and does not run backwards, and Redis serves a key up to and including its deadline.
- The limiter and the idempotency store share one Redis keyspace. A command on a key that holds the other's type fails, and counts as Redis being down; a Set replaces whatever its key holds.
- Tenant ids are any non-empty strings, as the token endpoint takes them (`internal/auth/handler.go:48`). Results that need more of them say so: two tenants are apart (`Keys.Apart`) unless one id, followed by a colon, starts with the other followed by `:idem:/v1/orders:`. Ids without a colon, UUIDs among them, are pairwise apart (`Keys.PlainTenantsAreApart`).
- The `up` of a Set and the Commit of a rotation mean that the step took effect. The code can get an error after Redis or Postgres has applied it; such a Set or rotation is a successful one here, and "failed Set" and "failed rotation" mean that nothing was applied.
- Each statement of the key store acts on committed rows, and row locks are exclusive until commit or rollback.

## Where the code and its comments differ

- The comment on `RateLimit` gives a tenant N times the limit during an outage. What passes in a window is at most limit for each instance that fell back within it, and limit more if Redis answered within it (`Failover.FailoverShares`); every such number of shares is used up by some run (`FailoverTightness.FailoverSharesAreAttained`). So the factor N holds exactly unless all N instances fell back within the window and Redis answered within it too (`FailoverTightness.FactorNHoldsExactlyWhen`): a window that straddles an edge of an outage can reach N + 1.
- The comment on `Idempotency` says that a duplicate never re-executes the handler. Duplicates that overlap the first request do (`Idempotency.OverlappingDuplicatesBothRun`); `Idempotency.ReplaysExactlyWhen` says exactly when a duplicate is replayed, and `PipelineStore.ReplayedExactlyWhen` says it of the gateway's requests.
- The comment on the Redis client calls tenant isolation a structural property of the cache layer. It is not, because tenant ids and Idempotency-Keys may contain the separator of the keys. Some run of the gateway replays an answer of one tenant to a request of another if and only if the two are not apart (`PipelineSharing.AnswersCrossTenantsExactlyWhen`); `a` and `a:idem:/v1/orders` are such a pair for every `a` (`PipelineSharing.SomeTenantsAreNotApart`), and by the same crossing a record can take the place of a limiter's set (`Keys.NamespacesMeetExactlyWhen`), which leaves the rate limit intact exactly when the idempotency TTL is zero or at least the window less a millisecond (`PipelineDisplacement.LimitSurvivesExactlyWhen`), as it is by default. For tenants that are apart, isolation holds of whole runs (`PipelineIsolation.TenantsRunAlone`).
- The router puts the idempotency middleware before policy, and its key does not name the actor. So an analyst's 403 is replayed to an admin who may place the order (`PipelineSharing.DenialsAreReplayedToAdmins`), and an admin's 201 to an analyst who may not (`PipelineSharing.OrdersAreReplayedToAnalysts`). The comment on caching holds transient outcomes to be retryable, but the 403 of an evaluation timeout is stored like any other, so an admin who repeats an order after a timeout is replayed the denial (`PipelineSharing.TimeoutsAreReplayed`). An answer a caller is replayed is one its own decision gives if and only if it may proceed exactly when the answered caller may and was not timed out (`PipelineSharing.ReplaysFollowOwnDecisionExactlyWhen`).
- The comment on the limiter's suffix says that limits are independent across endpoints. The suffix names the route pattern and not the method, so two endpoints have independent limits if and only if their patterns differ (`RouteLimits.EndpointsAreIndependentExactlyWhen`): reading and writing `/v1/orders/:id`, reading and writing `/v1/inventory`, and listing and creating `/v1/api-keys` each share one (`RouteLimits.SharedLimits`).
- The comment on the key routes says that only an admin rule allows them. The analysts' rule allows them every read, so an analyst may list the API keys of the tenant (`Endpoints.EndpointAccess`).
- The comment on unquoted values in `.env` files speaks of stripping an inline comment. A value with a '#' anywhere behind its first blank is cut at that blank, further words included (`DotEnv.CommentCutsAtFirstBlank`).
- The comments on the high-value rule speak of roles that could otherwise mutate orders. In the default rule set no role but admin can update or cancel an order, so the rule never changes a decision, only the rule it reports (`DefaultRules.HighValueGateIsRedundant`).

## Model

| member | source | states |
|---|---|---|
| SlidingWindow.PruneConcat | internal/gateway/middleware/ratelimit.go:121-127 | the pruning loop is the order-preserving filter: it distributes over concatenation |
| SlidingWindow.RunSize | internal/gateway/middleware/ratelimit.go:128-132 | over every run the stored log never exceeds the limit |
| SlidingWindow.Retained | internal/gateway/middleware/ratelimit.go:115-127 | as long as no clock has passed x + window, no admitted stamp above x has been pruned |
| SlidingWindow.WindowBound | internal/gateway/middleware/ratelimit.go:113-134 | with clocks out of order by at most d, no interval of length window - d ever holds more than limit admissions |
| SlidingWindow.WindowBoundIsTight | internal/gateway/middleware/ratelimit.go:113-134 | for every limit of two or more, every window and every d below the window, some run puts more than limit admissions into an interval one millisecond longer |
| SlidingWindow.LimitOneNeedsNoOrder | internal/gateway/middleware/ratelimit.go:113-134 | a limit of one keeps the exact window however far out of order the clocks arrive |
| SlidingWindow.MemoryRefinesSpec | internal/gateway/middleware/ratelimit.go:121-133 | under a monotone clock the limiter admits iff fewer than limit earlier admissions lie in (now - window, now]: pruning is unobservable |
| SlidingWindow.DecidedExactly | internal/gateway/middleware/ratelimit.go:113-134 | for any clocks at all, a call is admitted iff fewer than limit earlier admissions are less than a window behind its clock and every clock since |
| MemoryLimiter.Append | internal/gateway/middleware/ratelimit.go:125-132 | append writes into spare capacity or a fresh array, and extends the slice by one element |
| MemoryLimiter.PruneInPlace | internal/gateway/middleware/ratelimit.go:121-127 | writing into `stamps[:0]` while scanning `stamps` leaves exactly the filtered log at the front of the same array |
| MemoryLimiter.StepInPlace | internal/gateway/middleware/ratelimit.go:121-133 | the critical section on one slice is one step of the log |
| MemoryLimiter.Limiter.constructor | internal/gateway/middleware/ratelimit.go:109-111 | a new limiter has an empty log under every key |
| MemoryLimiter.Limiter.Load | internal/gateway/middleware/ratelimit.go:121-121 | indexing an absent key yields an empty slice with its own array |
| MemoryLimiter.Limiter.Allow | internal/gateway/middleware/ratelimit.go:113-134 | a call is one step of its key's log; backing arrays of different keys never alias, so every other log is unchanged |
| MemoryLimiter.TenantsAreIndependent | internal/gateway/middleware/ratelimit.go:113-134 | in every run the log of a tenant's route is the one its own traffic on that route produces alone |
| RedisLimiter.Server.Touch | internal/gateway/middleware/ratelimit.go:74-74 | a key past its deadline is gone when it is touched |
| RedisLimiter.Server.ZRemRangeByScore | internal/gateway/middleware/ratelimit.go:70-70 | removes the scores in the range; an emptied set disappears with its expiry |
| RedisLimiter.Server.ZCard | internal/gateway/middleware/ratelimit.go:71-71 | counts the members |
| RedisLimiter.Server.ZAdd | internal/gateway/middleware/ratelimit.go:73-73 | adds or rescores one member and keeps the expiry |
| RedisLimiter.Server.PExpire | internal/gateway/middleware/ratelimit.go:74-74 | sets the deadline; a non-positive time deletes the key |
| RedisLimiter.Server.Eval | internal/gateway/middleware/ratelimit.go:65-78 | the commands in order amount to the script on that key, touch no other key, and leave the expiry of a surviving key alone when they deny |
| RedisLimiter.Server.Allow | internal/gateway/middleware/ratelimit.go:87-98 | the limiter applies the script to the tenant-scoped key and admits iff it returns 1 |
| RedisLimiter.Retained | internal/gateway/middleware/ratelimit.go:70-75 | until the server passes x + window - e, neither pruning nor whole-key expiry loses an admission above x |
| RedisLimiter.SetExpires | internal/gateway/middleware/ratelimit.go:72-77 | a sorted set whose last admission came by time t is gone after t + window, whatever it denied since |
| RedisLimiter.RedisWindowBound | internal/gateway/middleware/ratelimit.go:65-98 | with instance clocks within e of the server, no interval of length window - 2e holds more than limit admissions, key expiry included |
| RedisLimiter.RedisWindowBoundIsTight | internal/gateway/middleware/ratelimit.go:65-98 | for every limit of two or more and every skew e up to half the window, some run within that skew puts more than limit admissions into an interval one millisecond longer, with key expiry and without, from any supply of distinct members |
| RedisLimiter.SomeNamesAreDistinct | internal/gateway/middleware/ratelimit.go:90-90 | such a supply exists |
| RedisLimiter.RedisRefinesSpec | internal/gateway/middleware/ratelimit.go:65-78 | with equal clocks the script decides as the unpruned specification, with PEXPIRE and without |
| RedisLimiter.DecidedExactly | internal/gateway/middleware/ratelimit.go:65-78 | for any clocks at all, with PEXPIRE and without, a call is admitted iff it finds fewer than limit earlier admissions that no call up to it found a window behind its clock, the key never having been silent for a window since an admission |
| RedisLimiter.LimitersAgree | internal/gateway/middleware/ratelimit.go:65-134 | on every monotone-clock run the script with expiry, without it, and the in-memory log take the same decision at each step |
| RedisLimiter.ExpiryMattersUnderSkew | internal/gateway/middleware/ratelimit.go:74-74 | for every positive skew and every window some run passes a request only because the key expired |
| Failover.RateLimit | internal/gateway/middleware/ratelimit.go:29-56 | Redis decides when it answers; on any error, lost replies included, the instance's own limiter decides; only the tenant's own keys change |
| Failover.ServeIsRateLimit | internal/gateway/middleware/ratelimit.go:29-56 | the step of the runs below is that contract on the pair's own set and logs |
| Failover.RunProjects | internal/gateway/middleware/ratelimit.go:29-56 | each limiter sees exactly its own calls: the system is the product of its parts |
| Failover.FailoverShares | internal/gateway/middleware/ratelimit.go:22-56 | for any pattern of Redis errors, the requests that pass in a window shortened by max(2e, d) number at most limit for each instance that fell back within it, and limit more if Redis answered within it |
| Failover.FailoverBound | internal/gateway/middleware/ratelimit.go:22-56 | N instances let at most (N + 1) * limit requests pass in such a window, and N * limit unless all of them fell back within it and Redis answered too |
| FailoverTightness.FailoverSharesAreAttained | internal/gateway/middleware/ratelimit.go:22-56 | for every number of instances that fall back, with Redis answering or not, and every limit and window, some run lets exactly that many shares of the limit pass in one millisecond |
| FailoverTightness.FactorNHoldsExactlyWhen | internal/gateway/middleware/ratelimit.go:22-28 | the documented bound N * limit holds in all runs in which k instances fell back and Redis answered or not iff it is not the case that k = N and Redis answered |
| SharedLimiter.PairsAreIndependent | internal/gateway/middleware/ratelimit.go:29-56 | in every run of all tenants over one keyspace and one map per instance, what the stores hold for a tenant's route is what its own requests produce alone, whatever the tenant ids |
| SharedLimiter.DecisionsAreOwn | internal/gateway/middleware/ratelimit.go:29-56 | every decision over the shared stores is the one the pair's own limiters take on the pair's own requests, whatever the tenant ids |
| SharedLimiter.RedisKeysAreIndependent | internal/gateway/middleware/ratelimit.go:38-38 | the sorted set of a tenant's route is the one its own script calls build alone |
| RouteLimits.EndpointsAreIndependentExactlyWhen | internal/gateway/middleware/ratelimit.go:37-38 | no decision on one endpoint ever depends on the traffic on another iff their patterns differ |
| RouteLimits.SharedLimits | internal/gateway/router.go:77-103 | three pairs of the gateway's endpoints have one pattern |
| LossyLimiter.WindowBound | internal/gateway/middleware/ratelimit.go:65-98 | the window bound of the Redis limiter survives any number of losses of the set if Redis does not answer for a window after each |
| LossyLimiter.SharesHold | internal/gateway/middleware/ratelimit.go:22-56 | so do the shares of the limit, for any pattern of Redis errors |
| LossyLimiter.LossIsUnseen | internal/gateway/middleware/ratelimit.go:38-56 | losing a pair's sorted set changes no decision if Redis does not answer before the set would have expired |
| LossyLimiter.LossesAreUnseen | internal/gateway/middleware/ratelimit.go:38-56 | over whole runs, the same requests pass as if the set were never lost, if Redis does not answer for more than a window after each loss |
| Keys.RedisKeysCollideExactlyWhen | shared/storage/redis.go:52-56 | two tenants can share a Redis key iff one id is the other followed by a colon |
| Keys.RedisKeyInjective | shared/storage/redis.go:54-56 | for colon-free tenants the key determines tenant and suffix |
| Keys.RateKeyInjective | internal/gateway/middleware/ratelimit.go:38-38 | the limiter's Redis key of a route pattern determines tenant and route, whatever the tenant ids |
| Keys.RecordsMeetExactlyWhen | internal/gateway/middleware/idempotency.go:69-73 | two tenants share a record on a route for some non-empty Idempotency-Keys iff they are not apart |
| Keys.RecordsBelongExactly | shared/storage/redis.go:54-56 | for tenants that are apart a record lies in its own tenant's part of the keyspace and in no other |
| Keys.PlainTenantsAreApart | db/migrations/00003_create_api_keys.sql:11-11 | tenants without a colon, such as UUIDs, are apart |
| Keys.NamespacesMeetExactlyWhen | internal/gateway/middleware/ratelimit.go:38-38 | some Idempotency-Key of one tenant names a limiter key of another iff the first crosses into the second |
| Keys.MemoryKeyInjective | internal/gateway/middleware/ratelimit.go:114-114 | for patterns without '\|' the in-memory key determines tenant and route |
| Keys.IdemSuffixesCollideExactlyWhen | internal/gateway/middleware/idempotency.go:69-69 | two route patterns can share a record iff one is the other followed by a colon |
| Keys.IdemKeyInjective | internal/gateway/middleware/idempotency.go:69-73 | on one pattern, for tenants that are apart, the store key determines tenant and Idempotency-Key |
| Idempotency.ApplyKeepsInvariant | internal/gateway/middleware/idempotency.go:54-110 | every Get, execution and Set of any request keeps store, phases and trace in agreement |
| Idempotency.ReplaysAreFaithful | internal/gateway/middleware/idempotency.go:72-80 | in every interleaving a replay returns the response of the last successful Set of its key before it, produced by the storing request and not lapsed |
| Idempotency.ReplaysAgree | internal/gateway/middleware/idempotency.go:72-80 | two replays of a key with no successful Set between them return the same response |
| Idempotency.ExecutionsPrecedeFirstStore | internal/gateway/middleware/idempotency.go:72-108 | the handler runs only in requests whose Get found the store down or everything stored lapsed; with the store up and no lapse that Get precedes the key's first Set |
| Idempotency.StoresAreCaptured | internal/gateway/middleware/idempotency.go:73-108 | only responses with a status from 200 to 499 are stored, each by the request that produced it after a Get the store answered |
| Idempotency.AnswersAreStored | internal/gateway/middleware/idempotency.go:88-108 | every such response is stored and then replayed until the TTL has passed, for ever if it is zero; any other status leaves the store as it was |
| Idempotency.ReplaysExactlyWhen | internal/gateway/middleware/idempotency.go:72-80 | while the store answers, a Get replays iff some response stored before it has not lapsed |
| Idempotency.KeysAreIndependent | internal/gateway/middleware/idempotency.go:69-108 | erasing every step on other keys from a run leaves the cells, the requests and the events of the selected keys exactly as they were |
| Idempotency.TenantsAreIndependent | internal/gateway/middleware/idempotency.go:69-80 | erasing all steps on other keys leaves the result of each Get of a tenant's records unchanged; another tenant's records are among the erased ones if the two are apart |
| Idempotency.OverlappingDuplicatesBothRun | internal/gateway/middleware/idempotency.go:44-53 | two overlapping requests with one key both execute although the store is up |
| Idempotency.CaptureWriter.constructor | internal/gateway/middleware/idempotency.go:90-90 | capture starts with an empty buffer |
| Idempotency.CaptureWriter.Write | internal/gateway/middleware/idempotency.go:34-42 | every write goes both to the buffer and to the client |
| Idempotency.Store.Serve | internal/gateway/middleware/idempotency.go:72-108 | one request end to end: what the client sees, that exactly an executed response with a status from 200 to 499 is stored, and that the stored body is the concatenation of all writes |
| Idempotency.AttemptIsItsSteps | internal/gateway/middleware/idempotency.go:72-108 | an uninterrupted request is its Get, its execution and its Set: store, phase and events agree with the whole-request view |
| Idempotency.ExecutionsByKind | internal/gateway/middleware/idempotency.go:81-108 | every execution is undeduplicated, transient, unsaved or saved, and of exactly one kind |
| Idempotency.SequentialExecutions | internal/gateway/middleware/idempotency.go:44-108 | non-overlapping requests with one key inside the TTL execute at most once plus once per failed Get, per status outside 200 to 499 and per failed Set |
| ApiKeys.ApplyKeepsInvariant | internal/auth/apikey_postgres.go:86-207 | every statement of every transaction keeps scopes, locks, secrets and lineage heads consistent |
| ApiKeys.OneLiveKeyPerLineage | internal/auth/apikey_postgres.go:124-207 | in every interleaving a lineage has exactly one live committed key until it is revoked, and none once it is |
| ApiKeys.DeadLineagesStayDead | internal/auth/apikey_postgres.go:194-207 | a lineage without a live key never gets one again |
| ApiKeys.ResolveIsExact | internal/auth/apikey_postgres.go:33-83 | a secret resolves to the verdict on the one key minted with it, with the root Create's scope and never at or after the root's expiry |
| ApiKeys.ApplyRemembers | internal/auth/apikey_postgres.go:86-207 | no step forgets or changes a key's secret, its root or what was asked of its Create |
| ApiKeys.ApplyKeepsRevoked | internal/auth/apikey_postgres.go:194-207 | a revoked key stays revoked |
| ApiKeys.HashesStayUnique | db/migrations/00003_create_api_keys.sql:13-13 | in every interleaving the hash names at most one row |
| ApiKeys.TenantsAreIsolated | internal/auth/apikey_postgres.go:139-199 | no step of one tenant changes another tenant's rows, and a rotation that fails anywhere leaves the table unchanged |
| ApiKeyParts.OwnStepRestricts | internal/auth/apikey_postgres.go:86-207 | a step of a tenant takes effect on its rows, locks and rotations alone just as among those of all tenants |
| ApiKeyParts.OtherStepRestricts | internal/auth/apikey_postgres.go:86-207 | a step of another tenant leaves a tenant's rows, locks and rotations alone |
| ApiKeyParts.ResolveInPart | internal/auth/apikey_postgres.go:33-83 | a tenant's key resolves among its own rows as among all rows, and no other key resolves there |
| ApiKeys.RotateIsItsStatements | internal/auth/apikey_postgres.go:126-192 | nothing is visible before commit, and the four statements together are one rotation |
| ApiKeys.RotationTakesEffect | internal/auth/apikey_postgres.go:126-192 | rotating a live, unlocked key of the tenant always takes effect: the old row is revoked, its successor carries the scope; rolled back, it leaves rows, locks and rotations as they were |
| ApiKeys.RevokeTakesEffect | internal/auth/apikey_postgres.go:196-207 | revoking a live, unlocked key of the tenant always takes effect, on that key alone |
| ApiKeys.RevokedForGood | internal/auth/apikey_postgres.go:196-207 | after that, and after whatever else, its secret resolves to the verdict that it was revoked, at every time |
| ApiKeys.CreateTakesEffect | internal/auth/apikey_postgres.go:86-122 | creating a key for a tenant and a valid role always takes effect |
| ApiKeys.CreatedForUse | internal/auth/apikey_postgres.go:33-122 | after that its secret resolves to the scope that was asked for, until it expires |
| ApiKeys.KeyStore.constructor | internal/auth/apikey_postgres.go:23-25 | the table starts empty |
| ApiKeys.KeyStore.Create | internal/auth/apikey_postgres.go:86-122 | inserts the row for an acceptable spec with an unused hash; an unacceptable spec or a hash the unique column rejects fails without change |
| ApiKeys.KeyStore.Rotate | internal/auth/apikey_postgres.go:126-192 | unknown, foreign and revoked keys and a failed insert leave the table as it was; otherwise the old row is revoked and its successor carries the same scope |
| ApiKeys.KeyStore.Revoke | internal/auth/apikey_postgres.go:196-207 | revokes a live key of the tenant; anything else is not found and changes nothing |
| ApiKeys.KeyStore.Lookup | internal/auth/apikey_postgres.go:33-83 | finds the row by its unique hash and applies the checks |
| Jwt.IssueRoundTrip | internal/auth/jwt.go:81-160 | an issued access token validates to its identity until its truncated expiry and never refreshes; the refresh token renews the same identity and never validates |
| Jwt.PairsAnnounceTheirExpiry | internal/auth/jwt.go:89-107 | every issued or refreshed pair announces the expiry of its access token to within a second, and its times are whole seconds |
| Jwt.AcceptedExactlyWhen | internal/auth/jwt.go:131-196 | a token is accepted iff it carries an HMAC of its claims under the issuer's secret, has not expired, is an access token and names a valid role; it is refreshed likewise |
| Jwt.TurnedAway | internal/auth/jwt.go:164-196 | which error a token that is not accepted gets |
| Jwt.ParsedWasSigned | internal/auth/jwt.go:164-182 | an unforged token that parses is one the issuer signed: altered claims, other keys and other algorithms are rejected |
| Jwt.RunKeeps | internal/auth/jwt.go:81-160 | along every run of issues and refreshes each signed token still speaks for its root and was signed no later than its hops allow |
| Jwt.AcceptedIdentitiesWereIssued | internal/auth/jwt.go:131-196 | whatever is presented, an accepted token was signed, and each record of it names the Issue that began the token's own chain: the identity is that Issue's, and after n refreshes along the chain the token expires by start + n * refreshTTL + accessTTL; the identity is complete, and no token passes both Validate and Refresh |
| Policy.EvaluateRules | internal/policy/engine.go:118-132 | the two passes return the decision of the deny-overrides specification, naming the first match of the deciding effect |
| Policy.Evaluate | internal/policy/engine.go:80-116 | cross-tenant input is denied first; otherwise the result is the rules' decision or, when a timeout is set, a timeout deny |
| Policy.DecisionIsUnique | internal/policy/engine.go:120-132 | the specification determines the decision |
| Policy.DecisionExists | internal/policy/engine.go:120-132 | the specification always yields a decision |
| Policy.OrderIsIrrelevant | internal/policy/engine.go:118-132 | any permutation of the rules gives the same Allow bit |
| Policy.AddingARule | internal/policy/engine.go:118-132 | inserting a deny rule anywhere never turns deny into allow, and an allow rule never allow into deny |
| Policy.FailsClosed | internal/policy/engine.go:80-116 | for every rule list and timeout, an allow means same tenant, a matching allow rule and no matching deny rule |
| Policy.ReportedReasons | internal/policy/engine.go:80-132 | the reported rule is the cross-tenant denial, a rule that matched, the default denial when none did, or the timeout |
| Policy.AuditLog.Write | internal/audit/audit.go:36-41 | appends the record |
| Policy.Enforce | internal/policy/middleware.go:31-85 | evaluates the extractor's own id, region, owner and value, typed by the route and defaulting to the actor's tenant; writes exactly one audit record that says who, what and how it was decided; and proceeds iff allowed |
| DefaultRules.AnyAllow | internal/policy/rules.go:53-129 | some allow rule matches iff the closed-form access relation holds |
| DefaultRules.ExactAccess | internal/policy/rules.go:34-130 | without a timeout Evaluate allows iff the extracted resource is in the actor's tenant and the closed-form relation permits it by its own fields |
| DefaultRules.AllowsAreReported | internal/policy/rules.go:53-129 | every allow reports the one rule for the actor's role and the resource |
| DefaultRules.HighValueGateIsRedundant | internal/policy/rules.go:36-51 | dropping the high-value rule never changes the Allow bit and changes the reported rule exactly for high-value mutations |
| Pipeline.ApplyLives | internal/gateway/router.go:54-104 | every step of every request keeps each request's events a prefix of one of the possible stories |
| Pipeline.HandlersAreGuarded | internal/gateway/router.go:56-104 | a handler runs at most once per request and only after a valid identity, an admission, an Idempotency-Key where one is required, and an audited allow; denials are audited; replays are neither executed nor audited |
| Pipeline.CountersAreExact | internal/gateway/stub.go:24-39 | the Calls counter is the number of stub executions, the n-th of which carries the number n, and the audit log is the decisions in order |
| Pipeline.HandlersArePermitted | internal/policy/middleware.go:41-83 | with the default rules a handler runs only for an actor the access relation permits, by the fields of the extracted resource, within its own tenant |
| PipelineKeys.AcceptedIdentitiesAreGenuine | internal/gateway/middleware/auth.go:61-74 | an accepted identity was issued to a bearer token, or is the scope of the Create behind a live, unexpired API key; a bearer token takes precedence |
| PipelineKeys.KeysAreManagedByAdmins | internal/auth/apikey_handler.go:66-144 | in every run of the gateway every committed key was created or rotated in, and every revoked key revoked or rotated out, by an authenticated, admitted, allowed and audited request of an admin of the key's own tenant |
| PipelineKeys.IdentitiesAreVouchedFor | internal/gateway/router.go:56-83 | the identity behind any request comes from a token that was valid when the request was authenticated, or from an API key that was live and unexpired then and that an audited admin of that tenant put into the table |
| PipelineKeys.RevokedKeysAuthenticateNobody | internal/gateway/middleware/auth.go:61-74 | a request that was not yet authenticated when a key had been revoked is never authenticated by that key |
| PipelineKeys.IdentitiesHaveRoots | internal/gateway/middleware/auth.go:61-74 | for every history of the issuer and every run whose requests carry no forged token, the identity behind a request began with an Issue whose chain had not run out when it was authenticated, or with the Create behind a key that an audited admin of the tenant put into the table |
| PipelineAccess.AuthenticatesExactlyWhen | internal/gateway/middleware/auth.go:27-76 | in every run a request becomes known as whom its credentials are worth, the bearer token before the API key, and is rejected iff they are worth nothing: a valid token or a live, unexpired key is never turned away |
| PipelineAccess.EndpointsServeTheirCallers | internal/gateway/router.go:66-104 | a handler runs only for a caller who may use that endpoint; stubs answer 201 to POST and 200 otherwise; a denial is a 403 to a caller who may not, or after a timeout |
| PipelineAccess.DecisionsAreAudited | internal/policy/middleware.go:57-73 | every decision is in the audit log: the caller, the action and resource, the outcome, the rule and the request |
| PipelineProgress.EveryRequestCanFinish | internal/gateway/router.go:54-104 | after every run each request that has come can be brought to a complete story by steps of its own, even while Redis cannot be reached |
| PipelineProgress.StepsTakeEffect | internal/gateway/router.go:54-104 | in every run each middleware's step takes effect for every answer of the outside world: any time, any reply of Redis, the store up or down, any decision the engine may return |
| PipelineProgress.RequestsMayCome | internal/gateway/router.go:54-60 | any request on a route may come at any time |
| PipelineProgress.TypesClash | shared/storage/redis.go:52-56 | Redis answers neither a Get on a key that holds an unexpired set of the limiter nor the script on a key that holds an unexpired record |
| PipelineProgress.RevokeHandlerRevokes | internal/auth/apikey_handler.go:130-144 | an allowed request to revoke a live, unlocked key of its tenant revokes it |
| PipelineProgress.CreateHandlerCreates | internal/auth/apikey_handler.go:66-96 | an allowed request to create a key inserts one with the scope that was asked for |
| PipelineProgress.RotateHandlerRotates | internal/auth/apikey_handler.go:116-128 | an allowed request to rotate a live, unlocked key of its tenant revokes it and inserts a successor of the same scope |
| Routing.OneIdempotentRoute | internal/gateway/router.go:87-104 | the idempotency middleware guards a single route |
| Routing.RoutesArePlain | internal/gateway/router.go:77-103 | every route is a pattern whose keys separate for all tenants, and the one with idempotency records is fixed |
| Routing.EndpointsAreRouted | internal/gateway/router.go:77-103 | the table routes exactly the ten endpoints, deduplicates the one that creates orders, and has stubs behind all but the key routes |
| Endpoints.EndpointAccess | internal/gateway/router.go:66-104 | per method and path, who may use the endpoint, for every caller and resource and both ways |
| PipelineLimits.RunTracks | internal/gateway/router.go:50-104 | over the stores all tenants share, the admissions of a tenant's route in the gateway's trace are those of its own limiters on its own requests, but for the loss of their set when a record takes its place; Redis then does not answer while the record lasts |
| PipelineLimits.RunLimiter | internal/gateway/router.go:50-59 | over the stores all tenants share, the admissions of a tenant's route in the gateway's trace are exactly those of its own limiters on its own requests, if no record was stored under the pair's key or records outlast the limiter's sets |
| PipelineLimits.UncrossedIsUnwritten | internal/gateway/router.go:86-104 | on the gateway's routes no record is ever stored under a limiter key of a tenant that no tenant of the run crosses into |
| PipelineLimits.HandlerRunsAreLimited | internal/gateway/router.go:50-104 | so, however requests of all tenants interleave and Redis fails, handlers run for one tenant on one route in at most one limit per share of a window, (N + 1) * limit in all |
| PipelineLimits.GatewayRunsAreLimited | internal/gateway/router.go:77-104 | on every route of the gateway's own table that bound holds for every tenant if the idempotency TTL is zero or at least the window less a millisecond, as by default, and otherwise for every tenant that no tenant of the run crosses into |
| PipelineDisplacement.LimitIsOverrun | internal/gateway/router.go:77-104 | for every pair of tenants of which one crosses into the other, every route and every positive TTL, some run uses up the other's limit, has a record displace its set, and runs one more handler when the record has lapsed |
| PipelineDisplacement.LimitSurvivesExactlyWhen | internal/gateway/router.go:77-104 | for a tenant that another crosses into, the limit of every route holds in all runs iff the TTL is zero or at least the window less a millisecond |
| PipelineStore.RunStore | internal/gateway/middleware/idempotency.go:54-110 | every run of the gateway is a run of the Get / execute / Set protocol, step for step |
| PipelineStore.AnswersPassedTheirGet | internal/gateway/middleware/idempotency.go:72-108 | a request is answered by policy or handler only if its own Get passed; with the store up and no lapse that Get precedes the first response stored for its tenant, route and key |
| PipelineStore.ReplayedExactlyWhen | internal/gateway/middleware/idempotency.go:72-80 | while the store answers, a gateway request is replayed iff some response stored before under its key has not lapsed |
| PipelineStore.TenantsReplayAlone | internal/gateway/middleware/idempotency.go:69-80 | what the store does for a tenant's records in a run of the gateway is what it does with all other steps erased; records of tenants that are apart are among the erased |
| PipelineReplays.ReplaysStayInTenant | internal/gateway/middleware/idempotency.go:69-80 | when the tenants of the run are pairwise apart, a replay returns exactly what an earlier request of the same tenant, route and Idempotency-Key was answered |
| PipelineSharing.RecordsAreShared | internal/gateway/router.go:94-94 | two callers whose tenants, routes and Idempotency-Keys make up one record key share an answer in some run, for any decision the engine may return to the first |
| PipelineSharing.CrossReplayHappens | shared/storage/redis.go:12-18 | two tenants that are not apart, with tokens the issuer gives them, have a run that replays an answer of one to the other |
| PipelineSharing.AnswersCrossTenantsExactlyWhen | shared/storage/redis.go:12-18 | some run of the gateway replays an answer of one tenant to a request of another iff the two are not apart |
| PipelineSharing.SomeTenantsAreNotApart | internal/auth/handler.go:48-48 | every tenant id has another that it is not apart from |
| PipelineSharing.ReplaysFollowOwnDecisionExactlyWhen | internal/gateway/router.go:94-94 | for every timeout, a replayed answer is one the caller's own decision gives iff the caller may proceed exactly when the answered caller may and the engine did not time out on the latter |
| PipelineSharing.AnswersFollowAccess | internal/policy/engine.go:80-116 | for every timeout, a request that draws a decision is denied iff the access relation does not permit it or the engine timed out on it |
| PipelineSharing.TimeoutsAreReplayed | internal/gateway/middleware/idempotency.go:95-96 | whenever a timeout is set, some run stores the 403 of a timeout and replays it to the same permitted caller |
| PipelineSharing.DenialsAreReplayedToAdmins | internal/gateway/router.go:94-94 | some run replays an analyst's 403 to an admin of the tenant whom the rules permit the order |
| PipelineSharing.OrdersAreReplayedToAnalysts | internal/gateway/router.go:94-94 | some run replays an admin's 201 to an analyst of the tenant whom the rules do not permit it |
| PipelineIsolation.OwnStep | internal/gateway/router.go:54-104 | a step of a tenant's request that takes effect among all traffic takes effect on the tenant's part of the gateway alone, and keeps it the tenant's part |
| PipelineIsolation.OtherStep | internal/gateway/router.go:54-104 | a step of any other tenant's request leaves that part alone |
| PipelineIsolation.TenantsRunAlone | internal/gateway/router.go:54-104 | erasing every step of other tenants' requests from a run leaves each request of a tenant with the same phase and the same story, up to the shared call number, and the tenant with the same API keys, when all tenants of the run are apart from it |
| DotEnv.KeyedLine | shared/config/config.go:133-142 | a line starting with a plain key and '=' parses to that key and its trimmed right-hand side |
| DotEnv.QuotedRoundTrip | shared/config/config.go:143-152 | a quoted value comes back exactly, whatever follows the closing quote |
| DotEnv.UnquotedRoundTripsExactlyWhen | shared/config/config.go:153-160 | an unquoted value comes back iff it is trimmed, does not start with a quote and has no '#' after a blank |
| DotEnv.CommentCutsAtFirstBlank | shared/config/config.go:153-160 | an unquoted value with a '#' anywhere behind its first blank is cut at that blank |
| DotEnv.BlanksAroundAreDropped | shared/config/config.go:133-142 | blanks around a line, its key and its value do not count |
| DotEnv.UnclosedQuoteIsDropped | shared/config/config.go:150-152 | a quote that is never closed is dropped and the rest is the value |
| DotEnv.CommentsAssignNothing | shared/config/config.go:133-136 | comment lines and blank lines assign nothing, with blanks before them or without |
| DotEnv.NoSignNoAssignment | shared/config/config.go:137-140 | a line without '=' assigns nothing |
| DotEnv.SpacesAreWhiteSpace | shared/config/config.go:133-133 | trimming removes the characters with the Unicode property White_Space |
| DotEnv.AssignmentSets | shared/config/config.go:161-163 | an assignment sets a variable that is not there unless its name or value is one that the environment rejects |
| DotEnv.ReadValue | shared/config/config.go:142-160 | the value branch of the loop computes the denoted value |
| DotEnv.Process.LoadLine | shared/config/config.go:133-163 | one iteration sets the variable iff it is new and settable |
| DotEnv.Process.LoadDotEnv | shared/config/config.go:131-165 | the loop is the fold of its lines over the environment |
| DotEnv.LoadExactly | shared/config/config.go:120-165 | existing variables are unchanged and every other variable gets the value of the first line that assigns it, or stays unset |
| DotEnv.LoadTwiceIsOnce | shared/config/config.go:124-165 | loading a file twice is loading it once |

## Left out

- HTTP and gin plumbing, logging, request ids, error envelopes, health checks, server start and shutdown: no deep invariant.
- SHA-256, HMAC, random generation and constant-time comparison: abstracted as the assumptions above.
- Parsing the Authorization header and decoding a token string: a request carries the decoded token, well-formed or not.
- Database, Redis and audit failures outside the limiter, the idempotency store and rotations: an error return changes nothing.
- `List`, `displayPrefix`, last-used stamps, configuration getters and `tools/archlint`: they would add only easy members.
- Floating-point corner cases of `ValueUSD`: it is a real number here.
- Redis eviction, handler panics and tenant deletion cascades: outside the modelled steps.
- Scanner limits of the `.env` loader: the model takes the file as a list of lines.
- MemoryLimiter.Append: how far the Go runtime over-allocates is not modelled; the array doubles.
- Idempotency.Store.Serve: a negative TTL and JSON encoding failures are not modelled.
