# Verified model of the gateway core

This project models the in-process machinery of the CLI gateway in Dafny and proves what it
keeps over every interleaving and every input: hot reload with reference-counted runtime
generations, MCP sessions that move their lease between generations, the downstream token
cache with single-flight loading, per-user OAuth authorization with its refresh and its
encrypted store, admission control and circuit breaking around `Service.Invoke`, the path from
a manifest to an upstream request, the audit queue, and rotation of trusted keys.

`dafny verify dfyconfig.toml` checks everything.

## How it is organised

| file | what it models |
|---|---|
| `Generation.dfy`, `Runtime.dfy`, `Drain.dfy` | one generation and its leases as objects; the manager as a state machine of atomic steps; that no generation is leaked |
| `Mcp.dfy`, `Migration.dfy`, `Session.dfy` | the MCP adapter's lease bookkeeping, composed with the runtime machine; what a reload does for stored sessions; requests, releases and tool calls end to end |
| `TokenCache.dfy`, `CacheHistory.dfy`, `SingleFlight.dfy` | the map-plus-list LRU and the recency sequence it refines; histories of operations; concurrent `GetOrLoad` |
| `KeyEncoding.dfy` | the length-prefixed encoding under the key HMAC |
| `Authorization.dfy`, `AuthorizationRuns.dfy` | pending authorizations and their two indexes; whole runs of `Begin` and `Complete` as an event log |
| `Grants.dfy` | stored grants under concurrent refresh, invalidation and disconnection |
| `TokenStore.dfy`, `Codec.dfy` | the encrypted file with failures and crashes; what its encodings can and cannot be |
| `RateLimit.dfy`, `Breaker.dfy` | token buckets; the breaker against a specification over its history |
| `Invoke.dfy`, `InvokeService.dfy` | many concurrent invocations with slots and breakers; one invocation as a program |
| `Text.dfy`, `Command.dfy`, `Manifest.dfy`, `Request.dfy` | byte strings and percent-encoding; validation, compilation, arguments and the request path |
| `Audit.dfy`, `Jwks.dfy` | the audit queue; key rotation |
| `Option.dfy`, `Sets.dfy` | optional values; sizes of sets |

Concurrent parts are state machines: a function `Next` takes a state and a step, and is `None`
where the step would block or is not the thread's next one. A step is one critical section,
channel operation or atomic access of the source. A run is any sequence of steps, so the theorems hold for
every schedule and any number of callers. Sequential parts are classes and methods proved
against specification functions, about which the theorems are then stated.

Where the source does not keep a promise in full, the model says exactly when it does, and
gives an input for which it does not:

- Rate bound: `RateLimit.RateBoundIffRefills`. The clock is read before the lock is taken, so readings can reach the buckets out of order. For readings that lag behind by at most a given skew, the bound holds in every run if and only if ten minutes less twice that skew refill the whole burst. A bucket that is never forgotten keeps the bound in any order (`RateLimit.RateIsBoundedInAnyOrder`), but can be overdrawn (`RateLimit.OutOfOrderReadingsOverdraw`).
- Lease release at shutdown: `Mcp.ShutdownReleasesEveryLease` and `Mcp.LostIffOverwritten`. No lease remains if and only if no request overwrote the stateful bundle it had pending by a second factory result; `Mcp.OverwrittenLeaseOutlivesShutdown` is a run that does.
- One probe at a time: `Breakers.SecondProbeIffSettled` and `Invoke.SecondProbeIffAnotherSettled`. While a probe is unsettled, a second one is admitted if and only if another call on the endpoint has settled since, with no half-open admission after it; `Breakers.LateSettlementAdmitsSecondProbe` is such a history.
- Replaced refresh tokens: `Grants.SpentTokenInRuns`. A token that a refresh replaced, or a disconnection deleted, can be presented or stored again without being issued anew if and only if some thread still carries a grant with it. This happens to a request that loaded before another's refresh landed (`Grants.LateRequestPresentsSpentToken`) and in two races with an invalidation that loaded before: its late save restores the spent token after a refresh (`Grants.StaleInvalidationStoresSpentToken`), and the whole grant after a disconnection (`Grants.StaleInvalidationUndoesDisconnect`). Per key: a key left empty stays so until a new authorization if and only if no thread has loaded, is refreshing or is saving a grant for it (`Grants.EmptyKeyStaysEmptyIffIdle`).
- Closing of generations: `Drains.ShutdownClosesEveryGeneration`. Once shutdown, reloads and drains are through, every published generation is closed if and only if none was published after `Close` took the current one; `Drains.LatePublicationIsNeverClosed` is a run in which a reload under way publishes one.
- Crashes of the token store: `TokenStores.CrashInRunLeavesOldOrNew`. A crash can restore exactly the maps that memory has held since the start, the last crash or the last write whose directory was synced; so during a save it leaves the old or the new map if and only if memory has held no other since then. `TokenStores.LostRenameRestoresOlderMap` restores a map older than both.
- Reopening the token store: `TokenStores.SavedStoreReopensIffItFits`. A save does not check the loader's limit of 64 MiB; the store can be reopened if and only if the encoding is within it, and `Codecs.SaveCanOutgrowTheLoader` shows that every invertible codec has a save that is not.
- Overlap of rotated keys: `Jwks.RemovedKeyIsTrustedIff`. A removed key is trusted if and only if no further key set has come and the overlap of the set that removed it lasts; `Jwks.RemovedKeyIsLostEarly` cuts it short.
- Key encoding: injective up to parts of 2^32 bytes, and not beyond (`KeyEncoding.LongPartsCollide`).
- Empty and dot segments, which the validator forbids in an endpoint: the built path has one if and only if a path argument prints as one (`Requests.DotSegmentsComeFromArguments`); `Requests.DotArgumentBecomesDotSegment` is an accepted argument that does.

## Model

| member | source | states |
|---|---|---|
| `Generations.Generation.Retain` | internal/runtime/manager.go:53-81 | succeeds exactly when not retired and then adds one new lease to the live ones, which `active` counts |
| `Generations.Generation.Release` | internal/runtime/manager.go:83-93 | takes one live lease out of the count and signals the drain, once, when the last one leaves a retired generation; never panics |
| `Generations.Generation.Retire` | internal/runtime/manager.go:95-105 | retires once, signalling the drain at once when no lease is live |
| `Generations.Generation.Close` | internal/runtime/manager.go:107-114 | runs the close function only the first time |
| `Generations.Lease.Close` | internal/runtime/manager.go:124-130 | takes itself out of its generation's live leases the first time and changes nothing later |
| `Runtime.RunKeepsInv` | internal/runtime/manager.go:170-268 | every run of acquires, leases, reloads, drains and shutdown keeps the manager's invariant |
| `Runtime.ReferenceCounting` | internal/runtime/manager.go:73-130 | `active` is the number of unclosed leases; drained exactly when retired and unused, once; no release panics; the close function runs at most once and, unless a deadline fired, with no live lease |
| `Runtime.CurrentIsNeverRetired` | internal/runtime/manager.go:170-237 | the published generation is never retired and published IDs strictly increase |
| `Runtime.RetiredStaysRetired` | internal/runtime/manager.go:211-237 | a retired generation never becomes current again |
| `Runtime.FailedTriesArePaidFor` | internal/runtime/manager.go:195-208 | each failed try of an acquire is paid for by a distinct publication during the call, with one more once shutdown has taken the current generation: the retry loop terminates |
| `Runtime.TryOnCurrentSucceeds` | internal/runtime/manager.go:195-208 | a try on the generation still current yields exactly one new live lease |
| `Runtime.OpenManagerGrantsLeases` | internal/runtime/manager.go:195-208 | an undisturbed acquire of an open manager yields one new lease on the current generation |
| `Runtime.OpenManagerReloads` | internal/runtime/manager.go:211-237 | an undisturbed reload of an open manager publishes a new generation and hands the old one to a drain |
| `Runtime.FailedReloadPublishesNothing` | internal/runtime/manager.go:217-230 | a reload that fails on the way gives the lock back and changes nothing published |
| `Runtime.ClosedManagerRefuses` | internal/runtime/manager.go:195-216 | a closed manager refuses new reloads and acquisitions |
| `Runtime.ClosedManagerWindsDown` | internal/runtime/manager.go:195-237 | over every run from when it is closed, only a reload that holds the lock already can publish, so at most one generation, and none if the lock is free; no acquisition starts |
| `Runtime.DrainsCanGoOn` | internal/runtime/manager.go:259-268 | no drain gets stuck, and it stops waiting without a timeout exactly when no lease is left |
| `Drains.NoGenerationIsLeaked` | internal/runtime/manager.go:211-268 | every published generation is current, held by a reload about to drain it, being drained, or closed; the current one is not closed |
| `Drains.ShutdownClosesEveryGeneration` | internal/runtime/manager.go:211-237 | once shutdown, reloads and drains are through, all published generations are closed if and only if none was published after `Close` took the current one, and only that one is not |
| `Drains.LatePublicationIsNeverClosed` | internal/runtime/manager.go:328-344 | a run in which a reload under way publishes a generation after the swap that nobody closes |
| `Mcp.StepIsRuntimeStep` | internal/adapter/mcp/handler.go:146-227 | every adapter step acts on the runtime as one of the manager's own steps, or not at all |
| `Mcp.RunKeepsInv` | internal/adapter/mcp/handler.go:377-556 | the bookkeeping invariant survives every interleaving of requests, reload, reaping and shutdown |
| `Mcp.ExactlyOneHolder` | internal/adapter/mcp/handler.go:146-227 | in every reachable state each lease of the adapter is closed or held by exactly one bundle, request or tool call |
| `Mcp.StoredBundlesHoldOpenLeases` | internal/adapter/mcp/handler.go:377-457 | a stored session or transient always holds an open lease, whatever races with it |
| `Mcp.ShutdownReleasesEveryLease` | internal/adapter/mcp/handler.go:536-556 | after shutdown and the last request, the tables are empty, and no lease is open if and only if no pending stateful bundle was overwritten |
| `Mcp.LostIffOverwritten` | internal/adapter/mcp/handler.go:179-193 | bundles are lost exactly in the runs in which a second stateful factory result overwrites a pending one |
| `Mcp.OverwrittenLeaseOutlivesShutdown` | internal/adapter/mcp/handler.go:179-193 | a run from the start in which such a lease is still open after shutdown |
| `Mcp.OnceMeansNoOverwrite` | internal/adapter/mcp/handler.go:179-209 | when the factory runs at most once per request, no bundle is overwritten |
| `Mcp.ShutdownLetsGenerationsDrain` | internal/adapter/mcp/handler.go:536-556 | then no generation is kept alive by the adapter, and a retired one nobody else uses has drained |
| `Mcp.NoThreadIsStuck` | internal/adapter/mcp/handler.go:146-177 | every thread of the adapter can always take its next step |
| `Migrations.SnapshotTakesAll` | internal/adapter/mcp/handler.go:489-497 | a reload callback takes exactly the sessions and transients stored at its snapshot |
| `Migrations.CallbackVisitsEveryBundle` | internal/adapter/mcp/handler.go:485-503 | over every run, a callback that ends has visited every bundle of its snapshot |
| `Migrations.VisitedBundleIsMigrated` | internal/adapter/mcp/handler.go:498-531 | over every run, a visited bundle, with the generation not retired, the handler open and the bundle not closed, holds an open lease on the new generation afterwards and its old lease gets closed for good; otherwise it is left alone and the new lease is closed |
| `Sessions.ClosedHandlerRefuses` | internal/adapter/mcp/handler.go:146-150 | a closed handler starts no request and no migration |
| `Sessions.OpenHandlerStarts` | internal/adapter/mcp/handler.go:146-155 | an open handler starts requests and migrations |
| `Sessions.StatefulRequestStoresSession` | internal/adapter/mcp/handler.go:146-193 | a stateful request with a new session ID leaves a stored session with an open lease on its generation |
| `Sessions.UnstoredBundleIsClosed` | internal/adapter/mcp/handler.go:163-168 | a bundle whose session exists, or that meets a closed handler, is not stored and has its lease closed |
| `Sessions.TransientIsRegistered` | internal/adapter/mcp/handler.go:195-209 | a stateless bundle is registered while its request runs |
| `Sessions.UnregisteredBundleIsClosed` | internal/adapter/mcp/handler.go:195-209 | with the handler closed a stateless bundle is closed instead |
| `Sessions.StatelessRequestLeavesNothing` | internal/adapter/mcp/handler.go:169-171 | when a stateless request ends its bundle is unregistered and its lease closed |
| `Sessions.ReleasedSessionIsClosed` | internal/adapter/mcp/handler.go:433-457 | releasing a session removes it and closes its lease |
| `Sessions.ToolCallHoldsItsGeneration` | internal/adapter/mcp/handler.go:259-265 | a tool call holds an open lease on its generation until it ends, and is refused on a retired one |
| `Sessions.ShutdownTakesEverything` | internal/adapter/mcp/handler.go:536-556 | shutdown takes exactly the stored bundles, to close them |
| `TokenCaches.TokenCache.Lookup` | internal/cache/token.go:155-176 | answers and reorders as the recency sequence does, dropping entries that expired |
| `TokenCaches.TokenCache.Evict` | internal/cache/token.go:199-207 | removes exactly the tail beyond the capacity |
| `TokenCaches.TokenCache.StoreToken` | internal/cache/token.go:178-189 | puts the token in front, served until its expiry less the refresh skew, and trims |
| `TokenCaches.TokenCache.StoreNegative` | internal/cache/token.go:191-197 | puts the error in front for its lifetime, and trims |
| `TokenCaches.TokenCache.Invalidate` | internal/cache/token.go:221-227 | removes exactly that key |
| `TokenCaches.TokenCache.Flush` | internal/cache/token.go:229-234 | leaves the empty sequence |
| `CacheHistory.RunKeepsAll` | internal/cache/token.go:155-234 | after any operations: distinct keys, at most the capacity, in order of last use, each holding its key's last write |
| `CacheHistory.AnswerIsLastWrite` | internal/cache/token.go:155-176 | an absent key misses; a present one answers by its last write: a token fresh until the skew before its expiry, or until its store if later, then stale until it expires, an error for its lifetime, and nothing else |
| `CacheHistory.EvictsLeastRecentlyUsed` | internal/cache/token.go:178-207 | a store drops at most one other key, only from a full cache, the least recently used one, and never the key just stored |
| `SingleFlight.OneLoaderPerKey` | internal/cache/token.go:98-153 | each key has at most one loader at a time, and a finished flight ran its loader exactly once |
| `SingleFlight.WaitersGetTheLeadersResult` | internal/cache/token.go:98-153 | leader and waiters of one flight return the same token and error |
| `SingleFlight.FlightsReturnLiveTokens` | internal/cache/token.go:121-152 | a token a flight returns is non-empty and had not expired when checked |
| `SingleFlight.LoadedTokenIsServed` | internal/cache/token.go:121-152 | a loaded token is returned and is a cache hit until its refresh time |
| `SingleFlight.FlightFreezesEntry` | internal/cache/token.go:98-153 | during a flight its key's entry is only unchanged or removed |
| `SingleFlight.NegativeNeverDisplacesLiveToken` | internal/cache/token.go:128-152 | over every run, finishing a flight turns an entry negative only after a transient failure with a lifetime for negative entries, and where there was no entry or an expired token |
| `SingleFlight.FailedLoadEffect` | internal/cache/token.go:128-152 | a permanent failure and a fallback leave the cache alone; a transient failure falls back to the remembered unexpired token, or else makes lookups answer its error for exactly the lifetime |
| `SingleFlight.EnterAnswers` | internal/cache/token.go:98-126 | a fresh token or live error is answered from the cache, otherwise the thread joins or starts a flight, remembering a stale unexpired token |
| `SingleFlight.BlankKeyIsRejected` | internal/cache/token.go:99-101 | a blank key is rejected |
| `SingleFlight.LoadIsChecked` | internal/cache/token.go:128-134 | a loaded token counts exactly if non-empty and unexpired, else the load failed for good |
| `SingleFlight.DropsForget` | internal/cache/token.go:221-234 | invalidation forgets its key and no other, a flush all of them |
| `SingleFlight.WaiterIsNotStranded` | internal/cache/token.go:112-120 | a waiter can return once its call is done, and until then the leader can go on |
| `KeyEncoding.EncodeLoop` | internal/cache/token.go:87-94 | the loop writes the length-prefixed encoding of its parts |
| `KeyEncoding.EncodingIsInjective` | internal/credential/authorization_store.go:308-316 | lists of parts shorter than 2^32 bytes have equal encodings exactly when they are equal, empty parts and different lengths included |
| `KeyEncoding.LongPartsCollide` | internal/cache/token.go:87-94 | the bound is sharp: a part of 2^32 bytes collides with a list of empty parts |
| `Authorization.Broker.Purge` | internal/credential/authorization_code.go:338-347 | removes exactly the expired attempts, from both indexes |
| `Authorization.Broker.Begin` | internal/credential/authorization_code.go:154-165 | replaces the user's own attempt, refuses only at capacity, and never a user who had one |
| `Authorization.Broker.Consume` | internal/credential/authorization_code.go:176-185 | finds an unexpired state and removes it from both indexes |
| `Authorization.OwnerIsNeverRefused` | internal/credential/authorization_code.go:154-162 | a user who had a pending attempt, expired or not, is not refused for capacity |
| `Authorization.BeginKeepsTable` | internal/credential/authorization_code.go:154-165 | the indexes stay mutually inverse and bounded, on refusal too, with nothing dangling |
| `Authorization.CompleteKeepsTable` | internal/credential/authorization_code.go:176-185 | consuming keeps the indexes inverse and changes no other attempt |
| `AuthorizationRuns.IndexesStayInverse` | internal/credential/authorization_code.go:100-185 | in every reachable state the indexes are inverse with at most 10,000 attempts |
| `AuthorizationRuns.ExchangesAreJustified` | internal/credential/authorization_code.go:172-200 | every code exchange follows a consumption in time of an attempt not superseded, with the verifier and redirect URI of its own `Begin` (sections 4.1 to 4.6 of RFC 7636) |
| `AuthorizationRuns.StateIsExchangedOnce` | internal/credential/authorization_code.go:172-200 | no state reaches the exchange twice |
| `AuthorizationRuns.GrantGoesToItsBeginner` | internal/credential/authorization_code.go:191-212 | a grant is saved only after an exchange the server granted, under the record key of the principal who began it |
| `AuthorizationRuns.GrantedExchangeIsSaved` | internal/credential/authorization_code.go:191-212 | after a granted exchange the only step left is the save, which is logged if it succeeds; a refused exchange ends the completion |
| `AuthorizationRuns.OthersLeaveCompletion` | internal/credential/authorization_code.go:172-212 | no other step moves a completion, so that a granted one can always be saved |
| `AuthorizationRuns.AbandonedCompletionEnds` | internal/credential/authorization_code.go:186-194 | a completion refused by the provider or without a code ends without exchange or save |
| `AuthorizationRuns.LiveStateLeadsToExchange` | internal/credential/authorization_code.go:100-200 | over every run, an accepted attempt neither superseded nor consumed, before its expiry, is found and can be exchanged with its own verifier and redirect URI |
| `Grants.RunKeepsInv` | internal/credential/authorization_code.go:260-332 | the invariant of stored grants, flights and waiters survives every interleaving |
| `Grants.StoredGrantsAreRenewable` | internal/credential/authorization_code.go:206-209 | from an empty store, every stored grant has a refresh token, also after responses that omit it (section 6 of RFC 6749) and after invalidation |
| `Grants.OneRefreshPerKey` | internal/credential/authorization_code.go:274-286 | a key has at most one active refresh |
| `Grants.NoFlightIsLeftBehind` | internal/credential/authorization_code.go:273-319 | a key is marked as refreshing only while a refresh is active, and every waiter has a result or an active leader |
| `Grants.ReturnedTokensAreLive` | internal/credential/authorization_code.go:260-319 | every access token returned was issued by the server and unexpired when it was checked |
| `Grants.WaitersShareTheResult` | internal/credential/authorization_code.go:274-281 | all callers served by one refresh return the same result |
| `Grants.RefreshLands` | internal/credential/authorization_code.go:283-319 | a successful refresh stores the new grant, frees the key and returns the new token |
| `Grants.RequestAnswers` | internal/credential/authorization_code.go:260-272 | a stored token good beyond the skew is returned, without a renewable grant authorization is required, anything else is refreshed |
| `Grants.LoadsReadTheStore` | internal/credential/authorization_code.go:322-332 | loading reads the store; an invalidation stores the same grant without its access token |
| `Grants.CompletionSaves` | internal/credential/authorization_code.go:191-212 | an authorization is saved exactly if its response has an access token, a future expiry and a refresh token |
| `Grants.RejectedRefreshEnds` | internal/credential/authorization_code.go:288-319 | a rejected refresh returns the old token exactly if the reason may pass and it is non-empty and unexpired, and empties the key exactly if the grant is invalid, there is no fallback and the deletion succeeds |
| `Grants.UnusableRefreshEnds` | internal/credential/authorization_code.go:293-319 | a refresh that cannot be saved returns an error and keeps the store |
| `Grants.GrantsAreGivenUpOnlyWhenInvalid` | internal/credential/authorization_code.go:300-310 | over every run, a key leaves the store only by a disconnection or by a refresh of it that was rejected as an invalid grant |
| `Grants.SpentTokenReturnsIffCarried` | internal/credential/authorization_code.go:260-332 | from a reachable state, a refresh token no longer stored can be presented or stored again without being issued anew if and only if some thread carries a grant with it |
| `Grants.SpentTokenInRuns` | internal/credential/authorization_code.go:260-332 | the same at every state of every run; and wherever the run later uses such a token, a thread carried it there or a response in between issued it |
| `Grants.ReplacedOrDeletedIsUnstored` | internal/credential/authorization_code.go:286-296 | a refresh that lands with another token, or a disconnection, leaves the old token unstored |
| `Grants.LateRequestPresentsSpentToken` | internal/credential/authorization_code.go:260-286 | a run in which a request that loaded before a refresh landed presents the spent token |
| `Grants.StaleInvalidationStoresSpentToken` | internal/credential/authorization_code.go:322-332 | a run in which a late invalidation stores the spent token again and a request loading after the refresh presents it |
| `Grants.StaleInvalidationUndoesDisconnect` | internal/credential/authorization_code.go:322-332 | a run in which a late invalidation brings back a deleted grant |
| `Grants.EmptyKeyStaysEmptyIffIdle` | internal/credential/authorization_code.go:233-258 | at every state of every run, an empty key stays so until a new exchange if and only if no thread has loaded, is refreshing or is saving a grant for it |
| `TokenStores.TokenStore.Persist` | internal/credential/authorization_store.go:238-294 | replaces the file as a whole or not at all, at every moment on the way, and says which system calls may fail without an error |
| `TokenStores.TokenStore.Save` | internal/credential/authorization_store.go:151-169 | saves the token or changes nothing, memory and file agreeing either way; a saved store reloads exactly when its encoding is at most 64 MiB |
| `TokenStores.TokenStore.Delete` | internal/credential/authorization_store.go:172-185 | deletes the token or changes nothing, memory and file agreeing either way |
| `TokenStores.CrashLeavesOldOrNew` | internal/credential/authorization_store.go:238-294 | a crash at any moment of a replacement leaves a whole map, and always the old or the new one if and only if all that a crash could leave before was one of these |
| `TokenStores.CrashInRunLeavesOldOrNew` | internal/credential/authorization_store.go:151-294 | over every run a crash restores exactly the maps held since the last step that left one file; so it leaves the old or the new map if and only if no other was held since then |
| `TokenStores.LostRenameRestoresOlderMap` | internal/credential/authorization_store.go:285-293 | a run in which a failed directory sync and a crash in the next save restore a map that is neither |
| `TokenStores.RunsKeepMemoryAndFileInStep` | internal/credential/authorization_store.go:151-294 | over runs of operations, failures and crashes memory is what the file says, and any crash restores a map memory once held |
| `TokenStores.SavedStoreReopensIffItFits` | internal/credential/authorization_store.go:151-236 | after a successful operation the store can be opened again, with the same map, if and only if the encoding is at most 64 MiB |
| `Codecs.SaveCanOutgrowTheLoader` | internal/credential/authorization_store.go:151-236 | for every invertible codec some first save succeeds and cannot be loaded again |
| `Codecs.InvertibleCodecExists` | internal/credential/authorization_store.go:238-263 | the premise on codecs can be met |
| `RateLimit.Limiter.ForgetIdle` | internal/limiter/manager.go:104-109 | forgets exactly the buckets idle for more than ten minutes |
| `RateLimit.Limiter.TakeRate` | internal/limiter/manager.go:92-129 | admits and updates as the bucket specification says |
| `RateLimit.BucketsStayInRange` | internal/limiter/manager.go:92-129 | over every run at most 10,000 buckets, none above its burst, and none below empty by more than the clock skew is worth |
| `RateLimit.OutOfOrderReadingsOverdraw` | internal/limiter/manager.go:99-123 | readings one second out of lock order leave a bucket at minus one token |
| `RateLimit.RateIsBounded` | internal/limiter/manager.go:92-129 | in any window at most burst + rate × length admissions for a key, across forgetting and re-creation, for readings out of order by at most a skew, when ten minutes less twice the skew refill the burst |
| `RateLimit.RateIsBoundedInAnyOrder` | internal/limiter/manager.go:92-129 | a key whose bucket is never forgotten keeps the bound in any order of readings and with any burst |
| `RateLimit.FewKeysAreRemembered` | internal/limiter/manager.go:103-114 | no bucket is forgotten while at most 10,000 keys call |
| `RateLimit.RateBoundIffRefills` | internal/limiter/manager.go:92-129 | for every skew that proviso is exact: without it some run exceeds the bound |
| `RateLimit.DrainAdmits` | internal/limiter/manager.go:117-128 | a bucket with n whole tokens admits the next n calls at the same instant |
| `RateLimit.CompiledLimitIsPositive` | internal/manifest/compile.go:181-193 | a compiled burst is the configured one, or twice the rate rounded down, and at least one |
| `RateLimit.DefaultBurstRefillsWhenIdle` | internal/manifest/compile.go:181-193 | the default burst meets the proviso exactly from one request in ten minutes up |
| `Breakers.Breaker.Allow` | internal/breaker/breaker.go:34-50 | admits exactly as the history specifies and tells a refused caller how long to wait |
| `Breakers.Breaker.Success` | internal/breaker/breaker.go:52-59 | closes the breaker and ends a probe, tracking the history |
| `Breakers.Breaker.Ignore` | internal/breaker/breaker.go:61-66 | ends a probe and nothing else, tracking the history |
| `Breakers.Breaker.Failure` | internal/breaker/breaker.go:68-76 | counts a failure and opens at the threshold, tracking the history |
| `Breakers.BreakerRefinesHistory` | internal/breaker/breaker.go:34-76 | after any calls, `Allow` admits exactly when failures since the last success are below the threshold, or the cooldown since the last failure is over and no probe is outstanding |
| `Breakers.SecondProbeIffSettled` | internal/breaker/breaker.go:34-76 | after a half-open admission, with the breaker open and its cooldown over, the next call is admitted if and only if something has settled since with no half-open admission after it |
| `Breakers.LateSettlementAdmitsSecondProbe` | internal/breaker/breaker.go:61-71 | a history in which a call admitted before opening settles late and lets a second probe in |
| `Invoke.SlotConservation` | internal/limiter/manager.go:62-90 | global slots are the sum of domain slots plus callers between the waits or mid-release, slots are held exactly by running invocations and open bodies, and both limits hold |
| `Invoke.ReleaseNeverBlocks` | internal/limiter/manager.go:84-89 | whoever has a slot to return can return it at once |
| `Invoke.RepeatedCloseFreesNothing` | internal/invoke/service.go:156-166 | closing a body again frees nothing |
| `Invoke.OneDispatchOneVerdict` | internal/invoke/service.go:61-154 | at most one dispatch, only after every check passed; an admitted call gets exactly one verdict, the one its answer calls for |
| `Invoke.QuietStateIsClean` | internal/invoke/service.go:76-154 | when all invocations have returned and all bodies are closed, no slot is in use and no breaker waits for a probe |
| `Invoke.SecondProbeIffAnotherSettled` | internal/invoke/service.go:103-131 | while a probe is unsettled, another call is admitted half-open if and only if another call on the endpoint has settled since with no half-open admission after it |
| `Invoke.NoInvocationIsStuck` | internal/invoke/service.go:61-166 | every invocation can always move on |
| `Invoke.EveryActionIsProgress` | internal/invoke/service.go:61-166 | every action brings its invocation nearer to its end, except a repeated close, and touches no other |
| `Invoke.PassingCallIsAdmitted` | internal/invoke/service.go:61-87 | an invocation that passes every check is admitted |
| `Invoke.AdmittedCallIsDispatched` | internal/invoke/service.go:94-122 | with a transport, an admitting breaker and a credential, an admitted invocation is dispatched |
| `Invoke.AnswerDecidesDelivery` | internal/invoke/service.go:122-154 | a body is delivered exactly for an answer in the two hundreds; no answer, or one of 500 and above, counts as a failure |
| `Invoke.FailedCheckEndsCall` | internal/invoke/service.go:61-121 | a failed check ends the invocation, after admission by releasing its slots |
| `Invoke.SlotsAreGrantedWhileFree` | internal/limiter/manager.go:70-83 | a waiting caller gets a slot exactly while one is free, and one that stops waiting gives back what it has |
| `Invoke.BreakersFollowInvocations` | internal/invoke/service.go:104-131 | over every run, the breaker of each endpoint follows the history of its invocations and admits exactly as that history specifies |
| `InvokeService.Admission.Acquire` | internal/limiter/manager.go:62-90 | takes one slot of each kind or leaves both counts as they were |
| `InvokeService.Release.Run` | internal/limiter/manager.go:83-89 | returns both slots once |
| `InvokeService.ReleaseBody.Close` | internal/invoke/service.go:156-166 | the first close releases, later ones do nothing |
| `InvokeService.CallUpstream` | internal/invoke/service.go:97-131 | adds nothing, a refusal, or an admission and its one settlement to the breaker's history |
| `InvokeService.InvokeOnce` | internal/invoke/service.go:61-154 | dispatches exactly when every check passes; without a body both counts are as before, with one it owns one slot of each kind |
| `Texts.EscapeRoundTrip` | internal/invoke/request.go:25-33 | decoding an encoded segment gives it back, and an encoded segment has no slash |
| `Texts.EscapedIsInert` | internal/invoke/request.go:25-33 | an encoded segment has no byte that could end or divide the path |
| `Texts.SplitJoin` | internal/manifest/compile.go:343-346 | splitting undoes joining when no part contains the separator |
| `Commands.ValidateEndpoint` | internal/manifest/validate.go:458-490 | no problem exactly for well-formed endpoints, and then their placeholders |
| `Commands.ValidateFlags` | internal/manifest/validate.go:383-456 | no problem exactly for distinct, well-named, well-formed flags, header and query names included |
| `Commands.ValidateCommand` | internal/manifest/validate.go:366-415 | no problem exactly when every placeholder has a required path flag, every path flag is used, and the other rules hold |
| `Manifests.Validate` | internal/manifest/validate.go:78-133 | no problem exactly for manifests that satisfy every rule on domains and commands, given the outcome of the other rules of each domain |
| `Manifests.Compile` | internal/manifest/compile.go:90-139 | both maps hold exactly one compiled command for each declared one, and the key list is the sorted key set |
| `Manifests.CompiledCommandIsFaithful` | internal/manifest/compile.go:106-117 | a compiled command has the domain, path and endpoint segments of its declaration, and its key reads as the first two |
| `Manifests.CompiledFlagsAreFaithful` | internal/manifest/compile.go:268-290 | compilation keeps every flag as declared and gives query flags, and only those, a query name |
| `Manifests.KeySplits` | internal/manifest/validate.go:114-119 | a command key read between its dots is the domain and the path |
| `Manifests.NamesAreInBijection` | internal/manifest/validate.go:101-126 | in an accepted manifest position, (domain, path), key and tool name determine each other |
| `Manifests.ToolNamingIsNotInjective` | internal/manifest/validate.go:569-572 | two well-named commands can share a tool name, and a manifest with both is refused |
| `Requests.NormalizeList` | internal/invoke/args.go:85-93 | accepts exactly lists of strings and returns them in order |
| `Requests.ValidateArguments` | internal/invoke/args.go:12-43 | accepts exactly declared, well-typed, complete arguments, and returns every flag's value or default |
| `Requests.ArgumentArrives` | internal/invoke/args.go:45-98 | an accepted argument arrives as the string, boolean, integer or list of strings that was supplied |
| `Requests.MissingArgumentDefaults` | internal/invoke/args.go:26-36 | an argument not supplied arrives as its default, or not at all if it has none and is not required |
| `Requests.PlaceholdersHaveValues` | internal/invoke/args.go:12-43 | after both validations every placeholder has a value |
| `Requests.BuilderAgreesWithValidator` | internal/invoke/request.go:27-28 | on validated segments builder and validator recognise the same placeholders |
| `Requests.BuildPath` | internal/invoke/request.go:25-41 | builds the escaped path; decoding it fails only for a malformed base path |
| `Requests.RawPathDecodes` | internal/invoke/request.go:34-38 | the decoded path is the decoded base and the segment texts joined |
| `Requests.RequestPathIsFaithful` | internal/invoke/request.go:25-41 | splitting the endpoint part and decoding it returns the static segments and argument values in order (section 2.1 of RFC 3986) |
| `Requests.StringArgumentArrives` | internal/invoke/request.go:27-30 | a supplied string argument arrives in its path segment unchanged |
| `Requests.DotSegmentsComeFromArguments` | internal/invoke/request.go:25-34 | the built endpoint part has an empty or dot segment if and only if some path argument prints as one |
| `Requests.DotArgumentBecomesDotSegment` | internal/invoke/request.go:25-34 | an accepted string argument that puts the segment `..` into the path |
| `Audit.EventsAreConserved` | internal/audit/dispatcher.go:115-155 | every record is accepted, dropped or after closing; each sink has been given the accepted events in order except those in hand or queued |
| `Audit.RecordOutcome` | internal/audit/dispatcher.go:115-136 | a record is ignored exactly after closing, accepted exactly while there is room, and else dropped |
| `Audit.ShutQueueIsDrained` | internal/audit/dispatcher.go:146-178 | once the queue is shut, the worker gives every sink everything accepted and stops |
| `Audit.ClosedSinksHaveEverything` | internal/audit/dispatcher.go:146-178 | when the worker has stopped, every sink was given every accepted event once, in order |
| `Audit.NothingIsAcceptedAfterClosing` | internal/audit/dispatcher.go:115-178 | closing is final, and closed sinks are never written again |
| `Jwks.ValidateKeyIds` | internal/auth/jwks.go:218-231 | accepts exactly key sets with non-empty, distinct IDs |
| `Jwks.MergeIsMerge` | internal/auth/jwks.go:176-186 | the merge keeps all new keys first, adds only old ones with other IDs, and keeps IDs distinct |
| `Jwks.Manager.Current` | internal/auth/jwks.go:85-94 | returns what the history of replies says may be trusted now |
| `Jwks.Manager.RefreshLocked` | internal/auth/jwks.go:127-197 | only a valid key set, or a confirmation of one, changes what is trusted |
| `Jwks.Manager.Refresh` | internal/auth/jwks.go:98-107 | asks unless the last attempt was within a second and something is trusted |
| `Jwks.Manager.RefreshUnknownKey` | internal/auth/jwks.go:111-125 | asks at most once a minute for an unknown key, remembering at most 1025 of them |
| `Jwks.TrustedExactly` | internal/auth/jwks.go:85-94 | trusted are exactly the latest keys, first, and during the overlap the replaced ones whose IDs are not reused; IDs are distinct |
| `Jwks.RemovedKeyIsTrustedIff` | internal/auth/jwks.go:176-190 | a removed key is trusted if and only if no further key set has come and the overlap of the removing set lasts |
| `Jwks.RemovedKeyIsLostEarly` | internal/auth/jwks.go:176-190 | a history in which an identical further key set ends the overlap early |

## Left out

- Form of the concurrent parts: the manager, the MCP handler, `GetOrLoad`, `Begin`/`Complete` runs, grant refresh, concurrent invocations and the audit worker are state machines on values, so pointers appear as identifiers and aliasing is explicit; their sequential pieces are classes in `Generation.dfy`, `TokenCache.dfy`, `Authorization.dfy`, `InvokeService.dfy`, `RateLimit.dfy`, `Breaker.dfy`, `TokenStore.dfy` and `Jwks.dfy`.
- Real time and scheduling: clocks are step parameters; time-outs and cancellations may happen at any step; Go panics other than the one in `release` are not modelled.
- RateLimit.RateIsBounded: the bound is for the limiter of one runtime generation, and a reload starts with full buckets; reals stand for float64, so rounding is not modelled; windows are windows of clock readings, and bucket keys are taken to be distinct for distinct identities and domains.
- Mcp.ShutdownReleasesEveryLease: whether the MCP SDK calls the server factory once per request is not part of this model; both cases are covered.
- AuthorizationRuns.StateIsExchangedOnce: random states are taken to be new at each `Begin`; that they cannot be guessed is not modelled.
- KeyEncoding.EncodingIsInjective: stops at the bytes fed to the HMAC.
- TokenStores.CrashLeavesOldOrNew: JSON and AES-GCM are an encoder and a decoder assumed to be inverse; renames are atomic, and file contents are durable once synced.
- Manifests.Validate: the upstream, TLS, timeout, authentication and limit rules of a domain are one given outcome; the rules for server, authentication, audit and the rest of the manifest are not modelled.
- Commands.ValidateEndpoint: URL parsing is a given path or failure; the validator and the compiler see the same one.
- Requests.BuildPath: printing a value is a parameter; query, header and body routing, and the 1 MiB body limit, are left out.
- Invoke.OneDispatchOneVerdict: a service built without admission control is not modelled; the rate check is an outcome here and specified in `RateLimit.dfy`.
- Idle time-out of streaming bodies: the timer closes the inner body only, so slots stay held until the adapter closes its own wrapper; the timer itself is not modelled.
- `oauthProvider.requestToken`: some of its exits do not settle an admitted probe; settlement is stated for `Service.Invoke` only.
- `Disconnect` is its deletion step; revocation requests are left out.
- Adaptive refresh intervals of the key manager, conditional request headers, and audit sink transports are left out.
- HTTP handlers, routing, YAML and JSON decoding, the CLI client, policy rules, metrics, DNS, TLS and the development servers are left out: they are I/O, or each is settled by reading one branch.
