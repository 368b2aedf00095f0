# Verified models of the permission cache, event bus, conversion worker, refresh tokens and room names

Five parts of the Go service, each as its own state and steps, with the properties it exists for proved over
every input, every run or every reachable state. `dafny verify dfyconfig.toml` checks everything.

Where the Go code changes fields in place, the model is a class whose methods do the same; where goroutines
interleave, the model is a transition system whose labels are the atomic steps, and the class methods are shown to
take their object along those steps. A run is a list of labels (or, for the event bus, a function from step numbers to
labels), so a lemma about `StateAt(s, ls, n)` is about every reachable state.

* **Memory cache driver** (`Patterns`, `TimedMap`, `MemoryDriver`). Expired entries stay in the map until they are
  overwritten, yet no caller can tell; `SetNX` is a lock that lasts its ttl; the wildcard matcher is compared with a
  recursive reference glob.
* **Permission decisions** (`CacheKeys`, `Policies`, `CachedDecisions`, `Permission`, `Staleness`, `Broadcasts`). The
  stored policy (database) and the loaded policy (engine) are two values. A cached check is proved to be the check
  itself while calls run one after another, and to be at most a ttl plus one caller's decide-to-store delay old when
  they interleave. Both hold for every set of requests that their keys tell apart, and for no other; a caller can read
  off the route table whether its requests are such a set, whatever domains clients send. Across instances, with
  reloads that may fail and messages that may reach some instances and not others, it is stated exactly which failures
  leave an instance behind, and that otherwise every instance ends up answering by the stored policy.
* **Event bus** (`EventBusProtocol`, `EventBusObject`). Conservation and order of accepted events, per-handler
  delivery under panics and late subscription, and what a shutdown can lose.
* **Conversion worker** (`Backoffs`, `WorkerProtocol`, `WorkerConservation`, `WorkerReasons`, `WorkerExclusion`,
  `WorkerLocks`, `WorkerCluster`, `WorkerOrder`, `WorkerTermination`, `WorkerLiveness`, `WorkerShutdown`,
  `WorkerObject`). Over any number of processes on a Redis that may hold anything at the start: every job is in one
  place, one job holds a lock, and it is stated exactly when a lock is taken and a waiting job can acquire its own. Of
  one process: recorded reasons are true, every fair run finishes every job, and what a stopped one leaves behind.
* **Refresh tokens** (`RefreshTokens`, `TokenSteps`, `TokenServices`). A rotation is one step in the first module and
  its three database calls in the second, where every interleaving is covered.
* **Room names** (`Uuids`, `Rooms`).

Statements that the code's own text makes and the code does not keep are proved with their exact condition:

* The cache is transparent only for requests that keys tell apart. The tenant header supplies the domain unchecked, so
  domains may hold colons; with colon-free user ids that does no harm if and only if no two guards of the route table,
  written `obj:act`, are the same text or one ends in a colon and the other (`TransparentIffInjective`,
  `RouteRequestsInjective`, `ForeignAnswerIffColon`).
* `ParseCacheKey` undoes `CacheKey` only on colon-free fields, which the data portability actions are not
  (`ParsePrinted`).
* `InvalidateForDomain` is said to invalidate all permissions of a domain. Its pattern has a star in the middle, which
  the memory driver reads as a literal character, so it misses every entry of an ordinary subject
  (`DomainInvalidationMisses`, `DomainPatternSelects`, `MatchesPatternIsGlob`).
* A job that fails is put into its backoff before its lock is deleted, so a waiting job can find its own lock taken; if
  the deletion fails, its retry is dropped as busy. `WaitingLockFreeIff` and `PoppedAcquiresIff` say exactly when.
* Rotation runs without a transaction. Each chain has at most one live token after every step if and only if every
  successor is inserted when no token of its chain is live (`OneLiveIff`); all tokens but a chain's last are revoked,
  and places in it taken once, if and only if every successor finds its place free (`ChainsHoldIff`); and revoking all
  of a user's tokens lasts until the next login if and only if no rotation of theirs was past its lookup
  (`RevokeAllLastsIff`).
* "Stop gracefully stops the worker": jobs in its channels are neither finished nor put back, and their locks stay until
  the ttl is over (`HaltedLeavesJobs`, `LostForGood`, `StrandedLock`).
* `ExtractOrgID` is said to give the empty id for an invalid room name; it reads an id off some invalid names too
  (`InvalidNamesGiveNil`).

Two comments describe what the code does not do, and the model follows the code:

* `memory.go` says an expired entry is cleaned up on the next Set; only a Set of the same key replaces it
  (`LazyExpiryRefinesEager` is why that does not show).
* `worker.go` says "left push, right pop"; it pops from the left, so the queue is a stack and is modelled as one.

## Model

| member | source | states |
|---|---|---|
| Patterns.MatchesPatternIsGlob | internal/cache/memory.go:129-152 | The matcher equals the reference glob, in which every star matches any string, on all keys if and only if the pattern has no star strictly inside it; `**` and the empty pattern are included |
| Patterns.MatchesPatternSound | internal/cache/memory.go:131-152 | For every pattern whatsoever a key the matcher accepts is one the glob accepts, so a clear never removes too much |
| Patterns.MatchesPatternComplete | internal/cache/memory.go:131-152 | Without an interior star every key the glob accepts is matched |
| Patterns.InteriorStarIsLiteral | internal/cache/memory.go:135-150 | Under a pattern with an interior star only keys that contain a star themselves can match |
| TimedMap.LazyExpiryRefinesEager | internal/cache/memory.go:28-127 | On every run over a forward clock the driver answers every call as a map that drops entries the moment they expire would |
| TimedMap.ReadBack | internal/cache/memory.go:28-102 | In any run, a value stored by Set or a successful SetNX and not touched since is read back, and reported present, up to exactly ttl seconds after the store, and not after |
| TimedMap.DroppedIsGone | internal/cache/memory.go:77-127 | In any run, a key deleted, cleared by a matching pattern or closed over and not stored since is absent to Get and Exists, and SetNX acquires it |
| TimedMap.AcquisitionsAreATtlApart | internal/cache/memory.go:58-75 | In any run, two successful SetNX on one key with no Set, Delete, Clear or Close of it in between are at least the first one's ttl apart |
| TimedMap.ExpiredLockIsFree | internal/cache/memory.go:58-75 | After an acquisition nobody disturbed, the next SetNX succeeds if and only if the expiry instant has been reached |
| TimedMap.ExpiryInstant | internal/cache/memory.go:38-42 | At now = expiresAt a key still reads as present while SetNX acquires it; at every other instant presence and blocking agree |
| MemoryDriver.MemoryCache.Get | internal/cache/memory.go:29-45 | Answers as the abstract timed map does: value, or nothing when absent or past expiry |
| MemoryDriver.MemoryCache.Set | internal/cache/memory.go:48-56 | Moves the map along the abstract Set, overwriting whatever was there with a new expiry |
| MemoryDriver.MemoryCache.SetNX | internal/cache/memory.go:60-75 | Moves the map along the abstract SetNX, with the clock read once for the check and once for the expiry |
| MemoryDriver.MemoryCache.Exists | internal/cache/memory.go:87-102 | Answers as the abstract timed map does, without changing it |
| MemoryDriver.MemoryCache.Clear | internal/cache/memory.go:114-127 | However the range loop orders the keys while deleting, exactly the matching entries go and the others keep value and expiry |
| CacheKeys.CacheKeyInjective | internal/permission/enforcer.go:261-265 | Two requests with colon-free subject, domain and object and the same key are the same request, even when the action has colons |
| CacheKeys.CacheKeyUnique | internal/permission/enforcer.go:261-265 | A request is the only one of all requests with its key if and only if none of its four fields holds a colon |
| CacheKeys.PlainRequestsInjective | internal/permission/enforcer.go:261-265 | Keys tell all requests apart whose subject, domain and object are colon-free |
| CacheKeys.RouteRequestsInjective | internal/http/middleware/permission.go:65-76 | For every route table, with any colon-free user id and any domain header, neither empty, keys tell the requests apart if and only if no two guards have the same text `obj:act` or texts of which one ends in a colon and the other |
| CacheKeys.ColonFreeObjects | internal/http/middleware/permission.go:161-168 | Guards with colon-free resources never have the same text, so only the endings count for them |
| CacheKeys.ColonFreeGuard | internal/http/middleware/permission.go:161-168 | A guard without colons in object and action never ends in another one |
| CacheKeys.OneColonGuard | internal/http/handler/data_portability.go:44-55 | The data portability guards, whose actions have one colon as in `export:create`, are ambiguous with one guard each: object and action being the two halves |
| CacheKeys.ParsePrinted | internal/permission/enforcer.go:263-275 | Parsing a printed key gives the request back if and only if all four fields are colon-free, and is an error otherwise |
| CacheKeys.PrintParsed | internal/permission/enforcer.go:267-275 | Printing the parse of any accepted key gives that key, and the parsed fields are colon-free |
| CacheKeys.UserPatternSelects | internal/permission/cache.go:112-113 | For colon-free ids the user pattern matches a request's key if and only if the subject is that user |
| CacheKeys.DomainPatternSelects | internal/permission/cache.go:127-128 | For any domain, the pattern matches only keys of a subject literally named `*` whose domain, object and action begin with that domain |
| CacheKeys.DomainPatternHasInteriorStar | internal/permission/cache.go:127-128 | The pattern built for a domain always lies outside the fragment on which the matcher is a glob |
| CacheKeys.DomainPatternIntent | internal/permission/cache.go:126-128 | Read as a glob the same pattern would match every request of the domain |
| CacheKeys.AllPatternMatches | internal/permission/cache.go:95-98 | The all-permissions pattern matches exactly the keys under the permission prefix |
| Policies.HasRoleIsReachability | internal/permission/enforcer.go:38-45 | Role membership in a domain holds exactly when a chain of role edges of that domain, within the depth bound, leads to the role |
| Policies.DecideIsReachability | internal/permission/enforcer.go:31-46 | A request is allowed if and only if a policy line has its domain, object and action, and a chain of role edges of that domain, within the depth, leads from its subject to the line's |
| Policies.DomainIsolation | internal/permission/enforcer.go:44-45 | Policies that agree on one domain's rules and role edges decide every request of that domain alike |
| Policies.Monotone | internal/permission/enforcer.go:41-45 | More rules and role edges never turn an allow into a deny |
| Policies.EditEffect | internal/permission/enforcer.go:119-174 | An edit in another domain changes no decision here; additions keep every allow, removals every deny |
| Policies.EditDecides | internal/permission/enforcer.go:119-174 | For each of the four edits, what is allowed afterwards, in terms of the policy lines and role edges there were before |
| Policies.AddedPolicyAllows | internal/permission/enforcer.go:118-130 | The line of an AddPolicy is allowed at once |
| Policies.RemovedPolicyDenies | internal/permission/enforcer.go:132-144 | After a RemovePolicy a request is denied unless another line has its domain, object and action |
| Policies.AddedRoleAllows | internal/permission/enforcer.go:146-159 | A user given a role is allowed at once what the lines of that role allow in its domain |
| Policies.RemovedLastRoleDenies | internal/permission/enforcer.go:161-174 | A user whose last role in a domain is removed is allowed there exactly what lines naming the user allow |
| CachedDecisions.CachedEnforceIsEnforce | internal/permission/enforcer.go:284-320 | Over a cache that agrees with the loaded policy on a set of requests that keys tell apart, a cached check gives that policy's decision or the engine's error whichever driver calls fail, and leaves the cache agreeing |
| CachedDecisions.StoredDecisionLasts | internal/permission/cache.go:65-84 | A stored decision is answered again under any policy loaded later until the configured ttl, cut to whole seconds, has passed since the store, and the loaded policy's decision from then on |
| CachedDecisions.TtlIsCutToSeconds | internal/permission/cache.go:73 | The driver's ttl in seconds is the configured one to within a second, never more |
| CachedDecisions.TransparentIffInjective | internal/permission/enforcer.go:284-320 | For any set of requests: after any of them has been checked, each is answered by its own decision under every policy, if and only if keys tell the requests of the set apart |
| CachedDecisions.ForeignAnswerIffColon | internal/permission/enforcer.go:263-298 | A request can be given another one's answer, after some earlier check under some policy, if and only if one of its four fields holds a colon |
| CachedDecisions.ForeignAnswer | internal/permission/enforcer.go:290-298 | For two given requests, a foreign answer is possible if and only if they differ and share a key |
| CachedDecisions.ClearedAgrees | internal/permission/cache.go:97-108 | After clearing all permission entries the cache agrees with every policy |
| CachedDecisions.UserInvalidationIsExact | internal/permission/cache.go:110-124 | For a colon-free user, of the entries of all requests whatsoever exactly those are removed whose key some request of the user has; the others keep value and expiry |
| CachedDecisions.UserInvalidationKeepsOtherKeys | internal/permission/cache.go:112-115 | Any other key, permission entry or not, keeps value and expiry |
| CachedDecisions.DomainInvalidationMisses | internal/permission/cache.go:126-139 | Any domain is fully invalidated if and only if the cache held no entry of it for a colon-free subject other than `*` |
| CachedDecisions.SynchronisedAgrees | internal/permission/invalidator.go:130-147 | Over every history, after a successful clear the cache agrees with the loaded policy until the loaded policy is changed without a clear |
| CachedDecisions.CacheIsTransparent | internal/permission/enforcer.go:284-320 | Every cached check made in such a stretch of a history, over any set of requests that keys tell apart, equals Enforce under the loaded policy |
| CachedDecisions.FailedClearUnderBroadcast | internal/permission/invalidator.go:130-164 | After a failed clear BroadcastInvalidation still reloads, and keeps agreement if and only if every cached request is decided alike by the loaded and the stored policy; InvalidateAndReload stops and keeps it |
| Permission.Cache.constructor | internal/permission/cache.go:36-44 | The ttl is positive: the given one, or five minutes for a zero or negative one |
| Permission.Cache.Get | internal/permission/cache.go:48-62 | Distinguishes hit, miss and driver failure; a hit gives the stored decision |
| Permission.Cache.Set | internal/permission/cache.go:65-84 | On success the decision is read back for the configured ttl, cut to whole seconds, and no longer; on failure nothing changes |
| Permission.Cache.InvalidateAll | internal/permission/cache.go:97-108 | On success the cache agrees with every policy; on failure it is unchanged |
| Permission.Cache.InvalidateForUser | internal/permission/cache.go:112-124 | On success exactly the requests of that user are gone, for colon-free ids |
| Permission.Cache.InvalidateForDomain | internal/permission/cache.go:127-139 | Clears by the domain pattern as coded, or changes nothing on failure |
| Permission.Enforcer.Edit | internal/permission/enforcer.go:119-174 | On success the loaded policy decides every request as the old one with that line or role edge added or removed, an added line is allowed, and the stored policy keeps in step; on failure both stay |
| Permission.Enforcer.EnforceWithCache | internal/permission/enforcer.go:284-320 | Is the specified cached check, is Enforce without a cache, and over an agreeing cache answers as the loaded policy does and keeps agreement; a decision computed afresh is cached for exactly the ttl in whole seconds; an error is the engine's |
| Permission.Enforcer.InvalidateCache | internal/permission/enforcer.go:323-328 | Leaves a cache that agrees with the loaded policy when it reports success |
| Permission.Invalidator.InvalidateAndReload | internal/permission/invalidator.go:130-147 | Succeeds if and only if neither call fails, and then the loaded policy is the stored one and the cache agrees with it, after any edits |
| Permission.Invalidator.OnInvalidate | internal/permission/invalidator.go:83-101 | Clears and reloads, going on after each failure |
| Permission.Invalidator.BroadcastInvalidation | internal/permission/invalidator.go:151-173 | Clears, reloads and publishes, going on after local failures; agreement is restored when the clear succeeded |
| Staleness.BoundedStaleness | internal/permission/enforcer.go:284-320 | In every interleaving of lookups, decisions, stores, broken-off calls, edits, reloads, clears and ticks over requests that keys tell apart, each answer is the decision of a policy that was loaded at some step, stored by its caller at most the configured ttl before the answer |
| Staleness.CallIsItsSteps | internal/permission/enforcer.go:284-320 | Uninterrupted, lookup, decision and store are the call as the sequential model has it, with the same answer and cache |
| Staleness.NewTtlCounts | internal/permission/cache.go:152-156 | A positive new ttl counts from the next store on, any other changes nothing |
| Staleness.LeavingStoresNothing | internal/permission/enforcer.go:307-311 | A call that ends early, as on an engine error, stores nothing |
| Staleness.InvalidatedMisses | internal/permission/cache.go:87-93 | A request whose key was invalidated is not answered from the cache |
| Staleness.SharedKeyBreaksBound | internal/permission/enforcer.go:284-320 | For any two requests with one key there is a run over just these two with an answer that no policy loaded in the run gives, so the bound holds for no set with a shared key |
| Staleness.HitIsFresh | internal/permission/enforcer.go:293-298 | For a cache hit, which decision and which store the answer came from |
| Staleness.AnswersConverge | internal/permission/invalidator.go:151-164 | Once reloads stop, callers in flight have stored and more than one ttl has passed, every answer is the final policy's, whatever clears raced with reloads |
| Staleness.WindowKeepsOldDecision | internal/permission/invalidator.go:130-143 | A call that runs between the clear and the reload makes the old decision be answered under the new policy until the configured ttl, cut to whole seconds, has passed, and not after |
| Broadcasts.ChangeTakesEffect | internal/permission/enforcer.go:119-174 | A change decides the stored policy of all instances at once, and the loaded policy of its own instance at its next step |
| Broadcasts.StepWillHearIff | internal/permission/invalidator.go:52-101 | While every outdated instance has a message waiting or somebody is still to publish, a step ends that if and only if it is a failed reload using up an outdated instance's last message with nobody left to publish, or the last publisher's message missing an outdated instance that has no mail, whichever other instances it reaches |
| Broadcasts.AlwaysWillHear | internal/permission/invalidator.go:151-173 | Short of those steps, at all times an outdated instance has a message waiting or somebody is still to publish one |
| Broadcasts.NoFailureBreaksNothing | internal/permission/invalidator.go:93-98 | If messages reach every instance and listeners' reloads succeed there are no such steps, even when publishers' own reloads fail |
| Broadcasts.InstancesConverge | internal/permission/invalidator.go:74-110 | When every change has been published and an instance has handled its messages, it has the stored policy loaded, however the instances' steps interleaved |
| Broadcasts.ViewIsRun | internal/permission/invalidator.go:74-173 | What an instance of the cluster goes through is a run of the interleaved single-instance model |
| Broadcasts.EveryInstanceConverges | internal/permission/invalidator.go:149-173 | Once changes have stopped and been published, an instance has handled its messages, its callers in flight have stored and more than the longest ttl has passed, every answer of that instance is the stored policy's |
| EventBusProtocol.AlwaysConserved | internal/domain/webhook_events.go:85-141 | In every reachable state the accepted events are, in order, those dispatched, the one in hand and those in the channel, which is within its capacity |
| EventBusProtocol.PublishOutcome | internal/domain/webhook_events.go:85-100 | An error from Publish leaves channel and accepted events unchanged; success appends the event to both |
| EventBusProtocol.AlwaysDelivered | internal/domain/webhook_events.go:126-141 | In every reachable state, also in the middle of a fan-out, each handler has been called with exactly what it was due |
| EventBusProtocol.HandlerSeesItsEvents | internal/domain/webhook_events.go:77-141 | Between events, a handler's calls are exactly the events snapshotted since it subscribed, each once, in dispatch order, whichever handlers panicked |
| EventBusProtocol.OnlyEarlierChecksAreLost | internal/domain/webhook_events.go:59-122 | At the dispatcher's exit the channel is empty and all accepted events were dispatched; anything found in the channel later was past its cancel check before the cancel |
| EventBusProtocol.QuietCancelLosesNothing | internal/domain/webhook_events.go:85-122 | With no publisher between check and send at the cancel, every accepted event is dispatched |
| EventBusProtocol.StepGetsCloser | internal/domain/webhook_events.go:104-122 | After a cancel every dispatcher step lowers the measure over pending events, phase and handlers left, and no other step raises it |
| EventBusProtocol.DispatcherNeverStuck | internal/domain/webhook_events.go:104-122 | After a cancel the dispatcher has an enabled step until it has exited |
| EventBusProtocol.DrainEnds | internal/domain/webhook_events.go:57-74 | In every infinite run that is cancelled and in which the dispatcher keeps getting turns, it exits |
| EventBusProtocol.FairRunsExist | internal/domain/webhook_events.go:50-62 | From every initial state there is a cancelled run of the kind DrainEnds speaks of |
| EventBusObject.ReachesKeeps | internal/domain/webhook_events.go:25-33 | Conservation and delivery hold wherever protocol steps lead |
| EventBusObject.EventBus.constructor | internal/domain/webhook_events.go:37-46 | An initial protocol state with capacity 256 for a non-positive size |
| EventBusObject.EventBus.Publish | internal/domain/webhook_events.go:85-100 | Which of success and the three errors is returned, and that an error changes nothing |
| EventBusObject.EventBus.CallHandlers | internal/domain/webhook_events.go:126-141 | Each snapshotted handler is called once with the event, in order, whether or not others panic |
| EventBusObject.EventBus.CallRest | internal/domain/webhook_events.go:131-140 | From the middle of a fan-out, each handler that is left is called once, in order |
| EventBusObject.EventBus.DispatchOne | internal/domain/webhook_events.go:118-119 | Moves the head of the channel to the dispatched events along protocol steps |
| EventBusObject.EventBus.Drain | internal/domain/webhook_events.go:109-117 | Ends with an empty channel and everything in it dispatched in order |
| EventBusObject.EventBus.Stop | internal/domain/webhook_events.go:59-74 | From wherever the dispatcher stands it exits after dispatching everything accepted; a bus never started or already stopped is left alone |
| Backoffs.CalculateBackoff | internal/conversion/handler.go:208-219 | The doubling loop gives 2^(min(attempt,5)-1), and 0 for a non-positive attempt |
| Backoffs.BackoffGrowsToCap | internal/conversion/handler.go:208-219 | Later attempts never wait less and none waits more than 16 seconds |
| Backoffs.TotalWait | internal/conversion/worker.go:243-274 | A job that always fails waits 2^(m-1)-1 seconds in all under m retries for 1 to 6, and 16 more per further retry |
| Backoffs.Registry.FindHandler | internal/conversion/handler.go:185-192 | The first registered handler that accepts the type, or none exactly when none accepts it |
| WorkerConservation.ExactlyOnePlace | internal/conversion/worker.go:143-317 | In every reachable state every submitted job is in exactly one of Redis list, poller, jobCh, running, backoff, enqueueCh, enqueuer or finished with a reason, and nothing else is anywhere |
| WorkerConservation.StepConserves | internal/conversion/worker.go:143-375 | Every step, failing Redis calls and shutdown included, keeps the location count of every job |
| WorkerReasons.FinishedBecause | internal/conversion/worker.go:143-329 | In every run, each finished job was finished by a step that its recorded reason describes: completed only by a success, exhausted only by a failure at the limit, busy only by a lock that was not to be had, and so on |
| WorkerExclusion.LockKeyIdentifies | internal/conversion/worker.go:298-301 | Two lock keys are equal if and only if media id and conversion name are |
| WorkerExclusion.MutualExclusion | internal/conversion/worker.go:166-329 | Over every run in which no holder outlives the lock's ttl, from any contents of Redis, at most one job per lock key is with the poller after acquiring, in jobCh, running or releasing, over polled and synchronous paths alike |
| WorkerExclusion.OnlyLateHoldersAreOvertaken | internal/conversion/worker.go:277-288 | The time condition is exact: an acquisition gives a key its second holder if and only if the present one has had its lock for the ttl |
| WorkerExclusion.StepExclusive | internal/conversion/worker.go:143-329 | One step from an exclusive, timely state keeps each holder's lock in the store and every key at one holder at most |
| WorkerLocks.LockedIff | internal/conversion/worker.go:276-296 | Over any number of processes, in time, a lock is taken if and only if a job of some process holds it, a holder's deletion of it failed and its ttl is not over, or Redis had it at the start and it has not expired |
| WorkerLocks.WaitingHoldsOnlyToRelease | internal/conversion/worker.go:182-186 | In every reachable state of all processes, a job in the list, popped, in a backoff or on its way back is nowhere with a poller after acquiring, in a jobCh or running: the only holder with its id is a goroutine about to delete its lock |
| WorkerLocks.WaitingLockFreeIff | internal/conversion/worker.go:256-296 | In time, the lock of a waiting job is free if and only if in no process a goroutine is yet to delete it for this job, no other submission holds it, no deletion of it failed within the ttl, and Redis did not have it at the start |
| WorkerLocks.PoppedAcquiresIff | internal/conversion/worker.go:165-170 | In time, a popped job of any process, a retry included, acquires its lock if and only if none of these stands in its way, and is dropped for good otherwise |
| WorkerLocks.LockedIffHeld | internal/conversion/worker.go:291-296 | Where deletions succeed and no earlier lock is left in Redis, a lock is taken exactly when one job of all processes holds it |
| WorkerCluster.ClusterMutualExclusion | internal/conversion/worker.go:276-301 | Over every run of any number of worker processes on one Redis, whatever it held at the start, in which no holder outlives its lock, all processes together have at most one job per key past acquiring it |
| WorkerCluster.ClusterExactlyOnePlace | internal/conversion/worker.go:143-317 | In every reachable state of all processes on one Redis, every job submitted to any of them or found in Redis is in exactly one place of all of them together, whichever process pops it, and nothing else is anywhere |
| WorkerTermination.StepMeasure | internal/conversion/worker.go:143-274 | Every move of the worker lowers the measure summed over attempts left and stage of all jobs; the clock does not raise it |
| WorkerTermination.MovesAreBounded | internal/conversion/worker.go:143-274 | From any point on without submissions, every run makes at most as many moves as the measure there |
| WorkerTermination.RunsWithinRetries | internal/conversion/worker.go:243-254 | A job submitted at attempt 0 is handed to the handler at most maxRetries times |
| WorkerTermination.RetriesWait | internal/conversion/worker.go:256-273 | In every run, a retry leaves its backoff no earlier than the doubling delay of its attempt after the failure that caused it |
| WorkerOrder.JobChKeepsOrder | internal/conversion/worker.go:105-174 | In every run, jobs are received from jobCh in the order in which the poller sent them |
| WorkerOrder.EnqueueChKeepsOrder | internal/conversion/worker.go:136-269 | In every run, retries are taken from enqueueCh in the order in which their backoffs sent them |
| WorkerTermination.AlwaysCounted | internal/conversion/worker.go:182-274 | In every reachable state each job has run once per attempt and is retried only below the limit |
| WorkerTermination.NeverStuck | internal/conversion/worker.go:94-179 | While the worker is up and not at rest, some move is enabled at once or after a while |
| WorkerTermination.RestMeansFinished | internal/conversion/worker.go:143-317 | At rest, every submitted job has finished with exactly one reason |
| WorkerTermination.StuckMeansFinished | internal/conversion/worker.go:94-317 | A run that the worker cannot continue while up has finished every job |
| WorkerLiveness.EveryJobFinishes | internal/conversion/worker.go:94-274 | In every infinite fair run on an advancing clock, never stopped, from the last submission on there comes a point at which every submitted job has finished with exactly one reason |
| WorkerLiveness.FairRunsExist | internal/conversion/worker.go:70-87 | From every initial state there is a run of the kind EveryJobFinishes speaks of |
| WorkerShutdown.StuckIffHalted | internal/conversion/worker.go:89-140 | A stopped or cancelled worker cannot move any more, however long one waits, if and only if all loops have ended but for a poller blocked on a full jobCh after a stop and detached backoffs blocked on a full enqueueCh after a cancel |
| WorkerShutdown.HaltedLeavesJobs | internal/conversion/worker.go:89-179 | Then every submitted job has finished, or is in the Redis list, in jobCh, in enqueueCh, with the blocked poller or a blocked backoff, and in only one of these |
| WorkerShutdown.LostForGood | internal/conversion/worker.go:94-140 | Jobs left in jobCh and enqueueCh stay there in every continuation: never handled, put back or finished |
| WorkerShutdown.StrandedLock | internal/conversion/worker.go:277-296 | The lock of a job left in jobCh stays taken until its ttl is over, whatever happens in between |
| WorkerObject.Worker.constructor | internal/conversion/worker.go:43-87 | An initial protocol state over whatever jobs and locks Redis holds, with five retries for 0 and three processors for a non-positive count |
| WorkerObject.Worker.AcquireLock | internal/conversion/worker.go:277-288 | Succeeds if and only if Redis answers and the job's lock is free, and then takes it for the ttl |
| WorkerObject.Worker.PollQueue | internal/conversion/worker.go:143-179 | Takes the head of the list; drops it if it does not decode or its lock is not to be had; otherwise locks it for an hour and hands it to a jobCh with room; as far as the select at a full jobCh |
| WorkerObject.Worker.SendJob | internal/conversion/worker.go:172-178 | The select once a case of it is ready: hand-over, or after a cancel the lock's release |
| WorkerObject.Worker.HandleJob | internal/conversion/worker.go:182-240 | A conversion that succeeds finishes the job as completed and one without a handler as such, with no retry; one that fails adds a backoff at the next attempt for its doubling delay, or at the limit finishes as exhausted; in each case the lock is deleted and the goroutine is free |
| WorkerObject.Worker.HandleError | internal/conversion/worker.go:243-274 | Gives the job up at the retry limit, and otherwise puts it into a backoff for the doubling delay |
| WorkerObject.Worker.EnqueueToRedis | internal/conversion/worker.go:304-317 | The retry comes to the front of the list, or is finished as lost when Redis fails |
| WorkerObject.Worker.EnqueueSync | internal/conversion/worker.go:320-329 | With a free lock the job runs at once, detached and locked for an hour; otherwise it is dropped as busy |
| WorkerObject.Worker.EnqueueAsync | internal/conversion/worker.go:332-345 | The job comes to the front of the list, or is lost and the error reported |
| WorkerObject.Worker.ProcessConversions | internal/conversion/worker.go:353-375 | Submits all jobs of a supported file in order, by the path its size selects, going on after failures |
| WorkerObject.SubmitAllSubmits | internal/conversion/worker.go:358-374 | Every job handed in becomes a submission, so conservation covers it |
| WorkerObject.LargeFileIsQueued | internal/conversion/worker.go:366-374 | The jobs of a large file are all in front of the list, the last pushed first, and none runs |
| WorkerObject.SmallFileRuns | internal/conversion/worker.go:360-365 | The jobs of a small file all run at once when their locks are free, and nothing is queued |
| WorkerObject.DefaultJobs | internal/conversion/handler.go:41-48 | A file gives one thumbnail and one preview job, in this order, at attempt 0 |
| WorkerObject.DefaultJobsAreIndependent | internal/conversion/handler.go:41-48 | The jobs of one file are new submissions at distinct lock keys, so none blocks another |
| RefreshTokens.StepKeepsChains | internal/auth/token_service.go:37-149 | Generate, rotate, revoke and revoke-all taken as whole steps, also when database calls fail, keep all but the last token of each chain revoked |
| TokenSteps.InvalidStaysInvalid | internal/domain/refresh_token.go:36-46 | However the database calls interleave, a token known to the table that once fails to validate fails at every later time |
| RefreshTokens.StepExtends | internal/auth/token_service.go:37-149 | Taken as whole steps, no call removes a row, changes its owner or expiry, or writes a revoked row again |
| TokenSteps.RotateIsItsSteps | internal/auth/token_service.go:96-117 | Uninterrupted, lookup, save and insert do what the rotation taken as one step does, on every failure path |
| TokenSteps.ChainsHoldIff | internal/auth/token_service.go:96-117 | In every interleaving of lookups, saves and inserts with all other calls, each place of a chain is taken once and all its tokens but the last are revoked, if and only if every successor inserted so far found its place free |
| TokenSteps.InsertKeepsChainsIff | internal/auth/token_service.go:110-114 | For one insert: chains in that sense are kept if and only if the chain has no row at that place yet |
| TokenSteps.OneLiveIff | internal/auth/token_service.go:96-117 | In every interleaving, each chain has at most one live token after every step so far if and only if every successor was inserted when no token of its chain was live; whether live means unrevoked or validating at that instant |
| TokenSteps.StepOneLiveIff | internal/auth/token_service.go:110-114 | For one step, with the same two meanings of live |
| TokenSteps.NoOverlapKeepsChains | internal/auth/token_service.go:96-117 | In every run in which no two rotations of one token are past their lookup together, chains hold |
| TokenSteps.ChainedMeansOneLive | internal/auth/token_service.go:67-117 | Where chains hold, a token that validates is the last of its chain and every other one is refused as revoked |
| TokenSteps.OverlappingRotations | internal/auth/token_service.go:96-117 | From any state, two rotations of a valid token that look it up before either saves leave two valid tokens at one place of its chain |
| TokenSteps.RevokeAllLastsIff | internal/auth/token_service.go:96-149 | After revoke-all the user has no live token, whatever calls follow short of a new login, if and only if no rotation of theirs was past its lookup |
| RefreshTokens.RevokeAllEffect | internal/auth/token_service.go:138-149 | At that step the user is left without a token that is or will be live, and every other user's live set is as it was |
| RefreshTokens.RotateEffect | internal/auth/token_service.go:96-117 | The live set exchanges the old token for the new; a failure after the revocation costs the old token, one before changes nothing; other users are untouched |
| RefreshTokens.ValidateIffLive | internal/auth/token_service.go:67-92 | A token validates if and only if it is somebody's live token |
| RefreshTokens.ValidateReads | internal/auth/token_service.go:67-92 | Read off the row: accepted if and only if known, unrevoked and before its expiry; expired if and only if known, unrevoked and at or past it; revoked and unknown likewise |
| TokenServices.TokenService.GenerateRefreshToken | internal/auth/token_service.go:37-63 | A token of the user that validates until its lifetime is over and is refused as expired from then on, or an error and an unchanged table |
| TokenServices.TokenService.ValidateRefreshToken | internal/auth/token_service.go:67-92 | Accepts exactly what the database finds unrevoked and before its expiry; lookup failure, unknown, revoked and expired are told apart in that order |
| TokenServices.TokenService.RotateRefreshToken | internal/auth/token_service.go:96-117 | With the clock read three times as coded: on success the new token is the same user's and validates until its lifetime is over and not after, the old is refused as revoked at any time; validation errors are passed on; chains are kept |
| TokenServices.TokenService.RevokeRefreshToken | internal/auth/token_service.go:120-135 | On success the token is refused as revoked at any time and no other row changes; not-found exactly when it is missing or already revoked |
| TokenServices.TokenService.RevokeAllUserTokens | internal/auth/token_service.go:138-149 | On success no token then in the table is live for the user at any time |
| Uuids.ParsePrint | internal/domain/websocket_events.go:53-54 | Parsing the text of section 4 of RFC 9562 undoes printing it |
| Uuids.PrintLayout | internal/domain/websocket_events.go:53-54 | The printed text character by character: 36 of them, four dashes, each octet's high digit before its low one, in lower case |
| Uuids.ParseUpper | internal/domain/websocket.go:134-148 | Capital digits are read as small ones |
| Uuids.ParseSpellings | internal/domain/websocket.go:134-148 | The digits without dashes, and the text within any two characters, are read as the same id |
| Uuids.PrintParse | internal/domain/websocket.go:135-148 | Of all spellings that parse, with dashes, bare digits or wrapped in one character a side, printing gives the text back if and only if it has 36 characters and no upper-case digit |
| Rooms.RoomRoundTrip | internal/domain/websocket_events.go:49-86 | Every room name printed for an event is valid, gives back the event's organisation and parses to organisation, entity type and entity id |
| Rooms.RoomsByField | internal/domain/websocket_events.go:49-86 | For each kind of event, by its fields, exactly which room names it has |
| Rooms.FourEntityTypes | internal/domain/websocket.go:117-154 | The organisation's room is valid, and an entity room if and only if its type is invoice, news, media or comment |
| Rooms.RoomNamesIdentify | internal/domain/websocket_events.go:49-86 | Equal room names of two events mean equal organisation and, for entity rooms, equal entity type and id |
| Rooms.ValidNameReprints | internal/domain/websocket.go:126-154 | A valid name is the printed form of what it parses to if and only if its ids are in that spelling |
| Rooms.ExtractedOrg | internal/domain/websocket.go:158-167 | A non-nil organisation is read off a name if and only if the name is `org:` and that id in any spelling, with nothing or a colon and anything after it |
| Rooms.InvalidNamesGiveNil | internal/domain/websocket.go:156-167 | The documented empty id for an invalid name comes out if and only if the name is valid or does not start with a non-nil organisation's id in any spelling |
| Rooms.InvalidNameWithOrg | internal/domain/websocket.go:156-167 | For every organisation there is an invalid name from which its id is read |
| Rooms.WsEventBridge.HandleEvent | internal/domain/websocket_events.go:29-45 | One message per room, each envelope naming its own room, all in valid rooms of the event's organisation, added to what was sent before |

## Left out

- Casbin, GORM, Redis and the file system: abstract tables, lists and maps whose calls are atomic and either fail without effect or succeed. The decision rule is the matcher text; Casbin's evaluation of an empty policy table is not modelled.
- HasRole: whichever depth bound the policy engine has is a field of the policy, and every result holds for all bounds.
- Enforcer.Edit: the removal of an absent rule is a success without effect; an edit writes the database first and then the loaded policy as one step. In the interleaved model the two writes are separate steps.
- SavePolicy, ClearPolicy, RemoveUser, RemoveRole, Close and the read-only Casbin queries are thin wrappers over the engine.
- InvalidateUser and InvalidateDomain of the invalidator only publish the general message; the subscription loop is the cluster model's message step, in which messages may be handled at any time. A message lost after it was queued for a listener counts as one whose reload failed. Clears are steps of their own there, at any time or never.
- InvalidateForDomain: promises by name every entry of the domain; the coded pattern does not reach them, so the contract states what is cleared and DomainInvalidationMisses when that is enough.
- Cache drivers other than the memory driver. Their failures are inputs of the permission cache; the memory driver itself never fails.
- Byte values that are nil: an entry always has a value, as all callers modelled here store one.
- Instants and durations are unbounded integers in nanoseconds: overflow of int64 and the float64 rounding inside Seconds() are not modelled. Clocks do not run backwards.
- Go strings are sequences of characters, not of UTF-8 bytes.
- ParsePrint: of the spellings the UUID library reads, the 45-character URN form is left out, as its colons keep it out of room names; the wrapped spelling counts characters, not bytes. The library is not part of this repository.
- EventBus.Start: called at most once per bus. A second Start would run two dispatchers.
- EventBus.Stop: the five-second limit on the wait is left out; the method waits for the dispatcher, and DrainEnds says when that wait ends. Handlers that block for ever are excluded by its fairness condition, and with them a handler that calls Stop.
- EventBus.Publish: the class method runs its check and send without interruption; their interleaving with other publishers and with a cancel is in the transition system.
- Handlers, payloads and message contents beyond the type, entity id and organisation id that room names need.
- BLPop: its timeout and its error are a poll that finds nothing; a reply lost after Redis has popped the job is not modelled, nor are replies with the wrong number of parts.
- PollQueue: the class method returns with the poller holding its job when jobCh is full, where the Go select blocks; SendJob is what it does when it resumes, and the transition system has the waiting in between.
- handleJob: database, storage and image work are one nondeterministic outcome. A handler may take any time; MutualExclusion states the time limit it needs.
- The processingJobs map of the worker, which nothing reads, and its unsynchronised updates.
- MovesAreBounded: counts submissions as input and does not count the passing of time; a poll that finds an empty list is no move.
- Job priority, creation time, conversion sizes, JSON forms and CreateConversionJobsWithConfig. The MIME test of ProcessConversions is an input.
- SHA-256 is taken not to collide; random raw tokens are inputs, and an insert fails when the hash is already there.
- RotateRefreshToken: the class method runs without interruption; the interleavings of its database calls are in TokenSteps.
- FamilyID and session metadata: this service never writes them, so the chain of a token is kept as history beside its row.
- InvalidStaysInvalid: needs the token to have been in the table, as a raw token not yet minted also fails to validate.
- JWT signing, bcrypt, HTTP routing, configuration, logging, migrations, and the job, email, webhook-delivery and export helpers.
- RevokeAllUserTokens: speaks of the tokens in the table at the time; RevokeAllLastsIff says when that is all there will be.
- ClusterMutualExclusion: the processes share Redis and one clock. Termination and shutdown are stated for one process.
- EveryJobFinishes: assumes that the worker is not kept for ever from a move it can make, so that every handler returns.
- RouteRequestsInjective: user ids with colons are outside it; TransparentIffInjective covers any set of requests.
- A job found in Redis at the start counts as a submission, with its history beginning there.
- StuckIffHalted: says where a shutdown ends; that it does follows from MovesAreBounded while nothing is submitted.
