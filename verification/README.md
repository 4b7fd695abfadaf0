# Verification of the edge authorization cache

A Dafny model of the per-project authorization cache and of the service in front of it, with proofs that
caching is invisible or boundedly stale. `dafny verify dfyconfig.toml` checks the whole project.

The service keeps answers of a remote authorization backend at the edge. A cached answer may go wrong in many
ways: a tuple changes elsewhere, a schema changes, a condition evaluates differently for another request, an
index forgets a key, a poll fails, an answer arrives late. The model has the machinery that is there to prevent
this, piece by piece, and the main theorems say how far it succeeds.

## How it is built

| module | what it holds |
|---|---|
| `Keys`, `Lrus`, `Cel`, `Lookups` | cache keys and row encoding, the LRU, condition evaluation and certificates, the TTL lookup cache |
| `GrantStore` | the direct grants with their three side indexes |
| `CacheModel` | the state of a whole cache as a value; each operation as a function; what each keeps |
| `ProjectAuthzCaches` | the cache object: the original's loops and updates in place, each method proved to do to the object's value what its function does |
| `Backends`, `FormulaBackends` | what is assumed of the backend, and a concrete backend that satisfies it |
| `ServiceModel`, `CheckEffects`, `AuthzServices` | Check and the lookups as functions, what Check leaves in the caches, and the service object proved against them |
| `Transparency`, `ServiceEffects` | sequential runs: the cached service refines the plain one, exactly when keys are separate; what writes, purges and misses do that later calls see |
| `Protocol`, `Staleness`, `PollingRuns`, `Freshness`, `ConcurrentChecks` | the concurrent machine: backend versions, answers in flight, polls that take time, timers and late callbacks |
| `Metrics` | the collector and the payload builder |

The methods of the classes are specified by equations between the object's value and a function of its old
value. What those functions guarantee is then proved about them as lemmas and as invariants of runs.

## What is assumed

- The backend meets `Backends.Contract`. An answer that used no facts and had no evaluation trouble stays the
  same in every database with the same schema and, for a direct answer, the same tuples around its relation
  (for an indirect one, the same tuples), and for every context in which the code of the recorded conditions
  yields the recorded values. Conditional answers carry the version of the schema they were reached under.
  Answers depend on a relation's resource, target and name only. `FormulaBackendMeetsContract` shows that this
  can be met.
- Answers of a batch check are parallel to the request.
- A successful GetModified reply names, for every change made at `since` or later and before some backend
  version no older than the poll's start, the resource and target of each tuple created or deleted and any
  change of schema (`Protocol.Conforms`). Backend and cache read the same clock.
- A non-empty schema version identifies a schema, and a schema without a version carries no conditions
  (`VersionsIdentify`, `Versioned`).
- `play` is the set of relations that are ever asked about. `Separates(play)` says that no two of them share a
  key; it is assumed only where a row below depends on it, and `TransparentExactlyWhenSeparate` shows that
  transparency cannot do without it. Relations without colons in resource and target satisfy it.

## Reading the main results

`CacheIsTransparent` is about runs in which every tuple and schema write goes through this instance; polls,
timers, evictions, failures of any endpoint and changes of backend state the edge cannot see may happen at any
point. `BoundedStaleness` drops that restriction: the backend changes on its own, answers are fetched without the
lock and inserted any number of steps later, and a poll holds the lock while the backend, fired timers and
fetches go on. There a served answer is one the backend gave at or after `lastPollTime`, provided the answer it was
cached from was given no earlier than the `lastPollTime` in force at its insertion. That proviso is the exact
boundary: `FreshExactlyWhenGivenSincePoll` proves that inserted answers are fresh if and only if it holds, and
`OvertakenAnswerIsStale` builds the stale run for every pair of times on the other side. `CheckIsBoundedlyStale`
carries the bound to every answer of a whole Check, and `TimedFreshness` bounds how old `lastPollTime` gets.

Where the repository's documentation and code differ, the code is modelled. The repository's README.md, lines
49-51, says that newly granted entries do not appear in a cached lookup before its TTL expires; the code appends
relations created through this instance to live entries at once (`CreatesReachLiveEntries`).

## Model

| member | source | states |
|---|---|---|
| `Transparency.CacheIsTransparent` | internal/services/authz.go:48-143 | Refinement of the uncached service: after any run of checks, lookups, writes through this instance, schema saves, polls with any reply, late timer callbacks and changes of backend facts, Check answers every relation in order with what the backend would allow at that moment, and it fails only if the backend was needed and down |
| `Transparency.TransparentExactlyWhenSeparate` | internal/services/caches/projectauthzcache.go:520-522 | The refinement holds for all contract-keeping backends and all runs if and only if no two relations in play share a cache key |
| `Transparency.CollisionMisleads` | internal/services/caches/projectauthzcache.go:520-522 | For any two different relations with one key there is a concrete backend and run in which Check allows what the backend denies |
| `Transparency.ExecKeepsCurrent` | internal/services/authz.go:48-143 | After every such run each cached grant stands in the backend's present database, each conditional grant is certified, and a loaded version means the loaded schema is the backend's |
| `Transparency.WhoHitsAreCurrent` | internal/services/authz.go:180-231 | In such runs a WhoCanAccess hit returns exactly the cached targets to which the backend now allows the asked relation on the asked resource, in order; it fails only if the backend is down |
| `Transparency.WhatHitsAreCurrent` | internal/services/authz.go:233-284 | In such runs a WhatCanTargetAccess hit returns exactly the cached rows whose relation to their resource the backend now allows the target, in order; it fails only if the backend is down |
| `ServiceEffects.CreatedIsFoundByWho` | internal/services/authz.go:64-82 | Creates are seen at once: after a successful create with the list of targets live, WhoCanAccess finds the new target exactly when the backend allows it |
| `ServiceEffects.CreatedIsFoundByWhat` | internal/services/authz.go:64-82 | The same for the new row of WhatCanTargetAccess, if resource and relation definition hold no bar |
| `ServiceEffects.CreatedIsListed` | internal/services/caches/projectauthzcache.go:267-278 | A successful create puts each created relation into the live lists it belongs to, in the service's next state |
| `ServiceEffects.CreateEffect` | internal/services/authz.go:64-82 | A successful create adds exactly the relations to the backend, empties the indirect grants and extends each lookup list; an empty or failed one changes nothing |
| `ServiceEffects.DeleteEffect` | internal/services/authz.go:84-102 | A successful delete removes exactly the relations from the backend and leaves lookups, schema and polling alone; an empty or failed one changes nothing |
| `ServiceEffects.SchemaEffect` | internal/services/authz.go:48-62 | A successful save gives the schema to the backend and leaves no grant, no index entry and no lookup list, under a schema of no version and no conditions; a failed one changes nothing |
| `ServiceEffects.PurgesForgetLookups` | internal/services/caches/projectauthzcache.go:536-552 | After a saved schema, a poll with too many changes, a changed schema or an error without cooldown, or the callback of an armed cooldown, the next lookup of any key asks the backend and returns its list |
| `ServiceEffects.WhoMissThenHit` | internal/services/authz.go:186-206 | A list fetched by a miss is, up to one TTL after it was stored, what the next call filters |
| `ServiceEffects.WhatMissThenHit` | internal/services/authz.go:239-259 | The same for rows whose resource and relation definition hold no bar |
| `ServiceEffects.ExecKeepsLookupConfig` | internal/services/caches/projectauthzcache.go:112-141 | In every run the lookup cache keeps the configured enabling, TTL, result limit and size |
| `Staleness.BoundedStaleness` | internal/services/caches/projectauthzcache.go:362-422 | In every reachable world of backend changes, fetch-then-insert, local writes, polls that take time, timers, late callbacks and evictions, a served answer was the backend's answer for that request context at some time not before `lastPollTime`, unless it was cached from an answer given before the `lastPollTime` in force at its insertion |
| `Staleness.RunKeepsInv` | internal/services/caches/projectauthzcache.go:362-422 | The freshness invariant behind it holds at the end of every run |
| `Staleness.StepKeepsInv` | internal/services/caches/projectauthzcache.go:230-422 | Each kind of step keeps the freshness invariant |
| `Staleness.PollRefreshes` | internal/services/caches/projectauthzcache.go:385-422 | A grant a successful reply does not touch is fresh with respect to the time the poll started, not only to the previous one |
| `Staleness.UntouchedStands` | internal/services/caches/projectauthzcache.go:394-408 | A grant survives, still standing, across all backend changes named in a reply that spares its resource and target |
| `Staleness.InsertedIsFresh` | internal/services/caches/projectauthzcache.go:293-337 | An answer given at the present poll time or later, even while the poll was running, is fresh when it is inserted, whatever changed in between |
| `Freshness.ServedWithinBound` | internal/services/caches/projectauthzcache.go:347-422 | With polls every I and punctual callbacks, the version a served answer was true in ended no longer than I plus the cooldown window ago |
| `Freshness.FreshExactlyWhenGivenSincePoll` | internal/services/authz.go:119-128 | The exact boundary: what is served from an answer given at one time and inserted under poll time p was true at p or later, for all contract-keeping backends, separate keys and runs, if and only if it was given at p or later |
| `Freshness.GivenSincePollIsFresh` | internal/services/authz.go:119-128 | The if half, for each run that ends in the insertion |
| `Freshness.OvertakenAnswerIsStale` | internal/services/authz.go:119-128 | The other half: for any two times at < p, a run over an empty cache in which a tick at p overtakes an answer given at `at`, which is then served although the backend gave no such answer at p or later |
| `ConcurrentChecks.CheckIsBoundedlyStale` | internal/services/authz.go:104-143 | A whole Check in any interleaving, its split, fetches and merge in different worlds: one answer per relation, for that relation, and each was the backend's at or after the poll time in force when it was served or fetched, unless served from an overtaken answer |
| `ConcurrentChecks.HitIsBoundedlyStale` | internal/services/authz.go:209-231 | A lookup hit in any interleaving, for any candidates: their ordered sublist at the positions allowed, each decision bounded as for Check |
| `PollingRuns.RunIsSafe` | internal/services/caches/projectauthzcache.go:347-422 | Every reachable world has consistent clocks, gap-free poll windows, a safe cooldown due one window after the first error, and only certified conditional grants written under the schema still in use |
| `PollingRuns.StepClocks` | internal/services/caches/projectauthzcache.go:366-422 | `lastPollTime` never decreases and is never in the future |
| `PollingRuns.StepNoGap` | internal/services/caches/projectauthzcache.go:366-422 | Every backend change is at or after `lastPollTime`, or was inside the window of a successful reply, or preceded an instant at which both relation caches were empty |
| `PollingRuns.FailedPollsStay` | internal/services/caches/projectauthzcache.go:376-384 | A failed poll leaves no relation cached, or leaves grants, lookups, schema and `lastPollTime` alone |
| `PollingRuns.StepCooldownSafe` | internal/services/caches/projectauthzcache.go:555-598 | An armed cooldown means W > 0 and that the last poll to reach the remote got an ordinary error; after such an error the cooldown is armed or a purge has happened since; an armed timer is pending or its callback waits |
| `PollingRuns.StepDeadlineFixed` | internal/services/caches/projectauthzcache.go:555-598 | Every step keeps: the cooldown is armed exactly while a poll has failed since the last success, purge or callback, and its deadline is the end of the first such failure plus W, so further errors never move it |
| `PollingRuns.ErrorsKeepDeadline` | internal/services/caches/projectauthzcache.go:582-585 | A further error under an armed cooldown changes nothing in the cache |
| `PollingRuns.CallbackPolling` | internal/services/caches/projectauthzcache.go:571-581 | A callback that finds no timer changes nothing; one that finds any timer leaves no grant, no lookup list and no schema and moves the poll time to now |
| `PollingRuns.TimedFreshness` | internal/services/caches/projectauthzcache.go:347-422 | With ticks at most I apart, now - `lastPollTime` <= I + W in every reachable world, through repeated errors, cancelled cooldowns, late callbacks and skipped polls |
| `PollingRuns.RunOnTime` | internal/services/caches/projectauthzcache.go:555-598 | The invariant behind the bound: without a cooldown the poll time is the last tick's or later; with one its deadline is at most I + W past the poll time |
| `PollingRuns.RunKeepsConfig` | internal/services/caches/projectauthzcache.go:112-146 | In every reachable world the cooldown window and the grant cache sizes are the configured ones, and the caches do not outgrow them |
| `PollingRuns.StepCerts` | internal/services/caches/projectauthzcache.go:230-345 | Every step keeps: a cached conditional grant has a non-empty certificate, a non-empty schema version is loaded, all its conditions have programs, and the schema was not replaced since the grant was written |
| `Protocol.RunExtends` | internal/services/caches/projectauthzcache.go:68-91 | From the end of any run every enabled step can be taken, on a cache whose invariants hold |
| `Protocol.LastIsGood` | internal/services/caches/projectauthzcache.go:424-552 | In every reachable world the direct indexes are complete, lookup rows are readable and the programs are those of the loaded schema, with no assumption on keys |
| `Backends.KeptGrantStands` | internal/services/caches/projectauthzcache.go:299-337 | What is kept of an answer predicts the backend: wherever it may later be served, in any database the answer cannot tell apart, the backend says the same |
| `Backends.StandsOn` | pkg/authzcache/proto/v1/doc/authzcache.openapi.yaml:221-225 | A grant keeps standing from a database to any similar one: the same schema, and the same tuples around the relation for a direct grant, all tuples for an indirect one |
| `Transparency.WrittenElsewhere` | internal/services/caches/projectauthzcache_test.go:42-50 | Creating or deleting relations that share neither resource nor target with a direct grant leaves the database similar for it |
| `FormulaBackends.SameRun` | internal/services/caches/projectauthzcache.go:56-61 | For short-circuit formulas over tuples, facts and conditions, an evaluation is repeated step by step whenever its listed conditions evaluate as listed and its tuples did not change |
| `FormulaBackends.FormulaBackendMeetsContract` | pkg/authzcache/proto/v1/doc/authzcache.openapi.yaml:221-225 | The contract assumed of the backend can be met: every such formula backend meets it |
| `ServiceModel.SplitIsPartition` | internal/services/caches/projectauthzcache.go:167-193 | Served and unchecked relations are complementary subsequences of the input, and the reported positions are exactly the served ones, duplicates included |
| `ServiceModel.MergeInOrder` | internal/services/authz.go:129-142 | Each position of the merge holds the served answer if there is one, else the fetched answer to that very relation, whose index is always in range |
| `ServiceModel.AllServedIsMerge` | internal/services/authz.go:113-118 | The shortcut taken when everything was served returns the merge |
| `ServiceModel.CheckAnswers` | internal/services/authz.go:104-143 | Check returns one answer per input, for that input, from cache or backend; it fails exactly when something was unserved and the backend did not answer |
| `ServiceModel.ServedIsCached` | internal/services/caches/projectauthzcache.go:167-228 | Serving, exactly: the direct grant under resource:target:relation, else the indirect one, else nothing; an unconditional grant always, reported direct or not, a conditional one if and only if its certificate is not empty and the code of each recorded condition yields its recorded value, reported conditional |
| `ServiceModel.SplitDependsOnParams` | internal/services/caches/projectauthzcache.go:208-228 | Contexts that agree on the declared parameters of the certificates involved give the same split and the same served answers |
| `ServiceModel.AllowedIsSublist` | internal/services/authz.go:224-230 | The filter loop keeps exactly the allowed candidates, each at its place |
| `ServiceModel.WhoHitIsVerified` | internal/services/authz.go:186-231 | On a hit WhoCanAccess returns exactly the ordered sublist of cached targets that Check allows the asked relation on the asked resource, for any list however stale; it fails exactly when Check does, and leaves what Check leaves |
| `ServiceModel.WhoMissFetches` | internal/services/authz.go:200-206 | With nothing live cached WhoCanAccess returns the backend's list as it is, or fails if it does not answer; a list within the limit is served for one TTL, one over it changes nothing; grants, schema and polling stay, and no other list goes unless evicted from a full cache |
| `ServiceModel.WhatMissFetches` | internal/services/authz.go:253-259 | The same for WhatCanTargetAccess |
| `ServiceModel.WhatHitIsVerified` | internal/services/authz.go:239-284 | On a hit WhatCanTargetAccess returns exactly the ordered sublist of cached rows whose relation to their resource Check allows the target; it fails exactly when Check does, and leaves what Check leaves |
| `CheckEffects.FetchedIsServed` | internal/services/authz.go:119-128 | Answers are kept: what Check fetched, the cache serves at once in every context in which its certificate holds, if no facts were used, the edge can evaluate its conditions, the batch fits and no direct grant left under the key hides an indirect answer |
| `CheckEffects.HiddenIsRefetched` | internal/services/caches/projectauthzcache.go:197-206 | The last of these conditions is needed: a direct grant whose certificate fails in the request's context hides an indirect answer fetched for it, and the request goes to the backend again |
| `CheckEffects.CheckKeepsUseOrder` | internal/services/caches/projectauthzcache.go:197-206 | After Check both grant caches are in the order of last uses, each hit counting as a use and then each answer kept |
| `CheckEffects.CheckLeavesRest` | internal/services/authz.go:104-143 | Check changes no lookup and no polling state; nothing but recency when it learns nothing; and otherwise, if the batch fits, no grant that was not asked for again; the schema only from an unversioned one to the backend's |
| `CheckEffects.InsertsStay` | internal/services/caches/projectauthzcache.go:293-337 | A batch no larger than the caches evicts none of its own answers |
| `AuthzServices.HasCacheableConditional` | internal/services/authz.go:157-165 | True exactly when some answer has a usable certificate and needs no facts |
| `AuthzServices.MergeChecks` | internal/services/authz.go:129-139 | The index-driven merge loop computes the merge and never reads past the fetched answers |
| `AuthzServices.KeepAllowed` | internal/services/authz.go:224-230 | The append loop keeps exactly the allowed candidates |
| `AuthzServices.AuthzCache.CreateFGASchema` | internal/services/authz.go:48-62 | One step of the service: remote first, then the cache takes the versionless schema and drops every grant; a failed write changes nothing |
| `AuthzServices.AuthzCache.CreateFGARelations` | internal/services/authz.go:64-82 | One step of the service: remote first, then the sweep and the lookup appends; empty input and failed writes change nothing |
| `AuthzServices.AuthzCache.DeleteFGARelations` | internal/services/authz.go:84-102 | One step of the service: remote first, then the sweep; empty input and failed writes change nothing |
| `AuthzServices.AuthzCache.Check` | internal/services/authz.go:104-143 | The object does what the model of Check says, to the cache and to the answers |
| `AuthzServices.AuthzCache.LearnChecks` | internal/services/authz.go:124-128 | The schema is loaded only for a cacheable conditional answer, and before the answers are inserted |
| `AuthzServices.AuthzCache.EnsureSchemaLoaded` | internal/services/authz.go:145-155 | Loads only when no versioned schema is present, and leaves the cache alone when loading fails |
| `AuthzServices.AuthzCache.FilterWhoCanAccessCandidates` | internal/services/authz.go:209-231 | Asks Check about the candidates with the asked resource, relation and namespace and the wildcard target type, and keeps the allowed ones |
| `AuthzServices.AuthzCache.FilterWhatCanTargetAccessCandidates` | internal/services/authz.go:262-284 | The same for candidate rows |
| `AuthzServices.AuthzCache.WhoCanAccess` | internal/services/authz.go:180-207 | Hit and miss path: a list live when read is filtered if not empty, else the backend's list is stored at the later clock reading and returned |
| `AuthzServices.AuthzCache.WhatCanTargetAccess` | internal/services/authz.go:233-260 | The same for rows |
| `CacheModel.InsertEffect` | internal/services/caches/projectauthzcache.go:293-337 | One answer adds at most one grant, under its own key in the cache its directness chooses, which does what an LRU write does; nothing else changes and all invariants stay |
| `CacheModel.CacheableCertified` | internal/services/caches/projectauthzcache.go:305-332 | What is kept of a conditional answer is certified under the loaded schema |
| `CacheModel.EnsureSchemaCertified` | internal/services/caches/projectauthzcache.go:238-245 | Loading a schema never replaces one under which conditional grants are cached, although it purges nothing |
| `CacheModel.WritesSweep` | internal/services/caches/projectauthzcache.go:267-291 | Sweep exactness for local writes: the direct cache is the old one minus exactly the relations sharing a resource or target with a written one, values unchanged; no indirect grant is left, schema and polling stay, and creates and deletes differ in the lookups only, which deletes leave alone |
| `CacheModel.CreatesExtendLookups` | internal/services/caches/projectauthzcache.go:267-278 | After local creates each lookup list of the cache is the old one followed by what the creates offer it while it is live; no list comes or goes |
| `CacheModel.PurgesEmpty` | internal/services/caches/projectauthzcache.go:536-552 | Every purge leaves no grant, no index entry and no lookup list, and the configuration as it was; purging everything leaves no schema either |
| `CacheModel.PollSweeps` | internal/services/caches/projectauthzcache.go:394-408 | Sweep exactness for a poll that reports changes: exactly the grants of reported resources and targets are gone, and all indirect ones |
| `CacheModel.PollByReply` | internal/services/caches/projectauthzcache.go:362-422 | What a poll leaves, by reply: a skip forgets the schema only; too many changes, a changed schema or an error without cooldown leave nothing cached; another error and an empty reply leave all but the polling state; named changes leave schema and lookups, and drop the named index entries |
| `CacheModel.PollShrinks` | internal/services/caches/projectauthzcache.go:362-408 | Whatever the remote replies, for any keys, a poll caches nothing new, and it keeps the schema in use or leaves nothing cached |
| `CacheModel.PollGood` | internal/services/caches/projectauthzcache.go:362-408 | Whatever the remote replies, a poll keeps the index, lookup and schema invariants |
| `CacheModel.CooldownElapsedEffect` | internal/services/caches/projectauthzcache.go:571-581 | A callback purges everything, lookups included, if any timer is armed, else does nothing |
| `CacheModel.TouchAllEffect` | internal/services/caches/projectauthzcache.go:197-206 | Reading grants changes recency only |
| `GrantStore.AddDirectComplete` | internal/services/caches/projectauthzcache.go:424-448 | Index completeness through adds, re-adds and capacity evictions: every cached key is in the components map and in both indexes at its place, and no inner list or map is empty |
| `GrantStore.EvictKeeps` | internal/services/caches/projectauthzcache.go:480-533 | The eviction callback leaves every other key located and nothing empty |
| `GrantStore.EvictExactly` | internal/services/caches/projectauthzcache.go:480-533 | It takes the evicted key out of the components map and one occurrence of it out of each index at its place, and touches nothing else |
| `GrantStore.FileExactly` | internal/services/caches/projectauthzcache.go:434-448 | Filing appends the key to its own list and touches no other |
| `GrantStore.SweepRelationsIndexes` | internal/services/caches/projectauthzcache.go:455-478 | A sweep drops exactly the swept resources and targets from one index each, and no component |
| `GrantStore.SweepRelationsComplete` | internal/services/caches/projectauthzcache.go:455-478 | Index completeness through the sweeps of local writes, with no assumption on keys |
| `GrantStore.SweepNamesComplete` | internal/services/caches/projectauthzcache.go:402-407 | Index completeness through the sweeps of a poll, with no assumption on keys |
| `GrantStore.SweepRelationsExact` | internal/services/caches/projectauthzcache.go:455-478 | With separate keys a sweep for written relations removes exactly the grants cached for their resources and targets |
| `GrantStore.SweepKeepsUnrelated` | internal/services/caches/projectauthzcache_test.go:42-50 | A cached relation survives a sweep, unchanged, exactly when it shares no resource and no target with a written one |
| `GrantStore.SweepResourcesExact` | internal/services/caches/projectauthzcache.go:460-468 | The resource sweep, name by name |
| `GrantStore.SweepTargetsExact` | internal/services/caches/projectauthzcache.go:470-478 | The target sweep, name by name, after the resource sweep |
| `Lookups.PutThenServe` | internal/services/caches/projectauthzcache.go:644-693 | A non-empty list within the size limit is served back in order until it expires, as long as its entry is neither evicted nor rewritten |
| `Lookups.PutEffect` | internal/services/caches/projectauthzcache.go:625-642 | A list within the limit is served for one TTL, one over it changes nothing, and no other list goes unless evicted from a full cache |
| `Lookups.ReadsKeepUseOrder` | internal/services/caches/projectauthzcache.go:608-724 | Lists stay in the order of last uses, reads that hit, expired or not, and appends counting as uses |
| `Lookups.PutKeepsUseOrder` | internal/services/caches/projectauthzcache.go:625-642 | The same for a store, which counts as a use if it is within the limit |
| `Lookups.RowsRoundTrip` | internal/services/caches/projectauthzcache.go:658-686 | Encoding then decoding gives the same rows in order when resource and relation definition hold no bar |
| `Lookups.ReadableDecodes` | internal/services/caches/projectauthzcache.go:658-665 | Re-encoding what was decoded gives the stored strings back, every row carrying the target asked for |
| `Lookups.SaneServesAll` | internal/services/caches/projectauthzcache.go:658-669 | In every reachable lookup cache no stored row is skipped for not splitting in three |
| `Lookups.CreatesReachLiveEntries` | internal/services/caches/projectauthzcache.go:267-278 | After local creates each entry is its old list followed by the missing candidates, in first-occurrence order, of those for which the clock read before its expiry; no entry comes or goes and all expiry times are unchanged |
| `Lookups.AdditionsByClock` | internal/services/caches/projectauthzcache.go:707-724 | An expired entry gains nothing, and one that stays live is offered every created candidate of its key |
| `Lookups.ExtendedNoDup` | internal/services/caches/projectauthzcache.go:707-724 | An entry without repetitions stays without, keeps its old list as a prefix and its expiry, and holds all the candidates it was offered |
| `Lookups.AddRelationsSane` | internal/services/caches/projectauthzcache.go:707-724 | Appended rows can be read back and no entry outlives its TTL |
| `Keys.KeyInjective` | internal/services/caches/projectauthzcache.go:520-522 | Relation keys are injective when resource and target hold no colon, and also when target and relation hold none |
| `Keys.ColonFreeSeparates` | internal/services/caches/projectauthzcache.go:520-522 | So all relations of either kind may be in play together |
| `Keys.KeyCollision` | internal/services/caches/projectauthzcache.go:520-522 | Two concrete relations with one key |
| `Keys.WhoCanAccessKeyInjective` | internal/services/caches/projectauthzcache.go:600-602 | WhoCanAccess keys are injective when resource and relation definition hold no colon |
| `Keys.WhatCanTargetAccessKeyInjective` | internal/services/caches/projectauthzcache.go:604-606 | WhatCanTargetAccess keys are injective for all strings |
| `Keys.LookupFamiliesDisjoint` | internal/services/caches/projectauthzcache.go:600-606 | The two lookup key families never meet, for any strings |
| `Keys.DecodeEncode` | internal/services/caches/projectauthzcache.go:660-664 | Re-encoding a decoded row gives the row back, and only its namespace may hold a bar |
| `Keys.WrittenRowDecodes` | internal/services/caches/projectauthzcache.go:685-719 | Every row Set or append writes splits into three parts |
| `Keys.RowRoundTrip` | internal/services/caches/projectauthzcache.go:660-686 | A row is read back as it was written if and only if its resource and relation definition hold no bar |
| `Cel.Eval` | internal/services/cel/cel.go:55-83 | The parameter loop with early exits: it gives b exactly when every parameter is in the context and coercible and the code, run over exactly the parameter names with the coerced value of the last parameter of each, yields b; else it defers with false, false |
| `Cel.CompileAllExactly` | internal/services/caches/projectauthzcache.go:255-264 | An id gets a program exactly when some condition with that id loads, and then the code and parameters of the last such condition |
| `Cel.MatchesExactly` | internal/services/caches/projectauthzcache.go:208-228 | A certificate matches exactly when it is not empty and each recorded id stands for a condition whose code yields the recorded value |
| `Cel.BindsAll` | internal/services/cel/cel.go:57-69 | All parameters bind exactly when each is present and coercible |
| `Cel.ConditionsEvalTo` | internal/services/caches/projectauthzcache.go:216-228 | True exactly when every id has a program that evaluates to the wanted value |
| `Cel.CertMatches` | internal/services/caches/projectauthzcache.go:208-214 | True exactly when the certificate is non-empty and all its conditions evaluate as recorded |
| `Cel.MatchDependsOnParams` | internal/services/cel/cel.go:57-69 | Matching depends on the context only through declared parameters |
| `Lrus.LruCache.Add` | internal/services/caches/projectauthzcache_test.go:895-914 | A write makes its key the most recent; at capacity it evicts the least recently used key, which is reported |
| `Lrus.LruCache.Get` | internal/services/caches/projectauthzcache.go:197-206 | A hit makes its key the most recent; a miss changes nothing |
| `Lrus.LruCache.Remove` | internal/services/caches/projectauthzcache_test.go:895-914 | Removing drops the key and reports no eviction |
| `Lrus.LruCache.Purge` | internal/services/caches/projectauthzcache_test.go:895-914 | Purging empties the cache and reports every key as evicted |
| `Lrus.ReadsKeepRecency` | internal/services/caches/projectauthzcache_test.go:895-914 | Against a history of uses: the kept order is the order of last uses, through reads that hit or miss and removals of any keys |
| `Lrus.WritesEvictLeastRecent` | internal/services/caches/projectauthzcache_test.go:895-914 | Writes keep it too, and an evicted key was used before every other cached key |
| `Lrus.AddEffect` | internal/services/caches/projectauthzcache_test.go:895-914 | After a write only the written key is new, and at most one other key is gone, and only from a full cache |
| `ProjectAuthzCaches.ProjectAuthzCache.constructor` | internal/services/caches/projectauthzcache.go:112-159 | A fresh object is the empty cache of its configuration, polled at its creation time |
| `ProjectAuthzCaches.ProjectAuthzCache.CheckRelations` | internal/services/caches/projectauthzcache.go:167-193 | The split loop: served answers, unchecked relations and positions as in the model, and only recency changes |
| `ProjectAuthzCaches.ProjectAuthzCache.GetCachedGrant` | internal/services/caches/projectauthzcache.go:197-206 | Direct before indirect; only the cache that hit is touched |
| `ProjectAuthzCaches.ProjectAuthzCache.UpdateCacheWithSchema` | internal/services/caches/projectauthzcache.go:230-236 | New schema, no relation and no lookup left, same polling state |
| `ProjectAuthzCaches.ProjectAuthzCache.EnsureSchemaLoaded` | internal/services/caches/projectauthzcache.go:238-245 | Sets the schema only if none with a version is loaded |
| `ProjectAuthzCaches.ProjectAuthzCache.SetSchema` | internal/services/caches/projectauthzcache.go:247-265 | Programs of the conditions that compile, the last of equal ids winning; none for no schema |
| `ProjectAuthzCaches.ProjectAuthzCache.UpdateCacheWithAddedRelations` | internal/services/caches/projectauthzcache.go:267-278 | Indirect grants purged, direct ones swept, live lookups extended, relation by relation, each entry by its own clock reading |
| `ProjectAuthzCaches.ProjectAuthzCache.UpdateCacheWithDeletedRelations` | internal/services/caches/projectauthzcache.go:280-291 | Indirect grants purged, direct ones swept, lookups left alone |
| `ProjectAuthzCaches.ProjectAuthzCache.UpdateCacheWithChecks` | internal/services/caches/projectauthzcache.go:293-336 | The insert loop over the answers |
| `ProjectAuthzCaches.ProjectAuthzCache.CacheableGrant` | internal/services/caches/projectauthzcache.go:300-332 | Which answers are kept and as what |
| `ProjectAuthzCaches.ProjectAuthzCache.HasAllCompiledConditions` | internal/services/caches/projectauthzcache.go:338-345 | True exactly when every id has a program |
| `ProjectAuthzCaches.ProjectAuthzCache.UpdateCacheWithRemotePolling` | internal/services/caches/projectauthzcache.go:362-408 | One tick: skip, purge, cooldown or sweep, as the reply says |
| `ProjectAuthzCaches.ProjectAuthzCache.HandleReply` | internal/services/caches/projectauthzcache.go:376-422 | Poll time moved only by a successful reply, cooldown cancelled by it and by too-many |
| `ProjectAuthzCaches.ProjectAuthzCache.AddDirectRelation` | internal/services/caches/projectauthzcache.go:424-448 | Add, eviction callback, components and both indexes, in that order |
| `ProjectAuthzCaches.ProjectAuthzCache.RemoveDirectRelationsByResource` | internal/services/caches/projectauthzcache.go:460-468 | Removes all keys filed under the resource and that entry of one index only |
| `ProjectAuthzCaches.ProjectAuthzCache.RemoveDirectRelationsByTarget` | internal/services/caches/projectauthzcache.go:470-478 | Removes all keys filed under the target and that entry of the other index only |
| `ProjectAuthzCaches.ProjectAuthzCache.RemoveKeyFromIndex` | internal/services/caches/projectauthzcache.go:480-518 | Takes out one occurrence of the key, then the list and the inner map it leaves empty |
| `ProjectAuthzCaches.ProjectAuthzCache.RemoveIndexOnCacheEviction` | internal/services/caches/projectauthzcache.go:524-533 | The eviction callback |
| `ProjectAuthzCaches.ProjectAuthzCache.PurgeAllCaches` | internal/services/caches/projectauthzcache.go:536-541 | No schema, no relation, no lookup, poll time now |
| `ProjectAuthzCaches.ProjectAuthzCache.PurgeRelationCaches` | internal/services/caches/projectauthzcache.go:543-552 | No grant, index entry or lookup list is left; the indexes are replaced before the purge, so its callbacks do nothing |
| `ProjectAuthzCaches.ProjectAuthzCache.PurgeAfterCooldown` | internal/services/caches/projectauthzcache.go:555-586 | Immediate purge for W = 0, a new timer for a first error, nothing for a further one |
| `ProjectAuthzCaches.ProjectAuthzCache.CooldownElapsed` | internal/services/caches/projectauthzcache.go:571-581 | The timer callback, which asks only whether some timer is armed |
| `ProjectAuthzCaches.ProjectAuthzCache.CancelPurgeCooldown` | internal/services/caches/projectauthzcache.go:591-598 | Stops and forgets an armed timer |
| `ProjectAuthzCaches.ProjectAuthzCache.GetWhoCanAccessCached` | internal/services/caches/projectauthzcache.go:608-623 | The live list under the key, served up to and including its expiry instant |
| `ProjectAuthzCaches.ProjectAuthzCache.SetWhoCanAccessCached` | internal/services/caches/projectauthzcache.go:625-642 | Stores lists within the size limit for one TTL |
| `ProjectAuthzCaches.ProjectAuthzCache.GetWhatCanTargetAccessCached` | internal/services/caches/projectauthzcache.go:644-670 | Decodes the live rows; no row is a miss |
| `ProjectAuthzCaches.ProjectAuthzCache.SetWhatCanTargetAccessCached` | internal/services/caches/projectauthzcache.go:672-693 | Encodes and stores rows within the size limit for one TTL |
| `ProjectAuthzCaches.ProjectAuthzCache.InvalidateLookupCache` | internal/services/caches/projectauthzcache.go:695-703 | Empties an enabled lookup cache and nothing else |
| `ProjectAuthzCaches.ProjectAuthzCache.AddToLookupCache` | internal/services/caches/projectauthzcache.go:707-724 | Appends the created relation to the two entries it belongs to if they are live and lack it |
| `Metrics.EveryCallCountedOnce` | internal/services/metrics/collector.go:63-119 | Over any interleaving of records and per-project snapshots, a project's snapshots and live aggregate are the aggregates of consecutive pieces of its calls: each call is in exactly one |
| `Metrics.Conservation` | internal/services/metrics/collector.go:63-119 | Each counter and sum over all snapshots plus the live aggregate equals the total over all calls, modulo 2^64 |
| `Metrics.ConservationExact` | internal/services/metrics/collector.go:63-119 | The same exactly, while the true total fits in 64 bits |
| `Metrics.FoldIsSum` | internal/services/metrics/collector.go:75-98 | Each counter and sum of an aggregate is the wrapped total over its calls |
| `Metrics.HitsAndMisses` | internal/services/metrics/collector.go:75-98 | HitCount + MissCount = TotalCalls in every aggregate, as 64-bit values, and as they stand below 2^63 calls |
| `Metrics.Collector.Record` | internal/services/metrics/collector.go:63-99 | The object does to its live aggregates what one record step says |
| `Metrics.Collector.SnapshotAndReset` | internal/services/metrics/collector.go:103-127 | Takes every non-empty project and leaves every project empty |
| `Metrics.SnapProject` | internal/services/metrics/collector.go:103-127 | A snapshot step takes one project's aggregates and no other's, and only once |
| `Metrics.BuildPayload` | internal/services/metrics/reporter.go:121-165 | Each payload field from the aggregate, with 64-bit division truncating toward zero |
| `Metrics.AverageBound` | internal/services/metrics/reporter.go:121-165 | For recorded calls with durations not negative and sums within 64 bits: min <= truncated average <= max, overall and for hits and misses |
| `Metrics.ExtremesAttained` | internal/services/metrics/collector.go:80-98 | For such durations the recorded minimum and maximum of hits, and of misses, are the least and greatest of their durations |
| `Metrics.QuotientTruncates` | internal/services/metrics/reporter.go:129-148 | Averages truncate toward zero, for sums of either sign |
| `Metrics.Report` | internal/services/metrics/reporter.go:99-118 | Exactly one payload for each API with a call counted, carrying its count; within its extremes if durations and sums are in range |

## Left out

- BoundedStaleness: excludes keys last written from an answer given before the poll time then in force, for which it is false; `FreshExactlyWhenGivenSincePoll` gives the condition in both directions.
- TimedFreshness: polls and callbacks are taken to be instantaneous and ticks at most one interval apart; nothing is claimed about how old the poll time gets otherwise.
- Conservation: holds modulo 2^64, because the collector's counters wrap around; `ConservationExact` is the exact form while totals fit. The same goes for HitsAndMisses.
- AverageBound: requires durations not negative and sums within 64 bits, outside of which the sums wrap.
- BuildPayload: float averages are real quotients; rounding of float64 is not modelled.
- SplitDependsOnParams: programs are deterministic functions of their variables, so a timeout that differs between two evaluations is not captured.
- UpdateCacheWithRemotePolling: the remote is a parameter, a function from the time asked about to the reply, and the clock readings before and after the call are parameters.
- SetWhoCanAccessCached: the cached list is a value; that the slice is shared with the caller that received the backend's answer is not modelled.
- LruCache.Add: the monitored LRU's own code and its metrics are not part of this model; its rule is taken from the repository's test of it. Sizes that are not positive are refused at construction (`Config.Valid`).
- Protocol.Apply: a batch of answers is inserted as one step per answer, which allows more interleavings than the code, and each answer is fetched in one backend version. Reads share the lock with one another in the code and are taken one at a time here.
- Lookups in the concurrent machine: any well-formed lookup cache at any time; `HitIsBoundedlyStale` therefore holds for any candidates.
- The map of projects, its creation race and the per-project clients: one project with one cache.
- The service's calls to the metrics collector, and what the averages named for hits mean when Check records them.
- Lookup misses return the backend's list unfiltered by the request context, as in the code; nothing more is claimed about them.
- The extra information of served answers: a conditional hit reports only that it was conditional.
- Indexes are shown complete, not minimal: re-adding a key files it again, and a sweep leaves stale entries in the other index.
- Loading checked CEL expressions, coercing context values and running programs: uninterpreted functions in `Engine`. Condition ids are unbounded integers, since they are only compared.
- HTTP and gRPC layers, configuration, logging, SDK construction, ticker goroutines, and the reporter's posting.
