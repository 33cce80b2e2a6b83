# poao-tilgang cached client, modelled in Dafny

`PoaoTilgangCachedClient` is the caching front of the poao-tilgang access
client. It offers the same five operations as the remote client it wraps
(evaluate one policy, evaluate a batch of policies, fetch an employee's AD
groups, look up whether one person is protected ("skjermet"), look up a batch
of persons) and answers them from three in-memory caches where it can:

- policy input → decision,
- employee Azure AD id → AD groups,
- national identity → protected flag.

The model is a class `CachedClient.PoaoTilgangCachedClient` whose three caches
are `map` fields, with a ghost log `remoteCalls` of every call made to the
remote client and its argument. The remote client is a value of the datatype
`Remote`, one total function per remote operation, handed to each operation.

- `api_types.dfy` (module `ApiTypes`): policy inputs (the eight policy kinds
  the client's tests use), `Decision = Permit | Deny(message, reason)`,
  requests, results, AD groups, `ApiResult` and the two remote errors.
- `cache_spec.dfy` (module `CacheSpec`): reference definitions and their
  properties. The reference definitions below carry no contract of their
  own; the methods are proved equal to them and the lemmas state what they
  mean. `TryCacheFirst` is the cache-aside step shared by the three
  single-item operations. `Uncached`, `Hits` and `CachedResults` are the split
  of a policy batch, and `FindRequest` and `WriteBack` its write-back.
  `UncachedIdenter` and `CachedSubset` are the split of a protected-person
  batch.
- `cached_client.dfy` (module `CachedClient`): the class. Each operation is a
  method whose contract gives the result, the new cache and the calls appended
  to the log. Each method may modify only its own cache and the log, so an
  operation on one cache cannot alter the other two.
- `scenarios.dfy` (module `Scenarios`): callers that use only the methods'
  contracts to show behaviour across several calls.

The model follows the code, including these behaviours a reader may not
expect:

- The remote batch call is made even when no request or identity is
  uncached. The call then carries an empty list.
- A fresh policy result is matched to the first request with its id in the
  whole request list, not only among the forwarded requests. When request ids
  repeat, the decision can therefore be stored under a cached request's input
  (`SharedRequestIdWritesUnderFirstRequest`).
- A result whose id matches no request throws an `IllegalStateException`
  (`BatchOutcome.IllegalState`). The decisions written back before that result
  stay in the cache, so the batch is not all-or-nothing: the id reported is
  that of the first unmatched result, and the cache left behind is exactly
  the write-back of the results before it (`UnmatchedKeepsEarlierWrites`).
- The batch protected-person lookup does not check that every requested
  identity is answered. It returns whatever the merge holds
  (`MissingIdentIsNotReported`), including keys the remote added unasked.

## Model

| member | source | states |
|---|---|---|
| `CachedClient.PoaoTilgangCachedClient.constructor` | client/src/main/kotlin/no/nav/poao_tilgang/client/PoaoTilgangCachedClient.kt:11-22 | a new client holds exactly the three caches it is given (empty ones in the default call) and has made no remote call |
| `CachedClient.PoaoTilgangCachedClient.EvaluatePolicy` | client/src/main/kotlin/no/nav/poao_tilgang/client/PoaoTilgangCachedClient.kt:24-32 | hit: cached decision, no remote call, no change; miss: exactly one remote call; its failure is returned with the cache unchanged, and its decision is stored under the input and returned; the other two caches are untouched |
| `CachedClient.PoaoTilgangCachedClient.SplitRequests` | client/src/main/kotlin/no/nav/poao_tilgang/client/PoaoTilgangCachedClient.kt:35-40 | the loop yields the requests with uncached input in order, and a result (own request id, cached decision) for each cached request in order |
| `CachedClient.PoaoTilgangCachedClient.EvaluatePolicies` | client/src/main/kotlin/no/nav/poao_tilgang/client/PoaoTilgangCachedClient.kt:34-55 | exactly one remote batch call, whose argument is the uncached requests (possibly none); on its failure that failure is returned and the cache is unchanged; on success the results are written back by request id, and either the cached results followed by the remote ones are returned, or the IllegalStateException for an unmatched id ends the call with the earlier writes kept (which writes: `CacheSpec.UnmatchedKeepsEarlierWrites`) |
| `CachedClient.PoaoTilgangCachedClient.HentAdGrupper` | client/src/main/kotlin/no/nav/poao_tilgang/client/PoaoTilgangCachedClient.kt:57-65 | the same cache-aside contract as EvaluatePolicy, on the AD-group cache |
| `CachedClient.PoaoTilgangCachedClient.ErSkjermetPerson` | client/src/main/kotlin/no/nav/poao_tilgang/client/PoaoTilgangCachedClient.kt:67-75 | the same cache-aside contract as EvaluatePolicy, on the protected-flag cache |
| `CachedClient.PoaoTilgangCachedClient.SplitIdenter` | client/src/main/kotlin/no/nav/poao_tilgang/client/PoaoTilgangCachedClient.kt:78-85 | the loop yields the uncached identities in order, and the cached flags of the requested identities |
| `CachedClient.PoaoTilgangCachedClient.ErSkjermetPersoner` | client/src/main/kotlin/no/nav/poao_tilgang/client/PoaoTilgangCachedClient.kt:77-97 | exactly one remote call, whose argument is the uncached identities; on its failure that failure is returned and the cache is unchanged; on success every returned pair is written into the cache, and the cached subset merged with the remote map is returned |
| `CachedClient.PoaoTilgangCachedClient.ExpireDecision` | client/src/main/kotlin/no/nav/poao_tilgang/client/PoaoTilgangCachedClient.kt:13-15 | time-to-live expiry removes one decision entry and changes nothing else |
| `CachedClient.PoaoTilgangCachedClient.ExpireAdGrupper` | client/src/main/kotlin/no/nav/poao_tilgang/client/PoaoTilgangCachedClient.kt:16-18 | expiry removes one AD-group entry |
| `CachedClient.PoaoTilgangCachedClient.ExpireErSkjermet` | client/src/main/kotlin/no/nav/poao_tilgang/client/PoaoTilgangCachedClient.kt:19-21 | expiry removes one protected-flag entry |
| `CacheSpec.OnlySuccessIsCached` | client/src/main/kotlin/no/nav/poao_tilgang/client/PoaoTilgangCachedClient.kt:25-31 | a cache-aside lookup keeps every existing entry, and the only entry it can add is a successful remote value for the looked-up key |
| `CacheSpec.SuccessThenServedFromCache` | client/src/main/kotlin/no/nav/poao_tilgang/client/PoaoTilgangCachedClient.kt:25-31 | after a successful lookup, a second lookup of the key returns the same value and changes nothing, whatever the remote would answer, a failure included |
| `CacheSpec.FailureIsRetried` | client/src/main/kotlin/no/nav/poao_tilgang/client/PoaoTilgangCachedClient.kt:26-27 | a lookup fails only on a miss with a failing remote; the key stays absent, and the next lookup behaves as if the failed one never happened |
| `CacheSpec.PartitionMembers` | client/src/main/kotlin/no/nav/poao_tilgang/client/PoaoTilgangCachedClient.kt:36-40 | a request is forwarded if and only if its input is not cached, and is served from the cache if and only if its input is cached; the two parts together are as long as the batch |
| `CacheSpec.CachedResultsAnswerHits` | client/src/main/kotlin/no/nav/poao_tilgang/client/PoaoTilgangCachedClient.kt:36-40 | the k-th cached result carries the k-th cached request's id and the decision cached for its input |
| `CacheSpec.RequestIdsPartitioned` | client/src/main/kotlin/no/nav/poao_tilgang/client/PoaoTilgangCachedClient.kt:35-40 | the ids of the cached results and of the forwarded requests together form, as a multiset, exactly the batch's request ids |
| `CacheSpec.BatchResultComplete` | client/src/main/kotlin/no/nav/poao_tilgang/client/PoaoTilgangCachedClient.kt:46-53 | when the remote answers each forwarded request once by id, every result matches a request (no IllegalStateException), and the returned list is as long as the batch and carries exactly its request ids |
| `CacheSpec.ForwardedIdIsFound` | client/src/main/kotlin/no/nav/poao_tilgang/client/PoaoTilgangCachedClient.kt:38-49 | the id of any forwarded (uncached) request is found by the lookup over the whole request list |
| `CacheSpec.FindRequest` | client/src/main/kotlin/no/nav/poao_tilgang/client/PoaoTilgangCachedClient.kt:48-49 | finds nothing if and only if no request has the id; otherwise it finds a request with that id, and no earlier request has it |
| `CacheSpec.WriteBackUnmatchedExactly` | client/src/main/kotlin/no/nav/poao_tilgang/client/PoaoTilgangCachedClient.kt:47-51 | the write-back throws if and only if some result's id matches no request, and the id it reports is such an id |
| `CacheSpec.UnmatchedKeepsEarlierWrites` | client/src/main/kotlin/no/nav/poao_tilgang/client/PoaoTilgangCachedClient.kt:47-51 | when the write-back throws, the id it reports is that of the first result whose id matches no request, every earlier result matched a request, and the cache it leaves holds exactly the writes of those earlier results |
| `CacheSpec.WriteBackKeepsKeys` | client/src/main/kotlin/no/nav/poao_tilgang/client/PoaoTilgangCachedClient.kt:47-51 | the write-back never removes a cache entry |
| `CacheSpec.WriteBackFrame` | client/src/main/kotlin/no/nav/poao_tilgang/client/PoaoTilgangCachedClient.kt:47-51 | an input that no result resolves to keeps its entry, or its absence |
| `CacheSpec.WriteBackStores` | client/src/main/kotlin/no/nav/poao_tilgang/client/PoaoTilgangCachedClient.kt:47-51 | after a complete write-back, each result's decision is cached under its request's input, unless a later result writes to the same input |
| `CacheSpec.SharedRequestIdWritesUnderFirstRequest` | client/src/main/kotlin/no/nav/poao_tilgang/client/PoaoTilgangCachedClient.kt:48-50 | with a cached and an uncached request sharing an id, only the uncached one is sent, its fresh decision overwrites the cached input's entry, and its own input stays uncached |
| `CacheSpec.IdentPartition` | client/src/main/kotlin/no/nav/poao_tilgang/client/PoaoTilgangCachedClient.kt:78-85 | an identity is forwarded if and only if it is requested and uncached; the cached subset holds exactly the requested cached identities, with their cached flags |
| `CacheSpec.SkjermetBatchAnswer` | client/src/main/kotlin/no/nav/poao_tilgang/client/PoaoTilgangCachedClient.kt:96 | the answer holds every requested cached identity, holds another requested identity only if the remote returned it, holds nothing else but remote keys, and the remote value wins on a shared key |
| `CacheSpec.SkjermetBatchCoverage` | client/src/main/kotlin/no/nav/poao_tilgang/client/PoaoTilgangCachedClient.kt:96 | every requested identity is answered if and only if the remote answered every forwarded one |
| `CacheSpec.UnionScenario` | client/src/main/kotlin/no/nav/poao_tilgang/client/PoaoTilgangCachedClient.kt:78-96 | with "A" cached as true, only "B" and "C" are forwarded; the remote answer {B: true, C: false} gives {A: true, B: true, C: false} |
| `CacheSpec.MissingIdentIsNotReported` | client/src/main/kotlin/no/nav/poao_tilgang/client/PoaoTilgangCachedClient.kt:96 | a forwarded identity that the remote leaves out is missing from a successful answer |
| `Scenarios.CachedDecisionSurvivesOutage` | client/src/main/kotlin/no/nav/poao_tilgang/client/PoaoTilgangCachedClient.kt:24-32 | a Permit fetched on an empty cache is cached, and the second evaluation returns it with the remote unavailable and without a second remote call |
| `Scenarios.FailureIsNotCached` | client/src/main/kotlin/no/nav/poao_tilgang/client/PoaoTilgangCachedClient.kt:26-27 | a failed evaluation is returned as-is, and the next evaluation asks the remote again |
| `Scenarios.ExpiredEntryIsFetchedAgain` | client/src/main/kotlin/no/nav/poao_tilgang/client/PoaoTilgangCachedClient.kt:16-18 | after an AD-group entry expires, the next lookup calls the remote again |
| `Scenarios.PartiallyCachedBatch` | client/src/main/kotlin/no/nav/poao_tilgang/client/PoaoTilgangCachedClient.kt:34-55 | with one of two requests cached, only the other is sent; the cached result comes first, and the fresh decision is cached |
| `Scenarios.UnknownRequestIdIsIllegalState` | client/src/main/kotlin/no/nav/poao_tilgang/client/PoaoTilgangCachedClient.kt:47-51 | an unknown id in the remote answer ends in the IllegalStateException, and the decision written before it stays cached |
| `Scenarios.FullyCachedBatchStillCallsRemote` | client/src/main/kotlin/no/nav/poao_tilgang/client/PoaoTilgangCachedClient.kt:42 | with every input cached, the remote batch call is still made, with an empty list |
| `Scenarios.ProtectedBatchUnion` | client/src/main/kotlin/no/nav/poao_tilgang/client/PoaoTilgangCachedClient.kt:77-97 | through the class: with "A" cached, the batch sends only ["B", "C"] and returns {A: true, B: true, C: false} |

## Left out

- CachedClient.PoaoTilgangCachedClient.constructor: the injected caches are taken by value. A cache object shared between clients or with outside code (aliasing) is not modelled: each client owns its three maps, and nothing else changes them.
- Time-to-live expiry after 30 minutes is left out, because it is driven by the wall clock inside the caching library. The model only has the `Expire*` methods, which drop one entry at any moment.
- Concurrent use of the caches is left out. So is the accepted race in which two threads miss on the same key and both call the remote. The model is sequential.
- The remote client's implementation is left out: HTTP, the OAuth token supplier, JSON, and the exception types behind its failures. Its answers are the functions of `Remote`, and its two failure kinds are `ApiError`.
- The remote client is passed to each operation rather than to the constructor, so that its answers may change between calls. Within one call it answers as a fixed function of the argument.
- `PolicyInput`: the variants are the eight policy kinds the client's tests construct; the source's own `PolicyInput` declaration is not among the modelled files, and the cache relies only on the structural equality of its values.
- The `!!` assertions on a successful result's value (a null success) are left out, because a success here always carries a value.
- `tryCacheFirstNotNull` is not part of this model. `CacheSpec.TryCacheFirst` follows what its call sites require of it.
