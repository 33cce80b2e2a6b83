/** The caching poao-tilgang client: the same five operations as the remote
    client it wraps, answered from three in-memory caches where possible. */
module CachedClient {
  import opened ApiTypes
  import opened CacheSpec

  /** The wrapped remote client, one function per operation: what it answers
      for a given argument at the time of the call. */
  datatype Remote = Remote(
    evaluatePolicy: PolicyInput -> ApiResult<Decision>,
    evaluatePolicies: seq<PolicyRequest> -> ApiResult<seq<PolicyResult>>,
    hentAdGrupper: Uuid -> ApiResult<seq<AdGruppe>>,
    erSkjermetPerson: NorskIdent -> ApiResult<bool>,
    erSkjermetPersoner: seq<NorskIdent> -> ApiResult<map<NorskIdent, bool>>)

  /** One call made to the remote client, with its argument. */
  datatype RemoteCall =
    | EvaluatePolicyCall(input: PolicyInput)
    | EvaluatePoliciesCall(requests: seq<PolicyRequest>)
    | HentAdGrupperCall(navAnsattAzureId: Uuid)
    | ErSkjermetPersonCall(norskIdent: NorskIdent)
    | ErSkjermetPersonerCall(norskeIdenter: seq<NorskIdent>)

  /** What the batch policy evaluation ends in: a returned result, or the
      IllegalStateException thrown for a remote result whose request id
      matches no request. */
  datatype BatchOutcome =
    | Returned(result: ApiResult<seq<PolicyResult>>)
    | IllegalState(requestId: RequestId)

  class PoaoTilgangCachedClient {
    var policyInputToDecisionCache: map<PolicyInput, Decision>
    var navAnsattIdToAzureAdGrupperCache: map<Uuid, seq<AdGruppe>>
    var norskIdentToErSkjermetCache: map<NorskIdent, bool>
    /** Every call made to the remote client, oldest first. */
    ghost var remoteCalls: seq<RemoteCall>

    /** A client over the three given caches (empty ones by default, which
        callers here pass as `map[]`) that has not called the remote yet. */
    constructor (decisions: map<PolicyInput, Decision>, adGrupper: map<Uuid, seq<AdGruppe>>, erSkjermet: map<NorskIdent, bool>)
      ensures policyInputToDecisionCache == decisions
      ensures navAnsattIdToAzureAdGrupperCache == adGrupper
      ensures norskIdentToErSkjermetCache == erSkjermet
      ensures remoteCalls == []
    {
      policyInputToDecisionCache := decisions;
      navAnsattIdToAzureAdGrupperCache := adGrupper;
      norskIdentToErSkjermetCache := erSkjermet;
      remoteCalls := [];
    }

    /** Cache-aside evaluation of one policy input. */
    method EvaluatePolicy(input: PolicyInput, remote: Remote) returns (r: ApiResult<Decision>)
      modifies this`policyInputToDecisionCache, this`remoteCalls
      // hit: the cached decision, no remote call, nothing changes
      ensures input in old(policyInputToDecisionCache) ==>
        && r == Success(old(policyInputToDecisionCache)[input])
        && policyInputToDecisionCache == old(policyInputToDecisionCache)
        && remoteCalls == old(remoteCalls)
      // miss: one remote call; its failure is returned and nothing is stored,
      // its decision is stored under the input and returned
      ensures input !in old(policyInputToDecisionCache) ==>
        && remoteCalls == old(remoteCalls) + [EvaluatePolicyCall(input)]
        && r == remote.evaluatePolicy(input)
        && policyInputToDecisionCache
           == if r.Success? then old(policyInputToDecisionCache)[input := r.value]
              else old(policyInputToDecisionCache)
      ensures TryCacheFirst(old(policyInputToDecisionCache), input, remote.evaluatePolicy(input))
           == Lookup(r, policyInputToDecisionCache)
    {
      if input in policyInputToDecisionCache {
        return Success(policyInputToDecisionCache[input]);
      }
      var resultat := remote.evaluatePolicy(input);
      remoteCalls := remoteCalls + [EvaluatePolicyCall(input)];
      if resultat.Failure? {
        return resultat;
      }
      policyInputToDecisionCache := policyInputToDecisionCache[input := resultat.value];
      r := Success(resultat.value);
    }

    /** Splits `requests` by whether their input is cached: the uncached
        requests in order, and a result for each cached one in order. */
    method SplitRequests(requests: seq<PolicyRequest>)
      returns (uncachedRequests: seq<PolicyRequest>, cachedResults: seq<PolicyResult>)
      ensures uncachedRequests == Uncached(policyInputToDecisionCache, requests)
      ensures cachedResults == CachedResults(policyInputToDecisionCache, requests)
    {
      uncachedRequests, cachedResults := [], [];
      for i := 0 to |requests|
        invariant uncachedRequests == Uncached(policyInputToDecisionCache, requests[..i])
        invariant cachedResults == CachedResults(policyInputToDecisionCache, requests[..i])
      {
        var q := requests[i];
        assert requests[..i + 1][..i] == requests[..i];
        if q.policyInput in policyInputToDecisionCache {
          cachedResults := cachedResults + [PolicyResult(q.requestId, policyInputToDecisionCache[q.policyInput])];
        } else {
          uncachedRequests := uncachedRequests + [q];
        }
      }
      assert requests[..|requests|] == requests;
    }

    /** Batch evaluation: the uncached requests go to the remote client in
        one call (even when there are none), the fresh decisions are written
        back, and the cached results are followed by the remote ones. */
    method EvaluatePolicies(requests: seq<PolicyRequest>, remote: Remote) returns (r: BatchOutcome)
      modifies this`policyInputToDecisionCache, this`remoteCalls
      ensures remoteCalls == old(remoteCalls) + [EvaluatePoliciesCall(Uncached(old(policyInputToDecisionCache), requests))]
      ensures match remote.evaluatePolicies(Uncached(old(policyInputToDecisionCache), requests))
        case Failure(e) =>
          r == Returned(Failure(e)) && policyInputToDecisionCache == old(policyInputToDecisionCache)
        case Success(results) =>
          var wb := WriteBack(old(policyInputToDecisionCache), requests, results);
          && policyInputToDecisionCache == wb.cache
          && r == if wb.Written? then Returned(Success(CachedResults(old(policyInputToDecisionCache), requests) + results))
                  else IllegalState(wb.requestId)
    {
      var uncachedRequests, cachedResults := SplitRequests(requests);
      var apiResult := remote.evaluatePolicies(uncachedRequests);
      remoteCalls := remoteCalls + [EvaluatePoliciesCall(uncachedRequests)];
      if apiResult.Failure? {
        return Returned(Failure(apiResult.error));
      }
      var policyResults := apiResult.value;
      for i := 0 to |policyResults|
        modifies this`policyInputToDecisionCache
        invariant WriteBack(policyInputToDecisionCache, requests, policyResults[i..])
               == WriteBack(old(policyInputToDecisionCache), requests, policyResults)
      {
        var request := FindRequest(requests, policyResults[i].requestId);
        if request.None? {
          return IllegalState(policyResults[i].requestId);
        }
        assert policyResults[i..][1..] == policyResults[i + 1..];
        policyInputToDecisionCache := policyInputToDecisionCache[request.value.policyInput := policyResults[i].decision];
      }
      r := Returned(Success(cachedResults + policyResults));
    }

    /** Cache-aside lookup of an employee's AD groups. */
    method HentAdGrupper(navAnsattAzureId: Uuid, remote: Remote) returns (r: ApiResult<seq<AdGruppe>>)
      modifies this`navAnsattIdToAzureAdGrupperCache, this`remoteCalls
      ensures navAnsattAzureId in old(navAnsattIdToAzureAdGrupperCache) ==>
        && r == Success(old(navAnsattIdToAzureAdGrupperCache)[navAnsattAzureId])
        && navAnsattIdToAzureAdGrupperCache == old(navAnsattIdToAzureAdGrupperCache)
        && remoteCalls == old(remoteCalls)
      ensures navAnsattAzureId !in old(navAnsattIdToAzureAdGrupperCache) ==>
        && remoteCalls == old(remoteCalls) + [HentAdGrupperCall(navAnsattAzureId)]
        && r == remote.hentAdGrupper(navAnsattAzureId)
        && navAnsattIdToAzureAdGrupperCache
           == if r.Success? then old(navAnsattIdToAzureAdGrupperCache)[navAnsattAzureId := r.value]
              else old(navAnsattIdToAzureAdGrupperCache)
      ensures TryCacheFirst(old(navAnsattIdToAzureAdGrupperCache), navAnsattAzureId, remote.hentAdGrupper(navAnsattAzureId))
           == Lookup(r, navAnsattIdToAzureAdGrupperCache)
    {
      if navAnsattAzureId in navAnsattIdToAzureAdGrupperCache {
        return Success(navAnsattIdToAzureAdGrupperCache[navAnsattAzureId]);
      }
      var resultat := remote.hentAdGrupper(navAnsattAzureId);
      remoteCalls := remoteCalls + [HentAdGrupperCall(navAnsattAzureId)];
      if resultat.Failure? {
        return resultat;
      }
      navAnsattIdToAzureAdGrupperCache := navAnsattIdToAzureAdGrupperCache[navAnsattAzureId := resultat.value];
      r := Success(resultat.value);
    }

    /** Cache-aside lookup of one person's protected ("skjermet") flag. */
    method ErSkjermetPerson(norskIdent: NorskIdent, remote: Remote) returns (r: ApiResult<bool>)
      modifies this`norskIdentToErSkjermetCache, this`remoteCalls
      ensures norskIdent in old(norskIdentToErSkjermetCache) ==>
        && r == Success(old(norskIdentToErSkjermetCache)[norskIdent])
        && norskIdentToErSkjermetCache == old(norskIdentToErSkjermetCache)
        && remoteCalls == old(remoteCalls)
      ensures norskIdent !in old(norskIdentToErSkjermetCache) ==>
        && remoteCalls == old(remoteCalls) + [ErSkjermetPersonCall(norskIdent)]
        && r == remote.erSkjermetPerson(norskIdent)
        && norskIdentToErSkjermetCache
           == if r.Success? then old(norskIdentToErSkjermetCache)[norskIdent := r.value]
              else old(norskIdentToErSkjermetCache)
      ensures TryCacheFirst(old(norskIdentToErSkjermetCache), norskIdent, remote.erSkjermetPerson(norskIdent))
           == Lookup(r, norskIdentToErSkjermetCache)
    {
      if norskIdent in norskIdentToErSkjermetCache {
        return Success(norskIdentToErSkjermetCache[norskIdent]);
      }
      var resultat := remote.erSkjermetPerson(norskIdent);
      remoteCalls := remoteCalls + [ErSkjermetPersonCall(norskIdent)];
      if resultat.Failure? {
        return resultat;
      }
      norskIdentToErSkjermetCache := norskIdentToErSkjermetCache[norskIdent := resultat.value];
      r := Success(resultat.value);
    }

    /** Splits `norskeIdenter` by whether their flag is cached: the uncached
        identities in order, and the cached flags of the others. */
    method SplitIdenter(norskeIdenter: seq<NorskIdent>)
      returns (uncachedIdenter: seq<NorskIdent>, cachedResults: map<NorskIdent, bool>)
      ensures uncachedIdenter == UncachedIdenter(norskIdentToErSkjermetCache, norskeIdenter)
      ensures cachedResults == CachedSubset(norskIdentToErSkjermetCache, norskeIdenter)
    {
      uncachedIdenter, cachedResults := [], map[];
      for i := 0 to |norskeIdenter|
        invariant uncachedIdenter == UncachedIdenter(norskIdentToErSkjermetCache, norskeIdenter[..i])
        invariant cachedResults == CachedSubset(norskIdentToErSkjermetCache, norskeIdenter[..i])
      {
        var ident := norskeIdenter[i];
        assert norskeIdenter[..i + 1][..i] == norskeIdenter[..i];
        if ident in norskIdentToErSkjermetCache {
          cachedResults := cachedResults[ident := norskIdentToErSkjermetCache[ident]];
        } else {
          uncachedIdenter := uncachedIdenter + [ident];
        }
      }
      assert norskeIdenter[..|norskeIdenter|] == norskeIdenter;
    }

    /** Batch lookup of protected flags: the uncached identities go to the
        remote client in one call (even when there are none), every returned
        pair is written back, and the cached flags are merged with the remote
        map, the remote value winning. */
    method ErSkjermetPersoner(norskeIdenter: seq<NorskIdent>, remote: Remote) returns (r: ApiResult<map<NorskIdent, bool>>)
      modifies this`norskIdentToErSkjermetCache, this`remoteCalls
      ensures remoteCalls == old(remoteCalls) + [ErSkjermetPersonerCall(UncachedIdenter(old(norskIdentToErSkjermetCache), norskeIdenter))]
      ensures match remote.erSkjermetPersoner(UncachedIdenter(old(norskIdentToErSkjermetCache), norskeIdenter))
        case Failure(e) =>
          r == Failure(e) && norskIdentToErSkjermetCache == old(norskIdentToErSkjermetCache)
        case Success(answered) =>
          && norskIdentToErSkjermetCache == old(norskIdentToErSkjermetCache) + answered
          && r == Success(CachedSubset(old(norskIdentToErSkjermetCache), norskeIdenter) + answered)
    {
      var uncachedIdenter, cachedResults := SplitIdenter(norskeIdenter);
      var apiResult := remote.erSkjermetPersoner(uncachedIdenter);
      remoteCalls := remoteCalls + [ErSkjermetPersonerCall(uncachedIdenter)];
      if apiResult.Failure? {
        return Failure(apiResult.error);
      }
      var erSkjermetPersonMap := apiResult.value;
      var remaining := erSkjermetPersonMap.Keys;
      while remaining != {}
        modifies this`norskIdentToErSkjermetCache
        invariant remaining <= erSkjermetPersonMap.Keys
        invariant norskIdentToErSkjermetCache
               == old(norskIdentToErSkjermetCache) + (erSkjermetPersonMap - remaining)
        decreases remaining
      {
        var ident :| ident in remaining;
        norskIdentToErSkjermetCache := norskIdentToErSkjermetCache[ident := erSkjermetPersonMap[ident]];
        remaining := remaining - {ident};
      }
      r := Success(cachedResults + erSkjermetPersonMap);
    }

    /** Time-to-live expiry of one decision entry. */
    method ExpireDecision(input: PolicyInput)
      modifies this`policyInputToDecisionCache
      ensures policyInputToDecisionCache == old(policyInputToDecisionCache) - {input}
    {
      policyInputToDecisionCache := policyInputToDecisionCache - {input};
    }

    /** Time-to-live expiry of one AD-group entry. */
    method ExpireAdGrupper(navAnsattAzureId: Uuid)
      modifies this`navAnsattIdToAzureAdGrupperCache
      ensures navAnsattIdToAzureAdGrupperCache == old(navAnsattIdToAzureAdGrupperCache) - {navAnsattAzureId}
    {
      navAnsattIdToAzureAdGrupperCache := navAnsattIdToAzureAdGrupperCache - {navAnsattAzureId};
    }

    /** Time-to-live expiry of one protected-flag entry. */
    method ExpireErSkjermet(norskIdent: NorskIdent)
      modifies this`norskIdentToErSkjermetCache
      ensures norskIdentToErSkjermetCache == old(norskIdentToErSkjermetCache) - {norskIdent}
    {
      norskIdentToErSkjermetCache := norskIdentToErSkjermetCache - {norskIdent};
    }
  }
}
