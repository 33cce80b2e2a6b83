/** Callers of the cached client whose outcomes follow from the operations'
    contracts alone: the behaviour the client shows across several calls. */
module Scenarios {
  import opened ApiTypes
  import opened CacheSpec
  import opened CachedClient

  /** A remote client whose every call fails with a network error. */
  function Unavailable(): Remote
  {
    Remote(
      _ => Failure(NetworkApiError("unavailable")),
      _ => Failure(NetworkApiError("unavailable")),
      _ => Failure(NetworkApiError("unavailable")),
      _ => Failure(NetworkApiError("unavailable")),
      _ => Failure(NetworkApiError("unavailable")))
  }

  /** On an empty cache a Permit from the remote client is returned and
      cached; a second evaluation is answered from the cache although the
      remote client is then unavailable, and it is not called again. */
  method CachedDecisionSurvivesOutage(x: PolicyInput)
    returns (first: ApiResult<Decision>, second: ApiResult<Decision>, cached: map<PolicyInput, Decision>, ghost calls: seq<RemoteCall>)
    ensures first == Success(Permit) && second == Success(Permit)
    ensures cached == map[x := Permit]
    ensures calls == [EvaluatePolicyCall(x)]
  {
    var client := new PoaoTilgangCachedClient(map[], map[], map[]);
    first := client.EvaluatePolicy(x, Unavailable().(evaluatePolicy := _ => Success(Permit)));
    cached := client.policyInputToDecisionCache;
    second := client.EvaluatePolicy(x, Unavailable());
    calls := client.remoteCalls;
  }

  /** A failed evaluation caches nothing, so the next evaluation of the same
      input asks the remote client again and gets its current answer. */
  method FailureIsNotCached(x: PolicyInput)
    returns (first: ApiResult<Decision>, second: ApiResult<Decision>, ghost calls: seq<RemoteCall>)
    ensures first == Failure(NetworkApiError("unavailable"))
    ensures second == Success(Deny("mangler tilgang", "MANGLER_TILGANG_TIL_AD_GRUPPE"))
    ensures calls == [EvaluatePolicyCall(x), EvaluatePolicyCall(x)]
  {
    var client := new PoaoTilgangCachedClient(map[], map[], map[]);
    first := client.EvaluatePolicy(x, Unavailable());
    second := client.EvaluatePolicy(x, Unavailable().(evaluatePolicy := _ => Success(Deny("mangler tilgang", "MANGLER_TILGANG_TIL_AD_GRUPPE"))));
    calls := client.remoteCalls;
  }

  /** After a cached AD-group entry expires, the next lookup calls the remote
      client again. */
  method ExpiredEntryIsFetchedAgain(id: Uuid, grupper: seq<AdGruppe>)
    returns (r: ApiResult<seq<AdGruppe>>, ghost calls: seq<RemoteCall>)
    ensures r == Success(grupper)
    ensures calls == [HentAdGrupperCall(id), HentAdGrupperCall(id)]
  {
    var client := new PoaoTilgangCachedClient(map[], map[], map[]);
    var remote := Unavailable().(hentAdGrupper := _ => Success(grupper));
    r := client.HentAdGrupper(id, remote);
    client.ExpireAdGrupper(id);
    r := client.HentAdGrupper(id, remote);
    calls := client.remoteCalls;
  }

  /** With one of two requests cached, only the other is sent to the remote
      client; the answer lists the cached result first, then the fresh one,
      and the fresh decision is cached under its request's input. */
  method PartiallyCachedBatch(x: PolicyInput, y: PolicyInput)
    returns (r: BatchOutcome, cached: map<PolicyInput, Decision>, ghost calls: seq<RemoteCall>)
    requires x != y
    ensures r == Returned(Success([PolicyResult("1", Permit), PolicyResult("2", Deny("nei", "KODE"))]))
    ensures cached == map[x := Permit, y := Deny("nei", "KODE")]
    ensures calls == [EvaluatePolicyCall(x), EvaluatePoliciesCall([PolicyRequest("2", y)])]
  {
    var client := new PoaoTilgangCachedClient(map[], map[], map[]);
    var _ := client.EvaluatePolicy(x, Unavailable().(evaluatePolicy := _ => Success(Permit)));
    var requests := [PolicyRequest("1", x), PolicyRequest("2", y)];
    var remote := Unavailable().(evaluatePolicies :=
      rs => if rs == [PolicyRequest("2", y)] then Success([PolicyResult("2", Deny("nei", "KODE"))])
            else Failure(BadHttpStatusApiError(400, "")));
    var cache := map[x := Permit];
    assert requests[..1] == [PolicyRequest("1", x)] && requests[..1][..0] == [];
    assert requests[..1][0] == PolicyRequest("1", x) && cache[x] == Permit;
    assert CachedResults(cache, requests[..1]) == [] + [PolicyResult("1", Permit)];
    assert Uncached(cache, requests[..1]) == [];
    assert Uncached(cache, requests) == [PolicyRequest("2", y)];
    assert CachedResults(cache, requests) == [PolicyResult("1", Permit)];
    assert FindRequest(requests, "2") == Some(PolicyRequest("2", y));
    var answer := [PolicyResult("2", Deny("nei", "KODE"))];
    assert answer[1..] == [];
    assert remote.evaluatePolicies([PolicyRequest("2", y)]) == Success(answer);
    assert WriteBack(cache, requests, answer) == Written(cache[y := Deny("nei", "KODE")]);
    assert client.policyInputToDecisionCache == cache;
    r := client.EvaluatePolicies(requests, remote);
    assert CachedResults(cache, requests) + answer == [PolicyResult("1", Permit), PolicyResult("2", Deny("nei", "KODE"))];
    cached := client.policyInputToDecisionCache;
    calls := client.remoteCalls;
  }

  /** A remote result whose request id matches no request ends the batch in
      the IllegalStateException, after the results before it were cached. */
  method UnknownRequestIdIsIllegalState(x: PolicyInput)
    returns (r: BatchOutcome, cached: map<PolicyInput, Decision>, ghost calls: seq<RemoteCall>)
    ensures r == IllegalState("9")
    ensures cached == map[x := Permit]
    ensures calls == [EvaluatePoliciesCall([PolicyRequest("1", x)])]
  {
    var client := new PoaoTilgangCachedClient(map[], map[], map[]);
    var requests := [PolicyRequest("1", x)];
    var remote := Unavailable().(evaluatePolicies := _ => Success([PolicyResult("1", Permit), PolicyResult("9", Permit)]));
    assert requests[..0] == [];
    assert Uncached(map[], requests) == requests;
    assert FindRequest(requests, "9") == None;
    r := client.EvaluatePolicies(requests, remote);
    cached := client.policyInputToDecisionCache;
    calls := client.remoteCalls;
  }

  /** When every input is cached the remote batch call is still made, with
      an empty request list; its empty answer leaves the cached results. */
  method FullyCachedBatchStillCallsRemote(x: PolicyInput)
    returns (r: BatchOutcome, ghost calls: seq<RemoteCall>)
    ensures r == Returned(Success([PolicyResult("1", Permit)]))
    ensures calls == [EvaluatePolicyCall(x), EvaluatePoliciesCall([])]
  {
    var client := new PoaoTilgangCachedClient(map[], map[], map[]);
    var _ := client.EvaluatePolicy(x, Unavailable().(evaluatePolicy := _ => Success(Permit)));
    var requests := [PolicyRequest("1", x)];
    assert requests[..0] == [];
    assert Uncached(map[x := Permit], requests) == [];
    assert CachedResults(map[x := Permit], requests) == [] + [PolicyResult("1", Permit)];
    var remote := Unavailable().(evaluatePolicies := _ => Success([]));
    assert remote.evaluatePolicies([]) == Success([]);
    assert WriteBack(map[x := Permit], requests, []) == Written(map[x := Permit]);
    r := client.EvaluatePolicies(requests, remote);
    assert CachedResults(map[x := Permit], requests) + [] == [PolicyResult("1", Permit)];
    calls := client.remoteCalls;
  }

  /** "A" is cached as protected; the batch lookup of "A", "B", "C" sends only
      "B" and "C", and merges the remote answer with the cached flag. */
  method ProtectedBatchUnion()
    returns (r: ApiResult<map<NorskIdent, bool>>, ghost calls: seq<RemoteCall>)
    ensures r == Success(map["A" := true, "B" := true, "C" := false])
    ensures calls == [ErSkjermetPersonCall("A"), ErSkjermetPersonerCall(["B", "C"])]
  {
    var client := new PoaoTilgangCachedClient(map[], map[], map[]);
    var _ := client.ErSkjermetPerson("A", Unavailable().(erSkjermetPerson := _ => Success(true)));
    var remote := Unavailable().(erSkjermetPersoner :=
      ids => if ids == ["B", "C"] then Success(map["B" := true, "C" := false])
             else Failure(BadHttpStatusApiError(500, "")));
    UnionScenario();
    r := client.ErSkjermetPersoner(["A", "B", "C"], remote);
    calls := client.remoteCalls;
  }
}
