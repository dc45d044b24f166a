/** Building the server's state (`src/context.rs`): the providers, keyed by issuer. */
module Context {

  import opened Wrappers
  import opened Oidc

  /** The map left by inserting every provider under its issuer, in list order. */
  function ProviderMap(providers: seq<ResolvedOidcConfig>): map<string, ResolvedOidcConfig> {
    if providers == [] then map[]
    else
      var last := |providers| - 1;
      ProviderMap(providers[..last])[providers[last].issuer := providers[last]]
  }

  /** `i` is the last provider with its issuer. */
  predicate LastWithIssuer(providers: seq<ResolvedOidcConfig>, i: nat) {
    i < |providers| && forall k | i < k < |providers| :: providers[k].issuer != providers[i].issuer
  }

  /** Each key is the issuer of its provider, which is the last one listed with that issuer; every
      listed issuer is a key. */
  lemma {:induction false} ProvidersAreKeyedByIssuer(providers: seq<ResolvedOidcConfig>, issuer: string)
    ensures issuer in ProviderMap(providers) <==> exists i | 0 <= i < |providers| :: providers[i].issuer == issuer
    ensures issuer in ProviderMap(providers) ==>
              exists i: nat :: LastWithIssuer(providers, i) && providers[i].issuer == issuer
                               && ProviderMap(providers)[issuer] == providers[i]
  {
    if providers != [] {
      var last := |providers| - 1;
      var init := providers[..last];
      ProvidersAreKeyedByIssuer(init, issuer);
      if providers[last].issuer == issuer {
        assert LastWithIssuer(providers, last);
      } else if issuer in ProviderMap(init) {
        var i: nat :| LastWithIssuer(init, i) && init[i].issuer == issuer && ProviderMap(init)[issuer] == init[i];
        assert LastWithIssuer(providers, i);
      }
    }
  }

  predicate AllFetched(answers: seq<Result<ResolvedOidcConfig, OidcError>>) {
    forall k | 0 <= k < |answers| :: answers[k].Success?
  }

  /** The providers fetched before the first failure. */
  function Fetched(answers: seq<Result<ResolvedOidcConfig, OidcError>>): (providers: seq<ResolvedOidcConfig>)
    requires AllFetched(answers)
    ensures |providers| == |answers| && forall k | 0 <= k < |answers| :: providers[k] == answers[k].value
  {
    seq(|answers|, k requires 0 <= k < |answers| => answers[k].value)
  }

  lemma FetchedStep(answers: seq<Result<ResolvedOidcConfig, OidcError>>, i: nat)
    requires i < |answers| && AllFetched(answers[..i]) && answers[i].Success?
    ensures AllFetched(answers[..i + 1])
    ensures var config := answers[i].value;
            ProviderMap(Fetched(answers[..i + 1])) == ProviderMap(Fetched(answers[..i]))[config.issuer := config]
  {
    assert Fetched(answers[..i + 1])[..i] == Fetched(answers[..i]);
  }

  /** The loop over the configured providers; `answers[i]` is what fetching provider `i` gave. */
  method BuildProviders(answers: seq<Result<ResolvedOidcConfig, OidcError>>)
    returns (r: Result<map<string, ResolvedOidcConfig>, OidcError>)
    ensures r.Success? <==> AllFetched(answers)
    ensures r.Success? ==> r.value == ProviderMap(Fetched(answers))
    ensures r.Failure? ==> exists i | 0 <= i < |answers| ::
                             answers[i] == Failure(r.error) && AllFetched(answers[..i])
  {
    var providers: map<string, ResolvedOidcConfig> := map[];
    for i := 0 to |answers|
      invariant AllFetched(answers[..i])
      invariant providers == ProviderMap(Fetched(answers[..i]))
    {
      if answers[i].Failure? {
        return Failure(answers[i].error);
      }
      var config := answers[i].value;
      providers := providers[config.issuer := config];
      FetchedStep(answers, i);
    }
    assert answers[..|answers|] == answers;
    return Success(providers);
  }
}
