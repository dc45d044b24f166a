/**
 * Identity over all runs: nothing is done for a call before its token authenticated at the clock of
 * its own first action, and the principal is routed from that token.
 */
module Identity {

  import opened Wrappers
  import opened Cedar
  import opened Context
  import opened Exchange
  import opened ExchangeInvariant
  import opened ExchangeSafety
  import opened Oidc
  import opened Policy
  import opened Records

  /***** Before anything else *****/

  /** Event `a` authenticated the call, at the clock of the call's own first action `k`. */
  ghost predicate AuthenticatedAt(
      server: Server, calls: seq<Call>, choices: seq<Choice>, id: nat, who: Entity, a: nat, k: nat)
  {
    var trace := Run(server, calls, choices).trace;
    && a < |trace| && id < |calls|
    && FirstAction(choices, k, id)
    && trace[a] == Authenticated(id, who, choices[k].now)
    && Authenticate(server, calls[id].token, choices[k].now) == Success(who)
  }

  lemma VerifiedAt(server: Server, calls: seq<Call>, choices: seq<Choice>, n: nat, id: nat, who: Entity)
      returns (a: nat, k: nat)
    requires id < |calls| && n <= |Run(server, calls, choices).trace|
    requires Verified(server, calls[id].token, Run(server, calls, choices).trace[..n], id, who)
    ensures a < n && AuthenticatedAt(server, calls, choices, id, who, a, k)
  {
    var trace := Run(server, calls, choices).trace;
    var at: int :| Authenticated(id, who, at) in trace[..n]
                    && Authenticate(server, calls[id].token, at) == Success(who);
    a :| a < n && trace[a] == Authenticated(id, who, at);
    k := IdentityIsDecidedFirst(server, calls, choices, a);
  }

  lemma ActorIsVerified(server: Server, calls: seq<Call>, choices: seq<Choice>, id: nat)
    requires id < |calls|
    ensures var w := Run(server, calls, choices);
            WhoOf(w.tasks[id].pc).Some? ==> Verified(server, calls[id].token, w.trace, id, w.tasks[id].pc.who)
  {
    var w := Run(server, calls, choices);
    TaskIsSound(server, calls, choices, id);
    PrincipalIsVerified(server, id, w.tasks[id], w.trace);
  }

  /** Whatever a call does, other than being turned away, it does after its token authenticated, at the
      clock of its own first action; and whatever is allowed is allowed to that principal. */
  lemma AuthenticationComesFirst(server: Server, calls: seq<Call>, choices: seq<Choice>, n: nat)
      returns (who: Entity, a: nat, k: nat)
    requires n < |Run(server, calls, choices).trace| && !Run(server, calls, choices).trace[n].TurnedAway?
    ensures var event := Run(server, calls, choices).trace[n];
            && a <= n && AuthenticatedAt(server, calls, choices, event.call, who, a, k)
            && (event.Authenticated? || event.Allowed? || event.DeployAllowed? ==> event.who == who)
  {
    var trace := Run(server, calls, choices).trace;
    var id := trace[n].call;
    if trace[n].Authenticated? {
      who, a := trace[n].who, n;
      EventIsJustified(server, calls, choices, n);
      k := IdentityIsDecidedFirst(server, calls, choices, n);
    } else {
      var m := EventComesFromAction(server, calls, choices, n);
      var w := Run(server, calls, choices[..m]);
      who := w.tasks[id].pc.who;
      ActorIsVerified(server, calls, choices[..m], id);
      assert trace[..|w.trace|] == w.trace;
      a, k := VerifiedAt(server, calls, choices, |w.trace|, id, who);
    }
  }

  /***** Routing *****/

  /** A principal was authenticated, at this clock, by the last configured provider with the issuer
      that the token names: under one of its keys, with the algorithm that key declares, for this
      audience; and the principal carries that same issuer. */
  ghost predicate RoutedTo(server: Server, token: Jwt, who: Entity, at: int, i: nat) {
    && LastWithIssuer(server.providers, i)
    && var provider := server.providers[i];
       && InsecureIssuer(token) == Some(provider.issuer)
       && "iss" in who.attrs && who.attrs["iss"] == provider.issuer
       && token.payload.Some? && "aud" in token.payload.value && token.payload.value["aud"] == Text(server.audience)
       && token.header.Some?
       && exists key :: key in provider.jwks && server.genuine(at)(token, key)
                        && key.algorithm == Some(Signing(token.header.value.alg))
  }

  lemma IdentityIsRouted(server: Server, token: Jwt, who: Entity, at: int)
    requires Authenticate(server, token, at) == Success(who)
    ensures exists i: nat :: RoutedTo(server, token, who, at, i)
  {
    var issuer := InsecureIssuer(token).value;
    ProvidersAreKeyedByIssuer(server.providers, issuer);
    var i: nat :| LastWithIssuer(server.providers, i) && server.providers[i].issuer == issuer
                  && ProviderMap(server.providers)[issuer] == server.providers[i];
    RoutedBy(server, token, who, at, i);
  }

  /** The claims that a principal was built from carry its issuer. */
  lemma PrincipalFromClaims(server: Server, token: Jwt, who: Entity, provider: ResolvedOidcConfig, at: int)
    requires Authenticate(server, token, at) == Success(who)
    requires provider == ProviderMap(server.providers)[InsecureIssuer(token).value]
    ensures var r := Validate(provider, server.audience, token, server.genuine(at));
            r.Success? && "iss" in who.attrs && who.attrs["iss"] == OrEmpty(r.value.GetStr("iss"))
  {
  }

  lemma RoutedBy(server: Server, token: Jwt, who: Entity, at: int, i: nat)
    requires Authenticate(server, token, at) == Success(who) && LastWithIssuer(server.providers, i)
    requires ProviderMap(server.providers)[InsecureIssuer(token).value] == server.providers[i]
    ensures RoutedTo(server, token, who, at, i)
  {
    var provider, genuine := server.providers[i], server.genuine(at);
    PrincipalFromClaims(server, token, who, provider, at);
    AcceptedTokensAreBound(provider, server.audience, token, genuine);
    ClaimIsPayload(token, Validate(provider, server.audience, token, genuine).value, "aud");
    var key :| key in provider.jwks && genuine(token, key)
               && key.algorithm == Some(Signing(token.header.value.alg));
    assert server.genuine(at)(token, key);
  }

  lemma ClaimIsPayload(token: Jwt, claims: Claims, claim: string)
    requires token.payload.Some? && forall k | k in token.payload.value :: !token.payload.value[k].Other?
    requires claims == ClaimsOf(token.payload.value) && claims.GetStr(claim).Some?
    ensures claim in token.payload.value && token.payload.value[claim] == Text(claims.GetStr(claim).value)
  {
  }

  /** In every run, every permission is allowed to a principal routed from the call's own token, as it
      was at the clock of the call's own first action. */
  lemma AllowedPrincipalsAreRouted(server: Server, calls: seq<Call>, choices: seq<Choice>, n: nat)
      returns (k: nat, i: nat)
    requires var trace := Run(server, calls, choices).trace;
             n < |trace| && (trace[n].Allowed? || trace[n].DeployAllowed?)
    ensures var event := Run(server, calls, choices).trace[n];
            && event.call < |calls| && FirstAction(choices, k, event.call)
            && RoutedTo(server, calls[event.call].token, event.who, choices[k].now, i)
  {
    var event := Run(server, calls, choices).trace[n];
    var who, a, first := AuthenticationComesFirst(server, calls, choices, n);
    k := first;
    IdentityIsRouted(server, calls[event.call].token, event.who, choices[k].now);
    i :| RoutedTo(server, calls[event.call].token, event.who, choices[k].now, i);
  }

  /***** Calls turned away *****/

  /** A call turned away for its identity names the first check that failed at the clock of its first
      action: whether the token names an issuer, a listed one, is valid for it, and identifies a
      workflow run. */
  lemma IdentityErrorsAreExact(
      server: Server, calls: seq<Call>, choices: seq<Choice>, id: nat, e: ExchangeError) returns (k: nat)
    requires id < |calls| && Run(server, calls, choices).tasks[id].pc == Returned(Failure(e))
    requires !e.Refused? && !e.OxideFailure? && !e.GitHubFailure?
    ensures FirstAction(choices, k, id) && IdentityErrorOk(server, calls[id].token, e, choices[k].now)
  {
    var trace := Run(server, calls, choices).trace;
    IdentityErrorOfRun(server, calls, choices, id, e);
    var at: int :| TurnedAway(id, e, at) in trace && Authenticate(server, calls[id].token, at) == Failure(e);
    var n: nat :| n < |trace| && trace[n] == TurnedAway(id, e, at);
    k := IdentityIsDecidedFirst(server, calls, choices, n);
    RejectionsMean(server, calls[id].token, e, at);
  }

  /** The issuer that a token names in its payload, read before anything is verified. */
  predicate Names(token: Jwt, issuer: string) {
    && token.header.Some? && token.payload.Some?
    && "iss" in token.payload.value && token.payload.value["iss"] == Text(issuer)
  }

  /** Provider `i` is the one that decides about this issuer, and key `j` of its set is usable and makes
      the token acceptable at this clock. */
  ghost predicate AcceptedBy(server: Server, token: Jwt, issuer: string, at: int, i: nat, j: nat) {
    && LastWithIssuer(server.providers, i) && server.providers[i].issuer == issuer
    && token.header.Some? && token.header.value.kid.Some?
    && FirstWithKid(server.providers[i].jwks, token.header.value.kid.value, j)
    && server.providers[i].jwks[j].usable
    && Acceptable(server.providers[i].jwks[j], issuer, server.audience, token, server.genuine(at))
  }

  /** The token identifies a workflow run. */
  predicate HasRun(token: Jwt) {
    token.payload.Some? && "jti" in token.payload.value && token.payload.value["jti"].Text?
  }

  ghost predicate IdentityErrorOk(server: Server, token: Jwt, e: ExchangeError, at: int) {
    && (e == BadToken <==> forall issuer :: !Names(token, issuer))
    && forall issuer | Names(token, issuer) ::
         && (e == UnsupportedIssuer <==>
               forall i | 0 <= i < |server.providers| :: server.providers[i].issuer != issuer)
         && (e == Unverified <==>
               && (exists i | 0 <= i < |server.providers| :: server.providers[i].issuer == issuer)
               && !exists i: nat, j: nat :: AcceptedBy(server, token, issuer, at, i, j))
         && (e == BadPrincipal(NoPrincipal) <==>
               (exists i: nat, j: nat :: AcceptedBy(server, token, issuer, at, i, j)) && !HasRun(token))
  }

  lemma IdentityErrorOfRun(
      server: Server, calls: seq<Call>, choices: seq<Choice>, id: nat, e: ExchangeError)
    requires id < |calls| && Run(server, calls, choices).tasks[id].pc == Returned(Failure(e))
    requires !e.Refused? && !e.OxideFailure? && !e.GitHubFailure?
    ensures Rejected(server, calls[id].token, Run(server, calls, choices).trace, id, e)
  {
    TaskIsSound(server, calls, choices, id);
  }

  /** The decision of validation, for the provider that decides about the issuer. */
  lemma ProviderDecides(server: Server, token: Jwt, issuer: string, at: int)
    requires Names(token, issuer) && issuer in ProviderMap(server.providers)
    ensures var r := Validate(ProviderMap(server.providers)[issuer], server.audience, token, server.genuine(at));
            && (r.Success? <==> exists i: nat, j: nat :: AcceptedBy(server, token, issuer, at, i, j))
            && (r.Success? ==> SameClaims(r.value, token.payload.value))
  {
    ProvidersAreKeyedByIssuer(server.providers, issuer);
    var i: nat :| LastWithIssuer(server.providers, i) && server.providers[i].issuer == issuer
                  && ProviderMap(server.providers)[issuer] == server.providers[i];
    var provider, genuine := server.providers[i], server.genuine(at);
    ValidatesExactly(provider, server.audience, token, genuine);
    if Validate(provider, server.audience, token, genuine).Success? {
      var j: nat :| FirstWithKid(provider.jwks, token.header.value.kid.value, j);
      assert AcceptedBy(server, token, issuer, at, i, j);
    }
    forall i': nat, j: nat | AcceptedBy(server, token, issuer, at, i', j)
      ensures i' == i && Validate(provider, server.audience, token, genuine).Success?
    {
      OneLastProvider(server.providers, i, i');
    }
  }

  lemma OneLastProvider(providers: seq<ResolvedOidcConfig>, i: nat, j: nat)
    requires LastWithIssuer(providers, i) && LastWithIssuer(providers, j)
    requires providers[i].issuer == providers[j].issuer
    ensures i == j
  {
  }

  lemma IssuerIsRead(token: Jwt)
    ensures InsecureIssuer(token).None? <==> forall issuer :: !Names(token, issuer)
    ensures forall issuer :: Names(token, issuer) <==> InsecureIssuer(token) == Some(issuer)
  {
    if InsecureIssuer(token).Some? {
      assert Names(token, InsecureIssuer(token).value);
    }
  }

  /** A token authenticates, at a clock, exactly when a key of the provider that decides about its issuer
      makes it acceptable and it identifies a workflow run; the principal is the one it describes. */
  lemma AuthenticatesExactly(server: Server, token: Jwt, at: int)
    ensures var r := Authenticate(server, token, at);
            && (r.Success? <==>
                  HasRun(token) && exists issuer, i: nat, j: nat ::
                    Names(token, issuer) && AcceptedBy(server, token, issuer, at, i, j))
            && (r.Success? ==> DescribesToken(r.value, token.payload.value))
            && (r.Failure? ==> IdentityErrorOk(server, token, r.error, at))
  {
    IssuerIsRead(token);
    if InsecureIssuer(token).Some? {
      var issuer := InsecureIssuer(token).value;
      ProvidersAreKeyedByIssuer(server.providers, issuer);
      if issuer in ProviderMap(server.providers) {
        ProviderDecides(server, token, issuer, at);
        var r := Validate(ProviderMap(server.providers)[issuer], server.audience, token, server.genuine(at));
        if r.Success? {
          PrincipalsAreDescribed(r.value);
          ClaimsDescribe(r.value, token.payload.value);
        }
      } else {
        NobodyAccepts(server, token, issuer, at);
      }
    }
  }

  lemma NobodyAccepts(server: Server, token: Jwt, issuer: string, at: int)
    requires forall i | 0 <= i < |server.providers| :: server.providers[i].issuer != issuer
    ensures !exists i: nat, j: nat :: AcceptedBy(server, token, issuer, at, i, j)
  {
  }

  /** The text is the payload's, or empty when there is no such claim or it is a number. */
  predicate HoldsPayloadText(text: string, payload: map<string, Json>, name: string) {
    if name in payload && payload[name].Text? then payload[name] == Text(text) else text == ""
  }

  /** The principal is the workflow run that the payload describes: identified by its `jti`, each required
      attribute holding the text claim of the same name, and an environment only if it is claimed. */
  predicate DescribesToken(who: Entity, payload: map<string, Json>) {
    && who.uid.entityType == WorkflowRun
    && "jti" in payload && payload["jti"] == Text(who.uid.id)
    && "repository" in who.attrs && HoldsPayloadText(who.attrs["repository"], payload, "repository")
    && "repository_owner" in who.attrs
    && HoldsPayloadText(who.attrs["repository_owner"], payload, "repository_owner")
    && "repository_visibility" in who.attrs
    && HoldsPayloadText(who.attrs["repository_visibility"], payload, "repository_visibility")
    && "event_name" in who.attrs && HoldsPayloadText(who.attrs["event_name"], payload, "event_name")
    && "ref" in who.attrs && HoldsPayloadText(who.attrs["ref"], payload, "ref")
    && "iss" in who.attrs && HoldsPayloadText(who.attrs["iss"], payload, "iss")
    && ("environment" in who.attrs <==> "environment" in payload && payload["environment"].Text?)
    && ("environment" in who.attrs ==> payload["environment"] == Text(who.attrs["environment"]))
  }

  lemma ClaimsDescribe(claims: Claims, payload: map<string, Json>)
    requires SameClaims(claims, payload)
    ensures "jti" in claims.claims && claims.claims["jti"].String? <==> "jti" in payload && payload["jti"].Text?
    ensures forall who: Entity :: Describes(who, claims.claims) ==> DescribesToken(who, payload)
  {
    forall name, text
      ensures HoldsText(text, claims.claims, name) <==> HoldsPayloadText(text, payload, name)
    {
    }
  }

  /** In every run, whatever is allowed to a call is allowed to the principal that its own token describes. */
  lemma PrincipalsDescribeTokens(server: Server, calls: seq<Call>, choices: seq<Choice>, n: nat)
    requires var trace := Run(server, calls, choices).trace;
             n < |trace| && (trace[n].Authenticated? || trace[n].Allowed? || trace[n].DeployAllowed?)
    ensures var event := Run(server, calls, choices).trace[n];
            && event.call < |calls| && calls[event.call].token.payload.Some?
            && DescribesToken(event.who, calls[event.call].token.payload.value)
  {
    var event := Run(server, calls, choices).trace[n];
    var who, a, k := AuthenticationComesFirst(server, calls, choices, n);
    AuthenticatesExactly(server, calls[event.call].token, choices[k].now);
  }

  lemma RejectionsMean(server: Server, token: Jwt, e: ExchangeError, at: int)
    requires Authenticate(server, token, at) == Failure(e)
    ensures IdentityErrorOk(server, token, e, at)
  {
    AuthenticatesExactly(server, token, at);
  }
}
