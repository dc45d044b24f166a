/**
 * Validating identity tokens (`src/oidc.rs`). Signature checking and validity periods are library
 * code: `genuine` stands for them, and `Decode` states what the library's decoder promises.
 */
module Oidc {

  import opened Wrappers

  /***** Tokens and claims *****/

  /** A claim as it stands in the payload; `Other` is anything but a string or an integer. */
  datatype Json = Text(text: string) | Integer(value: int) | Other

  datatype ClaimValue = Number(number: int) | String(text: string)

  datatype Claims = Claims(claims: map<string, ClaimValue>) {

    function GetStr(key: string): (r: Option<string>)
      ensures r.Some? <==> key in claims && claims[key].String?
      ensures r.Some? ==> claims[key] == String(r.value)
    {
      if key !in claims then None
      else
        match claims[key]
        case String(text) => Some(text)
        case Number(_) => None
    }
  }

  datatype Algorithm = HS256 | HS384 | HS512 | ES256 | ES384 | RS256 | RS384 | RS512 | PS256 | PS384 | PS512 | EdDSA

  /** Key algorithms name every signature algorithm and several that only encrypt. */
  datatype KeyAlgorithm = Signing(algorithm: Algorithm) | Encryption(name: string)

  datatype Header = Header(alg: Algorithm, kid: Option<string>)

  /** A compact token; `None` marks a part that cannot be decoded. */
  datatype Jwt = Jwt(header: Option<Header>, payload: Option<map<string, Json>>, signature: string)

  /** `usable` is false for key material that no decoding key can be made from. */
  datatype Jwk = Jwk(kid: Option<string>, algorithm: Option<KeyAlgorithm>, material: string, usable: bool)

  datatype ResolvedOidcConfig = ResolvedOidcConfig(issuer: string, jwks: seq<Jwk>)

  datatype OidcError =
    | InvalidOidcConfig
    | InvalidHeader
    | InvalidToken
    | InvalidKey
    | MissingKid
    | MissingKeyAlgorithm
    | UnknownKid(kid: string)
    | UnsupportedAlgorithm
    | Request

  /** The token carries a good signature under the key and is within its validity period. */
  type Genuine = (Jwt, Jwk) -> bool

  function KeyAlgoToAlgo(keyAlgorithm: KeyAlgorithm): Result<Algorithm, OidcError> {
    match keyAlgorithm
    case Signing(algorithm) => Success(algorithm)
    case Encryption(_) => Failure(UnsupportedAlgorithm)
  }

  /***** The library's validation rules and decoder *****/

  datatype Rules = Rules(
    algorithms: set<Algorithm>,
    audience: Option<set<string>>,
    issuers: Option<set<string>>,
    required: set<string>)

  /** The mutable settings object handed to the decoder. */
  class Validation {
    var algorithms: set<Algorithm>
    var audience: Option<set<string>>
    var issuers: Option<set<string>>
    var required: set<string>

    function View(): Rules
      reads this
    {
      Rules(algorithms, audience, issuers, required)
    }

    constructor (algorithm: Algorithm)
      ensures View() == Rules({algorithm}, None, None, {"exp"})
    {
      algorithms, audience, issuers, required := {algorithm}, None, None, {"exp"};
    }

    method SetAudience(items: set<string>)
      modifies this
      ensures View() == old(View()).(audience := Some(items))
    {
      audience := Some(items);
    }

    method SetIssuer(items: set<string>)
      modifies this
      ensures View() == old(View()).(issuers := Some(items))
    {
      issuers := Some(items);
    }

    method SetRequiredSpecClaims(items: set<string>)
      modifies this
      ensures View() == old(View()).(required := items)
    {
      required := items;
    }
  }

  predicate Among(payload: map<string, Json>, claim: string, allowed: Option<set<string>>) {
    allowed.Some? && claim in payload ==> payload[claim].Text? && payload[claim].text in allowed.value
  }

  predicate Satisfies(header: Header, payload: map<string, Json>, rules: Rules) {
    && header.alg in rules.algorithms
    && rules.required <= payload.Keys
    && Among(payload, "aud", rules.audience)
    && Among(payload, "iss", rules.issuers)
  }

  function ClaimsOf(payload: map<string, Json>): Claims
    requires forall k | k in payload :: !payload[k].Other?
  {
    Claims(map k | k in payload ::
             match payload[k]
             case Text(text) => String(text)
             case Integer(value) => Number(value))
  }

  /** The decoder: the token is genuine, satisfies the rules and its claims are strings and integers. */
  function Decode(token: Jwt, key: Jwk, rules: Rules, genuine: Genuine): Result<Claims, OidcError> {
    if token.header.None? || token.payload.None? then Failure(InvalidToken)
    else
      var payload := token.payload.value;
      if && genuine(token, key)
         && Satisfies(token.header.value, payload, rules)
         && forall k | k in payload :: !payload[k].Other?
      then Success(ClaimsOf(payload))
      else Failure(InvalidToken)
  }

  /** Reading the issuer of a token before anything about it is verified. */
  function InsecureIssuer(token: Jwt): Option<string> {
    if token.header.Some? && token.payload.Some?
       && "iss" in token.payload.value && token.payload.value["iss"].Text?
    then Some(token.payload.value["iss"].text)
    else None
  }

  /***** Validation of a token against one provider *****/

  function FindKey(jwks: seq<Jwk>, kid: string): (r: Option<Jwk>)
    ensures r.Some? ==> r.value in jwks && r.value.kid == Some(kid)
    ensures r.None? ==> forall k | k in jwks :: k.kid != Some(kid)
  {
    if jwks == [] then None
    else if jwks[0].kid == Some(kid) then Some(jwks[0])
    else FindKey(jwks[1..], kid)
  }

  /** The rules a provider's tokens are held to. */
  function ProviderRules(config: ResolvedOidcConfig, audience: string, algorithm: Algorithm): Rules {
    Rules({algorithm}, Some({audience}), Some({config.issuer}), {"exp", "aud", "iss"})
  }

  function Validate(config: ResolvedOidcConfig, audience: string, token: Jwt, genuine: Genuine)
    : Result<Claims, OidcError>
  {
    if token.header.None? then Failure(InvalidHeader)
    else if token.header.value.kid.None? then Failure(MissingKid)
    else
      var kid := token.header.value.kid.value;
      match FindKey(config.jwks, kid)
      case None => Failure(UnknownKid(kid))
      case Some(key) =>
        if !key.usable then Failure(InvalidKey)
        else if key.algorithm.None? then Failure(MissingKeyAlgorithm)
        else
          match KeyAlgoToAlgo(key.algorithm.value)
          case Failure(e) => Failure(e)
          case Success(algorithm) => Decode(token, key, ProviderRules(config, audience, algorithm), genuine)
  }

  /***** What validation promises *****/

  /** `i` is the first key of the set with this id. */
  predicate FirstWithKid(jwks: seq<Jwk>, kid: string, i: nat) {
    i < |jwks| && jwks[i].kid == Some(kid) && forall k | 0 <= k < i :: jwks[k].kid != Some(kid)
  }

  /** The token is signed with the algorithm that this key declares, is genuine under it, and carries an
      expiry, this audience and this issuer, and nothing but texts and integers. */
  predicate Acceptable(key: Jwk, issuer: string, audience: string, token: Jwt, genuine: Genuine) {
    && token.header.Some? && token.payload.Some?
    && key.algorithm == Some(Signing(token.header.value.alg))
    && genuine(token, key)
    && var payload := token.payload.value;
       && "exp" in payload
       && "aud" in payload && payload["aud"] == Text(audience)
       && "iss" in payload && payload["iss"] == Text(issuer)
       && forall claim | claim in payload :: payload[claim].Text? || payload[claim].Integer?
  }

  /** The claims are the payload's, claim by claim. */
  predicate SameClaims(claims: Claims, payload: map<string, Json>) {
    && claims.claims.Keys == payload.Keys
    && forall claim | claim in payload ::
         match payload[claim]
         case Text(text) => claims.claims[claim] == String(text)
         case Integer(value) => claims.claims[claim] == Number(value)
         case Other => false
  }

  /** What to answer once the key is found: the error of the first check that fails, in this order. */
  ghost predicate KeyVerdict(
      key: Jwk, issuer: string, audience: string, token: Jwt, genuine: Genuine, r: Result<Claims, OidcError>)
  {
    && (r == Failure(InvalidKey) <==> !key.usable)
    && (r == Failure(MissingKeyAlgorithm) <==> key.usable && key.algorithm.None?)
    && (r == Failure(UnsupportedAlgorithm) <==>
          key.usable && key.algorithm.Some? && key.algorithm.value.Encryption?)
    && (r == Failure(InvalidToken) <==>
          && key.usable && key.algorithm.Some? && key.algorithm.value.Signing?
          && !Acceptable(key, issuer, audience, token, genuine))
    && (r.Success? <==> key.usable && Acceptable(key, issuer, audience, token, genuine))
    && (r.Success? ==> SameClaims(r.value, token.payload.value))
  }

  /** What to answer for a token: header, key id and key first. */
  ghost predicate Verdict(
      config: ResolvedOidcConfig, audience: string, token: Jwt, genuine: Genuine, r: Result<Claims, OidcError>)
  {
    && (r == Failure(InvalidHeader) <==> token.header.None?)
    && (r == Failure(MissingKid) <==> token.header.Some? && token.header.value.kid.None?)
    && (token.header.Some? && token.header.value.kid.Some? ==>
          var kid := token.header.value.kid.value;
          if exists i: nat :: FirstWithKid(config.jwks, kid, i) then
            forall i: nat | FirstWithKid(config.jwks, kid, i) ::
              KeyVerdict(config.jwks[i], config.issuer, audience, token, genuine, r)
          else r == Failure(UnknownKid(kid)) && forall key | key in config.jwks :: key.kid != Some(kid))
  }

  lemma {:induction false} FirstKeyIsFound(jwks: seq<Jwk>, kid: string, i: nat)
    requires FirstWithKid(jwks, kid, i)
    ensures FindKey(jwks, kid) == Some(jwks[i])
  {
    if i > 0 {
      assert forall k | 0 <= k < i - 1 :: jwks[1..][k] == jwks[k + 1];
      FirstKeyIsFound(jwks[1..], kid, i - 1);
    }
  }

  lemma {:induction false} SomeKeyIsFirst(jwks: seq<Jwk>, kid: string, n: nat)
    requires n < |jwks| && jwks[n].kid == Some(kid)
    ensures exists i: nat :: FirstWithKid(jwks, kid, i)
  {
    if k: nat :| k < n && jwks[k].kid == Some(kid) {
      SomeKeyIsFirst(jwks, kid, k);
    } else {
      assert FirstWithKid(jwks, kid, n);
    }
  }

  lemma KeyDecides(
      config: ResolvedOidcConfig, audience: string, token: Jwt, genuine: Genuine, i: nat)
    requires token.header.Some? && token.header.value.kid.Some?
    requires FirstWithKid(config.jwks, token.header.value.kid.value, i)
    ensures KeyVerdict(config.jwks[i], config.issuer, audience, token, genuine,
                       Validate(config, audience, token, genuine))
  {
    FirstKeyIsFound(config.jwks, token.header.value.kid.value, i);
    var key := config.jwks[i];
    if key.usable && key.algorithm.Some? && key.algorithm.value.Signing? {
      DecodesExactly(config, audience, token, key, genuine);
    }
  }

  lemma DecodesExactly(config: ResolvedOidcConfig, audience: string, token: Jwt, key: Jwk, genuine: Genuine)
    requires key.algorithm.Some? && key.algorithm.value.Signing? && token.header.Some?
    ensures var r := Decode(token, key, ProviderRules(config, audience, key.algorithm.value.algorithm), genuine);
            && (r.Success? <==> Acceptable(key, config.issuer, audience, token, genuine))
            && (r.Failure? ==> r.error == InvalidToken)
            && (r.Success? ==> SameClaims(r.value, token.payload.value))
  {
    if token.payload.Some? {
      var payload := token.payload.value;
      assert {"exp", "aud", "iss"} <= payload.Keys <==> "exp" in payload && "aud" in payload && "iss" in payload;
    }
  }

  /** Validation answers every token as it should. */
  lemma ValidatesExactly(config: ResolvedOidcConfig, audience: string, token: Jwt, genuine: Genuine)
    ensures Verdict(config, audience, token, genuine, Validate(config, audience, token, genuine))
  {
    if token.header.Some? && token.header.value.kid.Some? {
      var kid := token.header.value.kid.value;
      forall i: nat | FirstWithKid(config.jwks, kid, i) {
        KeyDecides(config, audience, token, genuine, i);
      }
      if !exists i: nat :: FirstWithKid(config.jwks, kid, i) {
        forall key | key in config.jwks
          ensures key.kid != Some(kid)
        {
          var n: nat :| n < |config.jwks| && config.jwks[n] == key;
          if key.kid == Some(kid) {
            SomeKeyIsFirst(config.jwks, kid, n);
          }
        }
      }
    }
  }

  /** The program's own validation, with its mutable settings object. */
  method ValidateToken(config: ResolvedOidcConfig, audience: string, token: Jwt, genuine: Genuine)
    returns (r: Result<Claims, OidcError>)
    ensures r == Validate(config, audience, token, genuine)
    ensures Verdict(config, audience, token, genuine, r)
  {
    ValidatesExactly(config, audience, token, genuine);
    if token.header.None? {
      return Failure(InvalidHeader);
    }
    if token.header.value.kid.None? {
      return Failure(MissingKid);
    }
    var key := FindKey(config.jwks, token.header.value.kid.value);
    if key.None? {
      return Failure(UnknownKid(token.header.value.kid.value));
    }
    if !key.value.usable {
      return Failure(InvalidKey);
    }
    if key.value.algorithm.None? {
      return Failure(MissingKeyAlgorithm);
    }
    var algorithm := KeyAlgoToAlgo(key.value.algorithm.value);
    if algorithm.Failure? {
      return Failure(algorithm.error);
    }
    var validation := new Validation(algorithm.value);
    validation.SetAudience({audience});
    validation.SetIssuer({config.issuer});
    validation.SetRequiredSpecClaims({"exp", "aud", "iss"});
    return Decode(token, key.value, validation.View(), genuine);
  }

  /** An accepted token is genuine under a key of this provider, was signed with exactly the
      algorithm that key declares, and names this audience, this issuer and an expiry. */
  lemma AcceptedTokensAreBound(config: ResolvedOidcConfig, audience: string, token: Jwt, genuine: Genuine)
    requires Validate(config, audience, token, genuine).Success?
    ensures exists key | key in config.jwks ::
              && genuine(token, key)
              && token.header.Some? && token.header.value.kid == key.kid
              && key.algorithm == Some(Signing(token.header.value.alg))
    ensures var claims := Validate(config, audience, token, genuine).value;
            && claims.GetStr("aud") == Some(audience)
            && claims.GetStr("iss") == Some(config.issuer)
            && InsecureIssuer(token) == Some(config.issuer)
            && "exp" in claims.claims
  {
    var payload := token.payload.value;
    assert {"exp", "aud", "iss"} <= payload.Keys;
    assert "exp" in payload && "aud" in payload && "iss" in payload;
    var key := FindKey(config.jwks, token.header.value.kid.value).value;
    assert key in config.jwks && genuine(token, key);
  }
}
