/** lib/auth/token-validator.ts: ID-token claim validation (OpenID Connect Core
    1.0 section 3.1.3.7) and the lazily filled discovery and key-set caches.
    The `jose` signature check and the network are parameters. */
module TokenValidator {
  import opened Wrappers
  import opened Text
  import opened Json
  import opened Types
  import opened GubuyConfig

  /** Clock-skew tolerance, in seconds. */
  const TOLERANCE := 60

  const ISSUER_MESSAGE := "Unexpected ID token issuer"
  const AUDIENCE_MESSAGE := "ID token audience does not include the configured client ID"
  const EXPIRED_MESSAGE := "ID token has expired"
  const NOT_YET_VALID_MESSAGE := "ID token is not yet valid"
  const FUTURE_IAT_MESSAGE := "ID token issue time is in the future"
  const VERIFY_PREFIX := "ID token verification failed: "
  const WELL_KNOWN_PATH := "/.well-known/openid-configuration"

  predicate AllSlashes(s: string) {
    forall i :: 0 <= i < |s| ==> s[i] == '/'
  }

  /** `s.replace(/\/+$/, '')`: the longest prefix of `s` not ending in '/',
      everything after it being slashes. */
  function StripTrailingSlashes(s: string): (r: string)
    ensures |r| <= |s| && r == s[..|r|]
    ensures !EndsWithChar(r, '/')
    ensures AllSlashes(s[|r|..])
  {
    if EndsWithChar(s, '/') then StripTrailingSlashes(s[..|s| - 1]) else s
  }

  lemma {:induction false} StripDropsSlashSuffix(a: string, slashes: string)
    requires AllSlashes(slashes)
    ensures StripTrailingSlashes(a + slashes) == StripTrailingSlashes(a)
    decreases |slashes|
  {
    if slashes == [] {
      assert a + slashes == a;
    } else {
      var shorter := slashes[..|slashes| - 1];
      assert (a + slashes)[..|a + slashes| - 1] == a + shorter;
      StripDropsSlashSuffix(a, shorter);
    }
  }

  /** Removing trailing slashes is idempotent, and any number of extra trailing
      slashes is normalised away. */
  lemma StripTrailingSlashesNormalises(s: string, slashes: string)
    requires AllSlashes(slashes)
    ensures StripTrailingSlashes(StripTrailingSlashes(s)) == StripTrailingSlashes(s)
    ensures StripTrailingSlashes(s + slashes) == StripTrailingSlashes(s)
  {
    StripDropsSlashSuffix(s, slashes);
  }

  /** The issuer variants GUB.UY publishes, built from the normalised issuer. */
  function IssuerCandidates(issuer: string): set<string> {
    var n := StripTrailingSlashes(issuer);
    {n, n + "/oidc", n + "/oidc/v1", n + "/oidc/v2"}
  }

  /** The issuer check: `iss` is a string that, without trailing slashes, is
      non-empty and one of the candidates. */
  predicate IssuerAccepted(payload: Fields, configuredIssuer: string) {
    var tokenIssuer := if GetText(payload, "iss").Some? then StripTrailingSlashes(GetText(payload, "iss").value) else "";
    tokenIssuer != "" && tokenIssuer in IssuerCandidates(configuredIssuer)
  }

  /** The audience check: `aud` is the client id, or an array containing it. */
  predicate AudienceAccepted(payload: Fields, clientId: string) {
    "aud" in payload &&
    match payload["aud"]
    case JStr(a) => a == clientId
    case JArray(items) => JStr(clientId) in items
    case _ => false
  }

  function NumericClaim(payload: Fields, key: string): Option<int> {
    if key in payload && payload[key].JNum? then Some(payload[key].n) else None
  }

  predicate ExpiredAt(payload: Fields, now: int) {
    NumericClaim(payload, "exp").Some? && NumericClaim(payload, "exp").value + TOLERANCE < now
  }

  predicate NotYetValidAt(payload: Fields, now: int) {
    NumericClaim(payload, "nbf").Some? && NumericClaim(payload, "nbf").value - TOLERANCE > now
  }

  predicate IssuedInFutureAt(payload: Fields, now: int) {
    NumericClaim(payload, "iat").Some? && NumericClaim(payload, "iat").value - TOLERANCE > now
  }

  /** validateIdTokenClaims. `now` is `Math.floor(Date.now() / 1000)`. The
      checks run in the order issuer, audience, exp, nbf, iat and the first
      failure decides the error. */
  function ValidateIdTokenClaims(payload: Fields, configuredIssuer: string, clientId: string, now: int): (r: Outcome)
    ensures r == Pass <==> IssuerAccepted(payload, configuredIssuer) && AudienceAccepted(payload, clientId)
                           && !ExpiredAt(payload, now) && !NotYetValidAt(payload, now) && !IssuedInFutureAt(payload, now)
    ensures !IssuerAccepted(payload, configuredIssuer) ==> r == Fail(ISSUER_MESSAGE)
    ensures IssuerAccepted(payload, configuredIssuer) && !AudienceAccepted(payload, clientId) ==> r == Fail(AUDIENCE_MESSAGE)
  {
    var candidates := IssuerCandidates(configuredIssuer);
    var tokenIssuer := match Get(payload, "iss")
      case Some(JStr(iss)) => StripTrailingSlashes(iss)
      case _ => "";
    if tokenIssuer == "" || tokenIssuer !in candidates then Fail(ISSUER_MESSAGE)
    else if !AudienceAccepted(payload, clientId) then Fail(AUDIENCE_MESSAGE)
    else if ExpiredAt(payload, now) then Fail(EXPIRED_MESSAGE)
    else if NotYetValidAt(payload, now) then Fail(NOT_YET_VALID_MESSAGE)
    else if IssuedInFutureAt(payload, now) then Fail(FUTURE_IAT_MESSAGE)
    else Pass
  }

  /** The issuer is accepted iff, without trailing slashes, it equals the
      normalised configured issuer or that issuer plus '/oidc', '/oidc/v1' or
      '/oidc/v2'; a missing, non-string or empty `iss` is always rejected. */
  lemma IssuerAcceptedIff(payload: Fields, configuredIssuer: string)
    ensures IssuerAccepted(payload, configuredIssuer) <==>
      && "iss" in payload && payload["iss"].JStr?
      && var t := StripTrailingSlashes(payload["iss"].s);
         var n := StripTrailingSlashes(configuredIssuer);
         t != "" && (t == n || t == n + "/oidc" || t == n + "/oidc/v1" || t == n + "/oidc/v2")
    ensures ("iss" !in payload || !payload["iss"].JStr? || payload["iss"].s == "") ==>
      ValidateIdTokenClaims(payload, configuredIssuer, "", 0) == Fail(ISSUER_MESSAGE)
  {
  }

  /** Any issuer variant, written with extra trailing slashes, passes the issuer
      check when the configured issuer is not just slashes. */
  lemma IssuerVariantWithSlashesAccepted(payload: Fields, configuredIssuer: string, suffix: string, slashes: string)
    requires suffix in {"", "/oidc", "/oidc/v1", "/oidc/v2"}
    requires AllSlashes(slashes) && StripTrailingSlashes(configuredIssuer) != ""
    requires payload == map["iss" := JStr(StripTrailingSlashes(configuredIssuer) + suffix + slashes)]
    ensures IssuerAccepted(payload, configuredIssuer)
  {
    var n := StripTrailingSlashes(configuredIssuer);
    StripDropsSlashSuffix(n + suffix, slashes);
    assert !EndsWithChar(n + suffix, '/') by {
      if suffix == "" { assert n + suffix == n; }
    }
  }

  /** Audience: accepted iff `aud` is the client id as a string or an array containing it. */
  lemma AudienceShapes(payload: Fields, clientId: string)
    ensures AudienceAccepted(payload, clientId) <==>
      "aud" in payload && (payload["aud"] == JStr(clientId) || (payload["aud"].JArray? && JStr(clientId) in payload["aud"].items))
  {
  }

  /** A token exactly 60 seconds past `exp` is still accepted by the exp check,
      one second later it is not; `nbf` and `iat` mirror this on the other side. */
  lemma TimeToleranceBoundaries(exp: int, nbf: int)
    ensures !ExpiredAt(map["exp" := JNum(exp)], exp + TOLERANCE)
    ensures ExpiredAt(map["exp" := JNum(exp)], exp + TOLERANCE + 1)
    ensures !NotYetValidAt(map["nbf" := JNum(nbf)], nbf - TOLERANCE)
    ensures NotYetValidAt(map["nbf" := JNum(nbf)], nbf - TOLERANCE - 1)
  {
  }

  /** An absent or non-numeric time claim skips its check. */
  lemma NonNumericTimesSkipped(payload: Fields, now: int)
    requires forall k :: k in payload && k in {"exp", "nbf", "iat"} ==> !payload[k].JNum?
    ensures !ExpiredAt(payload, now) && !NotYetValidAt(payload, now) && !IssuedInFutureAt(payload, now)
  {
    assert NumericClaim(payload, "exp").None? by { assert "exp" in {"exp", "nbf", "iat"}; }
    assert NumericClaim(payload, "nbf").None? by { assert "nbf" in {"exp", "nbf", "iat"}; }
    assert NumericClaim(payload, "iat").None? by { assert "iat" in {"exp", "nbf", "iat"}; }
  }

  /** The time checks come after issuer and audience: with both accepted, the
      first failing time check decides. */
  lemma TimeChecksInOrder(payload: Fields, configuredIssuer: string, clientId: string, now: int)
    requires IssuerAccepted(payload, configuredIssuer) && AudienceAccepted(payload, clientId)
    ensures ExpiredAt(payload, now) ==> ValidateIdTokenClaims(payload, configuredIssuer, clientId, now) == Fail(EXPIRED_MESSAGE)
    ensures !ExpiredAt(payload, now) && NotYetValidAt(payload, now) ==>
      ValidateIdTokenClaims(payload, configuredIssuer, clientId, now) == Fail(NOT_YET_VALID_MESSAGE)
    ensures !ExpiredAt(payload, now) && !NotYetValidAt(payload, now) && IssuedInFutureAt(payload, now) ==>
      ValidateIdTokenClaims(payload, configuredIssuer, clientId, now) == Fail(FUTURE_IAT_MESSAGE)
  {
  }

  // -----------------------------------------------------------------------
  // Discovery and key-set caches.

  /** The discovery document's URL (OpenID Connect Discovery 1.0 section 4). */
  function DiscoveryUrl(issuer: string): (url: string)
    ensures StartsWith(url, StripTrailingSlashes(issuer))
  {
    StripTrailingSlashes(issuer) + WELL_KNOWN_PATH
  }

  /** Trailing slashes on the configured issuer do not change the discovery URL. */
  lemma DiscoveryUrlIgnoresTrailingSlashes(issuer: string, slashes: string)
    requires AllSlashes(slashes)
    ensures DiscoveryUrl(issuer + slashes) == DiscoveryUrl(issuer)
  {
    StripDropsSlashSuffix(issuer, slashes);
  }

  /** What fetching the discovery document produced. */
  datatype DiscoveryResponse =
    | DiscoveryOk(configuration: OpenIdConfiguration)
    | DiscoveryHttpError(status: int, statusText: string, text: string)
    | DiscoveryFailure(message: string)

  function DiscoveryError(resp: DiscoveryResponse): string
    requires !resp.DiscoveryOk?
  {
    match resp
    case DiscoveryHttpError(status, statusText, text) =>
      "Failed to load OpenID configuration (" + DecimalString(status) + " " + statusText + "): " + text
    case DiscoveryFailure(message) => message
  }

  /** The handle `createRemoteJWKSet` returns, identified by its URL. */
  datatype RemoteKeySet = RemoteKeySet(url: string)

  /** The module-level `discoveryPromise` and `jwksCache`. */
  class ValidatorCache {
    const config: Config
    var discovery: Option<OpenIdConfiguration>
    var jwks: Option<RemoteKeySet>

    constructor (config: Config)
      ensures this.config == config && discovery == None && jwks == None
    {
      this.config := config;
      discovery := None;
      jwks := None;
    }

    /** getOpenIdConfiguration: a filled cache is reused without a request; an
        empty one fetches the discovery URL and keeps the document only on
        success, so a failure leaves it empty and the next call retries.
        `requested` is the URL fetched, if any. */
    method GetOpenIdConfiguration(fetch: string -> DiscoveryResponse)
      returns (r: Result<OpenIdConfiguration>, requested: Option<string>)
      modifies this`discovery
      ensures old(discovery).Some? ==> r == Ok(old(discovery).value) && requested == None && discovery == old(discovery)
      ensures old(discovery).None? ==> requested == Some(DiscoveryUrl(config.issuer))
      ensures old(discovery).None? && fetch(DiscoveryUrl(config.issuer)).DiscoveryOk? ==>
        r == Ok(fetch(DiscoveryUrl(config.issuer)).configuration) && discovery == Some(r.value)
      ensures old(discovery).None? && !fetch(DiscoveryUrl(config.issuer)).DiscoveryOk? ==>
        r == Err(DiscoveryError(fetch(DiscoveryUrl(config.issuer)))) && discovery == None
    {
      if discovery.Some? {
        return Ok(discovery.value), None;
      }
      var url := DiscoveryUrl(config.issuer);
      requested := Some(url);
      var resp := fetch(url);
      if resp.DiscoveryOk? {
        discovery := Some(resp.configuration);
        r := Ok(resp.configuration);
      } else {
        discovery := None;
        r := Err(DiscoveryError(resp));
      }
    }

    /** getJwks: the key set is created from the configured JWKS URL on the
        first call and reused afterwards. `parseUrl` stands for `new URL(...)`:
        it gives the parsed URL, or the message of the `TypeError` it throws,
        which leaves the cache empty and reaches the caller as it is. */
    method GetJwks(parseUrl: string -> Result<string>) returns (r: Result<RemoteKeySet>)
      modifies this`jwks
      ensures old(jwks).Some? ==> r == Ok(old(jwks).value) && jwks == old(jwks)
      ensures old(jwks).None? && parseUrl(config.jwksUrl).Ok? ==>
        r == Ok(RemoteKeySet(parseUrl(config.jwksUrl).value)) && jwks == Some(r.value)
      ensures old(jwks).None? && parseUrl(config.jwksUrl).Err? ==>
        r == Err(parseUrl(config.jwksUrl).error) && jwks == None
    {
      if jwks.None? {
        var url := parseUrl(config.jwksUrl);
        if url.Err? {
          return Err(url.error);
        }
        jwks := Some(RemoteKeySet(url.value));
      }
      r := Ok(jwks.value);
    }

    /** verifyIdToken. `jwtVerify` stands for `jose`'s signature and standard
        claim check against the key set, expected issuer and audience. A
        discovery failure and a JWKS URL that does not parse propagate as they
        are, since both happen before the guarded block; every failure of
        verification or of the claim check is reported with the 'ID token
        verification failed: ' prefix. On success the payload is returned.
        `nowMs` is `Date.now()`. */
    method VerifyIdToken(idToken: string, fetch: string -> DiscoveryResponse, parseUrl: string -> Result<string>,
                         jwtVerify: (string, RemoteKeySet, string, string) -> Result<Fields>, nowMs: int)
      returns (r: Result<Fields>)
      modifies this`discovery, this`jwks
      // The discovery cache: kept when filled, otherwise filled on a successful fetch.
      ensures old(discovery).Some? ==> discovery == old(discovery)
      ensures old(discovery).None? && fetch(DiscoveryUrl(config.issuer)).DiscoveryOk? ==>
        discovery == Some(fetch(DiscoveryUrl(config.issuer)).configuration)
      ensures old(discovery).None? && !fetch(DiscoveryUrl(config.issuer)).DiscoveryOk? ==>
        r == Err(DiscoveryError(fetch(DiscoveryUrl(config.issuer)))) && discovery == None && jwks == old(jwks)
      // The key-set cache, once discovery succeeded.
      ensures discovery.Some? && old(jwks).Some? ==> jwks == old(jwks)
      ensures discovery.Some? && old(jwks).None? && parseUrl(config.jwksUrl).Ok? ==>
        jwks == Some(RemoteKeySet(parseUrl(config.jwksUrl).value))
      ensures discovery.Some? && old(jwks).None? && parseUrl(config.jwksUrl).Err? ==>
        r == Err(parseUrl(config.jwksUrl).error) && jwks == None
      // The outcome, once both caches are filled.
      ensures discovery.Some? && jwks.Some? ==>
        var verified := jwtVerify(idToken, jwks.value, discovery.value.issuer, config.clientId);
        && (verified.Err? ==> r == Err(VERIFY_PREFIX + verified.error))
        && (verified.Ok? ==>
              var claims := ValidateIdTokenClaims(verified.value, discovery.value.issuer, config.clientId, nowMs / 1000);
              && (claims == Pass ==> r == Ok(verified.value))
              && (claims.Fail? ==> r == Err(VERIFY_PREFIX + claims.error)))
      ensures r.Ok? <==>
        && discovery.Some? && jwks.Some?
        && jwtVerify(idToken, jwks.value, discovery.value.issuer, config.clientId).Ok?
        && ValidateIdTokenClaims(jwtVerify(idToken, jwks.value, discovery.value.issuer, config.clientId).value,
                                 discovery.value.issuer, config.clientId, nowMs / 1000) == Pass
      ensures discovery.Some? && jwks.Some? && r.Err? ==> StartsWith(r.error, VERIFY_PREFIX)
    {
      var configuration, _ := GetOpenIdConfiguration(fetch);
      if configuration.Err? {
        return Err(configuration.error);
      }
      var keys := GetJwks(parseUrl);
      if keys.Err? {
        return Err(keys.error);
      }
      var verified := jwtVerify(idToken, keys.value, configuration.value.issuer, config.clientId);
      if verified.Err? {
        return Err(VERIFY_PREFIX + verified.error);
      }
      var claims := ValidateIdTokenClaims(verified.value, configuration.value.issuer, config.clientId, nowMs / 1000);
      if claims.Fail? {
        return Err(VERIFY_PREFIX + claims.error);
      }
      r := Ok(verified.value);
    }
  }
}
