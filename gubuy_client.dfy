/** lib/auth/gubuy-client.ts: the OpenID Connect Authorization Code flow with
    PKCE against GUB.UY (RFC 6749 section 4.1, RFC 7636). Browser, deep links,
    network, URL parsing, percent-encoding and clocks are parameters. */
module GubuyClient {
  import opened Wrappers
  import opened Text
  import opened Json
  import opened Types
  import opened GubuyConfig
  import opened Pkce
  import opened SessionManager

  // -----------------------------------------------------------------------
  // Query strings as ordered key/value pairs (before percent-encoding).

  type Pairs = seq<(string, string)>

  /** A URL: a base and the query parameters `URLSearchParams` would encode. */
  datatype Url = Url(base: string, query: Pairs)

  function Keys(pairs: Pairs): (keys: seq<string>)
    ensures |keys| == |pairs| && forall i :: 0 <= i < |pairs| ==> keys[i] == pairs[i].0
  {
    seq(|pairs|, i requires 0 <= i < |pairs| => pairs[i].0)
  }

  /** `params.get(key)`: the first value stored under `key`. */
  function ValueOf(pairs: Pairs, key: string): Option<string> {
    if pairs == [] then None
    else if pairs[0].0 == key then Some(pairs[0].1)
    else ValueOf(pairs[1..], key)
  }

  predicate DistinctKeys(pairs: Pairs) {
    forall i, j :: 0 <= i < j < |pairs| ==> pairs[i].0 != pairs[j].0
  }

  lemma {:induction false} ValueOfDistinct(pairs: Pairs, i: nat)
    requires DistinctKeys(pairs) && i < |pairs|
    ensures ValueOf(pairs, pairs[i].0) == Some(pairs[i].1)
  {
    if i > 0 {
      assert DistinctKeys(pairs[1..]);
      assert pairs[1..][i - 1] == pairs[i];
      ValueOfDistinct(pairs[1..], i - 1);
    }
  }

  lemma {:induction false} ValueOfAbsent(pairs: Pairs, key: string)
    requires key !in Keys(pairs)
    ensures ValueOf(pairs, key) == None
  {
    if pairs != [] {
      assert Keys(pairs)[0] == pairs[0].0;
      assert Keys(pairs[1..]) == Keys(pairs)[1..];
      ValueOfAbsent(pairs[1..], key);
    }
  }

  // -----------------------------------------------------------------------
  // Request builders.

  const AUTHORIZE_PARAMS: seq<string> :=
    ["response_type", "client_id", "redirect_uri", "scope", "state", "code_challenge", "code_challenge_method", "nonce"]

  lemma AuthorizeParamsDistinct()
    ensures forall i, j :: 0 <= i < j < |AUTHORIZE_PARAMS| ==> AUTHORIZE_PARAMS[i] != AUTHORIZE_PARAMS[j]
  {
    forall i, j | 0 <= i < j < |AUTHORIZE_PARAMS|
      ensures AUTHORIZE_PARAMS[i] != AUTHORIZE_PARAMS[j]
    {
      var a, b := AUTHORIZE_PARAMS[i], AUTHORIZE_PARAMS[j];
      assert |a| != |b| || a[0] != b[0] || a[1] != b[1];
    }
  }

  /** buildAuthorizationUrl: the authorization endpoint with exactly the eight
      parameters of RFC 6749 section 4.1.1 and RFC 7636 section 4.3, each once. */
  function BuildAuthorizationUrl(config: Config, codeChallenge: string, state: string, nonce: string,
                                 redirectUri: string): (u: Url)
    ensures u.base == config.authorizeUrl
    ensures Keys(u.query) == AUTHORIZE_PARAMS && DistinctKeys(u.query)
    ensures ValueOf(u.query, "response_type") == Some("code")
    ensures ValueOf(u.query, "client_id") == Some(config.clientId)
    ensures ValueOf(u.query, "redirect_uri") == Some(redirectUri)
    ensures ValueOf(u.query, "scope") == Some(config.scope)
    ensures ValueOf(u.query, "state") == Some(state)
    ensures ValueOf(u.query, "code_challenge") == Some(codeChallenge)
    ensures ValueOf(u.query, "code_challenge_method") == Some("S256")
    ensures ValueOf(u.query, "nonce") == Some(nonce)
  {
    var q := [("response_type", "code"), ("client_id", config.clientId), ("redirect_uri", redirectUri),
              ("scope", config.scope), ("state", state), ("code_challenge", codeChallenge),
              ("code_challenge_method", "S256"), ("nonce", nonce)];
    AuthorizeParamsDistinct();
    assert Keys(q) == AUTHORIZE_PARAMS;
    ValueOfDistinct(q, 0); ValueOfDistinct(q, 1); ValueOfDistinct(q, 2); ValueOfDistinct(q, 3);
    ValueOfDistinct(q, 4); ValueOfDistinct(q, 5); ValueOfDistinct(q, 6); ValueOfDistinct(q, 7);
    Url(config.authorizeUrl, q)
  }

  /** buildLogoutUrl: the end-session endpoint with `id_token_hint` and
      `post_logout_redirect_uri` (OpenID Connect RP-Initiated Logout 1.0 section 2). */
  function BuildLogoutUrl(config: Config, idToken: string): (u: Url)
    ensures u.base == config.logoutUrl
    ensures Keys(u.query) == ["id_token_hint", "post_logout_redirect_uri"]
    ensures ValueOf(u.query, "id_token_hint") == Some(idToken)
    ensures ValueOf(u.query, "post_logout_redirect_uri") == Some(config.postLogoutRedirectUri)
  {
    Url(config.logoutUrl, [("id_token_hint", idToken), ("post_logout_redirect_uri", config.postLogoutRedirectUri)])
  }

  datatype TokenRequest = TokenRequest(url: string, headers: Pairs, body: Pairs)

  const FORM_CONTENT_TYPE := "application/x-www-form-urlencoded"

  /** The request of exchangeAuthorizationCode (RFC 6749 sections 4.1.3 and
      2.3.1). A client secret, when set, goes into a Basic `Authorization`
      header and `client_id` stays out of the body; otherwise `client_id` is
      appended to the body and there is no `Authorization` header. */
  function BuildTokenRequest(config: Config, clientSecret: Option<string>, code: string, codeVerifier: string,
                             btoa: string -> string): (req: TokenRequest)
    ensures req.url == config.tokenUrl
    ensures |req.body| >= 4 && req.body[..4] ==
      [("grant_type", "authorization_code"), ("code", code), ("redirect_uri", config.redirectUri),
       ("code_verifier", codeVerifier)]
    ensures ValueOf(req.headers, "Content-Type") == Some(FORM_CONTENT_TYPE)
    ensures Truthy(clientSecret) ==>
      && |req.body| == 4
      && ValueOf(req.headers, "Authorization") == Some("Basic " + btoa(config.clientId + ":" + clientSecret.value))
      && "client_id" !in Keys(req.body)
    ensures !Truthy(clientSecret) ==>
      && req.body[4..] == [("client_id", config.clientId)]
      && "Authorization" !in Keys(req.headers)
  {
    var body := [("grant_type", "authorization_code"), ("code", code), ("redirect_uri", config.redirectUri),
                 ("code_verifier", codeVerifier)];
    var headers := [("Content-Type", FORM_CONTENT_TYPE)];
    if Truthy(clientSecret) then
      var credentials := btoa(config.clientId + ":" + clientSecret.value);
      TokenRequest(config.tokenUrl, headers + [("Authorization", "Basic " + credentials)], body)
    else
      TokenRequest(config.tokenUrl, headers, body + [("client_id", config.clientId)])
  }

  // -----------------------------------------------------------------------
  // Token response.

  /** The token endpoint's JSON, as the source reads it. */
  datatype TokenReply = TokenReply(
    idToken: Option<string>,
    accessToken: Option<string>,
    refreshToken: Option<string>,
    tokenType: Option<string>,
    expiresIn: Option<int>,
    scope: Option<string>,
    error: Option<string>,
    errorDescription: Option<string>)

  /** What `fetch` produced: a response whose body parsed (or failed to parse,
      with that exception's message), or a rejected request. */
  datatype TokenHttpResponse =
    | TokenHttpResponse(ok: bool, status: int, statusText: string, body: Result<TokenReply>)
    | TokenNetworkFailure(message: string)

  const MISSING_ID_TOKEN := "Token response missing id_token"

  /** `error_description || error || statusText`. */
  function TokenErrorText(reply: TokenReply, statusText: string): (text: string)
    ensures Truthy(reply.errorDescription) ==> text == reply.errorDescription.value
    ensures !Truthy(reply.errorDescription) && Truthy(reply.error) ==> text == reply.error.value
    ensures !Truthy(reply.errorDescription) && !Truthy(reply.error) ==> text == statusText
  {
    Or(Or(reply.errorDescription, reply.error), Some(statusText)).value
  }

  /** The response checks of exchangeAuthorizationCode: a non-ok status or an
      `error` field fails with the provider's message; a success without
      `id_token` fails too; otherwise the reply is the token set. */
  function ReadTokenResponse(resp: TokenHttpResponse): (r: Result<TokenResponse>)
    ensures r.Ok? <==> && resp.TokenHttpResponse? && resp.ok && resp.body.Ok?
                       && !Truthy(resp.body.value.error) && Truthy(resp.body.value.idToken)
    ensures r.Ok? ==> var reply := resp.body.value;
      r.value == TokenResponse(reply.accessToken, reply.refreshToken, reply.idToken.value, reply.tokenType,
                               reply.expiresIn, reply.scope)
    ensures resp.TokenHttpResponse? && resp.body.Ok? && (!resp.ok || Truthy(resp.body.value.error)) ==>
      r == Err("Token exchange failed: " + TokenErrorText(resp.body.value, resp.statusText))
    ensures (resp.TokenHttpResponse? && resp.body.Ok? && resp.ok && !Truthy(resp.body.value.error)
             && !Truthy(resp.body.value.idToken)) ==> r == Err(MISSING_ID_TOKEN)
  {
    match resp
    case TokenNetworkFailure(message) => Err(message)
    case TokenHttpResponse(ok, _, statusText, body) =>
      match body
      case Err(message) => Err(message)
      case Ok(reply) =>
        if !ok || Truthy(reply.error) then Err("Token exchange failed: " + TokenErrorText(reply, statusText))
        else if !Truthy(reply.idToken) then Err(MISSING_ID_TOKEN)
        else Ok(TokenResponse(reply.accessToken, reply.refreshToken, reply.idToken.value, reply.tokenType,
                              reply.expiresIn, reply.scope))
  }

  /** exchangeAuthorizationCode: build the request, post it, read the response. */
  function ExchangeAuthorizationCode(config: Config, clientSecret: Option<string>, code: string, codeVerifier: string,
                                     btoa: string -> string, post: TokenRequest -> TokenHttpResponse)
    : (r: Result<TokenResponse>)
    ensures r == ReadTokenResponse(post(BuildTokenRequest(config, clientSecret, code, codeVerifier, btoa)))
    ensures r.Ok? ==> r.value.idToken != ""
  {
    ReadTokenResponse(post(BuildTokenRequest(config, clientSecret, code, codeVerifier, btoa)))
  }

  // -----------------------------------------------------------------------
  // Session assembly.

  /** The first truthy candidate of an `a || b || ... || fallback` chain. */
  function FirstTruthy(candidates: seq<Option<string>>, fallback: string): (r: string)
    ensures forall i :: (0 <= i < |candidates| && Truthy(candidates[i])
                         && (forall j :: 0 <= j < i ==> !Truthy(candidates[j]))) ==> r == candidates[i].value
    ensures (forall i :: 0 <= i < |candidates| ==> !Truthy(candidates[i])) ==> r == fallback
    ensures fallback != "" ==> r != ""
  {
    if candidates == [] then fallback
    else if Truthy(candidates[0]) then candidates[0].value
    else FirstTruthy(candidates[1..], fallback)
  }

  /** `userInfo?.field`. */
  function Info(userInfo: Option<UserInfo>, field: UserInfo -> Option<string>): Option<string> {
    if userInfo.Some? then field(userInfo.value) else None
  }

  function DocumentNumber(claims: Fields, userInfo: Option<UserInfo>): string {
    FirstTruthy([Info(userInfo, (u: UserInfo) => u.numeroDocumento), GetText(claims, "numero_documento"),
                 GetText(claims, "uid"), GetText(claims, "sub")], "unknown")
  }

  /** `[given_name, family_name].filter(Boolean).join(' ')`. */
  function GivenAndFamilyName(userInfo: Option<UserInfo>): string {
    var given, family := Info(userInfo, (u: UserInfo) => u.givenName), Info(userInfo, (u: UserInfo) => u.familyName);
    if Truthy(given) && Truthy(family) then given.value + " " + family.value
    else if Truthy(given) then given.value
    else if Truthy(family) then family.value
    else ""
  }

  function FullName(claims: Fields, userInfo: Option<UserInfo>, documentNumber: string): string {
    FirstTruthy([Info(userInfo, (u: UserInfo) => u.nombreCompleto), GetText(claims, "nombre_completo"),
                 Some(GivenAndFamilyName(userInfo)), GetText(claims, "name"), Info(userInfo, (u: UserInfo) => u.email)],
                documentNumber)
  }

  /** `expires_in ? now + expires_in * 1000 : undefined`, in milliseconds. */
  function ExpiresAt(expiresIn: Option<int>, nowMs: int): Option<int> {
    if expiresIn.Some? && expiresIn.value != 0 then Some(nowMs + expiresIn.value * 1000) else None
  }

  const SESSION_SOURCE := "GUBUY_OIDC"
  const SESSION_MESSAGE := "Authenticated via GUB.UY ID Uruguay"

  /** createSession. `nowMs` is `Date.now()` and `issuedAt` the ISO text of the
      current time. */
  function CreateSession(claims: Fields, userInfo: Option<UserInfo>, tokens: TokenResponse,
                         nowMs: int, issuedAt: string): (s: PortalSession)
    ensures s.healthUser.id == DocumentNumber(claims, userInfo) && s.healthUser.id != ""
    ensures s.healthUser.name != ""
    ensures s.attributes.Some? && s.attributes.value.numeroDocumento == Some(s.healthUser.id)
    ensures s.tokens == Some(SessionTokens(tokens.idToken, tokens.accessToken, tokens.refreshToken,
                                           ExpiresAt(tokens.expiresIn, nowMs)))
    ensures s.healthWorker == IdName("", "") && s.clinic == IdName("", "")
    ensures s.access == Access(SESSION_SOURCE, SESSION_MESSAGE) && s.issuedAt == issuedAt
  {
    var documentNumber := DocumentNumber(claims, userInfo);
    var fullName := FullName(claims, userInfo, documentNumber);
    PortalSession(
      IdName(documentNumber, fullName),
      IdName("", ""),
      IdName("", ""),
      Access(SESSION_SOURCE, SESSION_MESSAGE),
      issuedAt,
      Some(SessionTokens(tokens.idToken, tokens.accessToken, tokens.refreshToken, ExpiresAt(tokens.expiresIn, nowMs))),
      Some(Attributes(
        Some(documentNumber),
        Or(Info(userInfo, (u: UserInfo) => u.email), GetText(claims, "email")),
        Or(Info(userInfo, (u: UserInfo) => u.nid), GetText(claims, "nid")),
        GetText(claims, "iss"),
        Or(Info(userInfo, (u: UserInfo) => u.idp), GetText(claims, "idp")))))
  }

  /** The document number is the first non-empty of userinfo `numero_documento`,
      claim `numero_documento`, `uid` and `sub`, else 'unknown'. */
  lemma DocumentNumberFallbacks(claims: Fields, userInfo: Option<UserInfo>)
    ensures Truthy(Info(userInfo, (u: UserInfo) => u.numeroDocumento)) ==>
      DocumentNumber(claims, userInfo) == userInfo.value.numeroDocumento.value
    ensures !Truthy(Info(userInfo, (u: UserInfo) => u.numeroDocumento)) && Truthy(GetText(claims, "numero_documento")) ==>
      DocumentNumber(claims, userInfo) == GetText(claims, "numero_documento").value
    ensures !Truthy(Info(userInfo, (u: UserInfo) => u.numeroDocumento)) && !Truthy(GetText(claims, "numero_documento"))
            && Truthy(GetText(claims, "uid")) ==>
      DocumentNumber(claims, userInfo) == GetText(claims, "uid").value
    ensures !Truthy(Info(userInfo, (u: UserInfo) => u.numeroDocumento)) && !Truthy(GetText(claims, "numero_documento"))
            && !Truthy(GetText(claims, "uid")) && Truthy(GetText(claims, "sub")) ==>
      DocumentNumber(claims, userInfo) == GetText(claims, "sub").value
    ensures !Truthy(Info(userInfo, (u: UserInfo) => u.numeroDocumento)) && !Truthy(GetText(claims, "numero_documento"))
            && !Truthy(GetText(claims, "uid")) && !Truthy(GetText(claims, "sub")) ==>
      DocumentNumber(claims, userInfo) == "unknown"
  {
    var c := [Info(userInfo, (u: UserInfo) => u.numeroDocumento), GetText(claims, "numero_documento"),
              GetText(claims, "uid"), GetText(claims, "sub")];
    assert DocumentNumber(claims, userInfo) == FirstTruthy(c, "unknown");
    if !Truthy(c[0]) && !Truthy(c[1]) && !Truthy(c[2]) && Truthy(c[3]) {
      assert forall j :: 0 <= j < 3 ==> !Truthy(c[j]);
    }
  }

  /** The end-to-end example: claims with `sub` "1234567-8" only, no userinfo and
      `expires_in` 3600 give user id "1234567-8" and an expiry one hour ahead. */
  lemma ExampleSession(nonce: string, tokens: TokenResponse, nowMs: int, issuedAt: string)
    requires tokens.expiresIn == Some(3600)
    ensures var s := CreateSession(map["sub" := JStr("1234567-8"), "nonce" := JStr(nonce)], None, tokens, nowMs, issuedAt);
      s.healthUser.id == "1234567-8" && s.tokens.value.expiresAt == Some(nowMs + 3600000)
  {
    var claims := map["sub" := JStr("1234567-8"), "nonce" := JStr(nonce)];
    DocumentNumberFallbacks(claims, None);
  }

  // -----------------------------------------------------------------------
  // Callback URL.

  predicate IsLower(c: char) { 'a' <= c <= 'z' }

  /** The index just past the run of lower-case letters that starts at `i`. */
  function LettersEnd(s: string, i: nat): (j: nat)
    requires i <= |s|
    ensures i <= j <= |s| && (j < |s| ==> !IsLower(s[j]))
    ensures forall k :: i <= k < j ==> IsLower(s[k])
    decreases |s| - i
  {
    if i < |s| && IsLower(s[i]) then LettersEnd(s, i + 1) else i
  }

  /** The index just past the run of '/' that starts at `i`. */
  function SlashesEnd(s: string, i: nat): (j: nat)
    requires i <= |s|
    ensures i <= j <= |s| && (j < |s| ==> s[j] != '/')
    ensures forall k :: i <= k < j ==> s[k] == '/'
    decreases |s| - i
  {
    if i < |s| && s[i] == '/' then SlashesEnd(s, i + 1) else i
  }

  /** The scheme repair of parseCallbackUrl, `url.replace(/^([a-z]+):(\/+)/, '$1://')`:
      a leading run of lower-case letters followed by ':' and one or more '/'
      becomes that run followed by exactly '://'. */
  function NormalizeCallbackUrl(url: string): (r: string)
    ensures |r| <= |url| + 1
    ensures r != url ==>
      var n := LettersEnd(url, 0);
      && 0 < n < |url| && url[n] == ':' && n + 3 <= |r|
      && r[..n] == url[..n] && r[n] == ':' && r[n + 1] == '/' && r[n + 2] == '/'
      && r[n + 3..] == url[SlashesEnd(url, n + 1)..]
  {
    var n := LettersEnd(url, 0);
    if 0 < n < |url| && url[n] == ':' && SlashesEnd(url, n + 1) > n + 1 then
      url[..n] + "://" + url[SlashesEnd(url, n + 1)..]
    else url
  }

  /** The run of letters ends exactly at the first non-letter. */
  lemma {:induction false} LettersEndAt(s: string, i: nat, j: nat)
    requires i <= j <= |s| && (j < |s| ==> !IsLower(s[j]))
    requires forall k :: i <= k < j ==> IsLower(s[k])
    ensures LettersEnd(s, i) == j
    decreases j - i
  {
    if i < j {
      LettersEndAt(s, i + 1, j);
    }
  }

  /** The run of slashes ends exactly at the first other character. */
  lemma {:induction false} SlashesEndAt(s: string, i: nat, j: nat)
    requires i <= j <= |s| && (j < |s| ==> s[j] != '/')
    requires forall k :: i <= k < j ==> s[k] == '/'
    ensures SlashesEnd(s, i) == j
    decreases j - i
  {
    if i < j {
      SlashesEndAt(s, i + 1, j);
    }
  }

  /** A lower-case scheme followed by any positive number of slashes is
      rewritten to the scheme and exactly '://'. */
  lemma NormalizeRepairs(letters: string, slashes: string, rest: string)
    requires |letters| > 0 && forall i :: 0 <= i < |letters| ==> IsLower(letters[i])
    requires |slashes| > 0 && forall i :: 0 <= i < |slashes| ==> slashes[i] == '/'
    requires rest == [] || rest[0] != '/'
    ensures NormalizeCallbackUrl(letters + ":" + slashes + rest) == letters + "://" + rest
  {
    var url := letters + ":" + slashes + rest;
    var n := |letters|;
    LettersEndAt(url, 0, n);
    SlashesEndAt(url, n + 1, n + 1 + |slashes|);
    assert url[..n] == letters;
    assert url[n + 1 + |slashes|..] == rest;
  }

  /** A URL already in repaired form is left as it is. */
  lemma RepairedIsFixed(letters: string, rest: string)
    requires |letters| > 0 && forall i :: 0 <= i < |letters| ==> IsLower(letters[i])
    requires rest == [] || rest[0] != '/'
    ensures NormalizeCallbackUrl(letters + "://" + rest) == letters + "://" + rest
  {
    var url := letters + "://" + rest;
    var n := |letters|;
    LettersEndAt(url, 0, n);
    SlashesEndAt(url, n + 1, n + 3);
    assert url[..n] == letters;
    assert url[n + 3..] == rest;
  }

  /** Normalising twice is normalising once. */
  lemma NormalizeIdempotent(url: string)
    ensures NormalizeCallbackUrl(NormalizeCallbackUrl(url)) == NormalizeCallbackUrl(url)
  {
    var n := LettersEnd(url, 0);
    if 0 < n < |url| && url[n] == ':' && SlashesEnd(url, n + 1) > n + 1 {
      var letters, rest := url[..n], url[SlashesEnd(url, n + 1)..];
      assert NormalizeCallbackUrl(url) == letters + "://" + rest;
      assert forall i :: 0 <= i < |letters| ==> IsLower(letters[i]);
      RepairedIsFixed(letters, rest);
    }
  }

  /** A scheme containing a digit, such as 'portalusuariosmobileg12', is left
      as it is, whatever slashes follow. */
  lemma SchemeWithDigitUnchanged(letters: string, digit: char, rest: string)
    requires forall i :: 0 <= i < |letters| ==> IsLower(letters[i])
    requires '0' <= digit <= '9'
    ensures NormalizeCallbackUrl(letters + [digit] + rest) == letters + [digit] + rest
  {
    LettersEndAt(letters + [digit] + rest, 0, |letters|);
  }

  /** The app's own redirect URI with extra slashes is not repaired. */
  lemma AppSchemeNotNormalized()
    ensures NormalizeCallbackUrl("portalusuariosmobileg12:////auth/callback") == "portalusuariosmobileg12:////auth/callback"
  {
    var letters := "portalusuariosmobileg";
    assert forall i :: 0 <= i < |letters| ==> IsLower(letters[i]);
    assert "portalusuariosmobileg12:////auth/callback" == letters + ['1'] + "2:////auth/callback";
    SchemeWithDigitUnchanged(letters, '1', "2:////auth/callback");
  }

  /** parseCallbackUrl: `parseQuery` stands for `new URL(...).searchParams`
      (`None` when the URL does not parse). */
  function ParseCallbackUrl(url: string, parseQuery: string -> Option<map<string, string>>): (r: Result<map<string, string>>)
    ensures r.Err? ==> r.error == "Invalid callback URL: " + url
    ensures r.Ok? ==> parseQuery(NormalizeCallbackUrl(url)) == Some(r.value)
  {
    match parseQuery(NormalizeCallbackUrl(url))
    case None => Err("Invalid callback URL: " + url)
    case Some(params) => Ok(params)
  }

  // -----------------------------------------------------------------------
  // handleCallback.

  const NO_CODE_MESSAGE := "No authorization code received"
  const CSRF_MESSAGE := "Invalid state parameter - possible CSRF attack"
  const NO_VERIFIER_MESSAGE := "Code verifier not found"
  const REPLAY_MESSAGE := "Invalid nonce - possible replay attack"

  /** The outside services handleCallback reaches. */
  datatype Services = Services(
    parseQuery: string -> Option<map<string, string>>,
    btoa: string -> string,
    postToken: TokenRequest -> TokenHttpResponse,
    verifyIdToken: string -> Result<Fields>,
    getUserInfo: (string, Pairs) -> Option<UserInfo>)

  /** `Date.now()` and the ISO text of the same instant. */
  datatype Clock = Clock(nowMs: int, issuedAt: string)

  /** The one-shot slots as handleCallback finds them. */
  datatype Stored = Stored(state: Option<string>, verifier: Option<string>, nonce: Option<string>)

  function StoredSlots(items: map<string, string>): Stored {
    Stored(Lookup(items, OAUTH_STATE_KEY), Lookup(items, OAUTH_VERIFIER_KEY), Lookup(items, OAUTH_NONCE_KEY))
  }

  /** The steps handleCallback takes, in order. */
  datatype Step = ConsumeState | ConsumeVerifier | ExchangeCode | VerifyToken | ConsumeNonce
                | FetchUserInfo | StoreSession | Cleanup

  const FULL_RUN: seq<Step> :=
    [ConsumeState, ConsumeVerifier, ExchangeCode, VerifyToken, ConsumeNonce, FetchUserInfo, StoreSession]

  datatype CallbackRun = CallbackRun(result: Result<PortalSession>, steps: seq<Step>)

  /** fetchUserInfo: without an access token nothing is requested; otherwise
      the userinfo endpoint is fetched with the token as a Bearer credential.
      `get` stands for the fetch and its JSON body: `None` for a response that
      is not ok and for a request that throws, both of which yield `null`. */
  function UserInfoFor(config: Config, accessToken: Option<string>, get: (string, Pairs) -> Option<UserInfo>)
    : (r: Option<UserInfo>)
    ensures !Truthy(accessToken) ==> r == None
    ensures Truthy(accessToken) ==>
      r == get(config.userinfoUrl, [("Authorization", "Bearer " + accessToken.value)])
  {
    if Truthy(accessToken) then get(config.userinfoUrl, [("Authorization", "Bearer " + accessToken.value)]) else None
  }

  /** The second half of handleCallback, once the state and the verifier have
      passed: exchange the code, verify the identity token, consume and check
      the nonce, build the session. */
  function Redeem(code: string, verifier: string, storedNonce: Option<string>, config: Config,
                  clientSecret: Option<string>, svc: Services, clock: Clock): CallbackRun
  {
    var tokens := ExchangeAuthorizationCode(config, clientSecret, code, verifier, svc.btoa, svc.postToken);
    if tokens.Err? then CallbackRun(Err(tokens.error), [ExchangeCode])
    else
      var payload := svc.verifyIdToken(tokens.value.idToken);
      if payload.Err? then CallbackRun(Err(payload.error), [ExchangeCode, VerifyToken])
      else if !Truthy(storedNonce) || Get(payload.value, "nonce") != Some(JStr(storedNonce.value)) then
        CallbackRun(Err(REPLAY_MESSAGE), [ExchangeCode, VerifyToken, ConsumeNonce])
      else
        var userInfo := UserInfoFor(config, tokens.value.accessToken, svc.getUserInfo);
        var session := CreateSession(payload.value, userInfo, tokens.value, clock.nowMs, clock.issuedAt);
        CallbackRun(Ok(session), [ExchangeCode, VerifyToken, ConsumeNonce, FetchUserInfo, StoreSession])
  }

  /** What handleCallback does, as a function of the callback URL and the
      one-shot slots it finds. Every run ends with the cleanup step. */
  function CallbackSpec(url: string, stored: Stored, config: Config, clientSecret: Option<string>,
                        svc: Services, clock: Clock): CallbackRun
  {
    match ParseCallbackUrl(url, svc.parseQuery)
    case Err(e) => CallbackRun(Err(e), [Cleanup])
    case Ok(params) =>
      var error := Lookup(params, "error");
      var code := Lookup(params, "code");
      if Truthy(error) then
        CallbackRun(Err(Or(Or(Lookup(params, "error_description"), error), Some("Authentication failed")).value), [Cleanup])
      else if !Truthy(code) then
        CallbackRun(Err(NO_CODE_MESSAGE), [Cleanup])
      else if !Truthy(stored.state) || Lookup(params, "state") != stored.state then
        CallbackRun(Err(CSRF_MESSAGE), [ConsumeState, Cleanup])
      else if !Truthy(stored.verifier) then
        CallbackRun(Err(NO_VERIFIER_MESSAGE), [ConsumeState, ConsumeVerifier, Cleanup])
      else
        var rest := Redeem(code.value, stored.verifier.value, stored.nonce, config, clientSecret, svc, clock);
        CallbackRun(rest.result, [ConsumeState, ConsumeVerifier] + rest.steps + [Cleanup])
  }

  /** The store after handleCallback: the one-shot slots are empty, and the
      session slot holds the new session when, and only when, it succeeded. */
  function StoreAfterCallback(before: map<string, string>, result: Result<PortalSession>,
                              stringify: PortalSession -> string): map<string, string>
  {
    if result.Ok? then (before - ONE_SHOT_KEYS)[SESSION_KEY := stringify(result.value)]
    else before - ONE_SHOT_KEYS
  }

  /** The second half of handleCallback over the store. Outside the one-shot
      slots, only a success changes the store, by writing the session. */
  method RedeemCode(store: SecureStore, code: string, verifier: string, config: Config,
                    clientSecret: Option<string>, svc: Services, clock: Clock)
    returns (r: Result<PortalSession>, steps: seq<Step>)
    modifies store
    ensures CallbackRun(r, steps) == Redeem(code, verifier, Lookup(old(store.items), OAUTH_NONCE_KEY),
                                            config, clientSecret, svc, clock)
    ensures store.items - ONE_SHOT_KEYS == StoreAfterCallback(old(store.items), r, store.stringify)
  {
    var tokens := ExchangeAuthorizationCode(config, clientSecret, code, verifier, svc.btoa, svc.postToken);
    if tokens.Err? {
      return Err(tokens.error), [ExchangeCode];
    }
    var payload := svc.verifyIdToken(tokens.value.idToken);
    if payload.Err? {
      return Err(payload.error), [ExchangeCode, VerifyToken];
    }
    ghost var before := store.items;
    var storedNonce := store.GetAndClear(Nonce);
    if Truthy(storedNonce) {
      ConsumedThenCleaned(before, Nonce);
    }
    ghost var consumed := store.items;
    assert consumed - ONE_SHOT_KEYS == before - ONE_SHOT_KEYS;
    if !Truthy(storedNonce) || Get(payload.value, "nonce") != Some(JStr(storedNonce.value)) {
      return Err(REPLAY_MESSAGE), [ExchangeCode, VerifyToken, ConsumeNonce];
    }
    var userInfo := UserInfoFor(config, tokens.value.accessToken, svc.getUserInfo);
    var session := CreateSession(payload.value, userInfo, tokens.value, clock.nowMs, clock.issuedAt);
    store.StoreSession(session);
    SessionSurvivesCleanup(consumed, store.stringify(session));
    r, steps := Ok(session), [ExchangeCode, VerifyToken, ConsumeNonce, FetchUserInfo, StoreSession];
  }

  /** The part of handleCallback after a code arrived without an error:
      consume and check the state, consume the verifier, redeem the code.
      Outside the one-shot slots only a success changes the store. */
  method ConsumeAndRedeem(store: SecureStore, url: string, params: map<string, string>, code: string,
                          config: Config, clientSecret: Option<string>, svc: Services, clock: Clock)
    returns (r: Result<PortalSession>, steps: seq<Step>)
    requires ParseCallbackUrl(url, svc.parseQuery) == Ok(params)
    requires !Truthy(Lookup(params, "error")) && Lookup(params, "code") == Some(code) && code != ""
    modifies store
    ensures CallbackRun(r, steps + [Cleanup]) ==
            CallbackSpec(url, StoredSlots(old(store.items)), config, clientSecret, svc, clock)
    ensures store.items - ONE_SHOT_KEYS == StoreAfterCallback(old(store.items), r, store.stringify)
  {
    ghost var stored := StoredSlots(store.items);
    ghost var before := store.items;
    var storedState := store.GetAndClear(OAuthState);
    assert storedState == stored.state;
    if Truthy(storedState) {
      ConsumedThenCleaned(before, OAuthState);
    }
    if !Truthy(storedState) || Lookup(params, "state") != storedState {
      return Err(CSRF_MESSAGE), [ConsumeState];
    }
    OtherSlotsUntouched(before, OAuthState, CodeVerifier);
    OtherSlotsUntouched(before, OAuthState, Nonce);
    ghost var afterState := store.items;
    var codeVerifier := store.GetAndClear(CodeVerifier);
    assert codeVerifier == stored.verifier;
    if Truthy(codeVerifier) {
      ConsumedThenCleaned(afterState, CodeVerifier);
    }
    if !Truthy(codeVerifier) {
      return Err(NO_VERIFIER_MESSAGE), [ConsumeState, ConsumeVerifier];
    }
    OtherSlotsUntouched(afterState, CodeVerifier, Nonce);
    assert Lookup(store.items, OAUTH_NONCE_KEY) == stored.nonce;
    var rest;
    r, rest := RedeemCode(store, code, codeVerifier.value, config, clientSecret, svc, clock);
    steps := [ConsumeState, ConsumeVerifier] + rest;
    assert steps + [Cleanup] == [ConsumeState, ConsumeVerifier] + rest + [Cleanup];
  }

  /** handleCallback over the secure store, with the source's fixed order of
      steps and the cleanup that runs on every exit. */
  method HandleCallback(store: SecureStore, url: string, config: Config, clientSecret: Option<string>,
                        svc: Services, clock: Clock)
    returns (r: Result<PortalSession>, steps: seq<Step>)
    modifies store
    ensures CallbackRun(r, steps) == CallbackSpec(url, StoredSlots(old(store.items)), config, clientSecret, svc, clock)
    ensures store.items == StoreAfterCallback(old(store.items), r, store.stringify)
  {
    steps := [];
    label attempt: {
      var parsed := ParseCallbackUrl(url, svc.parseQuery);
      if parsed.Err? {
        r := Err(parsed.error);
        break attempt;
      }
      var params := parsed.value;
      var error := Lookup(params, "error");
      var code := Lookup(params, "code");
      if Truthy(error) {
        r := Err(Or(Or(Lookup(params, "error_description"), error), Some("Authentication failed")).value);
        break attempt;
      }
      if !Truthy(code) {
        r := Err(NO_CODE_MESSAGE);
        break attempt;
      }
      r, steps := ConsumeAndRedeem(store, url, params, code.value, config, clientSecret, svc, clock);
    }
    assert store.items - ONE_SHOT_KEYS == StoreAfterCallback(old(store.items), r, store.stringify);
    store.CleanupOAuthStorage();
    steps := steps + [Cleanup];
  }

  // -----------------------------------------------------------------------
  // Properties of handleCallback.

  /** The steps of the second half continue the fixed order from the exchange. */
  lemma RedeemStepsArePrefix(code: string, verifier: string, storedNonce: Option<string>, config: Config,
                             clientSecret: Option<string>, svc: Services, clock: Clock)
    ensures var steps := Redeem(code, verifier, storedNonce, config, clientSecret, svc, clock).steps;
      0 < |steps| <= |FULL_RUN| - 2 && steps == FULL_RUN[2..2 + |steps|]
  {
  }

  /** Every run takes a prefix of the fixed sequence of steps and then cleans up. */
  lemma CallbackStepsArePrefix(url: string, stored: Stored, config: Config, clientSecret: Option<string>,
                               svc: Services, clock: Clock)
    ensures var run := CallbackSpec(url, stored, config, clientSecret, svc, clock);
      exists k :: 0 <= k <= |FULL_RUN| && run.steps == FULL_RUN[..k] + [Cleanup]
  {
    var run := CallbackSpec(url, stored, config, clientSecret, svc, clock);
    match ParseCallbackUrl(url, svc.parseQuery)
    case Err(_) =>
      assert run.steps == FULL_RUN[..0] + [Cleanup];
    case Ok(params) =>
      var code := Lookup(params, "code");
      if Truthy(Lookup(params, "error")) || !Truthy(code) {
        assert run.steps == FULL_RUN[..0] + [Cleanup];
      } else if !Truthy(stored.state) || Lookup(params, "state") != stored.state {
        assert run.steps == FULL_RUN[..1] + [Cleanup];
      } else if !Truthy(stored.verifier) {
        assert run.steps == FULL_RUN[..2] + [Cleanup];
      } else {
        var rest := Redeem(code.value, stored.verifier.value, stored.nonce, config, clientSecret, svc, clock).steps;
        RedeemStepsArePrefix(code.value, stored.verifier.value, stored.nonce, config, clientSecret, svc, clock);
        assert FULL_RUN[..2 + |rest|] == [ConsumeState, ConsumeVerifier] + rest;
        assert run.steps == FULL_RUN[..2 + |rest|] + [Cleanup];
      }
  }

  /** An `error` parameter, or a missing code, fails before any stored value is
      read: with the description (else the error) as the message. */
  lemma CallbackErrorFirst(url: string, stored: Stored, config: Config, clientSecret: Option<string>,
                           svc: Services, clock: Clock)
    requires ParseCallbackUrl(url, svc.parseQuery).Ok?
    ensures var params := ParseCallbackUrl(url, svc.parseQuery).value;
      var run := CallbackSpec(url, stored, config, clientSecret, svc, clock);
      && (Truthy(Lookup(params, "error")) ==>
            run == CallbackRun(Err(Or(Lookup(params, "error_description"), Lookup(params, "error")).value), [Cleanup]))
      && (!Truthy(Lookup(params, "error")) && !Truthy(Lookup(params, "code")) ==>
            run == CallbackRun(Err(NO_CODE_MESSAGE), [Cleanup]))
  {
  }

  /** CSRF gate: the code is exchanged only when the stored state was non-empty
      and equal to the callback's state. */
  lemma CsrfGate(url: string, stored: Stored, config: Config, clientSecret: Option<string>,
                 svc: Services, clock: Clock)
    ensures var run := CallbackSpec(url, stored, config, clientSecret, svc, clock);
      (ExchangeCode in run.steps || run.result.Ok?) ==>
        && ParseCallbackUrl(url, svc.parseQuery).Ok?
        && Truthy(stored.state)
        && Lookup(ParseCallbackUrl(url, svc.parseQuery).value, "state") == stored.state
        && Truthy(stored.verifier)
  {
  }

  /** Replay gate: a session is produced and stored only when the identity
      token the code was exchanged for verifies and its nonce claim equals the
      non-empty stored nonce. */
  lemma NonceGate(url: string, stored: Stored, config: Config, clientSecret: Option<string>,
                  svc: Services, clock: Clock)
    ensures var run := CallbackSpec(url, stored, config, clientSecret, svc, clock);
      (StoreSession in run.steps || run.result.Ok?) ==>
        && run.result.Ok?
        && StoreSession in run.steps
        && Truthy(stored.nonce)
        && ParseCallbackUrl(url, svc.parseQuery).Ok?
        && Truthy(Lookup(ParseCallbackUrl(url, svc.parseQuery).value, "code"))
        && Truthy(stored.verifier)
        && var tokens := ExchangeAuthorizationCode(config, clientSecret,
                                                   Lookup(ParseCallbackUrl(url, svc.parseQuery).value, "code").value,
                                                   stored.verifier.value, svc.btoa, svc.postToken);
           && tokens.Ok?
           && svc.verifyIdToken(tokens.value.idToken).Ok?
           && Get(svc.verifyIdToken(tokens.value.idToken).value, "nonce") == Some(JStr(stored.nonce.value))
  {
    var run := CallbackSpec(url, stored, config, clientSecret, svc, clock);
    if StoreSession in run.steps || run.result.Ok? {
      var params := ParseCallbackUrl(url, svc.parseQuery).value;
      var tokens := ExchangeAuthorizationCode(config, clientSecret, Lookup(params, "code").value,
                                              stored.verifier.value, svc.btoa, svc.postToken);
      assert svc.verifyIdToken(tokens.value.idToken).Ok?;
    }
  }

  /** With no stored state (a replayed callback after the first one consumed
      it) the callback never succeeds and never reaches the token endpoint. */
  lemma ReplayedCallbackRejected(url: string, verifier: Option<string>, nonce: Option<string>, config: Config,
                                 clientSecret: Option<string>, svc: Services, clock: Clock)
    ensures var run := CallbackSpec(url, Stored(None, verifier, nonce), config, clientSecret, svc, clock);
      run.result.Err? && ExchangeCode !in run.steps
  {
    var run := CallbackSpec(url, Stored(None, verifier, nonce), config, clientSecret, svc, clock);
    assert run.steps == [Cleanup] || run.steps == [ConsumeState, Cleanup];
  }

  /** Running handleCallback twice on the same URL: the second run finds the
      state slot empty and fails as a CSRF violation, leaving the first run's
      session in place. */
  method ReplayScenario(store: SecureStore, url: string, config: Config, clientSecret: Option<string>,
                        svc: Services, clock: Clock)
    returns (first: Result<PortalSession>, second: Result<PortalSession>)
    modifies store
    ensures second.Err?
    ensures first.Ok? ==> store.items == StoreAfterCallback(old(store.items), first, store.stringify)
  {
    var steps;
    first, steps := HandleCallback(store, url, config, clientSecret, svc, clock);
    ReplayedCallbackRejected(url, None, None, config, clientSecret, svc, clock);
    assert StoredSlots(store.items) == Stored(None, None, None);
    second, steps := HandleCallback(store, url, config, clientSecret, svc, clock);
    assert store.items == StoreAfterCallback(old(store.items), first, store.stringify) - ONE_SHOT_KEYS;
  }

  // -----------------------------------------------------------------------
  // initiateLogin.

  const APP_SCHEME_PREFIX := "portalusuariosmobileg12://"
  const AUTH_SESSION_REDIRECT := "portalusuariosmobileg12://auth/callback"
  const CANCELLED_MESSAGE := "Authentication cancelled by user"
  const TIMEOUT_MESSAGE := "Authentication timeout - no callback received"

  /** What `WebBrowser.openAuthSessionAsync` resolved to: its `type` and `url`. */
  datatype BrowserResult = BrowserResult(kind: string, url: Option<string>)

  datatype Resolution = UseUrl(url: string) | AwaitDeepLink | Abort(message: string)

  /** The browser-result branches of initiateLogin. */
  function ClassifyBrowserResult(result: BrowserResult): (res: Resolution)
    ensures res.UseUrl? <==> result.kind == "success" && Truthy(result.url)
    ensures res.UseUrl? ==> res.url == result.url.value
    ensures res == AwaitDeepLink <==> result.kind == "dismiss"
    ensures result.kind == "cancel" ==> res == Abort(CANCELLED_MESSAGE)
    ensures result.kind != "cancel" && result.kind != "dismiss" && !res.UseUrl? ==>
      res == Abort("Authentication failed: " + result.kind)
  {
    if result.kind == "success" && Truthy(result.url) then UseUrl(result.url.value)
    else if result.kind == "cancel" then Abort(CANCELLED_MESSAGE)
    else if result.kind == "dismiss" then AwaitDeepLink
    else Abort("Authentication failed: " + result.kind)
  }

  /** The deep-link listener's filter. */
  predicate AcceptsDeepLink(url: string) {
    StartsWith(url, APP_SCHEME_PREFIX)
  }

  /** The first deep link, among those delivered before the timeout, that the
      listener accepts; later ones find the resolver gone. */
  function FirstAccepted(events: seq<string>): (r: Option<string>)
    ensures r.Some? ==> AcceptsDeepLink(r.value) && r.value in events
    ensures r.Some? ==> exists i :: 0 <= i < |events| && events[i] == r.value
                          && forall j :: 0 <= j < i ==> !AcceptsDeepLink(events[j])
    ensures r.None? <==> forall i :: 0 <= i < |events| ==> !AcceptsDeepLink(events[i])
  {
    if events == [] then None
    else if AcceptsDeepLink(events[0]) then Some(events[0])
    else
      var rest := FirstAccepted(events[1..]);
      assert forall i :: 1 <= i < |events| ==> events[i] == events[1..][i - 1];
      rest
  }

  /** The callback URL the login goes on with, or the message it fails with. */
  function ResolveCallbackUrl(result: BrowserResult, deepLinks: seq<string>): (r: Result<string>)
    ensures ClassifyBrowserResult(result).UseUrl? ==> r == Ok(result.url.value)
    ensures ClassifyBrowserResult(result).Abort? ==> r == Err(ClassifyBrowserResult(result).message)
    ensures result.kind == "dismiss" ==>
      r == if FirstAccepted(deepLinks).Some? then Ok(FirstAccepted(deepLinks).value) else Err(TIMEOUT_MESSAGE)
  {
    match ClassifyBrowserResult(result)
    case UseUrl(url) => Ok(url)
    case Abort(message) => Err(message)
    case AwaitDeepLink =>
      match FirstAccepted(deepLinks)
      case Some(url) => Ok(url)
      case None => Err(TIMEOUT_MESSAGE)
  }

  /** The browser and the deep-link events. `deepLinks` are the `url` events
      delivered before the five-minute timeout fires. */
  datatype LoginServices = LoginServices(
    sha256Base64: string -> string,
    openAuthSession: (Url, string) -> BrowserResult,
    deepLinks: seq<string>)

  /** initiateLogin. The three byte strings are what `Crypto.getRandomBytes`
      returned for the verifier (64 bytes), the state and the nonce (32 each). */
  method InitiateLogin(store: SecureStore, config: Config, clientSecret: Option<string>, svc: Services,
                       login: LoginServices, verifierBytes: seq<Byte>, stateBytes: seq<Byte>,
                       nonceBytes: seq<Byte>, clock: Clock)
    returns (r: Result<PortalSession>, authUrl: Url)
    modifies store
    ensures var verifier := UrlSafe(svc.btoa(Latin1(verifierBytes)));
            var state := UrlSafe(svc.btoa(Latin1(stateBytes)));
            var nonce := UrlSafe(svc.btoa(Latin1(nonceBytes)));
            var callback := ResolveCallbackUrl(login.openAuthSession(authUrl, AUTH_SESSION_REDIRECT), login.deepLinks);
      && authUrl == BuildAuthorizationUrl(config, GenerateCodeChallenge(verifier, login.sha256Base64), state, nonce,
                                          config.redirectUri)
      && (callback.Err? ==> r == Err(callback.error))
      && (callback.Ok? ==> r == CallbackSpec(callback.value, Stored(Some(state), Some(verifier), Some(nonce)),
                                             config, clientSecret, svc, clock).result)
    ensures store.items == StoreAfterCallback(old(store.items), r, store.stringify)
  {
    var codeVerifier := GenerateRandomString(verifierBytes, svc.btoa);
    var codeChallenge := GenerateCodeChallenge(codeVerifier, login.sha256Base64);
    var state := GenerateRandomString(stateBytes, svc.btoa);
    var nonce := GenerateRandomString(nonceBytes, svc.btoa);
    ghost var start := store.items;
    store.StoreOneShot(CodeVerifier, codeVerifier);
    ghost var withVerifier := store.items;
    store.StoreOneShot(OAuthState, state);
    ghost var withState := store.items;
    store.StoreOneShot(Nonce, nonce);
    ghost var stored := store.items;
    StorageKeysDistinct();
    assert StoredSlots(stored) == Stored(Some(state), Some(codeVerifier), Some(nonce));
    WrittenThenCleaned(start, CodeVerifier, codeVerifier);
    WrittenThenCleaned(withVerifier, OAuthState, state);
    WrittenThenCleaned(withState, Nonce, nonce);
    assert stored - ONE_SHOT_KEYS == start - ONE_SHOT_KEYS;
    authUrl := BuildAuthorizationUrl(config, codeChallenge, state, nonce, config.redirectUri);
    var result := login.openAuthSession(authUrl, AUTH_SESSION_REDIRECT);
    var callback := ResolveCallbackUrl(result, login.deepLinks);
    if callback.Ok? {
      var steps;
      r, steps := HandleCallback(store, callback.value, config, clientSecret, svc, clock);
    } else {
      r := Err(callback.error);
    }
    if r.Err? {
      store.CleanupOAuthStorage();
      if callback.Ok? {
        CleanupIdempotent(stored);
      }
    }
  }

  /** A successful login went through a callback whose state is the state the
      login generated and stored. */
  lemma LoginStateRoundTrip(callbackUrl: string, state: string, verifier: string, nonce: string, config: Config,
                            clientSecret: Option<string>, svc: Services, clock: Clock)
    requires CallbackSpec(callbackUrl, Stored(Some(state), Some(verifier), Some(nonce)), config, clientSecret, svc, clock).result.Ok?
    ensures ParseCallbackUrl(callbackUrl, svc.parseQuery).Ok?
    ensures Lookup(ParseCallbackUrl(callbackUrl, svc.parseQuery).value, "state") == Some(state) && state != ""
  {
    CsrfGate(callbackUrl, Stored(Some(state), Some(verifier), Some(nonce)), config, clientSecret, svc, clock);
  }

  // -----------------------------------------------------------------------
  // logout.

  /** The identity token of a session, when it has a non-empty one. */
  function IdTokenOf(session: Option<PortalSession>): Option<string> {
    if session.Some? && session.value.tokens.Some? && session.value.tokens.value.idToken != ""
    then Some(session.value.tokens.value.idToken) else None
  }

  /** logout: read the session, clear it and the one-shot slots locally, then
      open the end-session URL if there was an identity token. `endSession` is the
      URL handed to the browser; its failure is swallowed. */
  method Logout(store: SecureStore, config: Config, nowMs: int) returns (endSession: Option<Url>)
    modifies store
    ensures store.items == old(store.items) - ONE_SHOT_KEYS - {SESSION_KEY}
    ensures var idToken := IdTokenOf(SessionOf(ReadSessionSlot(Lookup(old(store.items), SESSION_KEY), store.parse, nowMs)));
      endSession == if idToken.Some? then Some(BuildLogoutUrl(config, idToken.value)) else None
  {
    var session := store.GetSession(nowMs);
    store.ClearSession();
    store.CleanupOAuthStorage();
    var idToken := IdTokenOf(session);
    endSession := if idToken.Some? then Some(BuildLogoutUrl(config, idToken.value)) else None;
  }
}
