/** lib/auth/gubuy-config.ts: the OpenID Connect client settings, read from
    Expo's `extra` block first and the process environment second. */
module GubuyConfig {
  import opened Wrappers
  import opened Text

  /** The two configuration sources. A key that is missing reads as `undefined`. */
  datatype Sources = Sources(extra: map<string, string>, env: map<string, string>)

  datatype Config = Config(
    clientId: string,
    redirectUri: string,
    authorizeUrl: string,
    tokenUrl: string,
    userinfoUrl: string,
    jwksUrl: string,
    logoutUrl: string,
    postLogoutRedirectUri: string,
    issuer: string,
    scope: string)

  const CLIENT_ID_VAR := "EXPO_PUBLIC_OIDC_CLIENT_ID"
  const REDIRECT_URI_VAR := "EXPO_PUBLIC_OIDC_REDIRECT_URI"
  const AUTHORIZE_URL_VAR := "EXPO_PUBLIC_OIDC_AUTHORIZE_URL"
  const TOKEN_URL_VAR := "EXPO_PUBLIC_OIDC_TOKEN_URL"
  const USERINFO_URL_VAR := "EXPO_PUBLIC_OIDC_USERINFO_URL"
  const JWKS_URL_VAR := "EXPO_PUBLIC_OIDC_JWKS_URL"
  const LOGOUT_URL_VAR := "EXPO_PUBLIC_OIDC_LOGOUT_URL"
  const POST_LOGOUT_VAR := "EXPO_PUBLIC_OIDC_POST_LOGOUT_REDIRECT_URI"
  const ISSUER_VAR := "EXPO_PUBLIC_OIDC_ISSUER"
  const SCOPE_VAR := "EXPO_PUBLIC_OIDC_SCOPE"

  const DEFAULT_POST_LOGOUT_REDIRECT_URI := "http://localhost:8080/logout"
  const DEFAULT_SCOPE := "openid document personal_info profile auth_info email"

  /** The eight required variables, in the order the config literal reads them. */
  const REQUIRED_VARS: seq<string> :=
    [CLIENT_ID_VAR, REDIRECT_URI_VAR, AUTHORIZE_URL_VAR, TOKEN_URL_VAR,
     USERINFO_URL_VAR, JWKS_URL_VAR, LOGOUT_URL_VAR, ISSUER_VAR]

  // Secure-store keys.
  const OAUTH_STATE_KEY := "gubuy_oauth_state"
  const OAUTH_VERIFIER_KEY := "gubuy_oauth_code_verifier"
  const OAUTH_NONCE_KEY := "gubuy_oauth_nonce"
  const SESSION_KEY := "portal_session"

  function Lookup(m: map<string, string>, name: string): Option<string> {
    if name in m then Some(m[name]) else None
  }

  function MissingMessage(name: string): string {
    "Missing required environment variable " + name
  }

  /** `extra[name] || process.env[name] || defaultValue`. */
  function GetEnv(src: Sources, name: string, defaultValue: Option<string>): (r: Option<string>)
    ensures Truthy(Lookup(src.extra, name)) ==> r == Some(src.extra[name])
    ensures !Truthy(Lookup(src.extra, name)) && Truthy(Lookup(src.env, name)) ==> r == Some(src.env[name])
    ensures !Truthy(Lookup(src.extra, name)) && !Truthy(Lookup(src.env, name)) ==> r == defaultValue
  {
    Or(Or(Lookup(src.extra, name), Lookup(src.env, name)), defaultValue)
  }

  /** Succeeds exactly when one of the two sources holds a non-empty value,
      so it never yields the empty string. */
  function RequireEnv(src: Sources, name: string): (r: Result<string>)
    ensures r.Ok? <==> Truthy(Lookup(src.extra, name)) || Truthy(Lookup(src.env, name))
    ensures r.Ok? ==> r.value != "" && Some(r.value) == GetEnv(src, name, None)
    ensures r.Err? ==> r.error == MissingMessage(name)
  {
    var value := Or(Lookup(src.extra, name), Lookup(src.env, name));
    if !Truthy(value) then Err(MissingMessage(name)) else Ok(value.value)
  }

  predicate AllRequiredPresent(src: Sources) {
    forall i :: 0 <= i < |REQUIRED_VARS| ==> RequireEnv(src, REQUIRED_VARS[i]).Ok?
  }

  /** The settings object. Only the scope and the post-logout URI have
      defaults; every other field comes from a required variable. */
  function GetGubuyConfig(src: Sources): (r: Result<Config>)
    ensures r.Ok? ==>
      && Some(r.value.clientId) == GetEnv(src, CLIENT_ID_VAR, None)
      && Some(r.value.redirectUri) == GetEnv(src, REDIRECT_URI_VAR, None)
      && Some(r.value.authorizeUrl) == GetEnv(src, AUTHORIZE_URL_VAR, None)
      && Some(r.value.tokenUrl) == GetEnv(src, TOKEN_URL_VAR, None)
      && Some(r.value.userinfoUrl) == GetEnv(src, USERINFO_URL_VAR, None)
      && Some(r.value.jwksUrl) == GetEnv(src, JWKS_URL_VAR, None)
      && Some(r.value.logoutUrl) == GetEnv(src, LOGOUT_URL_VAR, None)
      && Some(r.value.issuer) == GetEnv(src, ISSUER_VAR, None)
      && Some(r.value.scope) == GetEnv(src, SCOPE_VAR, Some(DEFAULT_SCOPE))
      && Some(r.value.postLogoutRedirectUri) == GetEnv(src, POST_LOGOUT_VAR, Some(DEFAULT_POST_LOGOUT_REDIRECT_URI))
  {
    var clientId :- RequireEnv(src, CLIENT_ID_VAR);
    var redirectUri :- RequireEnv(src, REDIRECT_URI_VAR);
    var authorizeUrl :- RequireEnv(src, AUTHORIZE_URL_VAR);
    var tokenUrl :- RequireEnv(src, TOKEN_URL_VAR);
    var userinfoUrl :- RequireEnv(src, USERINFO_URL_VAR);
    var jwksUrl :- RequireEnv(src, JWKS_URL_VAR);
    var logoutUrl :- RequireEnv(src, LOGOUT_URL_VAR);
    var postLogoutRedirectUri := GetEnv(src, POST_LOGOUT_VAR, Some(DEFAULT_POST_LOGOUT_REDIRECT_URI)).value;
    var issuer :- RequireEnv(src, ISSUER_VAR);
    var scope := GetEnv(src, SCOPE_VAR, Some(DEFAULT_SCOPE)).value;
    Ok(Config(clientId, redirectUri, authorizeUrl, tokenUrl, userinfoUrl, jwksUrl,
              logoutUrl, postLogoutRedirectUri, issuer, scope))
  }

  /** Variable `i` of REQUIRED_VARS is the first one missing. */
  predicate FirstMissing(src: Sources, i: int) {
    && 0 <= i < |REQUIRED_VARS|
    && RequireEnv(src, REQUIRED_VARS[i]).Err?
    && forall j :: 0 <= j < i ==> RequireEnv(src, REQUIRED_VARS[j]).Ok?
  }

  /** Construction succeeds exactly when all eight required variables are
      set; otherwise the first missing one, in the literal's order, is named. */
  lemma ConfigFailsOnFirstMissing(src: Sources)
    ensures GetGubuyConfig(src).Ok? <==> AllRequiredPresent(src)
    ensures GetGubuyConfig(src).Err? ==>
      exists i :: FirstMissing(src, i) && GetGubuyConfig(src).error == MissingMessage(REQUIRED_VARS[i])
  {
    if GetGubuyConfig(src).Err? {
      ConfigNamesFirstMissing(src);
    } else {
      assert AllRequiredPresent(src);
    }
  }

  /** A failed construction names the first missing variable. */
  lemma ConfigNamesFirstMissing(src: Sources)
    requires GetGubuyConfig(src).Err?
    ensures exists i :: FirstMissing(src, i) && GetGubuyConfig(src).error == MissingMessage(REQUIRED_VARS[i])
  {
    var r := GetGubuyConfig(src);
    if RequireEnv(src, CLIENT_ID_VAR).Err? {
      assert FirstMissing(src, 0) && r.error == MissingMessage(REQUIRED_VARS[0]);
    } else if RequireEnv(src, REDIRECT_URI_VAR).Err? {
      assert FirstMissing(src, 1) && r.error == MissingMessage(REQUIRED_VARS[1]);
    } else if RequireEnv(src, AUTHORIZE_URL_VAR).Err? {
      assert FirstMissing(src, 2) && r.error == MissingMessage(REQUIRED_VARS[2]);
    } else if RequireEnv(src, TOKEN_URL_VAR).Err? {
      assert FirstMissing(src, 3) && r.error == MissingMessage(REQUIRED_VARS[3]);
    } else if RequireEnv(src, USERINFO_URL_VAR).Err? {
      assert FirstMissing(src, 4) && r.error == MissingMessage(REQUIRED_VARS[4]);
    } else if RequireEnv(src, JWKS_URL_VAR).Err? {
      assert FirstMissing(src, 5) && r.error == MissingMessage(REQUIRED_VARS[5]);
    } else if RequireEnv(src, LOGOUT_URL_VAR).Err? {
      assert FirstMissing(src, 6) && r.error == MissingMessage(REQUIRED_VARS[6]);
    } else {
      assert FirstMissing(src, 7) && r.error == MissingMessage(REQUIRED_VARS[7]);
    }
  }

  /** Every field of a constructed configuration is non-empty; an unset or
      empty scope / post-logout URI takes its default. */
  lemma ConfigDefaults(src: Sources)
    requires GetGubuyConfig(src).Ok?
    ensures var c := GetGubuyConfig(src).value;
      && c.clientId != "" && c.redirectUri != "" && c.authorizeUrl != "" && c.tokenUrl != ""
      && c.userinfoUrl != "" && c.jwksUrl != "" && c.logoutUrl != "" && c.issuer != ""
      && c.scope != "" && c.postLogoutRedirectUri != ""
      && (!Truthy(Lookup(src.extra, SCOPE_VAR)) && !Truthy(Lookup(src.env, SCOPE_VAR)) ==> c.scope == DEFAULT_SCOPE)
      && (!Truthy(Lookup(src.extra, POST_LOGOUT_VAR)) && !Truthy(Lookup(src.env, POST_LOGOUT_VAR)) ==>
            c.postLogoutRedirectUri == DEFAULT_POST_LOGOUT_REDIRECT_URI)
  {
  }

  /** The four secure-store keys are pairwise distinct, so each slot is independent. */
  lemma StorageKeysDistinct()
    ensures OAUTH_STATE_KEY != OAUTH_VERIFIER_KEY && OAUTH_STATE_KEY != OAUTH_NONCE_KEY
    ensures OAUTH_STATE_KEY != SESSION_KEY && OAUTH_VERIFIER_KEY != OAUTH_NONCE_KEY
    ensures OAUTH_VERIFIER_KEY != SESSION_KEY && OAUTH_NONCE_KEY != SESSION_KEY
  {
  }
}
