# GUB.UY login for the health-user portal, modelled in Dafny

This project models the login core of the health-user portal mobile app. The
app signs users in with GUB.UY, Uruguay's national identity provider. It uses
the OpenID Connect Authorization Code flow with PKCE (RFC 6749 section 4.1,
RFC 7636). The model covers seven source files, one Dafny module each:

- `GubuyConfig` (config.dfy), modelling lib/auth/gubuy-config.ts: lookups over the Expo `extra` map and the process environment, their defaults, and the four storage keys.
- `Pkce` (pkce.dfy), modelling lib/auth/pkce.ts: the base64 and base64url transforms (RFC 4648 sections 4 and 5), the byte loop, and the verifier and S256 challenge generators.
- `SessionManager` (session_manager.dfy), modelling lib/auth/session-manager.ts: the secure store as a class over a `map<string, string>`: one session slot with expiry, three one-shot slots, cleanup.
- `TokenValidator` (token_validator.dfy), modelling lib/auth/token-validator.ts: ID-token claim checks (OpenID Connect Core 1.0 section 3.1.3.7), the discovery and JWKS caches, error wrapping.
- `GubuyClient` (gubuy_client.dfy), modelling lib/auth/gubuy-client.ts: the request builders, callback URL repair, the token response, session assembly, and the `handleCallback`, `initiateLogin` and `logout` methods over the store.
- `Api` (api.dfy), modelling lib/api.ts: backend settings, URL joining, the Basic header, access-request coercion and the two fetch functions.
- `CallbackRelay` (callback_relay.dfy), modelling scripts/oauth-callback-server.ts: the development relay's single callback slot and its three routes.

Four support modules hold shared pieces:
- `Wrappers`: `Option`, `Result` and `Outcome`.
- `Text`: JavaScript truthiness, `||`, `startsWith`, `String(n)` and `trim`.
- `Json`: JSON values.
- `Types`: the record shapes of lib/types.ts.

Outside services become function-typed parameters, with no behaviour assumed:
- `btoa` and SHA-256;
- `fetch` and the `jose` signature check;
- URL parsing and `encodeURIComponent`;
- the browser session and `new Date(n).toISOString()`.

`JSON.stringify` and `JSON.parse` of a session are two such functions. Two things are assumed of them: the round trip `parse(stringify(s)) == Some(s)`, and that `stringify(s)` is never the empty string.

The clock is an integer parameter, and the random bytes are parameters of `InitiateLogin`.

`getGubuyConfig` requires eight variables: the client id, the redirect URI, the authorize, token, userinfo, JWKS and logout URLs, and the issuer. Only the scope and the post-logout redirect have defaults.

Where the code's comments and the code disagree, the model follows the code:
- Callback URL repair does not apply to the app's own scheme. The regular expression `^([a-z]+):(\/+)` only matches a scheme made of lower-case letters. So 'portalusuariosmobileg12:////auth/callback' is left as it is, although the comment at lib/auth/gubuy-client.ts:285 says it is repaired (`GubuyClient.AppSchemeNotNormalized`).
- The confidential-client branch of the token request needs `GUBUY_CONFIG.clientSecret`. `getGubuyConfig` never sets that field, so the secret is a separate `Option` parameter of `BuildTokenRequest`. With the configuration as written it is always absent.
- The development relay redirects to 'portalusuariosmobile://callback'. The app's deep-link listener only accepts 'portalusuariosmobileg12://', so its redirects never reach the listener (`CallbackRelay.RelayRedirectsNotAccepted`).

## Model

| member | source | states |
|---|---|---|
| GubuyConfig.GetEnv | lib/auth/gubuy-config.ts:24-26 | the `extra` value if non-empty, else the environment value if non-empty, else the default; an empty string counts as absent at each step |
| GubuyConfig.RequireEnv | lib/auth/gubuy-config.ts:16-22 | succeeds exactly when one of the two sources holds a non-empty value, returns that non-empty value (the same as `getEnv` without a default), and otherwise fails with "Missing required environment variable <name>" |
| GubuyConfig.GetGubuyConfig | lib/auth/gubuy-config.ts:28-47 | a built configuration takes each required field from `extra`, else the environment, with no default, and the scope and post-logout redirect from `getEnv` with their defaults |
| GubuyConfig.ConfigFailsOnFirstMissing | lib/auth/gubuy-config.ts:28-47 | the configuration builds exactly when all eight required variables are present, and otherwise fails with the message of the first missing one in field order |
| GubuyConfig.ConfigNamesFirstMissing | lib/auth/gubuy-config.ts:16-47 | a failed construction fails with the message of a required variable that is missing while every variable read before it is present |
| GubuyConfig.ConfigDefaults | lib/auth/gubuy-config.ts:37-45 | every field of a built configuration is non-empty; an unset scope is 'openid document personal_info profile auth_info email' and an unset post-logout URI is 'http://localhost:8080/logout' |
| GubuyConfig.StorageKeysDistinct | lib/auth/gubuy-config.ts:52-55 | the four storage keys are pairwise distinct |
| Pkce.ReplaceAll | lib/auth/pkce.ts:48-50 | `replace(/x/g, y)` keeps the length and swaps every occurrence of one character, position by position |
| Pkce.DeleteAll | lib/auth/pkce.ts:51-51 | `replace(/=/g, '')` leaves no occurrence of the character and introduces no new character |
| Pkce.Base64UrlFromBase64 | lib/auth/pkce.ts:47-52 | the output contains no '+', '/' or '=' |
| Pkce.DeleteMappedIsUrlSafe | lib/auth/pkce.ts:47-52 | mapping '+' and '/' and then deleting '=' equals the character-by-character reference definition `UrlSafe` |
| Pkce.FromBase64IsUrlSafe | lib/auth/pkce.ts:47-52 | `base64UrlFromBase64` maps '+' to '-' and '/' to '_', drops every '=' and keeps every other character in order, as `UrlSafe` defines |
| Pkce.UrlSafeAppend | lib/auth/pkce.ts:47-52 | the conversion distributes over concatenation |
| Pkce.UrlSafeOfPadding | lib/auth/pkce.ts:47-52 | padding converts to nothing |
| Pkce.UrlSafeWithoutPad | lib/auth/pkce.ts:47-52 | on text without '=', the conversion is the plain character-by-character map: nothing is deleted |
| Pkce.PaddedToUrl | lib/auth/pkce.ts:47-52 | text without '=' followed by any padding converts to its character-by-character translation, with the padding gone |
| Pkce.Base64UrlToBase64 | lib/auth/pkce.ts:57-67 | the output has no '-' or '_' and a length that is a multiple of 4; at most 3 '=' are added, and none when the input length is already a multiple of 4; each input character maps to its standard-alphabet counterpart |
| Pkce.MappedBackToStandard | lib/auth/pkce.ts:57-67 | the base64url form of an alphabet body, translated back, is the body followed by the padding that makes its length a multiple of 4 |
| Pkce.StandardRoundTrip | lib/auth/pkce.ts:47-67 | for a well-formed standard base64 string (alphabet characters, length a multiple of 4, at most two '='), converting to base64url and back gives the string again |
| Pkce.UrlRoundTrip | lib/auth/pkce.ts:47-67 | for any text without '+', '/' or '=', converting to standard base64 and back gives the text again |
| Pkce.BinaryString | lib/auth/pkce.ts:32-35 | the loop builds a string as long as the buffer whose i-th character code is the i-th byte |
| Pkce.Base64UrlEncode | lib/auth/pkce.ts:30-42 | the result is the base64url form of `btoa` of the bytes' binary string, with no '+', '/' or '=' |
| Pkce.GenerateRandomString | lib/auth/pkce.ts:8-11 | the random string is base64url text of the random bytes, with no '+', '/' or '=' |
| Pkce.GenerateCodeChallenge | lib/auth/pkce.ts:18-25 | the challenge is the base64url form of the base64 SHA-256 digest of the verifier, with no '+', '/' or '=' |
| SessionManager.SlotKey | lib/auth/gubuy-config.ts:52-55 | no one-shot slot shares the session key |
| SessionManager.ReadSessionSlot | lib/auth/session-manager.ts:26-49 | an empty slot reads as empty; parsed content with a non-zero expiry at or before now is stale; content that does not parse is unreadable; a live read is parsed content that has not expired |
| SessionManager.SecureStore.StoreSession | lib/auth/session-manager.ts:13-20 | writes the serialised session to the session slot and changes nothing else |
| SessionManager.SecureStore.GetSession | lib/auth/session-manager.ts:26-49 | returns the session only when it is readable and unexpired; deletes the session slot exactly when it is stale; an empty or unreadable slot yields no session and is kept |
| SessionManager.SecureStore.ClearSession | lib/auth/session-manager.ts:54-60 | deletes only the session slot |
| SessionManager.SecureStore.IsAuthenticated | lib/auth/session-manager.ts:65-68 | true exactly when `getSession` would return a session, and it evicts a stale session the same way |
| SessionManager.SecureStore.StoreOneShot | lib/auth/session-manager.ts:73-75 | `storeOAuthState` (and likewise `storeCodeVerifier` and `storeNonce`) writes only its own slot |
| SessionManager.SecureStore.GetAndClear | lib/auth/session-manager.ts:80-86 | `getAndClearOAuthState` (and the verifier and nonce versions) returns the stored value and deletes that slot only when the value is non-empty |
| SessionManager.SecureStore.CleanupOAuthStorage | lib/auth/session-manager.ts:127-137 | deletes the three one-shot slots and leaves the rest, the session included |
| SessionManager.ConsumedThenCleaned | lib/auth/session-manager.ts:127-137 | consuming a one-shot slot before cleanup leaves the same store as cleanup alone |
| SessionManager.WrittenThenCleaned | lib/auth/session-manager.ts:127-137 | a one-shot write is undone by cleanup |
| SessionManager.CleanupIdempotent | lib/auth/session-manager.ts:127-137 | cleanup twice equals cleanup once |
| SessionManager.SessionSurvivesCleanup | lib/auth/session-manager.ts:127-137 | writing the session commutes with cleanup |
| SessionManager.OtherSlotsUntouched | lib/auth/session-manager.ts:80-122 | consuming one one-shot slot leaves the other two as they were |
| SessionManager.StoredSessionReadsBack | lib/auth/session-manager.ts:13-49 | a stored session that has not expired reads back as itself |
| SessionManager.ExpiredSessionIsStale | lib/auth/session-manager.ts:36-41 | a session whose non-zero expiry is at or before now reads as stale |
| SessionManager.ZeroExpiryNeverExpires | lib/auth/session-manager.ts:36-36 | an expiry of 0 is falsy and the session never expires |
| SessionManager.ExpiryIsMonotone | lib/auth/session-manager.ts:36-37 | a session valid at some time is valid at every earlier time |
| SessionManager.StoreThenRead | lib/auth/session-manager.ts:13-49 | storing and then reading before the expiry returns the same session and leaves the store as the write left it |
| SessionManager.ExpiredStaysGone | lib/auth/session-manager.ts:36-41 | reading an expired session deletes it, and a second read at any time returns nothing |
| SessionManager.ReadOnce | lib/auth/session-manager.ts:80-86 | a stored non-empty one-shot value is returned once, and the immediate second read returns nothing |
| TokenValidator.StripTrailingSlashes | lib/auth/token-validator.ts:81-81 | `replace(/\/+$/, '')` keeps a prefix that does not end in '/' and removes only slashes |
| TokenValidator.StripDropsSlashSuffix | lib/auth/token-validator.ts:81-81 | appending any run of slashes does not change the stripped text |
| TokenValidator.StripTrailingSlashesNormalises | lib/auth/token-validator.ts:81-87 | stripping is idempotent and ignores trailing slashes |
| TokenValidator.ValidateIdTokenClaims | lib/auth/token-validator.ts:75-117 | passes exactly when the issuer and audience are accepted and the token is neither expired, nor not yet valid, nor issued in the future at `now`; an issuer failure comes before an audience failure |
| TokenValidator.IssuerAcceptedIff | lib/auth/token-validator.ts:80-90 | an issuer is accepted exactly when, with trailing slashes removed, it is non-empty and equals the stripped configured issuer or that issuer plus '/oidc', '/oidc/v1' or '/oidc/v2'; a missing, non-string or empty `iss` is rejected |
| TokenValidator.IssuerVariantWithSlashesAccepted | lib/auth/token-validator.ts:80-90 | each of the four variants is accepted with any number of trailing slashes |
| TokenValidator.AudienceShapes | lib/auth/token-validator.ts:93-100 | the audience is accepted exactly when `aud` is the client id as a string or an array containing it |
| TokenValidator.TimeToleranceBoundaries | lib/auth/token-validator.ts:103-112 | a token exactly 60 seconds past `exp` is still accepted and one second later it is not; `nbf` has the same 60-second margin on the other side |
| TokenValidator.NonNumericTimesSkipped | lib/auth/token-validator.ts:106-116 | absent or non-numeric `exp`, `nbf` and `iat` skip their checks |
| TokenValidator.TimeChecksInOrder | lib/auth/token-validator.ts:103-116 | after issuer and audience pass, the first failing check among exp, nbf and iat decides the error |
| TokenValidator.DiscoveryUrl | lib/auth/token-validator.ts:13-14 | the discovery URL begins with the issuer stripped of trailing slashes |
| TokenValidator.DiscoveryUrlIgnoresTrailingSlashes | lib/auth/token-validator.ts:13-14 | trailing slashes on the issuer do not change the discovery URL |
| TokenValidator.ValidatorCache.constructor | lib/auth/token-validator.ts:5-6 | both caches start empty |
| TokenValidator.ValidatorCache.GetOpenIdConfiguration | lib/auth/token-validator.ts:11-34 | a filled cache is returned without a request; an empty cache fetches the discovery URL once, keeps a success, and stays empty after a failure so the next call retries, failing with the status line and body |
| TokenValidator.ValidatorCache.GetJwks | lib/auth/token-validator.ts:39-45 | a filled key-set cache is returned unchanged; an empty one is filled with the key set for the parsed JWKS URL, or, when `new URL` throws, stays empty and the parse error is returned as it is |
| TokenValidator.ValidatorCache.VerifyIdToken | lib/auth/token-validator.ts:50-68 | success exactly when discovery, the key set, the signature check and the claim checks against the discovered issuer at the current second all succeed, and then the payload is returned; discovery and JWKS URL failures pass through unprefixed; a signature or claim failure is reported with 'ID token verification failed: ' and its own message; the discovery cache is kept or filled on a successful fetch and the key-set cache is kept or filled with the configured JWKS URL |
| GubuyClient.BuildAuthorizationUrl | lib/auth/gubuy-client.ts:138-158 | the authorization endpoint carries exactly response_type=code, client_id, redirect_uri, scope, state, code_challenge, code_challenge_method=S256 and nonce, each once (RFC 6749 section 4.1.1, RFC 7636 section 4.3) |
| GubuyClient.BuildLogoutUrl | lib/auth/gubuy-client.ts:511-518 | the end-session endpoint carries id_token_hint and post_logout_redirect_uri (OpenID Connect RP-Initiated Logout 1.0 section 2) |
| GubuyClient.BuildTokenRequest | lib/auth/gubuy-client.ts:308-333 | the body starts with grant_type=authorization_code, code, the configured redirect_uri and code_verifier; with a secret the body is exactly those four fields and there is a Basic Authorization header; without one client_id is appended as the fifth field and there is no Authorization header |
| GubuyClient.TokenErrorText | lib/auth/gubuy-client.ts:353-353 | the message is error_description, else error, else the status text |
| GubuyClient.ReadTokenResponse | lib/auth/gubuy-client.ts:347-367 | succeeds exactly for an ok response without `error` that has an id_token; a non-ok status or an `error` field fails with 'Token exchange failed: ' and the provider's message; a success without id_token fails with 'Token response missing id_token' |
| GubuyClient.ExchangeAuthorizationCode | lib/auth/gubuy-client.ts:308-368 | exactly the token request `BuildTokenRequest` builds is posted, and the outcome is `ReadTokenResponse` of the reply, so a success always carries a non-empty identity token |
| GubuyClient.UserInfoFor | lib/auth/gubuy-client.ts:373-405 | without an access token nothing is requested and the result is null; otherwise the userinfo URL is fetched with 'Bearer ' and the token as the Authorization header |
| GubuyClient.FirstTruthy | lib/auth/gubuy-client.ts:422-438 | an `a \|\| b \|\| … \|\| fallback` chain yields the first non-empty candidate, or the fallback, and is never empty when the fallback is not |
| GubuyClient.CreateSession | lib/auth/gubuy-client.ts:410-477 | the user id is the document number and equals attributes.numero_documento; the name is never empty; expiresAt is now + expires_in·1000 only for a non-zero expires_in; worker and clinic are empty; the access source is GUBUY_OIDC |
| GubuyClient.DocumentNumberFallbacks | lib/auth/gubuy-client.ts:422-427 | the document number is userinfo numero_documento, else claim numero_documento, uid or sub, else 'unknown' |
| GubuyClient.ExampleSession | lib/auth/gubuy-client.ts:422-443 | claims holding only sub '1234567-8', no userinfo and expires_in 3600 give user id '1234567-8' and an expiry 3 600 000 ms ahead |
| GubuyClient.NormalizeCallbackUrl | lib/auth/gubuy-client.ts:286-286 | the repair adds at most one character, and a URL it changes keeps its lower-case scheme, gets exactly '://' after it, and keeps everything after the original run of slashes |
| GubuyClient.NormalizeIdempotent | lib/auth/gubuy-client.ts:286-286 | the scheme repair is idempotent |
| GubuyClient.NormalizeRepairs | lib/auth/gubuy-client.ts:284-286 | a lower-case scheme, ':', one or more '/' and a rest not starting with '/' become the scheme, exactly '://' and the rest |
| GubuyClient.RepairedIsFixed | lib/auth/gubuy-client.ts:284-286 | a URL whose lower-case scheme is already followed by exactly '://' is left unchanged |
| GubuyClient.SchemeWithDigitUnchanged | lib/auth/gubuy-client.ts:284-286 | a scheme with a digit in it is never repaired, whatever slashes follow |
| GubuyClient.AppSchemeNotNormalized | lib/auth/gubuy-client.ts:284-286 | 'portalusuariosmobileg12:////auth/callback' is left unchanged, contrary to the comment |
| GubuyClient.ParseCallbackUrl | lib/auth/gubuy-client.ts:281-303 | the parameters come from the repaired URL; an unparsable URL fails with 'Invalid callback URL: ' and the original URL |
| GubuyClient.RedeemCode | lib/auth/gubuy-client.ts:249-265 | exchanges the code, verifies the ID token, consumes the nonce and writes the session only when the nonce matches; outside the one-shot slots only a success changes the store |
| GubuyClient.ConsumeAndRedeem | lib/auth/gubuy-client.ts:236-265 | consumes the state, checks it against the callback's, consumes the verifier and redeems the code exactly as `CallbackSpec` prescribes for the slots found; outside the one-shot slots only a success changes the store |
| GubuyClient.HandleCallback | lib/auth/gubuy-client.ts:220-276 | the result and the steps taken are those of the pipeline specification `CallbackSpec` for the slots found; on every exit the one-shot slots are empty, and the session slot is written exactly when the callback succeeds |
| GubuyClient.CallbackStepsArePrefix | lib/auth/gubuy-client.ts:220-276 | every run takes a prefix of the fixed order: consume state, consume verifier, exchange, verify, consume nonce, fetch userinfo, store session; then it cleans up |
| GubuyClient.RedeemStepsArePrefix | lib/auth/gubuy-client.ts:249-265 | the second half of a callback takes at least the exchange step and continues the fixed order from there |
| GubuyClient.CallbackErrorFirst | lib/auth/gubuy-client.ts:226-234 | an `error` parameter fails with error_description, else error, and a missing code fails with 'No authorization code received'; both happen before any stored value is read |
| GubuyClient.CsrfGate | lib/auth/gubuy-client.ts:236-249 | the code is exchanged, or a session produced, only when the stored state was non-empty and equal to the callback's state and a verifier was stored |
| GubuyClient.NonceGate | lib/auth/gubuy-client.ts:249-265 | a session is produced and stored only when the callback carried a code, a verifier was stored, the code's exchange succeeded, the identity token it returned verified, and that token's nonce claim equals the non-empty stored nonce |
| GubuyClient.ReplayedCallbackRejected | lib/auth/gubuy-client.ts:237-241 | with no stored state the callback fails and never reaches the token endpoint |
| GubuyClient.ReplayScenario | lib/auth/gubuy-client.ts:237-241 | handling the same callback twice fails the second time and keeps the first run's session |
| GubuyClient.ClassifyBrowserResult | lib/auth/gubuy-client.ts:101-127 | success with a non-empty url handles that url; cancel fails with 'Authentication cancelled by user'; dismiss waits for a deep link; anything else fails with 'Authentication failed: ' and the type |
| GubuyClient.FirstAccepted | lib/auth/gubuy-client.ts:81-91 | the first deep link starting 'portalusuariosmobileg12://' is taken; there is none exactly when no event starts with that prefix |
| GubuyClient.ResolveCallbackUrl | lib/auth/gubuy-client.ts:74-123 | the login goes on with the browser's url, the first accepted deep link after a dismiss, or fails with the abort or timeout message |
| GubuyClient.InitiateLogin | lib/auth/gubuy-client.ts:26-133 | the authorization URL carries the generated state, nonce and S256 challenge of the generated verifier; the result is the callback pipeline's result on the resolved URL with those three values stored, or the abort message; on exit the one-shot slots are empty and the session is written only on success |
| GubuyClient.LoginStateRoundTrip | lib/auth/gubuy-client.ts:31-47 | a successful login's callback carried exactly the state the login generated and stored |
| GubuyClient.Logout | lib/auth/gubuy-client.ts:482-506 | deletes the session and the one-shot slots; opens the end-session URL built from the session's identity token exactly when `getSession` returned a session with a non-empty one |
| Api.TrimmedOr | lib/api.ts:12-19 | `a?.trim() ?? b?.trim()`: a defined primary wins however blank it is after trimming; the fallback is used only when the primary is undefined |
| Api.ResolveSettings | lib/api.ts:12-19 | URL, username and password come from the public variable, else the plain one, trimmed; the URL defaults to '' |
| Api.GetBackendUrl | lib/api.ts:23-31 | fails with the missing-URL message exactly when the URL is empty; otherwise removes one trailing '/' if there is one |
| Api.BlankPrimaryHidesFallback | lib/api.ts:12-31 | a blank EXPO_PUBLIC_BACKEND_URL makes the backend URL missing even when BACKEND_URL is set |
| Api.OneTrailingSlashRemoved | lib/api.ts:30-30 | a URL ending in '//' keeps one slash |
| Api.BuildUrl | lib/api.ts:64-67 | the base URL, a '/' only when the path lacks one, and the path; fails when the backend URL is missing |
| Api.BuildUrlLeadingSlashOptional | lib/api.ts:64-67 | a path with or without its leading '/' gives the same URL |
| Api.GetAuthHeader | lib/api.ts:33-62 | a header exists exactly when username and password are non-empty and encoding yields non-empty text, and it is 'Basic ' and that text |
| Api.FirstOfChoosesFirst | lib/api.ts:76-97 | a field takes the rendering of the first listed key whose value renders; null, missing and unrenderable values are skipped; nothing is found exactly when no key renders |
| Api.FirstRendered | lib/api.ts:76-97 | the `getString`/`getDateString` loop with early return computes that first rendering |
| Api.BuildDraft | lib/api.ts:99-110 | the draft object holds, field by field, the first rendering of each field's listed keys, dates through the date formatter |
| Api.Candidate | lib/api.ts:69-74 | only objects (and arrays, whose named keys are absent) are candidates |
| Api.ToAccessRequestDto | lib/api.ts:69-130 | the draft-and-required-keys loop returns exactly the specification `ToDto` |
| Api.ToDtoFields | lib/api.ts:99-129 | a converted request comes from an object and has all ten fields non-empty; the health-user id, the worker name and the creation date are the first rendering of their listed keys |
| Api.ToDtoRejects | lib/api.ts:69-129 | non-objects never convert, and neither does an object whose id is missing or the empty string |
| Api.HealthUserIdAliases | lib/api.ts:100-101 | without healthUserId, a numeric userId is used, rendered in decimal |
| Api.ConvertEntries | lib/api.ts:179-182 | filtering converted entries never lengthens the list, and every result converts from an entry |
| Api.ConvertEntriesAppend | lib/api.ts:180-182 | conversion keeps order: converting a concatenation concatenates the conversions |
| Api.ConvertEntriesKeepsValid | lib/api.ts:180-188 | a payload whose entries all convert loses nothing |
| Api.ReadPayload | lib/api.ts:179-197 | an array gives its converted entries; a convertible single object a one-element list; anything else fails with 'Unexpected API response while reading access requests.' |
| Api.RequestHeaders | lib/api.ts:140-148 | Accept is application/json, and Authorization is present exactly when `getAuthHeader` gives a header, with that value |
| Api.FetchAccessRequests | lib/api.ts:132-198 | an empty id or name fails with its 'is required' message before any URL is built; a missing backend URL fails next |
| Api.FetchRequestShape | lib/api.ts:139-167 | the request goes to base + '/' + path prefix + encoded key; a non-ok response fails with the status and body-or-status-text message; an ok response is read as the payload |
| Api.FailureMessageFallsBack | lib/api.ts:160-165 | the failure message uses the body when non-empty, else the status text |
| CallbackRelay.RelayDecision | scripts/oauth-callback-server.ts:22-61 | an error redirects with error and state ('' when absent), even if a code is present, and keeps {error, state}; a code with a state redirects with both and keeps {code, state}; anything else answers 400 and keeps the old callback |
| CallbackRelay.RedirectsUseRelayScheme | scripts/oauth-callback-server.ts:28-56 | every redirect target begins with 'portalusuariosmobile://callback?' |
| CallbackRelay.RelayRedirectsNotAccepted | scripts/oauth-callback-server.ts:28-52 | no redirect target passes the app's deep-link prefix 'portalusuariosmobileg12://' |
| CallbackRelay.Relay.constructor | scripts/oauth-callback-server.ts:19-19 | the slot starts empty |
| CallbackRelay.Relay.Callback | scripts/oauth-callback-server.ts:22-61 | answers with the decision and overwrites the slot only when the decision keeps a callback |
| CallbackRelay.Relay.CallbackData | scripts/oauth-callback-server.ts:64-66 | returns the stored callback, or waiting when empty, and changes nothing |
| CallbackRelay.Relay.ClearCallback | scripts/oauth-callback-server.ts:69-72 | empties the slot |
| CallbackRelay.LatestOnlyScenario | scripts/oauth-callback-server.ts:19-72 | only the most recent valid callback is kept, an invalid one changes nothing, and clearing returns to waiting |

## Left out

- SecureStore I/O failures are not modelled: a failing write ('Failed to store session securely'), or a delete failure the source swallows. Store operations always succeed.
- Concurrency is not modelled: the race between the browser and the deep-link listener, the five-minute `setTimeout`, the `Linking` subscription and `Promise.all`. The deep links are a list of URL events that arrived before the timeout.
- `pollForCallbackData` is left out. It polls a hard-coded LAN address and nothing calls it.
- Percent-encoding and `URLSearchParams.toString()` are not modelled. A URL is a base and an ordered list of parameters.
- URL parsing is a parameter that yields the query map or nothing.
- Signature verification by `jose`, with its own issuer and audience checks and the remote JWKS fetch, is a parameter. Only its failure and its payload are used.
- `new URL(...)` of the JWKS URL is a parameter that yields the parsed URL or the message of the error it throws.
- `Crypto.getRandomBytes`, SHA-256 and `btoa` are parameters. The byte counts 64 and 32 are not enforced.
- JSON numbers are integers. Fractional `exp`, `nbf`, `iat` and `expires_in` values, and `String()` of non-integers, are not modelled.
- `Date.now()`, `new Date().toISOString()` and `new Date(n).toISOString()` are parameters. `Math.floor(Date.now() / 1000)` is integer division of a millisecond count.
- GubuyClient.CreateSession: a claim read with `as string` whose value is not a string (a number, say) is treated as absent, whereas the source would use the value as it is.
- GubuyClient.Logout: the outer `catch`, which clears the store again when an earlier step throws, is not modelled, since no modelled step throws.
- Api.FetchAccessRequests: the `ApiConfigurationError` class is not distinguished from a plain `Error`; both are an error message.
- Repeated query keys are not modelled: Express's array values in the relay, and duplicate callback parameters.
- Logging, `__DEV__`, the relay's Express, CORS, static-file and `/health` plumbing, and its port are left out.
- The `userinfo` fetch (a non-ok status, a JSON failure, a network error) is a parameter of the URL and headers that yields user info or nothing.
- Text.DecimalString: an integer of magnitude 1e21 or more is written out in full, whereas `String()` switches to exponent notation ('1e+21'); such values cannot be held exactly in a JavaScript number.
