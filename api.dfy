/** lib/api.ts: the backend client for access requests. The environment is a
    map, and `fetch`, `encodeURIComponent`, the credential encoder and
    `new Date(n).toISOString()` are parameters. */
module Api {
  import opened Wrappers
  import opened Text
  import opened Json
  import opened GubuyConfig

  // -----------------------------------------------------------------------
  // Settings read once when the module loads.

  const PUBLIC_BACKEND_URL_VAR := "EXPO_PUBLIC_BACKEND_URL"
  const BACKEND_URL_VAR := "BACKEND_URL"
  const PUBLIC_BACKEND_USERNAME_VAR := "EXPO_PUBLIC_BACKEND_USERNAME"
  const BACKEND_USERNAME_VAR := "BACKEND_USERNAME"
  const PUBLIC_BACKEND_PASSWORD_VAR := "EXPO_PUBLIC_BACKEND_PASSWORD"
  const BACKEND_PASSWORD_VAR := "BACKEND_PASSWORD"

  datatype ApiSettings = ApiSettings(backendUrl: string, username: Option<string>, password: Option<string>)

  /** `primary?.trim() ?? fallback?.trim()`: `??` looks only at `undefined`, so a
      defined primary wins however blank it is after trimming. */
  function TrimmedOr(primary: Option<string>, fallback: Option<string>): (r: Option<string>)
    ensures r.None? <==> primary.None? && fallback.None?
    ensures primary.Some? ==> r == Some(Trim(primary.value))
    ensures primary.None? && fallback.Some? ==> r == Some(Trim(fallback.value))
  {
    if primary.Some? then Some(Trim(primary.value))
    else if fallback.Some? then Some(Trim(fallback.value))
    else None
  }

  function ResolveSettings(env: map<string, string>): (s: ApiSettings)
    ensures s.backendUrl == OrEmpty(TrimmedOr(Lookup(env, PUBLIC_BACKEND_URL_VAR), Lookup(env, BACKEND_URL_VAR)))
    ensures s.username == TrimmedOr(Lookup(env, PUBLIC_BACKEND_USERNAME_VAR), Lookup(env, BACKEND_USERNAME_VAR))
    ensures s.password == TrimmedOr(Lookup(env, PUBLIC_BACKEND_PASSWORD_VAR), Lookup(env, BACKEND_PASSWORD_VAR))
  {
    ApiSettings(
      OrEmpty(TrimmedOr(Lookup(env, PUBLIC_BACKEND_URL_VAR), Lookup(env, BACKEND_URL_VAR))),
      TrimmedOr(Lookup(env, PUBLIC_BACKEND_USERNAME_VAR), Lookup(env, BACKEND_USERNAME_VAR)),
      TrimmedOr(Lookup(env, PUBLIC_BACKEND_PASSWORD_VAR), Lookup(env, BACKEND_PASSWORD_VAR)))
  }

  const MISSING_BACKEND_URL := "Missing BACKEND_URL. Ensure it is defined in your environment configuration."

  /** getBackendUrl: an empty URL is a configuration error; otherwise at most
      one trailing '/' is removed. */
  function GetBackendUrl(settings: ApiSettings): (r: Result<string>)
    ensures r.Err? <==> settings.backendUrl == ""
    ensures r.Err? ==> r.error == MISSING_BACKEND_URL
    ensures r.Ok? && EndsWithChar(settings.backendUrl, '/') ==> r.value + "/" == settings.backendUrl
    ensures r.Ok? && !EndsWithChar(settings.backendUrl, '/') ==> r.value == settings.backendUrl
  {
    var url := settings.backendUrl;
    if url == "" then Err(MISSING_BACKEND_URL)
    else if EndsWithChar(url, '/') then Ok(url[..|url| - 1])
    else Ok(url)
  }

  /** A blank EXPO_PUBLIC_BACKEND_URL hides a usable BACKEND_URL: the backend
      URL is then missing. */
  lemma BlankPrimaryHidesFallback(env: map<string, string>)
    requires PUBLIC_BACKEND_URL_VAR in env && Trim(env[PUBLIC_BACKEND_URL_VAR]) == ""
    ensures GetBackendUrl(ResolveSettings(env)) == Err(MISSING_BACKEND_URL)
  {
  }

  /** Only one trailing slash goes: a URL ending in "//" keeps one. */
  lemma OneTrailingSlashRemoved(settings: ApiSettings, base: string)
    requires settings.backendUrl == base + "//"
    ensures GetBackendUrl(settings) == Ok(base + "/")
  {
    assert (base + "//")[..|base + "//"| - 1] == base + "/";
  }

  /** buildUrl: the base URL, one '/' unless the path has one, then the path. */
  function BuildUrl(settings: ApiSettings, path: string): (r: Result<string>)
    ensures r.Ok? <==> settings.backendUrl != ""
    ensures r.Err? ==> r.error == MISSING_BACKEND_URL
    ensures r.Ok? && StartsWith(path, "/") ==> r.value == GetBackendUrl(settings).value + path
    ensures r.Ok? && !StartsWith(path, "/") ==> r.value == GetBackendUrl(settings).value + "/" + path
  {
    var baseUrl :- GetBackendUrl(settings);
    Ok(baseUrl + (if StartsWith(path, "/") then "" else "/") + path)
  }

  /** A path with or without its leading '/' gives the same URL. */
  lemma BuildUrlLeadingSlashOptional(settings: ApiSettings, path: string)
    requires !StartsWith(path, "/")
    ensures BuildUrl(settings, path) == BuildUrl(settings, "/" + path)
  {
    assert StartsWith("/" + path, "/");
    if settings.backendUrl != "" {
      var base := GetBackendUrl(settings).value;
      assert base + "/" + path == base + ("/" + path);
    }
  }

  /** getAuthHeader. `encode` stands for encodeCredentials, which uses `btoa` or
      `Buffer` when either exists and yields `None` otherwise. */
  function GetAuthHeader(settings: ApiSettings, encode: string -> Option<string>): (r: Option<string>)
    ensures r.Some? <==> && Truthy(settings.username) && Truthy(settings.password)
                         && Truthy(encode(settings.username.value + ":" + settings.password.value))
    ensures r.Some? ==> r.value == "Basic " + encode(settings.username.value + ":" + settings.password.value).value
  {
    if !Truthy(settings.username) || !Truthy(settings.password) then None
    else
      var encoded := encode(settings.username.value + ":" + settings.password.value);
      if !Truthy(encoded) then None else Some("Basic " + encoded.value)
  }

  // -----------------------------------------------------------------------
  // Reading one access request.

  /** AccessRequestDTO: ten string fields, all required. */
  datatype AccessRequestDto = AccessRequestDto(
    id: string,
    healthUserId: string,
    healthWorkerId: string,
    healthWorkerName: string,
    clinicId: string,
    clinicName: string,
    specialtyId: string,
    specialtyName: string,
    createdAt: string,
    updatedAt: string)

  /** getString's rendering: a string as it is, a number or boolean through
      `String()`; null, objects and arrays are skipped. */
  function ScalarText(v: JsonValue): Option<string> {
    match v
    case JStr(s) => Some(s)
    case JNum(n) => Some(DecimalString(n))
    case JBool(b) => Some(BooleanString(b))
    case _ => None
  }

  /** getDateString's rendering: a string as it is, a number through `toIso`
      (`None` for an invalid date); everything else is skipped. */
  function DateText(v: JsonValue, toIso: int -> Option<string>): Option<string> {
    match v
    case JStr(s) => Some(s)
    case JNum(n) => toIso(n)
    case _ => None
  }

  /** getDateString's rendering with the date formatter fixed. */
  function DateRendering(toIso: int -> Option<string>): JsonValue -> Option<string> {
    v => DateText(v, toIso)
  }

  /** The value a field gets: the rendering of the first listed key whose value
      renders at all. */
  function FirstOf(fields: Fields, keys: seq<string>, render: JsonValue -> Option<string>): Option<string> {
    if keys == [] then None
    else if keys[0] in fields && render(fields[keys[0]]).Some? then render(fields[keys[0]])
    else FirstOf(fields, keys[1..], render)
  }

  /** FirstOf picks the first key, in the listed order, whose value renders;
      it is nothing exactly when no listed key renders. */
  lemma {:induction false} FirstOfChoosesFirst(fields: Fields, keys: seq<string>, render: JsonValue -> Option<string>)
    ensures var r := FirstOf(fields, keys, render);
      r.Some? ==> exists i :: 0 <= i < |keys| && keys[i] in fields && render(fields[keys[i]]) == r
    ensures forall i :: (0 <= i < |keys| && keys[i] in fields && render(fields[keys[i]]).Some?
                         && (forall j :: 0 <= j < i ==> keys[j] !in fields || render(fields[keys[j]]).None?))
                        ==> FirstOf(fields, keys, render) == render(fields[keys[i]])
    ensures FirstOf(fields, keys, render).None? <==>
      forall i :: 0 <= i < |keys| ==> keys[i] !in fields || render(fields[keys[i]]).None?
  {
    if keys != [] {
      FirstOfChoosesFirst(fields, keys[1..], render);
      assert forall i :: 1 <= i < |keys| ==> keys[i] == keys[1..][i - 1];
    }
  }

  /** The loop shared by getString and getDateString. */
  method FirstRendered(fields: Fields, keys: seq<string>, render: JsonValue -> Option<string>) returns (r: Option<string>)
    ensures r == FirstOf(fields, keys, render)
  {
    for i := 0 to |keys|
      invariant FirstOf(fields, keys, render) == FirstOf(fields, keys[i..], render)
    {
      assert keys[i..][1..] == keys[i + 1..];
      var key := keys[i];
      if key !in fields {
        continue;
      }
      var v := render(fields[key]);
      if v.Some? {
        return v;
      }
    }
    return None;
  }

  const ID_KEYS := ["id"]
  const HEALTH_USER_ID_KEYS := ["healthUserId", "userId", "patientId"]
  const HEALTH_WORKER_ID_KEYS := ["healthWorkerId", "workerId"]
  const HEALTH_WORKER_NAME_KEYS := ["healthWorkerName", "healthWorkerFullName", "workerName"]
  const CLINIC_ID_KEYS := ["clinicId"]
  const CLINIC_NAME_KEYS := ["clinicName"]
  const SPECIALTY_ID_KEYS := ["specialtyId"]
  const SPECIALTY_NAME_KEYS := ["specialtyName"]
  const CREATED_AT_KEYS := ["createdAt", "created_at"]
  const UPDATED_AT_KEYS := ["updatedAt", "updated_at"]

  /** `!value || typeof value !== 'object'` rejects the value; an array is an
      object whose named keys are all absent. */
  function Candidate(value: JsonValue): (r: Option<Fields>)
    ensures r.Some? <==> value.JObject? || value.JArray?
  {
    match value
    case JObject(fields) => Some(fields)
    case JArray(_) => Some(map[])
    case _ => None
  }

  /** The ten draft fields, in the order of the required keys. */
  function Draft(fields: Fields, toIso: int -> Option<string>): (d: seq<Option<string>>)
    ensures |d| == 10
  {
    [FirstOf(fields, ID_KEYS, ScalarText),
     FirstOf(fields, HEALTH_USER_ID_KEYS, ScalarText),
     FirstOf(fields, HEALTH_WORKER_ID_KEYS, ScalarText),
     FirstOf(fields, HEALTH_WORKER_NAME_KEYS, ScalarText),
     FirstOf(fields, CLINIC_ID_KEYS, ScalarText),
     FirstOf(fields, CLINIC_NAME_KEYS, ScalarText),
     FirstOf(fields, SPECIALTY_ID_KEYS, ScalarText),
     FirstOf(fields, SPECIALTY_NAME_KEYS, ScalarText),
     FirstOf(fields, CREATED_AT_KEYS, DateRendering(toIso)),
     FirstOf(fields, UPDATED_AT_KEYS, DateRendering(toIso))]
  }

  function DtoOf(d: seq<Option<string>>): AccessRequestDto
    requires |d| == 10 && forall i :: 0 <= i < 10 ==> d[i].Some?
  {
    AccessRequestDto(d[0].value, d[1].value, d[2].value, d[3].value, d[4].value,
                     d[5].value, d[6].value, d[7].value, d[8].value, d[9].value)
  }

  /** toAccessRequestDTO as a function: an object (or array) whose ten draft
      fields are all non-empty, else nothing. */
  function ToDto(value: JsonValue, toIso: int -> Option<string>): Option<AccessRequestDto> {
    match Candidate(value)
    case None => None
    case Some(fields) =>
      var d := Draft(fields, toIso);
      if forall i :: 0 <= i < 10 ==> Truthy(d[i]) then Some(DtoOf(d)) else None
  }

  /** The draft object of toAccessRequestDTO, field by field. */
  method BuildDraft(fields: Fields, toIso: int -> Option<string>) returns (d: seq<Option<string>>)
    ensures d == Draft(fields, toIso)
  {
    var id := FirstRendered(fields, ID_KEYS, ScalarText);
    var healthUserId := FirstRendered(fields, HEALTH_USER_ID_KEYS, ScalarText);
    var healthWorkerId := FirstRendered(fields, HEALTH_WORKER_ID_KEYS, ScalarText);
    var healthWorkerName := FirstRendered(fields, HEALTH_WORKER_NAME_KEYS, ScalarText);
    var clinicId := FirstRendered(fields, CLINIC_ID_KEYS, ScalarText);
    var clinicName := FirstRendered(fields, CLINIC_NAME_KEYS, ScalarText);
    var specialtyId := FirstRendered(fields, SPECIALTY_ID_KEYS, ScalarText);
    var specialtyName := FirstRendered(fields, SPECIALTY_NAME_KEYS, ScalarText);
    var createdAt := FirstRendered(fields, CREATED_AT_KEYS, DateRendering(toIso));
    var updatedAt := FirstRendered(fields, UPDATED_AT_KEYS, DateRendering(toIso));
    d := [id, healthUserId, healthWorkerId, healthWorkerName, clinicId, clinicName,
          specialtyId, specialtyName, createdAt, updatedAt];
  }

  /** toAccessRequestDTO: the draft built with getString/getDateString, then the
      required-key loop. */
  method ToAccessRequestDto(value: JsonValue, toIso: int -> Option<string>) returns (r: Option<AccessRequestDto>)
    ensures r == ToDto(value, toIso)
  {
    var candidate := Candidate(value);
    if candidate.None? {
      return None;
    }
    var dto := BuildDraft(candidate.value, toIso);
    for i := 0 to 10
      invariant forall j :: 0 <= j < i ==> Truthy(dto[j])
    {
      if !Truthy(dto[i]) {
        return None;
      }
    }
    return Some(DtoOf(dto));
  }

  /** A converted request has every field non-empty, each read from its keys in
      their listed order. */
  lemma ToDtoFields(value: JsonValue, toIso: int -> Option<string>)
    requires ToDto(value, toIso).Some?
    ensures value.JObject?
    ensures var d := ToDto(value, toIso).value; var f := value.fields;
      && d.id != "" && d.healthUserId != "" && d.healthWorkerId != "" && d.healthWorkerName != ""
      && d.clinicId != "" && d.clinicName != "" && d.specialtyId != "" && d.specialtyName != ""
      && d.createdAt != "" && d.updatedAt != ""
      && Some(d.healthUserId) == FirstOf(f, HEALTH_USER_ID_KEYS, ScalarText)
      && Some(d.healthWorkerName) == FirstOf(f, HEALTH_WORKER_NAME_KEYS, ScalarText)
      && Some(d.createdAt) == FirstOf(f, CREATED_AT_KEYS, DateRendering(toIso))
  {
    var d := Draft(Candidate(value).value, toIso);
    assert Truthy(d[0]);
  }

  /** Values that are not objects never convert, and neither does an object
      missing any of the ten fields or holding one as the empty string. */
  lemma ToDtoRejects(value: JsonValue, toIso: int -> Option<string>)
    ensures !value.JObject? ==> ToDto(value, toIso).None?
    ensures value.JObject? && !Truthy(FirstOf(value.fields, ID_KEYS, ScalarText)) ==> ToDto(value, toIso).None?
    ensures value.JObject? && "id" in value.fields && value.fields["id"] == JStr("") ==> ToDto(value, toIso).None?
  {
    if value.JArray? {
      assert FirstOf(map[], ID_KEYS, ScalarText) == None;
    }
    if value.JObject? {
      assert !Truthy(Draft(value.fields, toIso)[0]) ==> ToDto(value, toIso).None?;
    }
  }

  /** The key aliases: `userId` is read only when `healthUserId` yields nothing,
      and a numeric value is rendered in decimal. */
  lemma HealthUserIdAliases(fields: Fields, n: int)
    requires "healthUserId" !in fields && "userId" in fields && fields["userId"] == JNum(n)
    ensures FirstOf(fields, HEALTH_USER_ID_KEYS, ScalarText) == Some(DecimalString(n))
  {
    assert HEALTH_USER_ID_KEYS[1..][0] == "userId";
  }

  // -----------------------------------------------------------------------
  // Payload shapes.

  /** `data.map(toAccessRequestDTO).filter(v => v !== null)`. */
  function ConvertEntries(items: seq<JsonValue>, toIso: int -> Option<string>): (r: seq<AccessRequestDto>)
    ensures |r| <= |items|
    ensures forall d :: d in r ==> exists v :: v in items && ToDto(v, toIso) == Some(d)
  {
    if items == [] then []
    else
      var rest := ConvertEntries(items[1..], toIso);
      assert forall v :: v in items[1..] ==> v in items;
      match ToDto(items[0], toIso)
      case Some(d) => [d] + rest
      case None => rest
  }

  /** Conversion keeps the order: converting a concatenation concatenates the
      conversions. */
  lemma {:induction false} ConvertEntriesAppend(a: seq<JsonValue>, b: seq<JsonValue>, toIso: int -> Option<string>)
    ensures ConvertEntries(a + b, toIso) == ConvertEntries(a, toIso) + ConvertEntries(b, toIso)
  {
    if a == [] {
      assert a + b == b;
    } else {
      assert (a + b)[0] == a[0];
      assert (a + b)[1..] == a[1..] + b;
      ConvertEntriesAppend(a[1..], b, toIso);
    }
  }

  /** Nothing is dropped from a payload whose entries all convert. */
  lemma {:induction false} ConvertEntriesKeepsValid(items: seq<JsonValue>, toIso: int -> Option<string>)
    requires forall i :: 0 <= i < |items| ==> ToDto(items[i], toIso).Some?
    ensures |ConvertEntries(items, toIso)| == |items|
  {
    if items != [] {
      ConvertEntriesKeepsValid(items[1..], toIso);
    }
  }

  const UNEXPECTED_PAYLOAD := "Unexpected API response while reading access requests."

  /** The payload handling shared by both fetch functions. */
  function ReadPayload(data: JsonValue, toIso: int -> Option<string>): (r: Result<seq<AccessRequestDto>>)
    ensures data.JArray? ==> r == Ok(ConvertEntries(data.items, toIso))
    ensures !data.JArray? && ToDto(data, toIso).Some? ==> r == Ok([ToDto(data, toIso).value])
    ensures r.Err? <==> !data.JArray? && ToDto(data, toIso).None?
    ensures r.Err? ==> r.error == UNEXPECTED_PAYLOAD
  {
    if data.JArray? then Ok(ConvertEntries(data.items, toIso))
    else match ToDto(data, toIso)
      case Some(d) => Ok([d])
      case None => Err(UNEXPECTED_PAYLOAD)
  }

  // -----------------------------------------------------------------------
  // The two fetch functions.

  datatype ApiRequest = ApiRequest(url: string, headers: map<string, string>)

  /** A backend response: `text` is `None` when reading the body failed and
      `json` carries the parse failure's message. */
  datatype ApiResponse =
    | ApiResponse(ok: bool, status: int, statusText: string, text: Option<string>, json: Result<JsonValue>)
    | ApiNetworkFailure(message: string)

  datatype Backend = Backend(
    settings: ApiSettings,
    encodeCredentials: string -> Option<string>,
    encodeUriComponent: string -> string,
    fetch: ApiRequest -> ApiResponse,
    toIso: int -> Option<string>)

  /** The two lookups: by identifier and by name. */
  datatype Query = ByHealthUserId | ByHealthUserName

  function PathPrefix(lookup: Query): string {
    match lookup
    case ByHealthUserId => "access-requests/health-user/"
    case ByHealthUserName => "access-requests/health-user/name/"
  }

  function RequiredMessage(lookup: Query): string {
    match lookup
    case ByHealthUserId => "healthUserId is required"
    case ByHealthUserName => "healthUserName is required"
  }

  function RequestHeaders(backend: Backend): (h: map<string, string>)
    ensures "Accept" in h && h["Accept"] == "application/json"
    ensures "Authorization" in h <==> GetAuthHeader(backend.settings, backend.encodeCredentials).Some?
    ensures "Authorization" in h ==> h["Authorization"] == GetAuthHeader(backend.settings, backend.encodeCredentials).value
  {
    var auth := GetAuthHeader(backend.settings, backend.encodeCredentials);
    if auth.Some? then map["Accept" := "application/json", "Authorization" := auth.value]
    else map["Accept" := "application/json"]
  }

  function FailureMessage(status: int, payload: Option<string>, statusText: string): string {
    "Failed to fetch access requests (" + DecimalString(status) + "): " + Or(Some(OrEmpty(payload)), Some(statusText)).value
  }

  /** fetchHealthUserAccessRequests and fetchHealthUserAccessRequestsByName. */
  function FetchAccessRequests(backend: Backend, lookup: Query, key: string): (r: Result<seq<AccessRequestDto>>)
    ensures key == "" ==> r == Err(RequiredMessage(lookup))
    ensures key != "" && backend.settings.backendUrl == "" ==> r == Err(MISSING_BACKEND_URL)
  {
    if key == "" then Err(RequiredMessage(lookup))
    else
      var url :- BuildUrl(backend.settings, PathPrefix(lookup) + backend.encodeUriComponent(key));
      match backend.fetch(ApiRequest(url, RequestHeaders(backend)))
      case ApiNetworkFailure(message) => Err(message)
      case ApiResponse(ok, status, statusText, text, json) =>
        if !ok then Err(FailureMessage(status, text, statusText))
        else
          var data :- json;
          ReadPayload(data, backend.toIso)
  }

  /** The request a lookup sends, once the key is non-empty and the backend URL
      is set: the URL is the base, '/', the path prefix and the encoded key. */
  lemma FetchRequestShape(backend: Backend, lookup: Query, key: string)
    requires key != "" && backend.settings.backendUrl != ""
    ensures var request := ApiRequest(GetBackendUrl(backend.settings).value + "/" + PathPrefix(lookup)
                                        + backend.encodeUriComponent(key), RequestHeaders(backend));
      && BuildUrl(backend.settings, PathPrefix(lookup) + backend.encodeUriComponent(key)) == Ok(request.url)
      && (backend.fetch(request).ApiResponse? && backend.fetch(request).ok && backend.fetch(request).json.Ok? ==>
            FetchAccessRequests(backend, lookup, key) == ReadPayload(backend.fetch(request).json.value, backend.toIso))
      && (backend.fetch(request).ApiResponse? && !backend.fetch(request).ok ==>
            FetchAccessRequests(backend, lookup, key) ==
              Err(FailureMessage(backend.fetch(request).status, backend.fetch(request).text, backend.fetch(request).statusText)))
  {
    var path := PathPrefix(lookup) + backend.encodeUriComponent(key);
    assert !StartsWith(path, "/") by {
      assert path[0] == 'a';
    }
    var base := GetBackendUrl(backend.settings).value;
    assert base + "/" + PathPrefix(lookup) + backend.encodeUriComponent(key) == base + "/" + path;
  }

  /** The failure text uses the body when it is non-empty, else the status text. */
  lemma FailureMessageFallsBack(status: int, payload: Option<string>, statusText: string)
    ensures Truthy(payload) ==>
      FailureMessage(status, payload, statusText) == "Failed to fetch access requests (" + DecimalString(status) + "): " + payload.value
    ensures !Truthy(payload) ==>
      FailureMessage(status, payload, statusText) == "Failed to fetch access requests (" + DecimalString(status) + "): " + statusText
  {
  }
}
