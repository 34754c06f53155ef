/** The client of the external security service (app/services/security_client.py).
    Each validator is a decision over its inputs, the configuration and the one HTTP
    exchange it makes; the exchange is an input value, `HttpOutcome`. A validator either
    returns the decoded JSON body or raises `SecurityServiceError` with a message, which
    `Validation.result` records as `Ok(body)` or `Err(message)`. */
module SecurityClient {
  import opened Wrappers
  import opened Strings
  import Config

  // ---------------------------------------------------------------------------
  // The exchange with the service

  /** The members of a JSON reply object that the gateway reads. */
  datatype Json = Json(message: Option<string>, keyId: Option<string>, userId: Option<string>)

  /** What `response.json()` gives for a reply: the object, or a decoding error, which
      `requests` raises as a `RequestException`. */
  datatype Decoded = Parsed(obj: Json) | Undecodable(error: string)

  /** One HTTP exchange: a reply (status, body text, and what decoding the body gives),
      or one of the `requests` exceptions, carrying its text. An empty `text` is an empty
      `response.content`. */
  datatype HttpOutcome =
    | Response(status: int, text: string, json: Decoded)
    | TimedOut(error: string)
    | ConnectionFailed(error: string)
    | RequestFailed(error: string)

  datatype NetKind = TimeoutKind | ConnectionKind | OtherRequestKind

  /** How the `try` block around a call ends: with the decoded body of a 200 reply, with
      a `SecurityServiceError` raised inside it, or with a `requests` exception, which the
      `except` clauses then handle. */
  datatype Attempt =
    | Returned(body: Json)
    | Rejected(message: string)
    | NetworkError(kind: NetKind, error: string)

  /** The endpoint a validator posts to and the credential it sends. */
  datatype Request = Request(endpoint: string, credential: string)

  /** What a validator returns, or the message of the `SecurityServiceError` it raises,
      and the request it sends, if it sends one. */
  datatype Validation = Validation(result: Result<Json, string>, request: Option<Request>)

  /** A `SecurityClient`: its base URL and application id, and the configuration it
      consults on every call. */
  datatype Client = Client(baseUrl: string, applicationId: string, config: Config.Settings)

  /** `SecurityClient(base_url, application_id)`: an empty or missing argument defers to
      the configuration. */
  function NewClient(baseUrl: Option<string>, applicationId: Option<string>, config: Config.Settings): (c: Client)
    ensures c.config == config
    ensures !Truthy(baseUrl) ==> c.baseUrl == config.securityServiceUrl
    ensures Truthy(baseUrl) ==> c.baseUrl == baseUrl.value
    ensures !Truthy(applicationId) ==> c.applicationId == config.securityApplicationId
    ensures Truthy(applicationId) ==> c.applicationId == applicationId.value
  {
    Client(if Truthy(baseUrl) then baseUrl.value else config.securityServiceUrl,
           if Truthy(applicationId) then applicationId.value else config.securityApplicationId,
           config)
  }

  function ValidateEndpoint(c: Client): string { c.baseUrl + "/api/v1/validate" }
  function CheckEndpoint(c: Client): string { c.baseUrl + "/api/v1/validate/check" }
  function ApiKeyEndpoint(c: Client): string { c.baseUrl + "/api/v1/apikeys/validate" }

  // ---------------------------------------------------------------------------
  // Replies

  function NetworkAttempt(o: HttpOutcome): Attempt
    requires !o.Response?
  {
    match o
    case TimedOut(e) => NetworkError(TimeoutKind, e)
    case ConnectionFailed(e) => NetworkError(ConnectionKind, e)
    case RequestFailed(e) => NetworkError(OtherRequestKind, e)
  }

  /** `return response.json()`. */
  function DecodeBody(d: Decoded): Attempt {
    match d
    case Parsed(obj) => Returned(obj)
    case Undecodable(e) => NetworkError(OtherRequestKind, e)
  }

  /** `error_data = response.json() if response.content else {}`, then raising
      `error_data.get("message", default)`. */
  function Complaint(text: string, json: Decoded, default: string): Attempt {
    if text == "" then Rejected(default)
    else match json
      case Parsed(obj) => Rejected(obj.message.GetOr(default))
      case Undecodable(e) => NetworkError(OtherRequestKind, e)
  }

  function StatusMessage(status: int): string {
    "Security service error: " + IntToString(status)
  }

  /** The text of a reply body, cut to its first 200 characters. */
  function Excerpt(text: string): string {
    if |text| <= 200 then text else text[..200]
  }

  /** An unexpected status with the body's message, or, when the body does not decode,
      the status and the start of the body. */
  function UnexpectedStatus(status: int, text: string, json: Decoded): (a: Attempt)
    ensures a.Rejected?
  {
    match json
    case Parsed(obj) => Rejected(obj.message.GetOr(StatusMessage(status)))
    case Undecodable(_) => Rejected(StatusMessage(status) + " - " + Excerpt(text))
  }

  const TokenInvalidMessage: string := "Token is invalid or expired"
  const AccessDeniedMessage: string := "Access denied"
  const KeyDeniedMessage: string := "API key is invalid or does not have access"

  /** The reply handling of `validate_token`. */
  function TokenAttempt(o: HttpOutcome): Attempt {
    if !o.Response? then NetworkAttempt(o)
    else if o.status == 200 then DecodeBody(o.json)
    else if o.status == 401 then Complaint(o.text, o.json, TokenInvalidMessage)
    else if o.status == 403 then Complaint(o.text, o.json, AccessDeniedMessage)
    else UnexpectedStatus(o.status, o.text, o.json)
  }

  /** The reply handling of `validate_api_key`: a 401 is an unexpected status here. */
  function ApiKeyAttempt(o: HttpOutcome): Attempt {
    if !o.Response? then NetworkAttempt(o)
    else if o.status == 200 then DecodeBody(o.json)
    else if o.status == 403 then Complaint(o.text, o.json, KeyDeniedMessage)
    else UnexpectedStatus(o.status, o.text, o.json)
  }

  /** The message raised for a `requests` exception. */
  function FailureMessage(kind: NetKind, error: string): string {
    if kind == TimeoutKind then "Timeout connecting to security service: " + error
    else "Failed to connect to security service: " + error
  }

  /** The end of a validator that re-raises every failure as `SecurityServiceError`. */
  function Raise(a: Attempt): (r: Result<Json, string>)
    ensures a.Returned? <==> r.Ok?
    ensures a.Returned? ==> r.value == a.body
    ensures a.Rejected? ==> r == Err(a.message)
    ensures a.NetworkError? ==> r == Err(FailureMessage(a.kind, a.error))
  {
    match a
    case Returned(b) => Ok(b)
    case Rejected(m) => Err(m)
    case NetworkError(k, e) => Err(FailureMessage(k, e))
  }

  // ---------------------------------------------------------------------------
  // API key format

  const BearerPrefix: string := "Bearer "

  /** `token.replace("Bearer ", "").strip()`. */
  function CleanToken(token: string): string {
    Strip(ReplaceAll(token, BearerPrefix, ""))
  }

  /** `is_api_key(token)`: a non-empty token that, with every "Bearer " removed and the
      whitespace around it stripped, starts with "sk_live_" or "sk_test_". */
  predicate IsApiKey(token: Option<string>) {
    Truthy(token) && HasKeyPrefix(CleanToken(token.value))
  }

  /** The two prefixes of the service's API keys. */
  predicate HasKeyPrefix(t: string) {
    StartsWith(t, "sk_live_") || StartsWith(t, "sk_test_")
  }

  /** Removing every "Bearer " from `"Bearer " + k` is removing every "Bearer " from `k`. */
  lemma {:induction false} BearerRemoved(k: string)
    ensures ReplaceAll(BearerPrefix + k, BearerPrefix, "") == ReplaceAll(k, BearerPrefix, "")
  {
    var s := BearerPrefix + k;
    assert OccursAt(s, BearerPrefix, 0) by { assert s[..|BearerPrefix|] == BearerPrefix; }
    assert IndexOf(s, BearerPrefix) == Some(0);
    assert s[|BearerPrefix|..] == k;
    assert Split(s, BearerPrefix) == [""] + Split(k, BearerPrefix);
    JoinCons("", Split(k, BearerPrefix), "");
  }

  /** A token without "Bearer " in it and without whitespace at either end is already
      clean. */
  lemma {:induction false} CleanTokenOfPlain(k: string)
    requires |k| > 0 && !Contains(k, BearerPrefix)
    requires !IsSpace(k[0]) && !IsSpace(k[|k| - 1])
    ensures CleanToken(k) == k
    ensures CleanToken(BearerPrefix + k) == k
  {
    CleanTokenFixed(k);
    BearerRemoved(k);
  }

  lemma {:induction false} CleanTokenFixed(k: string)
    requires |k| > 0 && !Contains(k, BearerPrefix)
    requires !IsSpace(k[0]) && !IsSpace(k[|k| - 1])
    ensures CleanToken(k) == k
  {
    ReplaceAllAbsent(k, BearerPrefix, "");
    StripUnspaced(k);
  }

  /** An absent or empty token is never an API key, and a "Bearer " in front of a token
      does not change the answer. */
  lemma {:induction false} IsApiKeyBearerBlind(k: string)
    ensures !IsApiKey(None) && !IsApiKey(Some(""))
    ensures IsApiKey(Some(BearerPrefix + k)) == IsApiKey(Some(k))
  {
    CleanTokenBearerBlind(k);
    if k == "" {
      CleanTokenOfEmpty();
      CleansToNothing(BearerPrefix + k);
    }
  }

  lemma {:induction false} CleanTokenBearerBlind(k: string)
    ensures CleanToken(BearerPrefix + k) == CleanToken(k)
  {
    BearerRemoved(k);
  }

  /** A token that cleans to nothing is not an API key. */
  lemma {:induction false} CleansToNothing(t: string)
    requires CleanToken(t) == ""
    ensures !IsApiKey(Some(t))
  {
  }

  lemma {:induction false} CleanTokenOfEmpty()
    ensures CleanToken("") == ""
  {
    assert IndexOf("", BearerPrefix) == None;
    assert Split("", BearerPrefix) == [""];
  }

  /** For a clean token, being an API key is exactly having one of the two prefixes. */
  lemma {:induction false} IsApiKeyOfPlain(k: string)
    requires |k| > 0 && !Contains(k, BearerPrefix)
    requires !IsSpace(k[0]) && !IsSpace(k[|k| - 1])
    ensures IsApiKey(Some(k)) <==> StartsWith(k, "sk_live_") || StartsWith(k, "sk_test_")
  {
    CleanTokenFixed(k);
    assert IsApiKey(Some(k)) == HasKeyPrefix(k);
  }

  // ---------------------------------------------------------------------------
  // The hardcoded key

  const NotConfiguredMessage: string := "Hardcoded API key not configured"
  const InvalidKeyMessage: string := "Invalid API key"
  const HardcodedSuccess: Json := Json(Some("API key validated successfully"), Some("hardcoded-key"), None)

  /** `validate_hardcoded_api_key(api_key)`: a missing key is reported before a
      mismatch; a match returns the fixed success body. */
  function ValidateHardcoded(key: string, hardcoded: Option<string>): (r: Result<Json, string>)
    ensures r.Ok? <==> Truthy(hardcoded) && key == hardcoded.value
    ensures r.Ok? ==> r.value == HardcodedSuccess && r.value.keyId == Some("hardcoded-key")
    ensures !Truthy(hardcoded) ==> r == Err(NotConfiguredMessage)
    ensures Truthy(hardcoded) && key != hardcoded.value ==> r == Err(InvalidKeyMessage)
  {
    if !Truthy(hardcoded) then Err(NotConfiguredMessage)
    else if key != hardcoded.value then Err(InvalidKeyMessage)
    else Ok(HardcodedSuccess)
  }

  // ---------------------------------------------------------------------------
  // validate_token

  const TokenNeedsServiceMessage: string :=
    "Token validation requires security service. "
    + "Use API key authentication (X-API-Key header) for standalone mode."

  /** One leading "Bearer " removed, if there is one. */
  function StripBearer(token: string): string {
    if StartsWith(token, BearerPrefix) then token[|BearerPrefix|..] else token
  }

  /** Only the first "Bearer " is removed, and a token without it is sent as it is. */
  lemma {:induction false} StripBearerOnce(t: string)
    ensures StripBearer(BearerPrefix + t) == t
    ensures !StartsWith(t, BearerPrefix) ==> StripBearer(t) == t
  {
    assert (BearerPrefix + t)[..|BearerPrefix|] == BearerPrefix;
  }

  /** `validate_token(token)`: refused without any request when the service is off;
      otherwise the token, without one leading "Bearer ", is posted to the validate
      endpoint and the reply decides. */
  function ValidateToken(c: Client, token: string, o: HttpOutcome): (v: Validation)
    ensures !c.config.enableSecurityService ==> v == Validation(Err(TokenNeedsServiceMessage), None)
    ensures c.config.enableSecurityService ==>
      v.request == Some(Request(ValidateEndpoint(c), StripBearer(token)))
    ensures c.config.enableSecurityService ==> v.result == Raise(TokenAttempt(o))
  {
    if !c.config.enableSecurityService then Validation(Err(TokenNeedsServiceMessage), None)
    else Validation(Raise(TokenAttempt(o)), Some(Request(ValidateEndpoint(c), StripBearer(token))))
  }

  /** The status table of `validate_token`. */
  lemma {:induction false} TokenStatuses(c: Client, token: string, status: int, text: string, json: Decoded)
    requires c.config.enableSecurityService
    ensures var r := ValidateToken(c, token, Response(status, text, json)).result;
      && (status == 200 && json.Parsed? ==> r == Ok(json.obj))
      && (status == 401 && text == "" ==> r == Err(TokenInvalidMessage))
      && (status == 401 && text != "" && json.Parsed? ==> r == Err(json.obj.message.GetOr(TokenInvalidMessage)))
      && (status == 403 && text == "" ==> r == Err(AccessDeniedMessage))
      && (status == 403 && text != "" && json.Parsed? ==> r == Err(json.obj.message.GetOr(AccessDeniedMessage)))
      && (status !in {200, 401, 403} && json.Parsed? ==> r == Err(json.obj.message.GetOr(StatusMessage(status))))
      && (status !in {200, 401, 403} && json.Undecodable? ==> r == Err(StatusMessage(status) + " - " + Excerpt(text)))
      && (status != 200 ==> r.Err?)
  {
  }

  /** A timeout or connection failure always raises, whatever hardcoded key is
      configured: `validate_token` has no fallback. */
  lemma {:induction false} TokenNetworkFailuresRaise(c: Client, token: string, o: HttpOutcome, key: Option<string>)
    requires c.config.enableSecurityService && !o.Response?
    ensures ValidateToken(c, token, o).result.Err?
    ensures o.TimedOut? ==> ValidateToken(c, token, o).result == Err("Timeout connecting to security service: " + o.error)
    ensures !o.TimedOut? ==> ValidateToken(c, token, o).result == Err("Failed to connect to security service: " + o.error)
    ensures ValidateToken(c, token, o) == ValidateToken(c.(config := c.config.(hardcodedApiKey := key)), token, o)
  {
  }

  // ---------------------------------------------------------------------------
  // quick_check

  /** The reply handling of `quick_check`: fixed messages for 401 and 403, and every
      `requests` exception reported as a failure to connect. */
  function CheckAttempt(o: HttpOutcome): Attempt {
    if !o.Response? then NetworkError(OtherRequestKind, o.error)
    else if o.status == 200 then DecodeBody(o.json)
    else if o.status == 401 then Rejected(TokenInvalidMessage)
    else if o.status == 403 then Rejected(AccessDeniedMessage)
    else match o.json
      case Parsed(obj) => Rejected(obj.message.GetOr(StatusMessage(o.status)))
      case Undecodable(_) => Rejected(StatusMessage(o.status))
  }

  /** `quick_check(token)`: the token, without one leading "Bearer ", is sent to the check
      endpoint whether or not the service is enabled. */
  function QuickCheck(c: Client, token: string, o: HttpOutcome): (v: Validation)
    ensures v.request == Some(Request(CheckEndpoint(c), StripBearer(token)))
    ensures v.result == Raise(CheckAttempt(o))
  {
    Validation(Raise(CheckAttempt(o)), Some(Request(CheckEndpoint(c), StripBearer(token))))
  }

  /** The status table of `quick_check`; unlike `validate_token`, the body of a 401 or 403
      is not read, and a timeout is reported as a failure to connect. */
  lemma {:induction false} QuickCheckStatuses(c: Client, token: string, o: HttpOutcome)
    ensures var r := QuickCheck(c, token, o).result;
      && (o.Response? && o.status == 200 && o.json.Parsed? ==> r == Ok(o.json.obj))
      && (o.Response? && o.status == 401 ==> r == Err(TokenInvalidMessage))
      && (o.Response? && o.status == 403 ==> r == Err(AccessDeniedMessage))
      && (o.Response? && o.status !in {200, 401, 403} && o.json.Undecodable? ==> r == Err(StatusMessage(o.status)))
      && (!o.Response? ==> r == Err("Failed to connect to security service: " + o.error))
  {
  }

  // ---------------------------------------------------------------------------
  // validate_api_key

  /** `validate_api_key(api_key)`: with the service off, exactly the hardcoded check and
      no request; otherwise the key is posted to the API-key endpoint, and when the
      exchange fails with a `requests` exception a configured hardcoded key that matches
      is accepted instead. */
  function ValidateApiKey(c: Client, key: string, o: HttpOutcome): (v: Validation)
    ensures !c.config.enableSecurityService ==>
      v == Validation(ValidateHardcoded(key, c.config.hardcodedApiKey), None)
    ensures c.config.enableSecurityService ==> v.request == Some(Request(ApiKeyEndpoint(c), key))
    ensures c.config.enableSecurityService && !ApiKeyAttempt(o).NetworkError? ==>
      v.result == Raise(ApiKeyAttempt(o))
    ensures c.config.enableSecurityService && ApiKeyAttempt(o).NetworkError? ==>
      && (v.result.Ok? <==> Truthy(c.config.hardcodedApiKey) && key == c.config.hardcodedApiKey.value)
      && (v.result.Ok? ==> v.result.value == HardcodedSuccess)
      && (v.result.Err? ==> v.result.error == FailureMessage(ApiKeyAttempt(o).kind, ApiKeyAttempt(o).error))
  {
    var hardcoded := c.config.hardcodedApiKey;
    if !c.config.enableSecurityService then Validation(ValidateHardcoded(key, hardcoded), None)
    else
      var request := Some(Request(ApiKeyEndpoint(c), key));
      match ApiKeyAttempt(o)
      case NetworkError(kind, e) =>
        if Truthy(hardcoded) && ValidateHardcoded(key, hardcoded).Ok? then
          Validation(ValidateHardcoded(key, hardcoded), request)
        else Validation(Err(FailureMessage(kind, e)), request)
      case a => Validation(Raise(a), request)
  }

  /** When the exchange fails with a `requests` exception, the key is accepted exactly
      when a hardcoded key is configured and matches, with the hardcoded success body;
      otherwise the original failure is raised. */
  lemma {:induction false} ApiKeyFallback(c: Client, key: string, o: HttpOutcome)
    requires c.config.enableSecurityService
    requires ApiKeyAttempt(o).NetworkError?
    ensures var r := ValidateApiKey(c, key, o).result;
      && (r.Ok? <==> Truthy(c.config.hardcodedApiKey) && key == c.config.hardcodedApiKey.value)
      && (r.Ok? ==> r.value == HardcodedSuccess)
      && (r.Err? ==> r.error == FailureMessage(ApiKeyAttempt(o).kind, ApiKeyAttempt(o).error))
  {
  }

  /** A reply the service gives (200 with a decodable body, 403, or any other status)
      never falls back: the hardcoded key has no say, and a 403 always raises. */
  lemma {:induction false} ApiKeyRepliesNeverFallBack(c: Client, key: string, o: HttpOutcome, other: Option<string>)
    requires c.config.enableSecurityService
    requires !ApiKeyAttempt(o).NetworkError?
    ensures ValidateApiKey(c, key, o) == ValidateApiKey(c.(config := c.config.(hardcodedApiKey := other)), key, o)
    ensures ValidateApiKey(c, key, o).result == Raise(ApiKeyAttempt(o))
    ensures o.Response? && o.status == 403 ==> ValidateApiKey(c, key, o).result.Err?
    ensures o.Response? && o.status == 200 ==> ValidateApiKey(c, key, o).result == Ok(o.json.obj)
  {
  }

  /** A 200 reply whose body does not decode counts as a `requests` exception, so even
      that falls back to the hardcoded key. */
  lemma {:induction false} UndecodableSuccessFallsBack(c: Client, key: string, text: string, e: string)
    requires c.config.enableSecurityService
    requires Truthy(c.config.hardcodedApiKey) && key == c.config.hardcodedApiKey.value
    ensures ValidateApiKey(c, key, Response(200, text, Undecodable(e))).result == Ok(HardcodedSuccess)
  {
  }
}
