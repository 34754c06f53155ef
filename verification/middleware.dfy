/** The authentication decorators (app/api/middleware.py). `require_auth` picks one
    credential path from the request headers and the configuration, calls at most one
    validator and either runs the route with an identity or answers 401/500;
    `optional_auth` takes the same path but always runs the route. The validators are
    parameters; `ClientKeyCheck` and `ClientTokenCheck` plug in the security client. */
module Middleware {
  import opened Wrappers
  import opened Strings
  import SecurityClient

  /** The `X-API-Key` and `Authorization` request headers. */
  datatype Headers = Headers(apiKey: Option<string>, authorization: Option<string>)

  /** An exception a validator raises: `SecurityServiceError`, or anything else. */
  datatype Raised = ServiceError(message: string) | OtherException(message: string)

  /** A validator as the decorators see it: it returns the JSON body or raises. */
  type Validator = string -> Result<SecurityClient.Json, Raised>

  datatype AuthType = ApiKeyAuth | TokenAuth

  /** What a successful check stores on the request: `user_id`, `user_info`, `auth_type`. */
  datatype Identity = Identity(userId: Option<string>, info: SecurityClient.Json, authType: AuthType)

  /** The path a request takes: validate an API key, validate a token, or refuse with
      the given message before any validator is called. */
  datatype CredentialPath = KeyPath(key: string) | TokenPath(token: string) | Missing(message: string)

  /** What `require_auth` does: run the route with an identity, or answer with a status
      and an error body. */
  datatype Decision = Admitted(identity: Identity) | Refused(status: int, error: string, message: string)

  const StandaloneMissingMessage: string := "Missing X-API-Key header or Authorization header with API key"
  const HeaderMissingMessage: string := "Missing Authorization header or X-API-Key header"

  /** The API key the request carries: the `X-API-Key` header, or, when that is empty or
      absent, the cleaned `Authorization` header if the service is off or it looks like
      an API key. */
  function ApiKeyCandidate(h: Headers, enabled: bool): Option<string> {
    if !Truthy(h.apiKey) && Truthy(h.authorization) then
      var token := SecurityClient.CleanToken(h.authorization.value);
      if !enabled || SecurityClient.IsApiKey(Some(token)) then Some(token) else h.apiKey
    else h.apiKey
  }

  /** The credential path of both decorators. */
  function PathOf(h: Headers, enabled: bool): CredentialPath {
    var key := ApiKeyCandidate(h, enabled);
    if Truthy(key) then KeyPath(key.value)
    else if !enabled then Missing(StandaloneMissingMessage)
    else if !Truthy(h.authorization) then Missing(HeaderMissingMessage)
    else TokenPath(h.authorization.value)
  }

  /** The `try`/`except` around a validator call in `require_auth`. */
  function Conclude(r: Result<SecurityClient.Json, Raised>, kind: AuthType): (d: Decision)
    ensures r.Ok? <==> d.Admitted?
    ensures r.Ok? ==> d.identity.info == r.value && d.identity.authType == kind
    ensures r.Ok? ==> d.identity.userId == (if kind == ApiKeyAuth then r.value.keyId else r.value.userId)
    ensures r.Err? && r.error.ServiceError? ==> d == Refused(401, "Authentication failed", r.error.message)
    ensures r.Err? && r.error.OtherException? ==>
      d == Refused(500, "Authentication error", "Unexpected error: " + r.error.message)
  {
    match r
    case Ok(body) =>
      Admitted(Identity(if kind == ApiKeyAuth then body.keyId else body.userId, body, kind))
    case Err(ServiceError(m)) => Refused(401, "Authentication failed", m)
    case Err(OtherException(m)) => Refused(500, "Authentication error", "Unexpected error: " + m)
  }

  /** `require_auth`: the route runs exactly when the chosen validator returns. */
  function RequireAuth(h: Headers, enabled: bool, checkKey: Validator, checkToken: Validator): (d: Decision)
    ensures PathOf(h, enabled).KeyPath? ==> d == Conclude(checkKey(PathOf(h, enabled).key), ApiKeyAuth)
    ensures PathOf(h, enabled).TokenPath? ==> d == Conclude(checkToken(PathOf(h, enabled).token), TokenAuth)
    ensures PathOf(h, enabled).Missing? ==>
      d == Refused(401, "Authentication required", PathOf(h, enabled).message)
  {
    match PathOf(h, enabled)
    case KeyPath(k) => Conclude(checkKey(k), ApiKeyAuth)
    case TokenPath(t) => Conclude(checkToken(t), TokenAuth)
    case Missing(m) => Refused(401, "Authentication required", m)
  }

  /** `optional_auth`: the identity stored on the request, if any; failures are
      swallowed and the route always runs. */
  function OptionalAuth(h: Headers, enabled: bool, checkKey: Validator, checkToken: Validator): Option<Identity> {
    var key := ApiKeyCandidate(h, enabled);
    if Truthy(key) then
      match checkKey(key.value)
      case Ok(body) => Some(Identity(body.keyId, body, ApiKeyAuth))
      case Err(_) => None
    else if Truthy(h.authorization) && enabled then
      match checkToken(h.authorization.value)
      case Ok(body) => Some(Identity(body.userId, body, TokenAuth))
      case Err(_) => None
    else None
  }

  /** `optional_auth` stores an identity exactly when `require_auth` would admit the
      request, and it is the same identity. */
  lemma {:induction false} OptionalAgreesWithRequired(h: Headers, enabled: bool, checkKey: Validator, checkToken: Validator)
    ensures var d := RequireAuth(h, enabled, checkKey, checkToken);
      OptionalAuth(h, enabled, checkKey, checkToken) == if d.Admitted? then Some(d.identity) else None
  {
  }

  /** A non-empty `X-API-Key` header wins; the `Authorization` header is then ignored. */
  lemma {:induction false} ApiKeyHeaderWins(h: Headers, enabled: bool, authorization: Option<string>)
    requires Truthy(h.apiKey)
    ensures PathOf(h, enabled) == KeyPath(h.apiKey.value)
    ensures PathOf(h, enabled) == PathOf(h.(authorization := authorization), enabled)
  {
  }

  /** Without an `X-API-Key`, the `Authorization` header, with every "Bearer " removed
      and stripped, is taken as an API key exactly when it is non-empty and the service
      is off or it has an API-key prefix. */
  lemma {:induction false} AuthorizationAsApiKey(h: Headers, enabled: bool)
    requires !Truthy(h.apiKey) && Truthy(h.authorization)
    ensures var token := SecurityClient.CleanToken(h.authorization.value);
      && (PathOf(h, enabled).KeyPath? <==> token != "" && (!enabled || SecurityClient.IsApiKey(Some(token))))
      && (PathOf(h, enabled).KeyPath? ==> PathOf(h, enabled).key == token)
  {
  }

  /** The token path is taken only with the service on, and hands the raw
      `Authorization` header, "Bearer " and all, to the token validator. */
  lemma {:induction false} TokenPathPassesRawHeader(h: Headers, enabled: bool)
    requires PathOf(h, enabled).TokenPath?
    ensures enabled && Truthy(h.authorization)
    ensures PathOf(h, enabled).token == h.authorization.value
    ensures !SecurityClient.IsApiKey(Some(SecurityClient.CleanToken(h.authorization.value)))
  {
  }

  /** A request refused for a missing credential is refused with 401 whatever the
      validators would say, so neither is consulted; this happens exactly when no API
      key was found and the service is off or there is no `Authorization` header. */
  lemma {:induction false} MissingCredentialCallsNoValidator(h: Headers, enabled: bool, k1: Validator, t1: Validator, k2: Validator, t2: Validator)
    ensures PathOf(h, enabled).Missing? <==>
      !Truthy(ApiKeyCandidate(h, enabled)) && (!enabled || !Truthy(h.authorization))
    ensures PathOf(h, enabled).Missing? ==>
      && RequireAuth(h, enabled, k1, t1) == RequireAuth(h, enabled, k2, t2)
      && RequireAuth(h, enabled, k1, t1).Refused?
      && RequireAuth(h, enabled, k1, t1).status == 401
  {
  }

  /** `require_auth` answers only 401 or 500, and 500 only when the validator it called
      raised something other than `SecurityServiceError`. */
  lemma {:induction false} RequireAuthStatuses(h: Headers, enabled: bool, checkKey: Validator, checkToken: Validator)
    ensures var d := RequireAuth(h, enabled, checkKey, checkToken);
      && (d.Refused? ==> d.status == 401 || d.status == 500)
      && (d.Refused? && d.status == 500 <==>
           || (PathOf(h, enabled).KeyPath? && checkKey(PathOf(h, enabled).key).Err?
               && checkKey(PathOf(h, enabled).key).error.OtherException?)
           || (PathOf(h, enabled).TokenPath? && checkToken(PathOf(h, enabled).token).Err?
               && checkToken(PathOf(h, enabled).token).error.OtherException?))
  {
  }

  // ---------------------------------------------------------------------------
  // With the security client as the validators

  function Lift(r: Result<SecurityClient.Json, string>): Result<SecurityClient.Json, Raised> {
    match r
    case Ok(body) => Ok(body)
    case Err(m) => Err(ServiceError(m))
  }

  /** `security_client.validate_api_key`, with `o` the exchange it makes. */
  function ClientKeyCheck(c: SecurityClient.Client, o: SecurityClient.HttpOutcome): Validator {
    key => Lift(SecurityClient.ValidateApiKey(c, key, o).result)
  }

  /** `security_client.validate_token`, with `o` the exchange it makes. */
  function ClientTokenCheck(c: SecurityClient.Client, o: SecurityClient.HttpOutcome): Validator {
    token => Lift(SecurityClient.ValidateToken(c, token, o).result)
  }

  /** The security client's failures all reach the decorators as `SecurityServiceError`. */
  lemma {:induction false} LiftedFailuresAreServiceErrors(r: Result<SecurityClient.Json, string>)
    ensures Lift(r).Err? ==> Lift(r).error.ServiceError?
  {
  }

  /** A validator that raises nothing but `SecurityServiceError`. */
  ghost predicate OnlyServiceErrors(v: Validator) {
    forall s :: v(s).Err? ==> v(s).error.ServiceError?
  }

  /** With validators that raise only `SecurityServiceError`, every refusal is a 401. */
  lemma {:induction false} ServiceErrorsAre401(h: Headers, enabled: bool, checkKey: Validator, checkToken: Validator)
    requires OnlyServiceErrors(checkKey) && OnlyServiceErrors(checkToken)
    ensures var d := RequireAuth(h, enabled, checkKey, checkToken);
      d.Refused? ==> d.status == 401
  {
    var p := PathOf(h, enabled);
    if p.KeyPath? {
      assert checkKey(p.key).Err? ==> checkKey(p.key).error.ServiceError?;
    } else if p.TokenPath? {
      assert checkToken(p.token).Err? ==> checkToken(p.token).error.ServiceError?;
    }
  }

  /** The security client's validators raise only `SecurityServiceError`. */
  lemma {:induction false} ClientChecksRaiseServiceErrors(c: SecurityClient.Client, ko: SecurityClient.HttpOutcome, to: SecurityClient.HttpOutcome)
    ensures OnlyServiceErrors(ClientKeyCheck(c, ko)) && OnlyServiceErrors(ClientTokenCheck(c, to))
  {
    forall s ensures ClientKeyCheck(c, ko)(s).Err? ==> ClientKeyCheck(c, ko)(s).error.ServiceError? {
      LiftedFailuresAreServiceErrors(SecurityClient.ValidateApiKey(c, s, ko).result);
    }
    forall s ensures ClientTokenCheck(c, to)(s).Err? ==> ClientTokenCheck(c, to)(s).error.ServiceError? {
      LiftedFailuresAreServiceErrors(SecurityClient.ValidateToken(c, s, to).result);
    }
  }

  /** With the security client's validators every refusal is a 401. */
  lemma {:induction false} ClientRefusalsAre401(h: Headers, c: SecurityClient.Client, ko: SecurityClient.HttpOutcome, to: SecurityClient.HttpOutcome)
    ensures var d := RequireAuth(h, c.config.enableSecurityService, ClientKeyCheck(c, ko), ClientTokenCheck(c, to));
      d.Refused? ==> d.status == 401
  {
    ClientChecksRaiseServiceErrors(c, ko, to);
    ServiceErrorsAre401(h, c.config.enableSecurityService, ClientKeyCheck(c, ko), ClientTokenCheck(c, to));
  }

  /** Standalone mode: with the service off, `Authorization: Bearer <key>` carrying the
      configured hardcoded key admits the request as that key, with no request sent,
      whatever the key looks like. */
  lemma {:induction false} StandaloneBearerHardcodedKey(c: SecurityClient.Client, k: string, ko: SecurityClient.HttpOutcome, to: SecurityClient.HttpOutcome)
    requires !c.config.enableSecurityService && c.config.hardcodedApiKey == Some(k)
    requires |k| > 0 && !Contains(k, SecurityClient.BearerPrefix)
    requires !IsSpace(k[0]) && !IsSpace(k[|k| - 1])
    ensures RequireAuth(Headers(None, Some(SecurityClient.BearerPrefix + k)), false, ClientKeyCheck(c, ko), ClientTokenCheck(c, to))
         == Admitted(Identity(Some("hardcoded-key"), SecurityClient.HardcodedSuccess, ApiKeyAuth))
  {
    BearerKeyPath(k);
    assert ClientKeyCheck(c, ko)(k) == Ok(SecurityClient.HardcodedSuccess);
  }

  /** With the service off, `Bearer <key>` takes the key path with the bare key. */
  lemma {:induction false} BearerKeyPath(k: string)
    requires |k| > 0 && !Contains(k, SecurityClient.BearerPrefix)
    requires !IsSpace(k[0]) && !IsSpace(k[|k| - 1])
    ensures PathOf(Headers(None, Some(SecurityClient.BearerPrefix + k)), false) == KeyPath(k)
  {
    SecurityClient.CleanTokenOfPlain(k);
  }

  /** With the service on, a bearer token that is not an API key goes to the token
      validator, and a service that cannot be reached refuses it with 401 even when a
      hardcoded key is configured. */
  lemma {:induction false} UnreachableServiceRefusesTokens(c: SecurityClient.Client, t: string, ko: SecurityClient.HttpOutcome, to: SecurityClient.HttpOutcome)
    requires c.config.enableSecurityService
    requires |t| > 0 && !Contains(t, SecurityClient.BearerPrefix)
    requires !IsSpace(t[0]) && !IsSpace(t[|t| - 1])
    requires !StartsWith(t, "sk_live_") && !StartsWith(t, "sk_test_")
    requires !to.Response?
    ensures var d := RequireAuth(Headers(None, Some(SecurityClient.BearerPrefix + t)), true, ClientKeyCheck(c, ko), ClientTokenCheck(c, to));
      d.Refused? && d.status == 401
  {
    var header := SecurityClient.BearerPrefix + t;
    BearerTokenPath(t);
    UnreachableTokenCheckFails(c, to, header);
    ClientChecksRaiseServiceErrors(c, ko, to);
    FailedTokenRefused(Headers(None, Some(header)), true, ClientKeyCheck(c, ko), ClientTokenCheck(c, to));
  }

  lemma {:induction false} UnreachableTokenCheckFails(c: SecurityClient.Client, to: SecurityClient.HttpOutcome, token: string)
    requires c.config.enableSecurityService && !to.Response?
    ensures ClientTokenCheck(c, to)(token).Err?
  {
    SecurityClient.TokenNetworkFailuresRaise(c, token, to, None);
  }

  /** On the token path, a token validator that raises `SecurityServiceError` gets the
      request refused with 401. */
  lemma {:induction false} FailedTokenRefused(h: Headers, enabled: bool, checkKey: Validator, checkToken: Validator)
    requires PathOf(h, enabled).TokenPath? && checkToken(PathOf(h, enabled).token).Err?
    requires OnlyServiceErrors(checkToken)
    ensures var d := RequireAuth(h, enabled, checkKey, checkToken);
      d.Refused? && d.status == 401
  {
    var p := PathOf(h, enabled);
    assert checkToken(p.token).error.ServiceError?;
  }

  /** A bearer token that is not an API key takes the token path, header and all. */
  lemma {:induction false} BearerTokenPath(t: string)
    requires |t| > 0 && !Contains(t, SecurityClient.BearerPrefix)
    requires !IsSpace(t[0]) && !IsSpace(t[|t| - 1])
    requires !StartsWith(t, "sk_live_") && !StartsWith(t, "sk_test_")
    ensures var header := SecurityClient.BearerPrefix + t;
      PathOf(Headers(None, Some(header)), true) == TokenPath(header)
  {
    SecurityClient.CleanTokenOfPlain(t);
    SecurityClient.IsApiKeyOfPlain(t);
    var header := SecurityClient.BearerPrefix + t;
    assert !SecurityClient.IsApiKey(Some(SecurityClient.CleanToken(header)));
  }
}
