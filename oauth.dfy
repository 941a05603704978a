/** The decision logic of the OAuth token provider: checking the
    configuration when the provider is built, choosing its scopes, building
    the client-credentials token request with its HTTP Basic authorization
    value, reading the token endpoint's answer, and dispatching an
    acquisition on the grant type. The external OAuth client and the token
    endpoint are functions handed in by the caller. */
module OAuth {
  import opened Common
  import Latin1
  import Base64

  /** The two grant types of FoundryOAuthGrantType. */
  datatype GrantType = AuthorizationCode | ClientCredentials

  function GrantTypeName(g: GrantType): string {
    match g
    case AuthorizationCode => "authorization_code"
    case ClientCredentials => "client_credentials"
  }

  /** The scopes used for the authorization-code grant when none are given. */
  const DefaultOAuthScopes: seq<string> := [
    "offline_access",
    "compass:view",
    "compass:edit",
    "compass:discover",
    "api:write-data",
    "api:read-data",
    "build2:run-build-using-service"
  ]

  /** An authorization-code provider built without scopes asks for exactly
      these seven. */
  lemma DefaultScopes()
    ensures ChooseScopes(AuthorizationCode, None) == DefaultOAuthScopes
    ensures |DefaultOAuthScopes| == 7 && DefaultOAuthScopes[0] == "offline_access"
    ensures forall i, j :: 0 <= i < j < |DefaultOAuthScopes| ==> DefaultOAuthScopes[i] != DefaultOAuthScopes[j]
  {
  }

  const ClientSecretRequiredMessage: string :=
    "You need to provide a client secret for the client credentials grant type."

  /** The grant type named by the constructor argument: a missing or empty
      one means authorization code; an unknown name is the enum's ValueError. */
  function ParseGrantType(name: Option<string>): (r: Result<GrantType>)
    ensures name.None? || name.value == "" ==> r == Ok(AuthorizationCode)
    ensures r.Ok? && name.Some? && name.value != "" ==> GrantTypeName(r.value) == name.value
    ensures r.Err? ==> name.Some? && r.error == InvalidGrantType(name.value)
    ensures name.Some? && (name.value == "authorization_code" || name.value == "client_credentials") ==> r.Ok?
  {
    var n := name.GetOr("");
    if n == "" || n == "authorization_code" then Ok(AuthorizationCode)
    else if n == "client_credentials" then Ok(ClientCredentials)
    else Err(InvalidGrantType(n))
  }

  /** The settings an OAuth provider keeps after construction. */
  datatype Config = Config(
    grantType: GrantType,
    clientId: string,
    clientSecret: Option<string>,
    scopes: seq<string>)

  /** The scopes a provider keeps: for authorization code the given ones,
      or the defaults only when none are given (given scopes replace the
      defaults); for client credentials the given ones, or none. */
  function ChooseScopes(grantType: GrantType, scopes: Option<seq<string>>): (r: seq<string>)
    ensures grantType == AuthorizationCode && scopes.None? ==> r == DefaultOAuthScopes
    ensures scopes.Some? ==> r == scopes.value
    ensures grantType == ClientCredentials ==> (r == [] <==> scopes.None? || scopes.value == [])
  {
    match grantType
    case AuthorizationCode => if scopes.Some? then scopes.value else DefaultOAuthScopes
    case ClientCredentials => if scopes.Some? && scopes.value != [] then scopes.value else []
  }

  /** The checks of the constructor: the grant type must be known, and the
      client-credentials grant needs a secret. */
  function Configure(clientId: string, clientSecret: Option<string>,
                     grantType: Option<string>, scopes: Option<seq<string>>): (r: Result<Config>)
    ensures r.Ok? <==> ParseGrantType(grantType).Ok? && !(ParseGrantType(grantType).value == ClientCredentials && clientSecret.None?)
    ensures r.Ok? ==> r.value.grantType == ParseGrantType(grantType).value
    ensures r.Ok? ==> r.value.clientId == clientId && r.value.clientSecret == clientSecret
    ensures r.Ok? ==> r.value.scopes == ChooseScopes(r.value.grantType, scopes)
    ensures r.Ok? && r.value.grantType == ClientCredentials ==> r.value.clientSecret.Some?
    ensures ParseGrantType(grantType).Err? ==> r == Err(ParseGrantType(grantType).error)
    ensures ParseGrantType(grantType) == Ok(ClientCredentials) && clientSecret.None? ==>
              r == Err(TokenProviderConfigError(ClientSecretRequiredMessage))
  {
    match ParseGrantType(grantType)
    case Err(e) => Err(e)
    case Ok(g) =>
      if g == ClientCredentials && clientSecret.None? then
        Err(TokenProviderConfigError(ClientSecretRequiredMessage))
      else
        Ok(Config(g, clientId, clientSecret, ChooseScopes(g, scopes)))
  }

  /** The value of the Authorization header for the token endpoint: HTTP
      Basic authentication (section 2 of RFC 7617), the base64 of the
      ISO-8859-1 bytes of "client id:secret". Characters outside ISO-8859-1
      are an encoding error. */
  function BasicAuthorization(clientId: string, clientSecret: string): (r: Result<string>)
    ensures r.Err? <==> !Latin1.Encodable(clientId + ":" + clientSecret)
    ensures r.Err? ==> r.error == UnicodeEncodeError
    ensures r.Ok? ==> |r.value| >= 6 && r.value[..6] == "Basic "
  {
    match Latin1.Encode(clientId + ":" + clientSecret)
    case None => Err(UnicodeEncodeError)
    case Some(bytes) => Ok("Basic " + Base64.Encode(bytes))
  }

  /** The Basic value carries the credentials without loss: the receiver
      decodes exactly "client id:secret" from it. */
  lemma BasicAuthorizationRecoversCredentials(clientId: string, clientSecret: string)
    requires BasicAuthorization(clientId, clientSecret).Ok?
    ensures var v := BasicAuthorization(clientId, clientSecret).value;
            Base64.Decode(v[6..]).Some? && Latin1.Decode(Base64.Decode(v[6..]).value) == clientId + ":" + clientSecret
  {
    var userPass := clientId + ":" + clientSecret;
    var bytes := Latin1.Encode(userPass).value;
    var v := BasicAuthorization(clientId, clientSecret).value;
    assert v[6..] == Base64.Encode(bytes);
    Base64.DecodeEncode(bytes);
    Latin1.DecodeEncode(userPass);
  }

  const TokenEndpointPath: string := "/multipass/api/oauth2/token"

  /** The form-encoded POST to the token endpoint (the HTTP layer turns
      `scope` into form fields). */
  datatype TokenRequest = TokenRequest(
    httpMethod: string,
    url: string,
    grantType: string,
    scope: seq<string>,
    contentType: string,
    authorization: string,
    timeoutSeconds: int)

  function ClientCredentialsRequest(host: Host, clientId: string, clientSecret: string,
                                    scopes: seq<string>): (r: Result<TokenRequest>)
    ensures r.Err? <==> BasicAuthorization(clientId, clientSecret).Err?
    ensures r.Err? ==> r.error == UnicodeEncodeError
    ensures r.Ok? ==> r.value.url == host.url + TokenEndpointPath
    ensures r.Ok? ==> r.value.httpMethod == "POST" && r.value.grantType == "client_credentials"
    ensures r.Ok? ==> r.value.scope == scopes && r.value.timeoutSeconds == 30
    ensures r.Ok? ==> r.value.contentType == "application/x-www-form-urlencoded"
    ensures r.Ok? ==> r.value.authorization == BasicAuthorization(clientId, clientSecret).value
  {
    match BasicAuthorization(clientId, clientSecret)
    case Err(e) => Err(e)
    case Ok(auth) =>
      Ok(TokenRequest("POST", host.url + TokenEndpointPath, "client_credentials", scopes,
                      "application/x-www-form-urlencoded", auth, 30))
  }

  /** Reads the token endpoint's decoded JSON body at time `now`: an "error"
      field is an API error carrying the whole body; otherwise the token is
      "access_token" and it expires "expires_in" seconds from now. Fields are
      read in that order, a missing one is a KeyError. */
  function HandleTokenResponse(body: JsonObject, now: int): (r: Result<Credential>)
    ensures "error" in body ==> r == Err(FoundryApiError(body))
    ensures r.Ok? ==> "error" !in body
    ensures r.Ok? ==> "access_token" in body && body["access_token"] == JString(r.value.token)
    ensures r.Ok? ==> "expires_in" in body && body["expires_in"] == JNumber(r.value.expiry - now)
    ensures ("error" !in body && "access_token" in body && body["access_token"].JString?
             && "expires_in" in body && body["expires_in"].JNumber?) ==> r.Ok?
    ensures "error" !in body && "access_token" !in body ==> r == Err(KeyError("access_token"))
    ensures "error" !in body && "access_token" in body && "expires_in" !in body ==> r == Err(KeyError("expires_in"))
    ensures ("error" !in body && "access_token" in body && "expires_in" in body
             && !(body["access_token"].JString? && body["expires_in"].JNumber?)) ==> r == Err(TypeError)
  {
    if "error" in body then Err(FoundryApiError(body))
    else if "access_token" !in body then Err(KeyError("access_token"))
    else if "expires_in" !in body then Err(KeyError("expires_in"))
    else
      match (body["access_token"], body["expires_in"])
      case (JString(token), JNumber(seconds)) => Ok(Credential(token, seconds + now))
      case _ => Err(TypeError)
  }

  /** The arguments handed to the external OAuth client for the
      authorization-code grant; no local web server is started. */
  datatype UserCredentialsQuery = UserCredentialsQuery(
    scopes: seq<string>,
    hostname: string,
    clientId: string,
    clientSecret: Option<string>,
    useLocalWebserver: bool)

  /** The outside world an acquisition talks to: the OAuth client's
      user-credentials call, and the token endpoint (the POST plus JSON
      decoding). Either may fail with any error, which then propagates. */
  datatype External = External(
    userCredentials: UserCredentialsQuery -> Result<Credential>,
    tokenEndpoint: TokenRequest -> Result<JsonObject>)

  /** The client-credentials acquisition: the token request, the
      endpoint's answer, and reading that answer. */
  function ClientCredentialsToken(host: Host, clientId: string, clientSecret: string, scopes: seq<string>,
                                  now: int, ext: External): (r: Result<Credential>)
    ensures ClientCredentialsRequest(host, clientId, clientSecret, scopes).Err? ==> r == Err(UnicodeEncodeError)
    ensures r.Ok? ==>
              var req := ClientCredentialsRequest(host, clientId, clientSecret, scopes);
              req.Ok? && ext.tokenEndpoint(req.value).Ok?
              && r == HandleTokenResponse(ext.tokenEndpoint(req.value).value, now)
    ensures var req := ClientCredentialsRequest(host, clientId, clientSecret, scopes);
            req.Ok? && ext.tokenEndpoint(req.value).Ok? ==> r == HandleTokenResponse(ext.tokenEndpoint(req.value).value, now)
    ensures var req := ClientCredentialsRequest(host, clientId, clientSecret, scopes);
            req.Ok? && ext.tokenEndpoint(req.value).Err? ==> r == Err(ext.tokenEndpoint(req.value).error)
    ensures forall body :: (ClientCredentialsRequest(host, clientId, clientSecret, scopes).Ok?
              && ext.tokenEndpoint(ClientCredentialsRequest(host, clientId, clientSecret, scopes).value) == Ok(body)
              && "error" in body) ==> r == Err(FoundryApiError(body))
  {
    match ClientCredentialsRequest(host, clientId, clientSecret, scopes)
    case Err(e) => Err(e)
    case Ok(req) =>
      match ext.tokenEndpoint(req)
      case Err(e) => Err(e)
      case Ok(body) => HandleTokenResponse(body, now)
  }

  /** `_request_token`: obtains a fresh credential according to the grant
      type. With two grant types the final "not implemented" branch is never
      reached: the three cases below cover every configuration. */
  function RequestToken(config: Config, host: Host, now: int, ext: External): (r: Result<Credential>)
    ensures config.grantType == AuthorizationCode ==>
              r == ext.userCredentials(UserCredentialsQuery(config.scopes, host.domain, config.clientId,
                                                            config.clientSecret, false))
    ensures config.grantType == ClientCredentials && config.clientSecret.Some? ==>
              r == ClientCredentialsToken(host, config.clientId, config.clientSecret.value, config.scopes, now, ext)
    ensures config.grantType == ClientCredentials && config.clientSecret.None? ==>
              r == Err(AttributeError(GrantTypeName(config.grantType)))
  {
    if config.grantType == AuthorizationCode then
      ext.userCredentials(UserCredentialsQuery(config.scopes, host.domain, config.clientId,
                                               config.clientSecret, false))
    else if config.grantType == ClientCredentials && config.clientSecret.Some? then
      ClientCredentialsToken(host, config.clientId, config.clientSecret.value, config.scopes, now, ext)
    else if config.clientSecret.None? then
      Err(AttributeError(GrantTypeName(config.grantType)))
    else
      Err(NotImplementedError(GrantTypeName(config.grantType)))
  }

  /** A configuration the constructor accepted always reaches one of the
      two real acquisitions, never the missing-secret error. */
  lemma ConfiguredRequestToken(clientId: string, clientSecret: Option<string>, grantType: Option<string>,
                               scopes: Option<seq<string>>, host: Host, now: int, ext: External)
    requires Configure(clientId, clientSecret, grantType, scopes).Ok?
    ensures var c := Configure(clientId, clientSecret, grantType, scopes).value;
            RequestToken(c, host, now, ext) ==
              if c.grantType == AuthorizationCode
              then ext.userCredentials(UserCredentialsQuery(c.scopes, host.domain, clientId, clientSecret, false))
              else ClientCredentialsToken(host, clientId, clientSecret.value, c.scopes, now, ext)
  {
  }
}
