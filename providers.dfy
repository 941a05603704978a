/** The token providers: the constant JWT provider, the caching provider
    with its two acquisition strategies (OAuth and the app-service header
    token), the bearer header they attach to outgoing requests, and the
    registry of built-in provider names. The clock is the parameter `now`
    (whole seconds); the OAuth client, the token endpoint and the hosting
    frameworks' inbound headers are inputs. */
module TokenProviders {
  import opened Common
  import opened TokenCache
  import opened Headers
  import OAuth

  /** The request header the providers set. */
  const AuthorizationHeader: string := "authorization"

  /** The value of that header for a token. */
  function BearerValue(token: Token): (v: string)
    ensures |v| == 7 + |token| && v[..7] == "Bearer " && v[7..] == token
  {
    "Bearer " + token
  }

  /** How a caching provider obtains a new credential. */
  datatype Strategy = OAuthStrategy(config: OAuth.Config) | AppServiceStrategy

  const ExpiredMessage: string := "Token is expired. Please refresh the web page."
  const NoHeaderTokenMessage: string := "Could not get Foundry token from flask/dash/streamlit headers."

  /** `_request_token` of each strategy: OAuth asks its grant type's source;
      the app-service token can never be renewed. */
  function Acquire(strategy: Strategy, host: Host, now: int, ext: OAuth.External): (r: Result<Credential>)
    ensures strategy.AppServiceStrategy? ==> r == Err(TokenProviderConfigError(ExpiredMessage))
    ensures strategy.OAuthStrategy? ==> r == OAuth.RequestToken(strategy.config, host, now, ext)
  {
    match strategy
    case OAuthStrategy(config) => OAuth.RequestToken(config, host, now, ext)
    case AppServiceStrategy => Err(TokenProviderConfigError(ExpiredMessage))
  }

  /** JWTTokenProvider: hands out the token it was built with. */
  class JwtTokenProvider {
    const host: Host
    const jwt: Token

    constructor (host: Host, jwt: Token)
      ensures this.host == host && this.jwt == jwt
    {
      this.host := host;
      this.jwt := jwt;
    }

    /** `token`: the constructed token, on every call, with no acquisition. */
    method Token() returns (t: Token)
      ensures t == jwt
    {
      t := jwt;
    }

    /** `requests_auth_handler`: sets the bearer header unless an
        authorization header is already there (in any case). Returns the
        header's value afterwards. */
    method RequestsAuthHandler(headers: CaseInsensitiveDict) returns (v: string)
      requires headers.Valid()
      modifies headers
      ensures headers.Valid()
      ensures old(headers.Get(AuthorizationHeader)).Some? ==>
                headers.store == old(headers.store) && v == old(headers.Get(AuthorizationHeader)).value
      ensures old(headers.Get(AuthorizationHeader)).None? ==>
                headers.store == old(headers.store)[Lower(AuthorizationHeader) := (AuthorizationHeader, BearerValue(jwt))]
      ensures headers.Get(AuthorizationHeader) == Some(v)
    {
      var t := Token();
      v := headers.SetDefault(AuthorizationHeader, BearerValue(t));
    }
  }

  /** CachedTokenProvider and its subclasses: the two cache fields, the
      acquisition strategy, and a ghost count of acquisitions made. */
  class CachedTokenProvider {
    const host: Host
    const strategy: Strategy
    var cached: Option<Token>
    var validUntil: int
    ghost var acquisitions: nat
    /** `_clock_skew`: kept for fidelity; `token` tests with the literal
        `RefreshMargin` and never reads it. */
    const clockSkew: int := 10

    /** The cache fields as a value. */
    function State(): Cache
      reads this
    {
      Cache(cached, validUntil)
    }

    constructor (host: Host, strategy: Strategy, initial: Cache)
      ensures this.host == host && this.strategy == strategy
      ensures State() == initial && acquisitions == 0
    {
      this.host := host;
      this.strategy := strategy;
      cached := initial.cached;
      validUntil := initial.validUntil;
      acquisitions := 0;
    }

    /** `invalidate_cache`: forgets the token, so the next call acquires. */
    method InvalidateCache()
      modifies this
      ensures State() == Invalidate(old(State()))
      ensures forall now :: !Usable(State(), now)
      ensures acquisitions == old(acquisitions)
    {
      cached := None;
      validUntil := -1;
    }

    /** `token`: hands out the cached token while it is usable; otherwise
        acquires once, caches the result and returns its token. A failed
        acquisition propagates and leaves both fields as they were. */
    method Token(now: int, ext: OAuth.External) returns (r: Result<Token>)
      modifies this
      ensures (r, State()) == TokenStep(old(State()), now, Acquire(strategy, host, now, ext))
      ensures Usable(old(State()), now) ==> r == Ok(old(cached).value) && State() == old(State())
      ensures acquisitions == old(acquisitions) + (if Usable(old(State()), now) then 0 else 1)
    {
      if cached.None? || cached.value == "" || validUntil < now + 10 {
        acquisitions := acquisitions + 1;
        var acquired := Acquire(strategy, host, now, ext);
        match acquired
        case Ok(cred) =>
          cached, validUntil := Some(cred.token), cred.expiry;
          r := Ok(cred.token);
        case Err(e) =>
          r := Err(e);
      } else {
        r := Ok(cached.value);
      }
    }

    /** `requests_auth_handler`: evaluates `token` first (so it may acquire
        even when the header is already set), then sets the bearer header
        unless an authorization header is already there. A failing `token`
        leaves the headers untouched. */
    method RequestsAuthHandler(headers: CaseInsensitiveDict, now: int, ext: OAuth.External) returns (r: Result<string>)
      requires headers.Valid()
      modifies this, headers
      ensures headers.Valid()
      ensures var step := TokenStep(old(State()), now, Acquire(strategy, host, now, ext));
              State() == step.1 && (r.Ok? <==> step.0.Ok?) && (r.Err? ==> r.error == step.0.error)
      ensures acquisitions == old(acquisitions) + (if Usable(old(State()), now) then 0 else 1)
      ensures r.Err? ==> headers.store == old(headers.store)
      ensures r.Ok? && old(headers.Get(AuthorizationHeader)).Some? ==>
                headers.store == old(headers.store) && r.value == old(headers.Get(AuthorizationHeader)).value
      ensures r.Ok? && old(headers.Get(AuthorizationHeader)).None? ==>
                r.value == BearerValue(TokenStep(old(State()), now, Acquire(strategy, host, now, ext)).0.value)
                && headers.store == old(headers.store)[Lower(AuthorizationHeader) := (AuthorizationHeader, r.value)]
      ensures r.Ok? ==> headers.Get(AuthorizationHeader) == Some(r.value)
    {
      var t := Token(now, ext);
      match t
      case Err(e) =>
        r := Err(e);
      case Ok(token) =>
        var v := headers.SetDefault(AuthorizationHeader, BearerValue(token));
        r := Ok(v);
    }
  }

  /** OAuthTokenProvider's constructor: the configuration checks, then a
      provider with an empty cache. */
  method NewOAuthTokenProvider(host: Host, clientId: string, clientSecret: Option<string>,
                               grantType: Option<string>, scopes: Option<seq<string>>)
    returns (r: Result<CachedTokenProvider>)
    ensures var config := OAuth.Configure(clientId, clientSecret, grantType, scopes);
            (r.Ok? <==> config.Ok?) && (r.Err? ==> r.error == config.error)
    ensures r.Ok? ==> var config := OAuth.Configure(clientId, clientSecret, grantType, scopes);
            fresh(r.value) && r.value.host == host && r.value.strategy == OAuthStrategy(config.value)
            && r.value.State() == Empty && r.value.acquisitions == 0
  {
    match OAuth.Configure(clientId, clientSecret, grantType, scopes)
    case Err(e) =>
      r := Err(e);
    case Ok(config) =>
      var p := new CachedTokenProvider(host, OAuthStrategy(config), Empty);
      r := Ok(p);
  }

  /** The header carrying the user's token into a hosted app. */
  const AccessTokenHeader: string := "X-Foundry-AccessToken"

  /** How long a header token is trusted from construction, in seconds. */
  const HeaderTokenLifetime: int := 3600

  /** The token one hosting framework's inbound headers offer: the header
      list must be there and non-empty, and the (case-insensitive) header
      value non-empty. */
  function HeaderToken(headers: Option<seq<Header>>): (r: Option<Token>)
    ensures r.Some? ==> r.value != "" && headers.Some? && LastMatch(headers.value, AccessTokenHeader) == r
    ensures (headers.Some? && LastMatch(headers.value, AccessTokenHeader).Some?
             && LastMatch(headers.value, AccessTokenHeader).value != "") ==> r.Some?
  {
    if headers.None? || |headers.value| == 0 then None
    else
      match LastMatch(headers.value, AccessTokenHeader)
      case Some(t) => if t != "" then Some(t) else None
      case None => None
  }

  /** The token the app-service provider starts with: the websocket headers
      are tried first, the request headers second. */
  function AppServiceToken(websocketHeaders: Option<seq<Header>>, requestHeaders: Option<seq<Header>>): (r: Option<Token>)
    ensures r.Some? ==> r.value != ""
    ensures r.Some? <==> HeaderToken(websocketHeaders).Some? || HeaderToken(requestHeaders).Some?
    ensures HeaderToken(websocketHeaders).Some? ==> r == HeaderToken(websocketHeaders)
    ensures HeaderToken(websocketHeaders).None? ==> r == HeaderToken(requestHeaders)
  {
    if HeaderToken(websocketHeaders).Some? then HeaderToken(websocketHeaders) else HeaderToken(requestHeaders)
  }

  /** AppServiceTokenProvider's constructor: seeds the cache with the first
      header token found, valid for an hour from `now`; without one it
      fails. */
  method NewAppServiceTokenProvider(host: Host, now: int, websocketHeaders: Option<seq<Header>>,
                                    requestHeaders: Option<seq<Header>>)
    returns (r: Result<CachedTokenProvider>)
    ensures r.Ok? <==> AppServiceToken(websocketHeaders, requestHeaders).Some?
    ensures r.Err? ==> r.error == TokenProviderConfigError(NoHeaderTokenMessage)
    ensures r.Ok? ==> (fresh(r.value) && r.value.host == host && r.value.strategy == AppServiceStrategy
                       && r.value.State() == Cache(AppServiceToken(websocketHeaders, requestHeaders), now + HeaderTokenLifetime)
                       && r.value.acquisitions == 0)
  {
    if websocketHeaders.Some? && |websocketHeaders.value| > 0 {
      var dict := new CaseInsensitiveDict(websocketHeaders.value);
      var token := dict.Get(AccessTokenHeader);
      StoreOfLookup(websocketHeaders.value, AccessTokenHeader);
      if token.Some? && token.value != "" {
        var p := new CachedTokenProvider(host, AppServiceStrategy, Cache(token, now + HeaderTokenLifetime));
        return Ok(p);
      }
    }
    if requestHeaders.Some? {
      var token := LastMatch(requestHeaders.value, AccessTokenHeader);
      if token.Some? && token.value != "" {
        var p := new CachedTokenProvider(host, AppServiceStrategy, Cache(token, now + HeaderTokenLifetime));
        return Ok(p);
      }
    }
    return Err(TokenProviderConfigError(NoHeaderTokenMessage));
  }

  /** An app-service provider built at `start` hands out its header token
      while `now + 10 <= start + 3600`, and fails with the refresh-the-page
      error from then on, leaving its fields alone either way. */
  lemma AppServiceTokenLifetime(token: Token, start: int, now: int, host: Host, ext: OAuth.External)
    requires token != ""
    ensures var c := Cache(Some(token), start + HeaderTokenLifetime);
            var out := TokenStep(c, now, Acquire(AppServiceStrategy, host, now, ext));
            out.1 == c
            && (out.0 == Ok(token) <==> now + RefreshMargin <= start + HeaderTokenLifetime)
            && (out.0 == Err(TokenProviderConfigError(ExpiredMessage)) <==> now + RefreshMargin > start + HeaderTokenLifetime)
  {
  }

  /** The classes TOKEN_PROVIDER_MAPPING can name: the three built-ins and
      whatever entry-point plugins contribute. */
  datatype ProviderClass = JwtProviderClass | OAuthProviderClass | AppServiceProviderClass | PluginClass(name: string)

  const BuiltinProviders: map<string, ProviderClass> :=
    map["jwt" := JwtProviderClass, "oauth" := OAuthProviderClass, "app_service" := AppServiceProviderClass]

  /** TOKEN_PROVIDER_MAPPING: the built-ins merged with the plugin entries,
      a plugin entry winning over a built-in of the same name. */
  function TokenProviderMapping(plugins: map<string, ProviderClass>): (m: map<string, ProviderClass>)
    ensures m.Keys == {"jwt", "oauth", "app_service"} + plugins.Keys
    ensures forall k :: k in plugins ==> m[k] == plugins[k]
    ensures "jwt" !in plugins ==> m["jwt"] == JwtProviderClass
    ensures "oauth" !in plugins ==> m["oauth"] == OAuthProviderClass
    ensures "app_service" !in plugins ==> m["app_service"] == AppServiceProviderClass
  {
    BuiltinProviders + plugins
  }
}
