# Foundry DevTools token providers, in Dafny

This project models the token providers of Foundry DevTools
(`foundry_dev_tools/config/token_provider.py`). They supply the bearer
token an API client sends to a Foundry host. The model covers:

- **Constant JWT provider** (`JWTTokenProvider`): hands out the token it was built with.
- **Caching provider** (`CachedTokenProvider`): keeps `_cached` and
  `_valid_until`. A `token` call trusts the cached token only while it is
  non-empty and `valid_until >= now + 10`. Otherwise it calls
  `_request_token` once and stores both parts of the answer. A failed
  acquisition propagates its error and changes nothing. `invalidate_cache`
  resets both fields.
- **OAuth provider** (`OAuthTokenProvider`):
  - The constructor checks the grant type and the secret and picks the scopes.
  - Acquisition either asks the external OAuth client (authorization-code
    grant) or POSTs to `{host}/multipass/api/oauth2/token` (client-credentials
    grant).
  - The client-credentials POST is authenticated with HTTP Basic (section 2 of
    RFC 7617): `"Basic "` + base64 (section 4 of RFC 4648) of the ISO-8859-1
    bytes of `client_id:secret`.
  - An `error` field in the answer is an API error. Otherwise the token is
    `access_token` and it expires `expires_in` seconds from now.
- **App-service provider** (`AppServiceTokenProvider`): at construction it
  looks up `X-Foundry-AccessToken` case-insensitively. It tries the websocket
  headers first, then the request headers. It caches the first non-empty
  value for 3600 seconds and fails without one. It can never renew.
- **Bearer header** (`requests_auth_handler`): sets
  `authorization: Bearer <token>` unless an authorization header is already
  present. It evaluates `token` first either way.
- **Registry** (`TOKEN_PROVIDER_MAPPING`): three built-in names, with plugin
  entries merged over them.

The clock is an integer parameter `now`, in whole seconds. The external
OAuth client and the token endpoint are functions passed in as
`OAuth.External`. The hosting frameworks' inbound headers are passed in as
two optional header lists. A ghost counter `acquisitions` on each caching
provider records how often `_request_token` ran, so "a cache hit makes no
request" can be stated.

Files:

- `common.dfy`: `Option`, `Result`, the error tags, JSON values, `Host`, `Credential`.
- `latin1.dfy`, `base64.dfy`: the two encodings behind the Basic value. Each has a decoder as its inverse.
- `headers.dfy`: case-insensitive header names; requests' `CaseInsensitiveDict` as a class.
- `oauth.dfy`: the OAuth decision logic.
- `cache.dfy`: the caching rule as functions of the two fields, and lemmas about runs of calls.
- `providers.dfy`: the provider classes, the constructors that can fail, the app-service lookup and the registry.
- `scenarios.dfy`: concrete runs of the providers, stated as contracts.

Where the code and its prose disagree, the model follows the code:

- **Given scopes replace the defaults.** The constructor's docstring says the
  given authorization-code scopes are "appended" to `DEFAULT_OAUTH_SCOPES`.
  The code uses the given scopes instead of the defaults; only a missing list
  falls back to them. See `OAuth.ChooseScopes`.
- **Unknown grant types fail at construction.** An unknown grant-type name
  fails in the constructor, when it is converted to the grant-type enum. It
  does not fail at acquisition time. With two grant types, the final
  "not implemented" branch of `_request_token` is never reached (see
  `OAuth.RequestToken`). A provider the constructor accepted never reaches
  the missing-secret branch either (see `OAuth.ConfiguredRequestToken`).
- **The freshness margin is the literal 10.** The test is `valid_until <
  now + 10`. The `_clock_skew` field (also 10) is never read. The model keeps
  the attribute as `CachedTokenProvider.clockSkew`, which nothing reads, and
  tests with `TokenCache.RefreshMargin`.
- **"At most one acquisition for two calls in a row" holds only for usable
  tokens.** The acquired token must be non-empty and valid for at least 10
  more seconds. An acquired empty token is cached but never trusted, so
  every later call acquires again (`TokenCache.EmptyTokenRefetches`).

## Model

| member | source | states |
|---|---|---|
| `Latin1.Encode` | libs/foundry-dev-tools/src/foundry_dev_tools/config/token_provider.py:171-174 | a string encodes exactly when every character is at most U+00FF; byte i is the code of character i |
| `Latin1.DecodeEncode` | libs/foundry-dev-tools/src/foundry_dev_tools/config/token_provider.py:171-174 | decoding the ISO-8859-1 bytes gives back the string |
| `Base64.SextetChar` | libs/foundry-dev-tools/src/foundry_dev_tools/config/token_provider.py:170 | every 6-bit value maps to a character of the RFC 4648 alphabet that decodes back to it and is never the pad |
| `Base64.Encode` | libs/foundry-dev-tools/src/foundry_dev_tools/config/token_provider.py:170 | `b64encode`: empty input gives the empty string and any other input at least one 4-character group; its exact length, alphabet and losslessness are the three lemmas below |
| `Base64.EncodeLength` | libs/foundry-dev-tools/src/foundry_dev_tools/config/token_provider.py:170-175 | n bytes encode to exactly 4 * ceil(n / 3) characters |
| `Base64.EncodeCharacters` | libs/foundry-dev-tools/src/foundry_dev_tools/config/token_provider.py:170-175 | every character of an encoding is from the alphabet, except that the last two may be the pad |
| `Base64.DecodeEncode` | libs/foundry-dev-tools/src/foundry_dev_tools/config/token_provider.py:170-175 | decoding an encoding gives back the bytes: base64 loses nothing |
| `Base64.TestVectors` | libs/foundry-dev-tools/src/foundry_dev_tools/config/token_provider.py:170 | the encoder agrees with the test vectors of section 10 of RFC 4648 |
| `Headers.LowerIdempotent` | libs/foundry-dev-tools/src/foundry_dev_tools/config/token_provider.py:202 | folding a header name twice is folding it once, so a stored key finds itself |
| `Headers.LastMatch` | libs/foundry-dev-tools/src/foundry_dev_tools/config/token_provider.py:212 | a header lookup finds nothing exactly when no name matches case-insensitively; a value it finds belongs to a matching name |
| `Headers.StoreOfLookup` | libs/foundry-dev-tools/src/foundry_dev_tools/config/token_provider.py:202 | a dictionary built from a header list answers a lookup exactly as the last case-insensitive match in the list |
| `Headers.CaseInsensitiveDict.constructor` | libs/foundry-dev-tools/src/foundry_dev_tools/config/token_provider.py:202 | building the dictionary from a header list, pair by pair, yields the store in which later pairs overwrite earlier ones of the same folded name |
| `Headers.CaseInsensitiveDict.Get` | libs/foundry-dev-tools/src/foundry_dev_tools/config/token_provider.py:202 | `get` finds a value exactly when some stored name matches the key in any case, and returns that entry's value |
| `Headers.CaseInsensitiveDict.SetDefault` | libs/foundry-dev-tools/src/foundry_dev_tools/config/token_provider.py:47 | `setdefault` leaves an existing entry (in any case) untouched and returns it; otherwise it stores the new value; afterwards the key finds the returned value |
| `OAuth.DefaultScopes` | libs/foundry-dev-tools/src/foundry_dev_tools/config/token_provider.py:97-105 | `DEFAULT_OAUTH_SCOPES` is seven distinct scopes, starting with `offline_access`, and is what an authorization-code provider without scopes asks for |
| `OAuth.ParseGrantType` | libs/foundry-dev-tools/src/foundry_dev_tools/config/token_provider.py:138 | a missing or empty grant type means authorization code; a known name gives its grant type; any other name is the enum's error |
| `OAuth.ChooseScopes` | libs/foundry-dev-tools/src/foundry_dev_tools/config/token_provider.py:144-150 | authorization code keeps the given scopes, and only a missing list becomes exactly `DEFAULT_OAUTH_SCOPES`; client credentials keeps the given scopes or none |
| `OAuth.Configure` | libs/foundry-dev-tools/src/foundry_dev_tools/config/token_provider.py:137-150 | construction succeeds iff the grant type is known and is not client credentials without a secret; an unknown grant type fails with the enum's own error; the missing secret is the configuration error with the source's message; the kept settings are the given id, secret, parsed grant type and chosen scopes |
| `OAuth.BasicAuthorization` | libs/foundry-dev-tools/src/foundry_dev_tools/config/token_provider.py:169-175 | the value fails exactly when "id:secret" has a character outside ISO-8859-1, and otherwise starts with "Basic " |
| `OAuth.BasicAuthorizationRecoversCredentials` | libs/foundry-dev-tools/src/foundry_dev_tools/config/token_provider.py:169-175 | a receiver decoding the Basic value (base64, then ISO-8859-1) obtains exactly "id:secret" |
| `OAuth.ClientCredentialsRequest` | libs/foundry-dev-tools/src/foundry_dev_tools/config/token_provider.py:163-178 | the token request is a POST to host URL + `/multipass/api/oauth2/token`, form-encoded, grant type client_credentials, the provider's scopes, the Basic value, 30-second timeout; it fails exactly when the Basic value cannot be built, with the encoding error |
| `OAuth.HandleTokenResponse` | libs/foundry-dev-tools/src/foundry_dev_tools/config/token_provider.py:179-181 | an `error` field is an API error carrying the whole body; a success yields `access_token` with expiry `expires_in + now`, and a body with no error and both fields well-typed always succeeds; a missing `access_token`, else a missing `expires_in`, is a KeyError naming it; ill-typed fields are a TypeError |
| `OAuth.ClientCredentialsToken` | libs/foundry-dev-tools/src/foundry_dev_tools/config/token_provider.py:162-181 | an unencodable id or secret is the encoding error; otherwise an endpoint error propagates unchanged and an endpoint answer is read by `HandleTokenResponse` (so an error body is the API error, and a well-formed body succeeds); success happens only that way |
| `OAuth.RequestToken` | libs/foundry-dev-tools/src/foundry_dev_tools/config/token_provider.py:152-187 | authorization code asks the OAuth client with the scopes, the host's domain, the id, the secret and no local web server; client credentials with a secret uses the token endpoint; client credentials without a secret is the attribute error |
| `OAuth.ConfiguredRequestToken` | libs/foundry-dev-tools/src/foundry_dev_tools/config/token_provider.py:182-187 | a provider the constructor accepted always reaches one of the two real acquisitions, never the missing-secret or not-implemented errors |
| `TokenCache.Usable` | libs/foundry-dev-tools/src/foundry_dev_tools/config/token_provider.py:92 | a cached token is trusted only if there is one, it is non-empty, and it stays valid for at least the 10-second margin from now |
| `TokenCache.UsableMonotone` | libs/foundry-dev-tools/src/foundry_dev_tools/config/token_provider.py:92 | a record usable at some time was usable at every earlier time; one not usable at some time is never usable later |
| `TokenCache.Invalidate` | libs/foundry-dev-tools/src/foundry_dev_tools/config/token_provider.py:79-82 | after invalidation no cached token is usable at any time |
| `TokenCache.TokenStep` | libs/foundry-dev-tools/src/foundry_dev_tools/config/token_provider.py:89-94 | a usable cache returns its token and changes nothing; a returned token is the one cached afterwards; a token obtained without a hit comes from a successful acquisition whose two parts are stored; a failure returns the acquisition's error and changes nothing; the fields change only on a successful acquisition |
| `TokenCache.CacheHitIgnoresAcquisition` | libs/foundry-dev-tools/src/foundry_dev_tools/config/token_provider.py:92-94 | on a cache hit the outcome does not depend on what the acquisition would have produced |
| `TokenCache.NoStaleToken` | libs/foundry-dev-tools/src/foundry_dev_tools/config/token_provider.py:92-94 | every returned token is either a cached token still valid for the margin, or freshly acquired |
| `TokenCache.EmptyTokenRefetches` | libs/foundry-dev-tools/src/foundry_dev_tools/config/token_provider.py:92-93 | an acquired empty token is never trusted by any later call |
| `TokenCache.Replay` | libs/foundry-dev-tools/src/foundry_dev_tools/config/token_provider.py:89-94 | a run of calls yields one result per call and at most one acquisition per call |
| `TokenCache.ReplayWhileFresh` | libs/foundry-dev-tools/src/foundry_dev_tools/config/token_provider.py:92-94 | while the cached record is usable at every call, a run acquires nothing, returns the cached token every time and leaves the fields as they were |
| `TokenCache.ReplayAcquiresOnce` | libs/foundry-dev-tools/src/foundry_dev_tools/config/token_provider.py:79-94 | from a state needing refresh (e.g. just invalidated), a run whose first acquisition yields a non-empty token valid past every later call acquires exactly once and returns that token every time |
| `TokenCache.ReplayFailuresKeepState` | libs/foundry-dev-tools/src/foundry_dev_tools/config/token_provider.py:93 | failing acquisitions never change the fields, so each failing call acquires again and returns its error |
| `TokenProviders.BearerValue` | libs/foundry-dev-tools/src/foundry_dev_tools/config/token_provider.py:47 | the header value is "Bearer " followed by exactly the token |
| `TokenProviders.Acquire` | libs/foundry-dev-tools/src/foundry_dev_tools/config/token_provider.py:221-223 | the app-service strategy always fails with the refresh-the-page configuration error; the OAuth strategy is `OAuth.RequestToken` |
| `TokenProviders.JwtTokenProvider.constructor` | libs/foundry-dev-tools/src/foundry_dev_tools/config/token_provider.py:54-62 | the provider keeps the host and the token it is given |
| `TokenProviders.JwtTokenProvider.Token` | libs/foundry-dev-tools/src/foundry_dev_tools/config/token_provider.py:64-67 | every call returns the constructed token; the provider has no mutable state, so it never acquires |
| `TokenProviders.JwtTokenProvider.RequestsAuthHandler` | libs/foundry-dev-tools/src/foundry_dev_tools/config/token_provider.py:42-48 | an existing authorization header (any case) stays untouched; otherwise it is set to exactly "Bearer " + token |
| `TokenProviders.CachedTokenProvider.constructor` | libs/foundry-dev-tools/src/foundry_dev_tools/config/token_provider.py:73-74 | a new provider holds the given cache fields and has made no acquisition |
| `TokenProviders.CachedTokenProvider.InvalidateCache` | libs/foundry-dev-tools/src/foundry_dev_tools/config/token_provider.py:79-82 | from any state, the fields become (None, -1), the next call must acquire, and no acquisition happens |
| `TokenProviders.CachedTokenProvider.Token` | libs/foundry-dev-tools/src/foundry_dev_tools/config/token_provider.py:89-94 | the result and new fields are `TokenStep` applied to the old fields and this strategy's acquisition; a hit returns the cached token and changes nothing; exactly one acquisition happens iff the cache was not usable |
| `TokenProviders.CachedTokenProvider.RequestsAuthHandler` | libs/foundry-dev-tools/src/foundry_dev_tools/config/token_provider.py:42-48 | the token call happens first, acquiring whenever the cache is not usable, even if the header is present; a failure leaves the headers untouched; an existing authorization header stays as it is; otherwise it becomes "Bearer " + the token |
| `TokenProviders.NewOAuthTokenProvider` | libs/foundry-dev-tools/src/foundry_dev_tools/config/token_provider.py:111-150 | construction fails exactly when `Configure` does, with its error; otherwise a fresh provider with the configured strategy, an empty cache (None, -1) and no acquisitions |
| `TokenProviders.HeaderToken` | libs/foundry-dev-tools/src/foundry_dev_tools/config/token_provider.py:202 | a header source yields a token exactly when it is present, non-empty, and its case-insensitive `X-Foundry-AccessToken` value is non-empty |
| `TokenProviders.AppServiceToken` | libs/foundry-dev-tools/src/foundry_dev_tools/config/token_provider.py:197-217 | the websocket headers' token when they yield one, otherwise the request headers' token (or none); a token is found iff either source yields one and is never empty |
| `TokenProviders.NewAppServiceTokenProvider` | libs/foundry-dev-tools/src/foundry_dev_tools/config/token_provider.py:195-219 | construction succeeds iff a header token is found; it then caches that token until now + 3600 with no acquisition; otherwise it is the configuration error with the source's message |
| `TokenProviders.AppServiceTokenLifetime` | libs/foundry-dev-tools/src/foundry_dev_tools/config/token_provider.py:221-223 | a header token seeded at `start` is returned iff now + 10 <= start + 3600; from then on every call fails with the refresh-the-page error; the fields never change |
| `TokenProviders.TokenProviderMapping` | libs/foundry-dev-tools/src/foundry_dev_tools/config/token_provider.py:228-233 | the names are "jwt", "oauth", "app_service" plus the plugins' names; a plugin entry overrides a built-in of the same name; otherwise the built-ins map to their classes |
| `Scenarios.BasicAuthorizationExample` | libs/foundry-dev-tools/src/foundry_dev_tools/config/token_provider.py:169-175 | client id "abc" with secret "xyz" gives "Basic YWJjOnh5eg==" |
| `Scenarios.ClientCredentialsRun` | libs/foundry-dev-tools/src/foundry_dev_tools/config/token_provider.py:162-181 | an endpoint answering T1 for 3600 s: the first call returns T1, a call 3590 s later returns T1 from the cache, and a call after invalidation requests again (two requests in all) |
| `Scenarios.ClientCredentialsErrorRun` | libs/foundry-dev-tools/src/foundry_dev_tools/config/token_provider.py:179-180 | an `invalid_client` answer is an API error carrying the body; the cache stays empty, so the next call requests again |
| `Scenarios.MissingSecretRun` | libs/foundry-dev-tools/src/foundry_dev_tools/config/token_provider.py:141-143 | client credentials without a secret is refused at construction |
| `Scenarios.AppServiceRun` | libs/foundry-dev-tools/src/foundry_dev_tools/config/token_provider.py:195-223 | a header token H1 (name in lower case) is served until 3590 s after construction and refused with the refresh error a second later; no hosting context means construction fails |

## Left out

- The abstract placeholders `TokenProvider.token` (lines 36-40) and `CachedTokenProvider._request_token` (lines 84-87) are not modelled. They only raise `NotImplementedError`. The model's providers form a closed set of concrete kinds (`Strategy`), so nothing can reach them.
- Subclassing is not modelled. `OAuthTokenProvider` and `AppServiceTokenProvider` are one class, `CachedTokenProvider`, with a constant `strategy` field. Their fallible constructors are the methods `NewOAuthTokenProvider` and `NewAppServiceTokenProvider`, which return a `Result`.
- The HTTP POST itself is not modelled: form encoding of the scope list, enforcing the 30-second timeout, transport errors and JSON decoding. The token endpoint is a function from the request record to a decoded body or an error.
- `palantir_oauth_client.get_user_credentials` is a foreign library. It is a function from its arguments to a (token, expiry) pair or an error.
- The streamlit and flask imports, the missing request context (`RuntimeError`) and `_get_websocket_headers` are framework plumbing. They become two optional header lists; a missing framework or context is `None`.
- The flask request headers belong to Werkzeug, which is not part of this model. Their lookup is modelled as the same case-insensitive lookup, with the last matching header winning.
- `entry_point_fdt_token_provider` is not part of this model. Its entries are an input map merged over the three built-ins.
- TokenProviders.CachedTokenProvider.Token: one `now` serves both the freshness test (line 92) and the expiry `expires_in + time.time()` (line 181). The source reads the clock a second time after the POST returns, possibly up to the 30-second timeout later. So the model's expiry counts from the freshness check, not from the arrival of the answer.
- Times are whole seconds passed in as `now`. Fractional timestamps from `time.time()` and `expiry.timestamp()` are not modelled.
- Thread safety is not modelled. The source's check-then-acquire sequence has no lock.
- `FoundryOAuthGrantType`, `Host` and the error classes are defined in files that are not part of this model.
  - The grant type is taken to have two members, with values `authorization_code` and `client_credentials`. An enum member passed to the constructor is represented by its value.
  - Errors are tags. `AttributeError` and `NotImplementedError` carry the grant type's name instead of the formatted message.
- Header-name case folding is ASCII only. Python's full Unicode `str.lower` is not modelled.
- HandleTokenResponse: a non-string `access_token` is reported as `TypeError`. The source would cache and return such a value unchanged.
- HandleTokenResponse: an `expires_in` that is a fraction or a boolean is also reported as `TypeError`. Python would add such a value to the clock.
- A JSON body that is not an object is not modelled.
- JwtTokenProvider.Token: the laziness of `cached_property` is not modelled. The token never changes, so it is observable only as "the same token every time".
