/** Shared vocabulary of the token providers: optional values, results with
    the errors the providers raise, decoded JSON bodies, the Foundry host and
    the (token, expiry) pair every acquisition produces. */
module Common {

  datatype Option<+T> = None | Some(value: T) {
    function GetOr(default: T): T {
      match this
      case Some(v) => v
      case None => default
    }
  }

  /** A bearer token: an opaque string. */
  type Token = string

  /** One JSON value of a decoded token-endpoint body. Numbers are whole
      seconds; every other kind of value (null, booleans, arrays, objects,
      fractions) is folded into `JOther`. */
  datatype Json = JString(str: string) | JNumber(num: int) | JOther

  type JsonObject = map<string, Json>

  /** The exceptions the providers raise, as tags. */
  datatype Error =
    | TokenProviderConfigError(message: string)
    | FoundryApiError(response: JsonObject)
    | AttributeError(grantType: string)
    | NotImplementedError(grantType: string)
    | InvalidGrantType(value: string)   // the enum's ValueError for an unknown grant type
    | UnicodeEncodeError                // a client id or secret outside ISO-8859-1
    | KeyError(key: string)             // a field missing from the token-endpoint body
    | TypeError                         // a token-endpoint field of the wrong kind
    | ExternalError(reason: string)     // whatever the OAuth client or HTTP layer raised

  datatype Result<+T> = Ok(value: T) | Err(error: Error)

  /** The Foundry host: its bare domain and its base URL. */
  datatype Host = Host(domain: string, url: string)

  /** What an acquisition yields: a token and the absolute time, in whole
      seconds, until which it is valid. */
  datatype Credential = Credential(token: Token, expiry: int)
}
