/** Worked runs of the providers, stated as contracts: the client-credentials
    provider of "abc"/"xyz" against a token endpoint that answers with T1 or
    with an error, and an app-service provider seeded with H1. Time starts
    at `start`. */
module Scenarios {
  import opened Common
  import opened TokenCache
  import opened Headers
  import Latin1
  import Base64
  import OAuth
  import opened TokenProviders

  /** The Basic value sent for client id "abc" and secret "xyz". */
  lemma BasicAuthorizationExample()
    ensures OAuth.BasicAuthorization("abc", "xyz") == Ok("Basic YWJjOnh5eg==")
  {
    var bytes: seq<Latin1.Byte> := [97, 98, 99, 58, 120, 121, 122];
    assert Latin1.Encode("abc" + ":" + "xyz") == Some(bytes) by {
      var userPass := "abc:xyz";
      assert "abc" + ":" + "xyz" == userPass;
      assert forall i :: 0 <= i < |userPass| ==> userPass[i] as int == bytes[i];
      var e := Latin1.Encode(userPass);
      assert e.Some? && e.value == bytes;
    }
    assert Base64.Encode(bytes) == "YWJjOnh5eg==" by {
      assert Base64.EncodeGroup(97, 98, 99) == "YWJj" by {
        assert 97 / 4 == 24 && (97 % 4) * 16 + 98 / 16 == 22 && (98 % 16) * 4 + 99 / 64 == 9 && 99 % 64 == 35;
      }
      assert Base64.EncodeGroup(58, 120, 121) == "Onh5" by {
        assert 58 / 4 == 14 && (58 % 4) * 16 + 120 / 16 == 39 && (120 % 16) * 4 + 121 / 64 == 33 && 121 % 64 == 57;
      }
      assert Base64.EncodeFinal([122]) == "eg==" by {
        assert 122 / 4 == 30 && (122 % 4) * 16 == 32;
      }
      assert bytes[3..][3..] == [122];
      assert Base64.Encode(bytes[3..]) == "Onh5eg==";
    }
    assert "Basic " + "YWJjOnh5eg==" == "Basic YWJjOnh5eg==";
  }

  /** An outside world whose token endpoint always answers `body`; the
      interactive OAuth client is never used here. */
  function EndpointAnswering(body: JsonObject): OAuth.External {
    OAuth.External(_ => Err(ExternalError("not used")), _ => Ok(body))
  }

  /** A client-credentials provider gets T1, serves it from the cache 3590
      seconds later without a new request, and requests again after
      `invalidate_cache`. */
  method ClientCredentialsRun(host: Host, start: int) returns (first: Result<Token>, cachedHit: Result<Token>,
                                                              afterInvalidate: Result<Token>, ghost requests: nat)
    ensures first == Ok("T1") && cachedHit == Ok("T1") && afterInvalidate == Ok("T1")
    ensures requests == 2
  {
    var body := map["access_token" := JString("T1"), "expires_in" := JNumber(3600)];
    var ext := EndpointAnswering(body);
    var made := NewOAuthTokenProvider(host, "abc", Some("xyz"), Some("client_credentials"), None);
    assert made.Ok?;
    var p := made.value;
    first := p.Token(start, ext);
    cachedHit := p.Token(start + 3590, ext);
    p.InvalidateCache();
    afterInvalidate := p.Token(start + 3590, ext);
    requests := p.acquisitions;
  }

  /** An error answer propagates as an API error carrying the body, leaves
      the cache empty, and the next call asks again. */
  method ClientCredentialsErrorRun(host: Host, start: int) returns (first: Result<Token>, second: Result<Token>,
                                                                   ghost requests: nat)
    ensures first == Err(FoundryApiError(map["error" := JString("invalid_client")]))
    ensures second == first
    ensures requests == 2
  {
    var body := map["error" := JString("invalid_client")];
    var ext := EndpointAnswering(body);
    var made := NewOAuthTokenProvider(host, "abc", Some("xyz"), Some("client_credentials"), None);
    assert made.Ok?;
    var p := made.value;
    first := p.Token(start, ext);
    second := p.Token(start + 1, ext);
    requests := p.acquisitions;
  }

  /** Without a secret the client-credentials provider is refused when it
      is built. */
  method MissingSecretRun(host: Host) returns (made: Result<CachedTokenProvider>)
    ensures made == Err(TokenProviderConfigError(OAuth.ClientSecretRequiredMessage))
  {
    made := NewOAuthTokenProvider(host, "abc", None, Some("client_credentials"), None);
  }

  /** An app-service provider built from request headers holding H1 (the
      name in any case) serves H1 until ten seconds before the hour is up,
      then asks for a page refresh; with no hosting context it is refused. */
  method AppServiceRun(host: Host, start: int, ext: OAuth.External)
    returns (early: Result<Token>, late: Result<Token>, refused: Result<CachedTokenProvider>)
    ensures early == Ok("H1")
    ensures late == Err(TokenProviderConfigError(ExpiredMessage))
    ensures refused == Err(TokenProviderConfigError(NoHeaderTokenMessage))
  {
    var headers := [("x-foundry-accesstoken", "H1")];
    assert SameName("x-foundry-accesstoken", AccessTokenHeader);
    var made := NewAppServiceTokenProvider(host, start, None, Some(headers));
    assert made.Ok?;
    var p := made.value;
    early := p.Token(start + 3590, ext);
    late := p.Token(start + 3591, ext);
    refused := NewAppServiceTokenProvider(host, start, None, None);
  }
}
