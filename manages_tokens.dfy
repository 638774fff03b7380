/**
 * The token actions: both `createToken` and `refreshToken` post a grant to
 * the `Token` endpoint with the integration's credentials as HTTP Basic
 * authentication, and hydrate a Token from what comes back.
 */
module ManagesTokens {
  import opened PhpValues
  import opened Errors
  import opened Utf8
  import Base64
  import opened MakesHttpRequests
  import opened Resources

  /** `base64_encode($sourceId . ':' . $clientSecret)`. */
  function BasicAuth(sourceId: string, clientSecret: string): string {
    Base64.Encode(Utf8.Encode(sourceId + ":" + clientSecret))
  }

  /**
   * How a server reads decoded Basic credentials (section 2 of RFC 7617): the
   * bytes before the first colon are the user id, the rest the password.
   */
  function SplitCredentials(bytes: seq<Byte>): (r: Option<(seq<Byte>, seq<Byte>)>)
    ensures r.Some? <==> Colon in bytes
  {
    if bytes == [] then None
    else if bytes[0] == Colon then Some(([], bytes[1..]))
    else
      match SplitCredentials(bytes[1..])
      case None => None
      case Some((user, password)) => Some(([bytes[0]] + user, password))
  }

  lemma {:induction false} SplitAtFirstColon(user: seq<Byte>, password: seq<Byte>)
    requires Colon !in user
    ensures SplitCredentials(user + [Colon] + password) == Some((user, password))
  {
    if user == [] {
      assert user + [Colon] + password == [Colon] + password;
    } else {
      assert user[0] in user;
      SplitAtFirstColon(user[1..], password);
      assert (user + [Colon] + password)[1..] == user[1..] + [Colon] + password;
      assert user == [user[0]] + user[1..];
    }
  }

  /**
   * The header carries both credentials recoverably: decoding it and splitting
   * at the first colon gives back the source id and the secret, provided the
   * source id has no colon of its own. A colon in the secret is harmless.
   */
  lemma BasicAuthRoundTrip(sourceId: string, clientSecret: string)
    requires forall i :: 0 <= i < |sourceId| ==> sourceId[i] != ':'
    ensures Base64.Decode(BasicAuth(sourceId, clientSecret)).Some?
    ensures SplitCredentials(Base64.Decode(BasicAuth(sourceId, clientSecret)).value) ==
      Some((Utf8.Encode(sourceId), Utf8.Encode(clientSecret)))
  {
    EncodeAppend(sourceId, ":" + clientSecret);
    EncodeAppend(":", clientSecret);
    ColonEncoding();
    assert sourceId + ":" + clientSecret == sourceId + (":" + clientSecret);
    var bytes := Utf8.Encode(sourceId + ":" + clientSecret);
    assert bytes == Utf8.Encode(sourceId) + [Colon] + Utf8.Encode(clientSecret);
    Base64.DecodeEncode(bytes);
    ColonOnlyFromColon(sourceId);
    SplitAtFirstColon(Utf8.Encode(sourceId), Utf8.Encode(clientSecret));
  }

  /** `'headers' => ['Authorization' => 'Basic ' . $basicAuth]`. */
  function AuthorizationHeaders(sourceId: string, clientSecret: string): Entries {
    [(StrKey("Authorization"), Str("Basic " + BasicAuth(sourceId, clientSecret)))]
  }

  /** The option array of `createToken`: the password grant. */
  function CreateTokenOptions(username: string, password: string, sourceId: string, clientSecret: string): Entries {
    [(StrKey("headers"), Arr(AuthorizationHeaders(sourceId, clientSecret))),
     (StrKey("form_params"), Arr([(StrKey("grant_type"), Str("password")),
                                  (StrKey("username"), Str(username)),
                                  (StrKey("password"), Str(password))]))]
  }

  /** The option array of `refreshToken`: the refresh-token grant. */
  function RefreshTokenOptions(refreshToken: string, sourceId: string, clientSecret: string): Entries {
    [(StrKey("headers"), Arr(AuthorizationHeaders(sourceId, clientSecret))),
     (StrKey("form_params"), Arr([(StrKey("grant_type"), Str("refresh_token")),
                                  (StrKey("refresh_token"), Str(refreshToken))]))]
  }

  /**
   * `new Token($response, $this)` for what `post` returned: a failure status
   * throws, a result that is not a non-empty array is refused by the
   * constructor's `array` parameter, and otherwise the decoded grant is
   * hydrated.
   */
  predicate IsTokenOutcome(r: Outcome<Hydrated>, response: Response, decode: JsonDecoder, sdk: object?) {
    var value := SuccessValue(response.body, decode);
    (!IsSuccess(response.status) ==> r == Thrown(HandleRequestError(response, decode))) &&
    (IsSuccess(response.status) && !value.Arr? ==> r == Thrown(TypeError)) &&
    (IsSuccess(response.status) && value.Arr? ==> r == Hydrate(TokenShape, value.entries, sdk))
  }

  /** `$this->post('Token', $options)`, then `new Token($response, $this)`. */
  function GrantToken(transport: Transport, config: ClientConfig, decode: JsonDecoder, sdk: object?, options: Entries): (r: Outcome<Hydrated>)
    ensures IsTokenOutcome(r, transport(config, POST, "Token", options), decode, sdk)
  {
    match Post(transport, config, decode, "Token", options)
    case Ok(response) => HydrateValue(TokenShape, response, sdk)
    case Thrown(e) => Thrown(e)
  }

  /** `createToken($username, $password, $sourceId, $clientSecret)`. */
  function CreateToken(transport: Transport, config: ClientConfig, decode: JsonDecoder, sdk: object?,
                       username: string, password: string, sourceId: string, clientSecret: string): (r: Outcome<Hydrated>)
    ensures IsTokenOutcome(r, transport(config, POST, "Token", CreateTokenOptions(username, password, sourceId, clientSecret)), decode, sdk)
  {
    GrantToken(transport, config, decode, sdk, CreateTokenOptions(username, password, sourceId, clientSecret))
  }

  /** `refreshToken($refreshToken, $sourceId, $clientSecret)`. */
  function RefreshToken(transport: Transport, config: ClientConfig, decode: JsonDecoder, sdk: object?,
                        refreshToken: string, sourceId: string, clientSecret: string): (r: Outcome<Hydrated>)
    ensures IsTokenOutcome(r, transport(config, POST, "Token", RefreshTokenOptions(refreshToken, sourceId, clientSecret)), decode, sdk)
  {
    GrantToken(transport, config, decode, sdk, RefreshTokenOptions(refreshToken, sourceId, clientSecret))
  }

  /** The response is a grant the SDK accepts: success, a non-empty array, usable property names. */
  predicate Granted(response: Response, decode: JsonDecoder) {
    var value := SuccessValue(response.body, decode);
    IsSuccess(response.status) && value.Arr? &&
    forall j :: 0 <= j < |value.entries| ==> !InvalidPropertyName(KeyName(value.entries[j].0))
  }

  /**
   * A grant becomes a Token exactly when the response is `Granted`; the Token
   * keeps the decoded grant as its payload and refers to the requesting SDK
   * instance. A failure other than the status's own is a type error or a
   * property-name error, and an empty JSON array is refused as the raw body
   * string it falls back to.
   */
  lemma GrantTokenOutcome(transport: Transport, config: ClientConfig, decode: JsonDecoder, sdk: object?, options: Entries)
    ensures var response := transport(config, POST, "Token", options);
      GrantToken(transport, config, decode, sdk, options).Ok? <==> Granted(response, decode)
    ensures var response := transport(config, POST, "Token", options);
      var r := GrantToken(transport, config, decode, sdk, options);
      r.Ok? ==>
        r.value.shape == TokenShape && r.value.sdk == sdk && r.value.attributes == SuccessValue(response.body, decode).entries
    ensures var response := transport(config, POST, "Token", options);
      var r := GrantToken(transport, config, decode, sdk, options);
      IsSuccess(response.status) && r.Thrown? ==> r.error == TypeError || r.error.PropertyError?
    ensures var response := transport(config, POST, "Token", options);
      IsSuccess(response.status) && decode(response.body) == Arr([]) ==>
        GrantToken(transport, config, decode, sdk, options) == Thrown(TypeError)
  {
    var response := transport(config, POST, "Token", options);
    var value := SuccessValue(response.body, decode);
    if IsSuccess(response.status) && value.Arr? {
      TokenFillFails(value.entries, sdk, 0, InitialProps(TokenShape));
    }
  }
}
