/**
 * The SDK client: its endpoint, the configuration it hands to the HTTP
 * client, the polling timeout and the token it authenticates with, and the
 * static factories that build an authenticated instance.
 */
module Client {
  import opened PhpValues
  import opened Errors
  import opened MakesHttpRequests
  import opened Resources
  import opened ResourceObjects
  import ManagesTokens

  const DefaultEndpoint: string := "https://webservices-integrations.eagleview.com"
  const DefaultTimeout: int := 30

  /** The endpoint an instance uses: the one given, else the default. */
  function EndpointOf(endpoint: Option<string>): string {
    if endpoint.Some? then endpoint.value else DefaultEndpoint
  }

  /** The default headers of an authenticated instance. */
  function BearerHeaders(accessToken: string): seq<(string, string)> {
    [("Accept", "application/json"), ("Content-Type", "application/json"), ("Authorization", "Bearer " + accessToken)]
  }

  /** The value of the first header named `name`, if any. */
  function Header(headers: seq<(string, string)>, name: string): (r: Option<string>)
    ensures r.Some? <==> exists i :: 0 <= i < |headers| && headers[i].0 == name
  {
    if headers == [] then None
    else if headers[0].0 == name then Some(headers[0].1)
    else
      var r := Header(headers[1..], name);
      assert forall i :: 1 <= i < |headers| ==> headers[i] == headers[1..][i - 1];
      assert r.Some? ==> exists i :: 0 <= i < |headers[1..]| && headers[1..][i].0 == name;
      r
  }

  /** An authenticated instance sends JSON and exactly the bearer token it was given. */
  lemma BearerHeadersCarryToken(accessToken: string)
    ensures Header(BearerHeaders(accessToken), "Authorization") == Some("Bearer " + accessToken)
    ensures Header(BearerHeaders(accessToken), "Accept") == Some("application/json")
    ensures Header(BearerHeaders(accessToken), "Content-Type") == Some("application/json")
  {
    var h := BearerHeaders(accessToken);
    assert "Accept"[0] != "Content-Type"[0] && "Accept"[0] != "Authorization"[1];
    assert "Content-Type"[0] != "Authorization"[0];
    assert h[1..][0] == h[1] && h[1..][1..][0] == h[2];
    assert Header(h, "Authorization") == Header(h[1..], "Authorization") == Header(h[1..][1..], "Authorization");
  }

  /** `(string) $value`, as a property read from a resource. */
  function FieldString(f: Field): string {
    match f
    case Plain(v) => Stringify(v)
    case _ => "Array"
  }

  /** `$token->access_token` as it is concatenated into the header. */
  function AccessToken(token: Resource): string
    reads token
  {
    FieldString(CurrentField(token.props, "access_token"))
  }

  class EagleView {
    var endpoint: string
    /** The configuration of `$this->guzzle`. */
    var guzzle: ClientConfig
    /** Untyped in the source: `setTimeout` stores whatever it is given. */
    var timeout: Value
    var token: Resource?

    /** `new EagleView($endpoint)`: no default headers and no token. */
    constructor (endpoint: Option<string>)
      ensures this.endpoint == EndpointOf(endpoint)
      ensures guzzle == ClientConfig(this.endpoint, false, [])
      ensures Header(guzzle.headers, "Authorization").None?
      ensures GetTimeout() == Int(DefaultTimeout) && token == null
    {
      this.endpoint := EndpointOf(endpoint);
      guzzle := ClientConfig(EndpointOf(endpoint), false, []);
      timeout := Int(DefaultTimeout);
      token := null;
    }

    /** `withRawToken($token, $endpoint)`: a fresh instance sending the given bearer token. */
    static method WithRawToken(token: string, endpoint: Option<string>) returns (e: EagleView)
      ensures fresh(e)
      ensures e.endpoint == EndpointOf(endpoint) && e.token == null && e.GetTimeout() == Int(DefaultTimeout)
      ensures e.guzzle == ClientConfig(e.endpoint, false, BearerHeaders(token))
      ensures Header(e.guzzle.headers, "Authorization") == Some("Bearer " + token)
    {
      e := new EagleView(endpoint);
      e.guzzle := ClientConfig(e.endpoint, false, BearerHeaders(token));
      BearerHeadersCarryToken(token);
    }

    /** `withToken($token, $endpoint)`: a fresh instance holding the token and sending its access token. */
    static method WithToken(token: Resource, endpoint: Option<string>) returns (e: EagleView)
      requires token.shape == TokenShape
      ensures fresh(e)
      ensures e.endpoint == EndpointOf(endpoint) && e.token == token && e.GetTimeout() == Int(DefaultTimeout)
      ensures e.guzzle == ClientConfig(e.endpoint, false, BearerHeaders(AccessToken(token)))
      ensures Header(e.guzzle.headers, "Authorization") == Some("Bearer " + AccessToken(token))
    {
      e := new EagleView(endpoint);
      e.token := token;
      e.guzzle := ClientConfig(e.endpoint, false, BearerHeaders(AccessToken(e.token)));
      BearerHeadersCarryToken(AccessToken(token));
    }

    /** `post('Token', $options)` on this instance, then `new Token($response, $this)`. */
    method Grant(transport: Transport, decode: JsonDecoder, options: Entries) returns (r: Outcome<Resource>)
      ensures var spec := ManagesTokens.GrantToken(transport, guzzle, decode, this, options);
        (r.Ok? <==> spec.Ok?) && (r.Thrown? ==> r.error == spec.error)
      ensures var spec := ManagesTokens.GrantToken(transport, guzzle, decode, this, options);
        r.Ok? ==>
          fresh(r.value) && r.value.shape == TokenShape && r.value.sdk == this &&
          r.value.ToArray() == spec.value.attributes && r.value.props == spec.value.props
    {
      var response := Post(transport, guzzle, decode, "Token", options);
      match response
      case Thrown(e) =>
        return Thrown(e);
      case Ok(value) =>
        if !value.Arr? {
          return Thrown(TypeError);
        }
        r := Resource.New(TokenShape, value.entries, this);
    }

    /** `createToken`: the password grant, requested with this instance's configuration. */
    method CreateToken(transport: Transport, decode: JsonDecoder,
                       username: string, password: string, sourceId: string, clientSecret: string)
      returns (r: Outcome<Resource>)
      ensures var spec := ManagesTokens.CreateToken(transport, guzzle, decode, this, username, password, sourceId, clientSecret);
        (r.Ok? <==> spec.Ok?) && (r.Thrown? ==> r.error == spec.error)
      ensures var spec := ManagesTokens.CreateToken(transport, guzzle, decode, this, username, password, sourceId, clientSecret);
        r.Ok? ==>
          fresh(r.value) && r.value.shape == TokenShape && r.value.sdk == this &&
          r.value.ToArray() == spec.value.attributes && r.value.props == spec.value.props
    {
      r := Grant(transport, decode, ManagesTokens.CreateTokenOptions(username, password, sourceId, clientSecret));
    }

    /** `refreshToken`: the refresh-token grant, requested with this instance's configuration. */
    method RefreshToken(transport: Transport, decode: JsonDecoder,
                        refreshToken: string, sourceId: string, clientSecret: string)
      returns (r: Outcome<Resource>)
      ensures var spec := ManagesTokens.RefreshToken(transport, guzzle, decode, this, refreshToken, sourceId, clientSecret);
        (r.Ok? <==> spec.Ok?) && (r.Thrown? ==> r.error == spec.error)
      ensures var spec := ManagesTokens.RefreshToken(transport, guzzle, decode, this, refreshToken, sourceId, clientSecret);
        r.Ok? ==>
          fresh(r.value) && r.value.shape == TokenShape && r.value.sdk == this &&
          r.value.ToArray() == spec.value.attributes && r.value.props == spec.value.props
    {
      r := Grant(transport, decode, ManagesTokens.RefreshTokenOptions(refreshToken, sourceId, clientSecret));
    }

    /**
     * `login`: a plain instance requests the password grant, then a second,
     * fresh instance is built around the token. The request carries no
     * bearer header, and the token keeps referring to the first instance.
     */
    static method Login(transport: Transport, decode: JsonDecoder,
                        username: string, password: string, sourceId: string, clientSecret: string,
                        endpoint: Option<string>)
      returns (r: Outcome<EagleView>)
      ensures var response := transport(ClientConfig(EndpointOf(endpoint), false, []), POST, "Token",
                                        ManagesTokens.CreateTokenOptions(username, password, sourceId, clientSecret));
        (r.Ok? <==> ManagesTokens.Granted(response, decode)) &&
        (!IsSuccess(response.status) ==> r == Thrown(HandleRequestError(response, decode))) &&
        (IsSuccess(response.status) && r.Thrown? ==> r.error == TypeError || r.error.PropertyError?) &&
        (r.Ok? ==>
           fresh(r.value) && r.value.endpoint == EndpointOf(endpoint) && r.value.token != null &&
           r.value.token.shape == TokenShape && r.value.token.sdk != r.value &&
           r.value.token.ToArray() == SuccessValue(response.body, decode).entries &&
           r.value.guzzle == ClientConfig(EndpointOf(endpoint), false, BearerHeaders(AccessToken(r.value.token))))
    {
      var first := new EagleView(endpoint);
      ManagesTokens.GrantTokenOutcome(transport, first.guzzle, decode, first,
        ManagesTokens.CreateTokenOptions(username, password, sourceId, clientSecret));
      var token := first.CreateToken(transport, decode, username, password, sourceId, clientSecret);
      match token
      case Thrown(e) =>
        return Thrown(e);
      case Ok(t) =>
        var e := WithToken(t, endpoint);
        return Ok(e);
    }

    /**
     * `isTokenExpired(): bool`: true without a token. With one, the body ends
     * without returning, which PHP refuses for a `bool` return type.
     */
    function IsTokenExpired(): (r: Outcome<bool>)
      reads this
      ensures r.Ok? <==> token == null
      ensures r.Ok? ==> r.value
      ensures r.Thrown? ==> r.error == TypeError
    {
      if token == null then Ok(true) else Thrown(TypeError)
    }

    /**
     * `transformCollection($collection, $class, $extraData)`: each element
     * becomes a resource of the class built from `element + extraData`,
     * referring to this instance. `array_map` refuses a collection that is
     * not an array, and `+` refuses an extra that is not one, as soon as
     * there is an element to apply it to.
     */
    function TransformCollection(collection: Value, shape: Shape, extraData: Value): (r: Outcome<seq<(Key, Hydrated)>>)
      ensures !collection.Arr? ==> r == Thrown(TypeError)
      ensures collection.Arr? && extraData.Arr? ==>
        r == Resources.TransformCollection(shape, collection.entries, extraData.entries, this)
      ensures collection.Arr? && !extraData.Arr? ==>
        (r.Ok? <==> collection.entries == []) && (r.Ok? ==> r.value == []) && (r.Thrown? ==> r.error == TypeError)
    {
      if !collection.Arr? then Thrown(TypeError)
      else if extraData.Arr? then Resources.TransformCollection(shape, collection.entries, extraData.entries, this)
      else if collection.entries == [] then Ok([])
      else Thrown(TypeError)
    }

    /** `setTimeout($timeout)`: stores the value, changes nothing else and returns the instance. */
    method SetTimeout(timeout: Value) returns (self: EagleView)
      modifies this
      ensures self == this && GetTimeout() == timeout
      ensures endpoint == old(endpoint) && guzzle == old(guzzle) && token == old(token)
    {
      this.timeout := timeout;
      return this;
    }

    function GetTimeout(): Value
      reads this
    {
      timeout
    }
  }
}
