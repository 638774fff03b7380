/**
 * The request pipeline the SDK client mixes in: how a payload reaches the
 * HTTP transport, how a response is read, how a failure status becomes an
 * exception, and the constant-interval polling loop `retry`.
 *
 * The transport (a Guzzle client) and the JSON decoder are parameters: the
 * transport maps the client configuration, the verb, the URI and the option
 * array to a response; the decoder maps a body to the value `json_decode`
 * would return (null for invalid JSON).
 */
module MakesHttpRequests {
  import opened PhpValues
  import opened Errors
  import ApiServerExceptions

  datatype Verb = GET | POST | PUT | DELETE

  /** The two parts of a response the SDK reads. */
  datatype Response = Response(status: int, body: string)

  /** The configuration the client hands to Guzzle: base URI, `http_errors`, default headers. */
  datatype ClientConfig = ClientConfig(baseUri: string, httpErrors: bool, headers: seq<(string, string)>)

  type Transport = (ClientConfig, Verb, string, Entries) -> Response
  type JsonDecoder = string -> Value

  /**
   * What `request` hands to the transport as its option array: a non-empty
   * GET payload becomes its query string, everything else passes unchanged.
   */
  function TransportOptions(verb: Verb, payload: Entries): Entries {
    if payload != [] && verb == GET then [(StrKey("query"), Arr(payload))] else payload
  }

  /** The option array is rewritten exactly when the verb is GET and the payload is non-empty. */
  lemma TransportOptionsRewritesOnlyGet(verb: Verb, payload: Entries)
    ensures TransportOptions(verb, payload) != payload <==> verb == GET && payload != []
  {
    if verb == GET && payload != [] {
      assert payload[0] in payload;
      assert payload[0].1 != Arr(payload);
    }
  }

  predicate IsSuccess(status: int) {
    200 <= status <= 299
  }

  /** What a successful call returns: the decoded body when truthy, else the raw body. */
  function SuccessValue(body: string, decode: JsonDecoder): Value {
    var decoded := decode(body);
    if Truthy(decoded) then decoded else Str(body)
  }

  /**
   * `handleRequestError`: the exception thrown for a failure response. Its
   * result is an Error, not an Outcome: every path throws.
   */
  function HandleRequestError(response: Response, decode: JsonDecoder): (e: Error)
    ensures e.ValidationException? <==> response.status == 422
    ensures e.NotFoundException? <==> response.status == 404
    ensures e.FailedActionException? <==> response.status == 400
    ensures e.ApiServerException? <==> response.status >= 500
    ensures e.GenericException? <==>
      response.status < 500 && response.status != 400 && response.status != 404 && response.status != 422
    ensures e.ValidationException? ==> e.errors == decode(response.body)
    ensures e.FailedActionException? ==> e.body == response.body
    ensures e.ApiServerException? ==>
      e.message == ApiServerExceptions.ForResponseMessage(response.status, response.body)
    ensures e.ApiServerException? ==>
      ApiServerExceptions.ParseMessage(e.message) == Some((response.status, response.body))
    ensures e.GenericException? ==> e.message == response.body
  {
    if response.status == 422 then ValidationException(decode(response.body))
    else if response.status == 404 then NotFoundException
    else if response.status == 400 then FailedActionException(response.body)
    else if response.status >= 500 then
      ApiServerExceptions.ParseForResponseMessage(response.status, response.body);
      ApiServerException(ApiServerExceptions.ForResponseMessage(response.status, response.body))
    else GenericException(response.body)
  }

  /** How `request` reads the response the transport returned. */
  function Interpret(response: Response, decode: JsonDecoder): (r: Outcome<Value>)
    ensures r.Ok? <==> IsSuccess(response.status)
    ensures r.Ok? ==> r.value == SuccessValue(response.body, decode)
    ensures r.Thrown? ==> r.error == HandleRequestError(response, decode)
  {
    if response.status < 200 || response.status > 299 then Thrown(HandleRequestError(response, decode))
    else Ok(SuccessValue(response.body, decode))
  }

  /**
   * A successful call returns a falsy value only when the decoded body is
   * falsy and the raw body itself is a falsy string ("" or "0").
   */
  lemma SuccessValueFalsy(response: Response, decode: JsonDecoder)
    requires IsSuccess(response.status)
    ensures !Truthy(Interpret(response, decode).value) <==>
      !Truthy(decode(response.body)) && (response.body == "" || response.body == "0")
  {
  }

  /** `request`: one transport call, then the response is interpreted. */
  function Request(transport: Transport, config: ClientConfig, decode: JsonDecoder,
                   verb: Verb, uri: string, payload: Entries): Outcome<Value>
  {
    Interpret(transport(config, verb, uri, TransportOptions(verb, payload)), decode)
  }

  /** `get`: the parameters reach the transport as the query, unless there are none. */
  function Get(transport: Transport, config: ClientConfig, decode: JsonDecoder,
               uri: string, params: Entries): (r: Outcome<Value>)
    ensures params == [] ==> r == Interpret(transport(config, GET, uri, []), decode)
    ensures params != [] ==>
      r == Interpret(transport(config, GET, uri, [(StrKey("query"), Arr(params))]), decode)
  {
    Request(transport, config, decode, GET, uri, params)
  }

  /** `post`: the payload reaches the transport unchanged. */
  function Post(transport: Transport, config: ClientConfig, decode: JsonDecoder,
                uri: string, payload: Entries): (r: Outcome<Value>)
    ensures r == Interpret(transport(config, POST, uri, payload), decode)
  {
    Request(transport, config, decode, POST, uri, payload)
  }

  /** `put`: the payload reaches the transport unchanged. */
  function Put(transport: Transport, config: ClientConfig, decode: JsonDecoder,
               uri: string, payload: Entries): (r: Outcome<Value>)
    ensures r == Interpret(transport(config, PUT, uri, payload), decode)
  {
    Request(transport, config, decode, PUT, uri, payload)
  }

  /** `delete`: the payload reaches the transport unchanged. */
  function Delete(transport: Transport, config: ClientConfig, decode: JsonDecoder,
                  uri: string, payload: Entries): (r: Outcome<Value>)
    ensures r == Interpret(transport(config, DELETE, uri, payload), decode)
  {
    Request(transport, config, decode, DELETE, uri, payload)
  }

  /** The first `n` calls returned falsy values, each before the timeout had passed. */
  ghost predicate KeptPolling(timeout: int, callback: nat -> Outcome<Value>, clock: nat -> int, n: nat) {
    forall j :: 0 <= j < n ==>
      callback(j).Ok? && !Truthy(callback(j).value) && clock(j + 1) - clock(0) < timeout
  }

  /** The interval `retry` sleeps between calls when none is given, in seconds. */
  const DefaultSleep := 5

  /**
   * `retry($timeout, $callback, $sleep)`. The callback's k-th call (from 0)
   * returns or throws as `callback(k)` says; an exception it throws leaves
   * `retry` at once. `clock(0)` is the start time read before the first
   * call and `clock(k)` the time read after the k-th call (from 1). Between
   * two such reads the loop sleeps and calls again, which takes at least
   * `sleep` seconds and, for the loop to end, at least one second. The method
   * returns the outcome and the number of calls made; the loop slept once
   * before every call but the first.
   */
  method Retry(timeout: int, callback: nat -> Outcome<Value>, sleep: int, clock: nat -> int)
    returns (r: Outcome<Value>, calls: nat)
    requires forall k: nat :: clock(k) <= clock(k + 1)
    requires forall k: nat :: 1 <= k ==> clock(k) + 1 <= clock(k + 1) && clock(k) + sleep <= clock(k + 1)
    ensures calls >= 1
    ensures sleep < 0 ==> calls == 1
    ensures KeptPolling(timeout, callback, clock, calls - 1)
    ensures callback(calls - 1).Thrown? ==> r == callback(calls - 1)
    ensures r.Ok? <==> callback(calls - 1).Ok? && Truthy(callback(calls - 1).value)
    ensures r.Ok? ==> r.value == callback(calls - 1).value
    ensures r.Thrown? && callback(calls - 1).Ok? ==>
      (r.error == TimeoutException(callback(calls - 1).value) && clock(calls) - clock(0) >= timeout) ||
      (r.error == ValueError && sleep < 0 && clock(calls) - clock(0) < timeout)
  {
    var start := clock(0);
    var n: nat := 0;
    while true
      invariant KeptPolling(timeout, callback, clock, n)
      invariant n >= 1 ==> clock(n) + 1 <= clock(n + 1)
      invariant sleep < 0 ==> n == 0
      decreases if clock(n) - start < timeout then timeout - (clock(n) - start) else 0,
        if n == 0 then 1 else 0
    {
      var call := callback(n);
      if call.Thrown? {
        return call, n + 1;
      }
      var output := call.value;
      if Truthy(output) {
        return Ok(output), n + 1;
      }
      if clock(n + 1) - start >= timeout {
        return Thrown(TimeoutException(output)), n + 1;
      }
      if sleep < 0 {
        return Thrown(ValueError), n + 1;
      }
      n := n + 1;
    }
  }
}
