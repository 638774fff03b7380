# EagleView PHP SDK: a Dafny model of its core

The EagleView SDK is a thin PHP client for EagleView's measurement-ordering
REST API. This project models the part of it that has logic of its own:

- **Requests and errors** (`MakesHttpRequests`, `ApiServerExceptions`):
  - how a payload reaches the HTTP transport (a non-empty GET payload becomes the query);
  - that only 200–299 is success;
  - that a successful call returns the decoded JSON, or the raw body when the decoded value is falsy;
  - how `handleRequestError` turns every other status into an exception, in a fixed priority order, with the text of the 5xx message;
  - the polling loop `retry`, over an abstract clock.
- **Hydration** (`Resources`, `ResourceObjects`):
  - a resource stores its payload, then `fill` walks the payload in order;
  - each key's `standardizedFillMethodName` selects a custom fill method, which PHP looks up ignoring case, and every other key is assigned to the property it names;
  - Product's three fill methods: two hydrate nested product collections with `transformCollection`, one looks ids up in the measurement-request table;
  - Token declares four properties and has no fill method;
  - `transformTags`.
  - `Resources` states all of this on values. `ResourceObjects.Resource` is the object that fills itself with loops, and each of its methods is proved against those functions.
- **Measurement-request types** (`MeasurementRequests`): the five constants and their `toArray`.
- **Token grants** (`ManagesTokens`, `Base64`, `Utf8`):
  - the Basic credentials header: base 64 as in section 4 of RFC 4648, over the UTF-8 bytes of `sourceId:clientSecret`, read back as in section 2 of RFC 7617;
  - the two grant option arrays;
  - how the response becomes a Token.
- **The client** (`Client.EagleView`): endpoint, HTTP client configuration, timeout and token, with the named constructors `login`, `withToken` and `withRawToken`, plus `isTokenExpired`, `transformCollection` and the timeout accessors.

The model abstracts the boundaries:

- PHP values are a datatype (`PhpValues.Value`), with PHP's truthiness, string conversion and array union `+`.
- Exceptions are values of `Errors.Error`, including the engine's own `TypeError`, `ValueError` and property-name error. A call yields `Ok(value)` or `Thrown(error)`.
- The HTTP transport is a function parameter from configuration, verb, URI and options to a `(status, body)` response. `json_decode` is a function parameter from body to value.
- `retry` takes the callback's outputs and the clock readings as sequences.

Where the code and its documentation disagree, the model follows the code:

- the measurement-request `value` fields are integers, though documented as strings;
- `Other` carries the name `CommercialComplex`;
- `isTokenExpired` has no result for a non-null token;
- `transformCollection` in the client has no parameter types, so it checks nothing.

## Model

| member | source | states |
|---|---|---|
| PhpValues.IntToDecimalRoundTrip | src/Exceptions/ApiServerException.php:18-24 | The decimal rendering of an integer parses back to that integer. |
| PhpValues.UnionLookup | src/Resources/Resource.php:126 | In `$data + $extraData`, a key takes its value from `data` when `data` has it, else from `extraData`. |
| PhpValues.UnionEmptyRight | src/Resources/Resource.php:126 | `$data + []` is `$data`, entries and order included. |
| ApiServerExceptions.ForResponseMessage | src/Exceptions/ApiServerException.php:16-27 | The message starts with the fixed prefix and ends with the body, verbatim, then a closing quote. It is total: `forResponse` never fails. |
| ApiServerExceptions.ParseForResponseMessage | src/Exceptions/ApiServerException.php:18-24 | Parsing the message gives back exactly the status code and the body, so neither is truncated or altered. |
| MakesHttpRequests.TransportOptionsRewritesOnlyGet | src/MakesHttpRequests.php:99-105 | The options differ from the payload if and only if the verb is GET and the payload is non-empty. |
| MakesHttpRequests.TransportOptions | src/MakesHttpRequests.php:99-105 | Definition of the option array `request` hands to the transport; its properties are stated by `TransportOptionsRewritesOnlyGet`, `Get` and `Post`. |
| MakesHttpRequests.SuccessValue | src/MakesHttpRequests.php:113-115 | Definition of the `json_decode(...) ?: $responseBody` result; its properties are stated by `SuccessValueFalsy` and `Interpret`. |
| MakesHttpRequests.Request | src/MakesHttpRequests.php:97-116 | Definition of `request`: one transport call, then `Interpret`; its properties are stated by `Get`, `Post`, `Put`, `Delete`, `Interpret` and `HandleRequestError`. |
| MakesHttpRequests.SuccessValueFalsy | src/MakesHttpRequests.php:113-115 | A successful call returns a falsy value if and only if the decoded body is falsy and the raw body is "" or "0". |
| MakesHttpRequests.HandleRequestError | src/MakesHttpRequests.php:130-149 | Every path throws: 422 gives ValidationException with the decoded body; 404 gives NotFoundException; 400 gives FailedActionException with the raw body; 500 and above give ApiServerException, whose message encodes status and body; anything else gives a generic exception with the raw body. Each kind is stated in both directions. |
| MakesHttpRequests.Interpret | src/MakesHttpRequests.php:107-115 | The call succeeds if and only if 200 <= status <= 299 (1xx and 3xx fail). A success returns `SuccessValue`; a failure throws `HandleRequestError`. |
| MakesHttpRequests.Get | src/MakesHttpRequests.php:28-31 | The transport sees verb GET and the URI. It gets no options for an empty parameter list, else the parameters as the query. |
| MakesHttpRequests.Post | src/MakesHttpRequests.php:45-48 | The transport sees verb POST, the URI and the payload unchanged. |
| MakesHttpRequests.Put | src/MakesHttpRequests.php:62-65 | The transport sees verb PUT, the URI and the payload unchanged. |
| MakesHttpRequests.Delete | src/MakesHttpRequests.php:79-82 | The transport sees verb DELETE, the URI and the payload unchanged. |
| MakesHttpRequests.Retry | src/MakesHttpRequests.php:161-178 | The callback runs at least once, even when the timeout is <= 0. Every call before the last returned a falsy value, without throwing, before the timeout. An exception the last call throws escapes unchanged, with no further call. Otherwise the result is the first truthy output, unchanged, or TimeoutException with the last (falsy) output once the time elapsed reaches the timeout; a negative sleep gives ValueError instead, after exactly one call. |
| MeasurementRequests.MeasurementRequest.ToArray | src/Types/MeasurementRequests/MeasurementRequest.php:33-40 | There are exactly three entries, under exactly the keys `value`, `name` and `description`, each holding its field. |
| MeasurementRequests.FromValue | src/Resources/Product.php:150-156 | A type with value `id` exists if and only if 1 <= id <= 5, and the one found has that value. |
| MeasurementRequests.AllIsComplete | src/Resources/Product.php:150-156 | Each of the five types is in the scanned list exactly once, at position value − 1. |
| MeasurementRequests.FromValueInverts | src/Types/MeasurementRequests/MeasurementRequest.php:12 | Values identify types: looking a type's value up gives that type back. |
| MeasurementRequests.NamesAreNotUnique | src/Types/MeasurementRequests/Other.php:19 | `Other` carries the name of `CommercialComplex` but is a different type. |
| MeasurementRequests.PrimaryPlusDetachedGarageConstants | src/Types/MeasurementRequests/PrimaryPlusDetachedGarage.php:12-26 | `toArray` is `{value: 1, name: 'PrimaryPlusDetachedGarage', description: …}` with the exact sentence, and value 1 looks up this type. |
| MeasurementRequests.PrimaryStructureOnlyConstants | src/Types/MeasurementRequests/PrimaryStructureOnly.php:12-26 | As above for value 2 and its name and sentence. |
| MeasurementRequests.AllStructuresOnParcelConstants | src/Types/MeasurementRequests/AllStructuresOnParcel.php:12-26 | As above for value 3 and its name and sentence. |
| MeasurementRequests.CommercialComplexConstants | src/Types/MeasurementRequests/CommercialComplex.php:12-26 | As above for value 4 and its name and sentence. |
| MeasurementRequests.OtherConstants | src/Types/MeasurementRequests/Other.php:12-26 | As above for value 5, with the name 'CommercialComplex'. |
| FillMethodNames.PipelineIsStudly | src/Resources/Resource.php:105-110 | The six string steps (ucwords, the two replacements, the regex mask, ucwords, removing spaces) equal one direct rule: keep the ASCII letters and digits, and upper-case each kept one that starts the key or follows a dropped character. |
| FillMethodNames.FillMethodNameShape | src/Resources/Resource.php:103-113 | The name is 'fill' + X + 'Attribute', where X is that direct rule applied to the key and holds only ASCII letters and digits. |
| FillMethodNames.FillMethodName | src/Resources/Resource.php:103-113 | Definition of `standardizedFillMethodName` as the six string steps; its properties are stated by `FillMethodNameShape`, `PipelineIsStudly` and `SameFillMethod`. |
| FillMethodNames.StudlyFolds | src/Resources/Resource.php:105-110 | Folded to lower case, X is the key's letters and digits folded, whatever the separators and the word-start case. |
| FillMethodNames.SameFillMethod | src/Resources/Resource.php:87-89 | Two keys name the same method up to case if and only if their letters and digits agree up to case. |
| FillMethodNames.FillMethodMatches | src/Resources/Resource.php:87-89 | A key's canonical name equals 'fill' + w + 'Attribute' up to case if and only if the key's folded letters and digits are those of w. |
| FillMethodNames.SnakeCaseIsCamelCase | src/Resources/Resource.php:105-110 | For any two words of letters and digits, `a_b` and `aB` give the same method name. |
| FillMethodNames.DeliveryProductsExample | src/Resources/Resource.php:103-113 | `deliveryProducts` gives `fillDeliveryProductsAttribute`. |
| Resources.FindMethod | src/Resources/Resource.php:89 | `method_exists` finds nothing if and only if no method name equals the canonical name up to case. |
| Resources.MethodForIsTransformFor | src/Resources/Resource.php:87-89 | The lookup of the canonical name in Product's method table routes a key to a method exactly when the key's folded letters are that method's word. So `delivery_products`, `DeliveryProducts` and `deliveryproducts` all reach `fillDeliveryProductsAttribute`. |
| Resources.PropertyReaches | src/Resources/Product.php:126-148 | A key spelling a method's property exactly reaches that method and no other. |
| Resources.WritesTransformProperty | src/Resources/Resource.php:86-93 | No key is assigned directly to a property that a fill method owns. |
| Resources.ShortKeysAreAssigned | src/Resources/Product.php:19-89 | A key shorter than 13 characters (`productID`, `name`, `priceMin`, …) reaches no method and is assigned to the property it names. |
| Resources.UnroutedKeysAreAssigned | src/Resources/Resource.php:86-93 | A key whose folded letters and digits are none of the three method words finds no method and is assigned under its own name, whatever its length. |
| Resources.DistinctKeysAreAssigned | src/Resources/Product.php:40-96 | A key of letters and digits differing from every method property in length or folded first letter is assigned directly: this covers `isTemporarilyUnavailable`, `AllowsUserSubmittedPhotos`, `DetailedDescription`, `TypeOfStructure` and `IsRoofProduct`. |
| Resources.OnlyProductRoutes | src/Resources/Token.php:5-34 | A Token (and any class without fill methods) assigns every key directly under its own name. |
| Resources.MatchesOfInt | src/Resources/Product.php:158-164 | An integer id gains the one type with that value when it is in 1..5, and nothing otherwise. |
| Resources.MatchesOfTrue | src/Resources/Product.php:160 | Under loose comparison the id `true` gains all five types. |
| Resources.AtMostOneMatch | src/Resources/Product.php:150-164 | Any id other than `true` gains at most one type, because the five values are distinct. |
| Resources.MatchingIntIds | src/Resources/Product.php:150-164 | For integer ids the loops append, in input order, the type of each id in 1..5. Other ids are skipped, repeats repeat, and the count equals the number of ids in 1..5. This matches an independent lookup, `LookupIds`. |
| Resources.LookupIdsCount | src/Resources/Product.php:158-164 | The reference lookup yields one type per id in 1..5, and every type it yields has the value of some id. |
| Resources.AppendRequests | src/Resources/Product.php:161 | `[] =` on null creates the list and on a list appends to it. Nothing is written when nothing matches. |
| Resources.AppendRequestsTwice | src/Resources/Product.php:161 | Appending in two rounds is appending once: the property's earlier contents are kept. |
| Resources.WithRequests | src/Resources/Product.php:158-164 | Only the measurement property changes; it ends as its earlier list plus the new types, or is untouched when there are none. |
| Resources.WithRequestsTwice | src/Resources/Product.php:158-164 | Appending per id equals appending all the ids' matches at once. |
| Resources.MatchingRequests | src/Resources/Product.php:158-164 | Definition of what the outer loop appends, id by id; its properties are stated by `MatchingIntIds`, `MeasurementFromFill` and `Resource.FillMeasurementInstructionTypesAttribute`. |
| Resources.AssignProperty | src/Resources/Resource.php:92 | `$this->{$key} = $value` stores the value under the key's name and changes no other property. It fails if and only if the name is empty or starts with NUL. |
| Resources.InitialProps | src/Resources/Product.php:19-118 | Before `fill`, exactly the class's declared properties exist, all null. |
| Resources.Hydrate | src/Resources/Resource.php:29-36 | A built resource keeps its class, its SDK reference and the payload unchanged, and every declared property exists. |
| Resources.FillFrom | src/Resources/Resource.php:84-95 | The loop of `fill` never removes a property. |
| Resources.FillOne | src/Resources/Resource.php:86-93 | One entry changes only the property it writes and removes none. |
| Resources.HydrateItems | src/Resources/Product.php:126-140 | A nested collection gives one product per item. |
| Resources.FillOneMeasurement | src/Resources/Product.php:148-165 | A `measurementInstructionTypes` entry appends the types its ids match. A value that is not an array is refused by the `array` parameter. |
| Resources.TransformFrom | src/Resources/Resource.php:123-128 | Keys, length and order are kept, and element t is built from `data + extraData` of item t. If every item can be built, the whole collection is. |
| Resources.TransformCollection | src/Resources/Resource.php:123-128 | Definition of `Resource::transformCollection`; its properties are stated by `TransformFrom`, `TransformCollectionElement` and `HydrateItemsIsTransformCollection`. |
| Resources.TransformCollectionElement | src/Resources/Resource.php:123-128 | Each element has the requested class and the same SDK instance. Its payload has `data`'s value on a shared key, else `extraData`'s. |
| Resources.HydrateItemsIsTransformCollection | src/Resources/Product.php:126-140 | Product's nested hydration is `transformCollection` with no extra data. |
| Resources.FillFromFrame | src/Resources/Resource.php:84-95 | A property that no remaining entry writes keeps its content. |
| Resources.FillFromLastWrite | src/Resources/Resource.php:84-95 | The last entry writing a property by assignment or by a collection decides its final content. |
| Resources.PlainKeyAssigned | src/Resources/Resource.php:86-94 | A key with no fill method ends up verbatim under its own, uncanonicalised name, unless a later entry writes that property. |
| Resources.CollectionKeyHydrated | src/Resources/Product.php:126-140 | `deliveryProducts` and `addOnProducts` end as the `transformCollection` of their items. |
| Resources.MeasurementFromFill | src/Resources/Product.php:148-165 | Over the whole loop, the measurement property is the initial content with the types of every entry's ids appended, in order. |
| Resources.FillOnePreservesValid | src/Resources/Product.php:161 | The measurement property only ever holds null or a list of types. |
| Resources.MeasurementTypesOfProduct | src/Resources/Product.php:118 | After hydration the property is null when no id matched (not an empty list), else exactly the matched types in order. |
| Resources.UnwrittenStaysNull | src/Resources/Resource.php:84-95 | A declared property that no entry writes stays null. |
| Resources.TokenFillFails | src/Resources/Token.php:5-34 | A Token's `fill` fails if and only if some key is no usable property name, and then with that error. |
| Resources.TokenHydration | src/Resources/Token.php:5-34 | A Token holds each key's value unchanged under its own name, `expires_in` included: no expiry is computed. Declared properties absent from the response are null. |
| Resources.AttributesKeyReplacesPayload | src/Resources/Resource.php:86-93 | As written, the payload `{"attributes": "x"}` leaves the string "x" where `toArray` looks for the payload. |
| Resources.AsWrittenAgreesWithoutAttributesKey | src/Resources/Resource.php:52-55 | As written, `toArray` returns the payload whenever no entry writes `attributes`. |
| Resources.ColumnNames | src/Resources/Resource.php:141 | `array_column` yields at most one name per tag. |
| Resources.TransformTags | src/Resources/Resource.php:137-142 | A tags value that is not an array is refused, and an array separator is refused by `implode`. |
| Resources.TransformTagsOneMore | src/Resources/Resource.php:137-142 | Names are joined in order. A falsy separator, `''` included, means ", ". A tag with a `name` adds the separator (unless it is the first name) and its name; a tag without one changes nothing. |
| ResourceObjects.Resource.constructor | src/Resources/Resource.php:29-33 | The object stores the payload and the SDK reference, and every declared property starts null. |
| ResourceObjects.Resource.New | src/Resources/Resource.php:29-36 | `new $class(...)` succeeds if and only if `Hydrate` does, with the same error. The object's `toArray` is the payload and its properties are `Hydrate`'s. |
| ResourceObjects.Resource.ToArray | src/Resources/Resource.php:52-55 | Definition of `toArray` on the object; that it is the payload is stated by `Resource.New`. |
| ResourceObjects.Resource.Fill | src/Resources/Resource.php:84-95 | The loop over the payload computes `FillFrom`, stopping at the first error, and keeps the measurement property null or a list. |
| ResourceObjects.Resource.FillEntry | src/Resources/Resource.php:86-93 | One iteration computes `FillOne`: it calls the method found by `method_exists` or assigns the value. |
| ResourceObjects.Resource.SetProperty | src/Resources/Resource.php:92 | The assignment computes `AssignProperty` and leaves the properties unchanged on failure. |
| ResourceObjects.Resource.FillProductsAttribute | src/Resources/Product.php:126-140 | A non-array is refused with nothing changed. Otherwise the property becomes the `transformCollection` of the items, or the first error escapes. |
| ResourceObjects.Resource.FillMeasurementInstructionTypesAttribute | src/Resources/Product.php:148-165 | The outer loop over the ids appends `MatchingRequests(ids)`. A non-array is refused with nothing changed. |
| ResourceObjects.Resource.AppendMatches | src/Resources/Product.php:159-163 | The inner loop over the five types appends those whose value loosely equals the id, in table order. |
| Utf8.EncodeChar | src/Actions/ManagesTokens.php:31 | A character is 1 to 4 bytes. ASCII is one byte equal to its code, and every byte of a non-ASCII character is >= 0x80. |
| Utf8.EncodeAppend | src/Actions/ManagesTokens.php:31 | The bytes of `a . b` are the bytes of `a`, then those of `b`. |
| Utf8.ColonOnlyFromColon | src/Actions/ManagesTokens.php:31 | A string without ':' has no colon byte. |
| Base64.SextetRoundTrip | src/Actions/ManagesTokens.php:31 | The 64-character alphabet is a bijection onto the 6-bit values. |
| Base64.EncodeGroup | src/Actions/ManagesTokens.php:31 | Three bytes become four alphabet characters. |
| Base64.Encode | src/Actions/ManagesTokens.php:31 | Definition of `base64_encode`: whole groups, then one or two trailing bytes padded with '='; its properties are stated by `EncodeLength`, `DecodeEncode` and `RfcTestVectors`. |
| Base64.EncodeLength | src/Actions/ManagesTokens.php:31 | `base64_encode` output has length 4·⌈n/3⌉ for n bytes. |
| Base64.DecodeEncode | src/Actions/ManagesTokens.php:31 | Decoding the encoding gives back the bytes, padding included. |
| Base64.RfcTestVectors | src/Actions/ManagesTokens.php:31 | The test vectors of section 10 of RFC 4648 (`f` to `foobar`), which fix the standard alphabet and the padding. |
| Base64.EncodeInjective | src/Actions/ManagesTokens.php:31 | Different byte strings encode differently. |
| ManagesTokens.SplitCredentials | src/Actions/ManagesTokens.php:31 | Basic credentials split if and only if they contain a colon. |
| ManagesTokens.BasicAuth | src/Actions/ManagesTokens.php:31 | Definition of `base64_encode($sourceId . ':' . $clientSecret)`; its properties are stated by `BasicAuthRoundTrip`, `Base64.DecodeEncode` and `Utf8.EncodeAppend`. |
| ManagesTokens.BasicAuthRoundTrip | src/Actions/ManagesTokens.php:31-35 | Decoding the header value and splitting at the first colon gives back the source id and the secret, provided the source id has no colon. |
| ManagesTokens.GrantToken | src/Actions/ManagesTokens.php:33-44 | The transport sees POST to `Token` with the options unchanged. A failure status throws `HandleRequestError`; a result that is not a non-empty array is a TypeError from `new Token(array ...)`; otherwise the decoded grant is hydrated as a Token. |
| ManagesTokens.CreateTokenOptions | src/Actions/ManagesTokens.php:33-42 | Definition of `createToken`'s option array; its content is stated by `CreateToken`. |
| ManagesTokens.RefreshTokenOptions | src/Actions/ManagesTokens.php:64-72 | Definition of `refreshToken`'s option array; its content is stated by `RefreshToken`. |
| ManagesTokens.CreateToken | src/Actions/ManagesTokens.php:29-45 | As `GrantToken`, with the Basic header and the password grant: `grant_type`, `username` and `password`. |
| ManagesTokens.RefreshToken | src/Actions/ManagesTokens.php:60-75 | As `GrantToken`, with the Basic header and the refresh grant: `grant_type` and `refresh_token`, with no username or password. |
| ManagesTokens.GrantTokenOutcome | src/Actions/ManagesTokens.php:33-44 | A Token results if and only if the status is a success and the result a non-empty array with usable key names. The Token's payload is the decoded grant, its SDK reference is the requester, and an empty JSON array is refused. |
| Client.BearerHeadersCarryToken | src/EagleView.php:100-104 | An authenticated instance sends `Accept` and `Content-Type` of `application/json`, and `Authorization: Bearer <token>`. |
| Client.EagleView.constructor | src/EagleView.php:22-60 | The endpoint is the argument if given, else the default. The HTTP client has that base URI, `http_errors` false and no Authorization header. The timeout is 30 and there is no token. |
| Client.EagleView.WithRawToken | src/EagleView.php:117-132 | A fresh instance sends the JSON headers and the raw bearer token; its token stays null. |
| Client.EagleView.WithToken | src/EagleView.php:91-108 | Given a Token, as the parameter type demands, a fresh instance holds the token and sends the JSON headers and the token's `access_token` as bearer. |
| Client.EagleView.Grant | src/Actions/ManagesTokens.php:33-44 | The object-level grant agrees with `GrantToken` for this instance's configuration. The new Token refers to this instance, and no client state changes. |
| Client.EagleView.CreateToken | src/Actions/ManagesTokens.php:29-45 | Agrees with `ManagesTokens.CreateToken`, and no client state changes. |
| Client.EagleView.RefreshToken | src/Actions/ManagesTokens.php:60-75 | Agrees with `ManagesTokens.RefreshToken`, and no client state changes. |
| Client.EagleView.Login | src/EagleView.php:75-82 | The password grant is requested without a bearer header, and login succeeds if and only if that response is a grant. The result is a fresh instance on the same endpoint, holding the new Token (whose payload is the grant) and sending its access token. The Token still refers to the first, unauthenticated instance. |
| Client.EagleView.IsTokenExpired | src/EagleView.php:139-146 | It is true if and only if there is no token. With a token the function ends without a `bool`, which PHP refuses with a TypeError. |
| Client.EagleView.TransformCollection | src/EagleView.php:156-161 | An array collection with array extra data is `transformCollection` with this instance as SDK reference. A non-array collection is refused. A non-array extra is refused as soon as there is an element. |
| Client.EagleView.SetTimeout | src/EagleView.php:169-184 | It returns the same instance, `getTimeout()` then gives the new value, and nothing else changes. |
| Client.EagleView.GetTimeout | src/EagleView.php:181-184 | Definition of `getTimeout`; its value is stated by `EagleView.constructor`, `WithToken`, `WithRawToken` and `SetTimeout`. |

## Left out

- The HTTP transport (Guzzle) and `json_decode` are function parameters. Network errors (`GuzzleException`) are not modelled.
- `retry`'s `time()` and `sleep()` are replaced by a clock sequence. `Retry` requires two things of it: the clock never goes back, and from the first call on each round (sleep plus call) advances it by at least one second and by at least the sleep.
- `Retry`: a non-integer timeout or sleep is not modelled. The default `$sleep = 5` is the constant `MakesHttpRequests.DefaultSleep`; a caller that omits the argument passes it.
- The model follows PHP 8 semantics where PHP 7 differs: `sleep` with a negative argument throws ValueError (PHP 7 warns, returns false and `retry` keeps polling); `array_map` over a non-array throws TypeError (PHP 7 warns and returns null); a numeric-leading string such as `"1abc"` does not loosely equal an integer (PHP 7 says it equals 1). The source's syntax is also valid PHP 7.1, which the model does not describe.
- `__toString` returns the JSON encoding of the payload; it is left out with the JSON codec. `dump` and `dd` print or end the process; they are output only.
- `ManagesReports`, `ManagesOrders` and `ManagesProducts` are thin endpoint wrappers and are not part of this model.
- Strings are sequences of Unicode scalar values, taken to reach PHP as UTF-8. A PHP string that is not valid UTF-8 cannot be expressed. Keys and method names are compared per character, with ASCII case folding as PHP does.
- Floats are opaque. A float is identified by the string PHP renders for it, which is enough for truthiness, string conversion and loose comparison with small integers.
- Resources.LooseEqualsInt: a numeric string equals an integer only when it is the integer's plain decimal spelling. `" 1"`, `"1.0"` and `"1e0"`, which PHP also takes as 1, are not modelled.
- Resources.AppendRequests: if the measurement property held anything but null or a list, PHP would do something this model does not describe. This cannot happen: a payload key naming that property is routed to its method (`WritesTransformProperty`, `FillOnePreservesValid`).
- Nested products are values (`Resources.Hydrated`), not objects. The source builds fresh objects for them that nothing else refers to, so no aliasing is lost.
- A payload key `eagleView` overwrites the protected SDK reference in the source; the model keeps the SDK reference apart from the properties, as it does the payload. The consequence it does not show: `transformCollection` (src/Resources/Resource.php:126) passes the overwritten reference to each nested `new Product(...)`, whose parameter accepts only an EagleView or null, so in the source `{"eagleView": 1, "deliveryProducts": [{}]}` throws TypeError while `Resources.Hydrate` returns Ok, and `{"eagleView": null, ...}` gives nested products no SDK reference.
- ResourceObjects.Resource.AppendMatches: the inner `foreach` over the five types is a separate method, called from the outer loop. The order of appends is unchanged.
- The abstract base class `MeasurementRequest` with its unset fields is never instantiated. Only the five variants exist in the model.
- Client.EagleView.Login: its contract states the grant's outcome and the token's payload, not the token's full property map, because that map mentions the intermediate instance.
- Client.EagleView.TransformCollection: nested resources are values, as above. The class is one of the model's resource shapes.
- The MeasurementRequests constant lemmas and the `DeliveryProductsExample` lemma state literal facts (constants, a worked example); they show the constants agree with the source.

## Findings

| source | as written | input that shows it | evidently intended | confidence | as-written member | corrected member |
|---|---|---|---|---|---|---|
| src/Resources/Resource.php:31-35, 92 | `fill` assigns every key with `$this->{$key} = $value`, in the same namespace as `$this->attributes` | a payload `{"attributes": "x"}`: `toArray()` then returns the string "x", not the payload | `toArray` returns the payload the resource was built from, whatever its keys | medium, not executed | Resources.AttributesKeyReplacesPayload | ResourceObjects.Resource.New |
