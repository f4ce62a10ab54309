# Carbon Intensity client — a Dafny model

This project models the logic of the Carbon Intensity API client
(`src/CarbonIntensity.h`), a C++ class that exposes the UK grid
carbon-intensity web API as one operation per endpoint. The client owns three
pieces of logic, and the model covers all three:

- **The endpoint path catalogue.** Each of the 33 `get_*` operations builds its
  request path by joining fixed literals with its parameters. Each parameter
  first goes through the library's data-string encoder. The model has a `Call`
  datatype with one constructor per operation and a `Path` function that
  spells each path the way the source does (`endpoints.dfy`). A second,
  independent table gives each operation's template as a list of fixed words
  and parameter slots (`templates.dfy`). The proofs tie the two together:
  - every path is its template rendered with its arguments;
  - the slots take the parameters in declaration order;
  - the postcode and regionid variants extend the national paths;
  - with an encoder that never emits `/`, splitting a path on `/` gives
    back exactly the template's segments (no injection).
- **Request construction** (`create_request`). An `HttpRequest` class is
  updated in place by `SetMethod`, `SetRequestUri` and `AddHeader`.
  `CreateRequest` runs the same steps as the source. It is proved to produce
  `RequestFor(endpoint, name)`: the method picked by the name (or unset), the
  endpoint as URI, and the three fixed headers in order (`requests.dfy`).
- **Outcome normalisation** (the two continuations of `make_api_call`).
  `Settle` and `Recover` model the two stages. The result is proved equal to an
  independent rule by kind of outcome (`Classify`, `Report`). The branches are
  proved one by one: status 200 gives the parsed body, any other status gives
  `{"error": "HTTP Error: <status>", "success": false}`, and an exception gives
  `{"error": "Exception: <message>", "success": false}`. Rendering the status
  in decimal (`std::to_string`) is modelled in `decimal.dfy`, and reading it
  back is proved to undo it (`outcomes.dfy`).

`segments.dfy` holds how a server reads a path: splitting it on `/`, and
joining segments with `/`. The two are proved inverse to each other; splitting
a join gives the parts back only when no part holds a `/`.

`client.dfy` puts the pieces together: `MakeApiCall` builds the request, sends
it through a `transport` parameter and normalises the result. `Invoke` is any
public operation, a GET for the operation's path.

Code that is not visible, or that performs I/O, becomes a parameter:

- the URI data-string encoder is `enc: string -> string`;
- the JSON body parser is `parse: string -> Result<Json>`, where `Err(what)` is the exception it throws;
- the network exchange is `transport: (string, Request) -> Response`.

Properties that need something of the encoder state it as a hypothesis,
`NoSlash(enc)`.

Behaviours of the code worth knowing:

- Only status 200 counts as success. 201 or 204 is reported as an HTTP error.
- A transport failure and a body that fails to parse are not told apart. Both
  become `"Exception: " + what`.
- Parameters are never checked. The empty string is encoded like any other,
  and no parameter is ever rejected.
- The result is one JSON value. A successful body can
  itself look like an error object, so the caller cannot always tell the
  cases apart (`Outcomes.SuccessMayLookLikeError`). Every error report, and
  every success whose value is not shaped like an error object, can be read
  back exactly (`Outcomes.RecogniseReport`).
- `create_request` recognises `"DEL"`, not `"DELETE"`, and matches names
  case-sensitively. Any other name leaves the method unset.

## Model

| member | source | states |
|---|---|---|
| `Endpoints.Path` | src/CarbonIntensity.h:78-208 | every operation's request path starts with `/` |
| `Endpoints.Args` | src/CarbonIntensity.h:78-208 | the parameters of each operation in declaration order, at most three; `Templates.TemplateInOrder` and `Templates.NoInjection` state that the path's slots take exactly these |
| `Endpoints.FixedPathsAreConstant` | src/CarbonIntensity.h:78-152 | an operation without parameters requests the same path whatever the encoder |
| `Endpoints.RegionalCurrentVariants` | src/CarbonIntensity.h:138-159 | the by-postcode and by-regionid paths are the regional path followed by `/postcode/` or `/regionid/` and the encoded id, with the id as the one extra parameter |
| `Endpoints.Regional24hForwardVariants` | src/CarbonIntensity.h:162-172 | the 24-hour-forward postcode and regionid paths extend the national 24-hour-forward path by `/postcode/` or `/regionid/` and the encoded id, with the id as the extra, last parameter |
| `Endpoints.Regional48hForwardVariants` | src/CarbonIntensity.h:174-184 | the same for the 48-hour-forward paths |
| `Endpoints.Regional24hPastVariants` | src/CarbonIntensity.h:186-196 | the same for the 24-hour-past paths |
| `Endpoints.RegionalBetweenVariants` | src/CarbonIntensity.h:198-208 | the same for the between-two-times paths |
| `Endpoints.DateAndStatsExtend` | src/CarbonIntensity.h:82-124 | the date path extends today's path by `/` and the encoded date. The date-period path extends the date path by `/` and the encoded period. The stats-block path extends the stats path by `/` and the encoded block |
| `Templates.TemplateInOrder` | src/CarbonIntensity.h:78-208 | every template is non-empty. Each parameter has a slot, and left to right the slots name strictly increasing parameters, so the parameters appear once each, in declaration order |
| `Templates.PathIsRendered` | src/CarbonIntensity.h:78-208 | every operation's path equals its template's segments, slots filled with the encoded arguments, each preceded by `/` |
| `Templates.NoInjection` | src/CarbonIntensity.h:86-208 | with an encoder that never emits `/`, splitting a path on `/` yields an empty piece followed by exactly the template's segments. That is one more piece than the template's length, and each slot's piece is the encoded parameter it names |
| `Templates.ShapesKeepPathsApart` | src/CarbonIntensity.h:78-208 | with such an encoder, operations whose templates differ in length never request the same path |
| `Templates.WordLikeParametersCollide` | src/CarbonIntensity.h:82-208 | for an encoder that leaves the words `date` and `fw24h` unchanged, as percent-encoding does, distinct calls request the same path: the timepoint `date` gives today's intensity path, a window from `date` gives the intensity-for-a-date path, and a regional window ending at `fw24h` gives the 24-hour forecast path |
| `Templates.IdentityLetsParametersInject` | src/CarbonIntensity.h:98-111 | without the encoder, a timepoint ending in `/pt24h` requests the 24-hour-past path, so the encoder is what keeps parameters inside their segment |
| `Requests.MethodNamed` | src/CarbonIntensity.h:24-32 | a recognised name selects the method that carries that name |
| `Requests.MethodNamedInverse` | src/CarbonIntensity.h:24-32 | a name selects method `m` if and only if it is `m`'s name (`GET`, `POST`, `PUT`, `DEL`) |
| `Requests.OnlyExactNamesSelect` | src/CarbonIntensity.h:24-32 | `DELETE` and lower-case `get` leave the method unset |
| `Requests.RequestFor` | src/CarbonIntensity.h:21-42 | the built request has the endpoint as URI and exactly the three fixed headers. Its method is set if and only if the name is one of the four recognised |
| `Requests.FixedHeaderNamesDistinct` | src/CarbonIntensity.h:37-39 | the three fixed headers have pairwise distinct names |
| `Requests.HttpRequest.constructor` | src/CarbonIntensity.h:22 | a new request has no method, an empty URI and no headers |
| `Requests.HttpRequest.SetMethod` | src/CarbonIntensity.h:25 | sets the method and changes nothing else |
| `Requests.HttpRequest.SetRequestUri` | src/CarbonIntensity.h:34 | sets the URI and changes nothing else |
| `Requests.HttpRequest.AddHeader` | src/CarbonIntensity.h:37-39 | appends one header after those present and changes nothing else |
| `Requests.CreateRequest` | src/CarbonIntensity.h:21-42 | the fresh request built step by step holds exactly `RequestFor(endpoint, name)` |
| `Decimal.ToDecimal` | src/CarbonIntensity.h:55 | the decimal rendering of a status is a non-empty digit string with no leading zero, one digit exactly for numbers below 10 |
| `Decimal.ValueOfToDecimal` | src/CarbonIntensity.h:55 | reading the rendered digits back gives the number |
| `Decimal.ToDecimalInjective` | src/CarbonIntensity.h:55 | distinct statuses render to distinct strings |
| `Decimal.ToDecimalOfValue` | src/CarbonIntensity.h:55 | every canonical digit string is the rendering of its value |
| `Outcomes.Settle` | src/CarbonIntensity.h:50-58 | an exception from the transport stays pending as that exception, and a status other than 200 settles to a value |
| `Outcomes.Recover` | src/CarbonIntensity.h:60-68 | a pending exception becomes the `Exception: ` error object and a value passes through unchanged |
| `Outcomes.Normalise` | src/CarbonIntensity.h:49-69 | both continuations composed: status 200 gives the parsed body, or the exception error object when the body does not parse; any other status gives the HTTP error object; a transport exception gives the exception error object |
| `Outcomes.NormaliseReportsClassification` | src/CarbonIntensity.h:49-69 | the two continuations together report every response by its kind: success, HTTP error or exception |
| `Outcomes.OkYieldsParsedBody` | src/CarbonIntensity.h:51-52 | status 200 with a parsable body yields the parsed body unchanged |
| `Outcomes.OtherStatusYieldsHttpError` | src/CarbonIntensity.h:53-57 | any other status yields `{"error": "HTTP Error: " + decimal(status), "success": false}` whatever the body |
| `Outcomes.ExceptionYieldsExceptionError` | src/CarbonIntensity.h:60-68 | a transport exception, or a body that fails to parse at status 200, yields `{"error": "Exception: " + message, "success": false}` |
| `Outcomes.ErrorObject` | src/CarbonIntensity.h:53-67 | the error object reads back, as its `error` field beside a false `success`, exactly the message it was built with |
| `Outcomes.HttpErrorMessage` | src/CarbonIntensity.h:54-55 | the status embedded in an HTTP error message reads back as that status |
| `Outcomes.ExceptionMessage` | src/CarbonIntensity.h:65-66 | an exception message never reads as an HTTP status, and removing its prefix gives the exception's own message back |
| `Outcomes.ReadHttpStatusExact` | src/CarbonIntensity.h:55 | any message that reads as a status is exactly that status's HTTP error message |
| `Outcomes.ErrorMessagesDisjoint` | src/CarbonIntensity.h:55-65 | an HTTP error message never equals an exception message, and no exception message starts like an HTTP error message |
| `Outcomes.RecogniseReport` | src/CarbonIntensity.h:49-69 | every error outcome, and every success whose value is not shaped like an error object, is recovered exactly from the reported value |
| `Outcomes.SuccessMayLookLikeError` | src/CarbonIntensity.h:51-57 | a status-200 body that is itself an error object is classified as success yet reported identically to an HTTP error |
| `Client.MakeApiCall` | src/CarbonIntensity.h:44-70 | the call's result is the normalisation of the transport's answer to `RequestFor(endpoint, name)` sent to the fixed base URL |
| `Client.Invoke` | src/CarbonIntensity.h:78-208 | a public operation's result is the normalisation of the answer to a GET request for its path |
| `Client.OperationsSendGet` | src/CarbonIntensity.h:78-208 | every operation's request has method GET, its path as URI and the three fixed headers |

## Left out

- The HTTP exchange itself (`http_client`, `client.request`) is network I/O. It is the `transport` parameter.
- The asynchronous task chaining is not modelled as concurrency. The two continuations are two pure functions applied in sequence.
- The JSON parser behind `extract_json` is the `parse` parameter. A parse failure is its `Err` and surfaces as the exception branch. JSON numbers are integers only; floating point is not modelled.
- `web::uri::encode_data_string` is the `enc` parameter. Its percent-encoding is not modelled; the no-injection results take `NoSlash(enc)` as a hypothesis.
- `to_string_t` and `to_utf8string` are treated as the identity on strings. Wide and narrow character types are not distinguished.
- The TLS setting in the constructor (`set_validate_certificates(false)`) is transport configuration with no logic to state.
- What the library does with a request whose method was never set is not visible. The model leaves the method `None`.
- `Requests.HttpRequest.AddHeader`: the library's header collection matches names case-insensitively and merges a repeated name into one entry. The model appends, which agrees on the three distinct names the client adds (`Requests.FixedHeaderNamesDistinct`).
- The library may store JSON object fields in sorted order. The error object's two fields, `error` and `success`, are already in that order.
- `Templates.ShapesKeepPathsApart` separates operations by template length only. Distinct calls with templates of the same length can request the same path, even with an encoder that is injective and never emits `/`: a parameter spelled like a fixed word (`date`, `factors`, `stats`, `fw24h`, `pt24h`, …) reproduces another operation's path (`Templates.WordLikeParametersCollide`).
- `Requests.HttpRequest.SetRequestUri`: the model stores the endpoint as the raw string. The library converts it to a `web::uri`, and that conversion throws for a string that is not a valid URI (a raw space, say). It happens while the request is built, before the two continuations, so such an exception escapes the call instead of becoming the `Exception: ` object. `Client.MakeApiCall`'s ensures takes it that this does not happen, which holds for the catalogue's paths when `enc` percent-encodes its input.
- The code catches only exceptions derived from `std::exception`; anything else thrown would escape the pipeline. The model gives every failure a message and routes it to the exception branch.
