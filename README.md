# CSim client: a Dafny model

This project models the client of a phone-number TOTP authorization service
(the `chainsim/sdk-node` client). A provider builds a `CSimClient` from an API
URL, a provider id and an API key. With it the provider can ask the service to
send a TOTP challenge to a phone number (`requestTotpAuthorization`), and later
validate the code the user entered (`validateTotpAuthorization`). A successful
validation hands back the service's number and user records.

Every failed request goes to `handleAxiosError`. It always throws exactly one
of three exceptions:

- `UnauthorizedException` for a 403 response;
- `BadRequestException` for a 400 response;
- a plain `CSimException` for any other response, or when no response came back.

The model has four modules:

- `Transport` (transport.dfy): the values the HTTP layer carries. These are JSON
  payloads, the outbound POST, the response attached to a failure, the failure
  itself, the outcome of one awaited request, and `HttpChannel`, the object
  requests are posted through.
- `Exceptions` (exceptions.dfy): the three exception classes as one datatype
  `Exc`, with their `message` and `name` properties.
- `ErrorClassifier` (classifier.dfy): `handleAxiosError` as the total function
  `Classify` from a failure to the exception it throws.
- `Client` (client.dfy): the parameter and result shapes, the HTTP client
  configuration the constructor builds, the request each operation sends, and
  the class `CSimClient`. Its one field is a `const`, so no operation can change it.

Sending a request goes through `Transport.HttpChannel`, an object that answers
each request by its `respond` function and records every request posted in its
ghost `sent` log. Each method posts exactly one request, the one it builds, and
returns what its try/catch makes of the answer. That handling is a function (`RequestOutcome`,
`ValidateOutcome`) so that lemmas can speak about it. `JSON.stringify` is the
parameter `stringify: Json -> string`.

The code forwards `response.data.result` unchanged, so `Client.Number` keeps
the wire name `contract_address` (src/client/types.ts:20).

Two consequences of the code are stated in contracts:

- The base constructor sets `name` from the base class itself
  (`CSimException.name`). So every exception, subclass or not, reports the name
  `"CSimException"` (the contract of the function `Exceptions.Name`).
- A plain `CSimException` can carry any text, including a subclass's message.
  So neither `message` nor `name` tells the three kinds apart; only the class
  does (`Exceptions.MessageAndNameDoNotDetermineClass`).

## Model

| member | source | states |
|---|---|---|
| `Exceptions.Message` | src/client/exceptions/csim.exception.ts:2-3 | (also bad-request.exception.ts:5 and unauthorized.exception.ts:5) a base exception's message is its constructor argument verbatim; a BadRequest message starts with "Bad Request: " and the argument follows it; Unauthorized has the fixed message |
| `Exceptions.RuntimeClass` | src/client/exceptions/csim.exception.ts:1 | (with bad-request.exception.ts:3 and unauthorized.exception.ts:3) the three classes have three distinct class names: CSimException, BadRequestException, UnauthorizedException |
| `Exceptions.Name` | src/client/exceptions/csim.exception.ts:4 | every exception is named "CSimException"; the name matches the class that was built only for the base class |
| `Exceptions.CSimMessageVerbatim` | src/client/exceptions/csim.exception.ts:2-5 | the base constructor accepts any string, keeps it as the message and sets the base name |
| `Exceptions.BadRequestMessageLength` | src/client/exceptions/bad-request.exception.ts:5 | a BadRequest message is the prefix length plus the argument length, so at least 13 characters |
| `Exceptions.BadRequestMessageInjective` | src/client/exceptions/bad-request.exception.ts:4-5 | two BadRequest messages are equal exactly when their arguments are |
| `Exceptions.UnauthorizedIsNotBadRequest` | src/client/exceptions/unauthorized.exception.ts:4-5 | the fixed Unauthorized message does not start with "Bad Request: " and equals no BadRequest message |
| `Exceptions.MessageAndNameDoNotDetermineClass` | src/client/exceptions/bad-request.exception.ts:3-5 | a base exception can have the same message and name as a BadRequest or an Unauthorized exception |
| `Transport.IsObjectLike` | src/client/utils.ts:14 | typeof answers "object" exactly for JSON null, arrays and objects, not for booleans, numbers or strings; those payloads are serialised |
| `ErrorClassifier.BodyText` | src/client/utils.ts:14-16 | a structured payload becomes its JSON serialisation; a string payload is used verbatim |
| `ErrorClassifier.Classify` | src/client/utils.ts:6-27 | 403 gives Unauthorized with the fixed message; 400 gives BadRequest of the payload text; any other status gives a base exception of the payload text; no response gives a base exception of the error message; the name is always "CSimException" |
| `ErrorClassifier.UnauthorizedIff403` | src/client/utils.ts:8-10 | the exception is Unauthorized if and only if a response with status 403 came back |
| `ErrorClassifier.BadRequestIff400` | src/client/utils.ts:12-18 | the exception is a BadRequest if and only if a response with status 400 came back |
| `ErrorClassifier.PayloadIgnoredOn403` | src/client/utils.ts:8-10 | any two failures with a 403 response throw the same exception, whatever their payloads and messages |
| `ErrorClassifier.MessageIgnoredWithResponse` | src/client/utils.ts:7-24 | when a response exists, the error's own message does not affect the exception |
| `ErrorClassifier.BadRequestAndGenericShareText` | src/client/utils.ts:12-23 | for one payload, the 400 message is "Bad Request: " followed by the message another non-403 status would give |
| `ErrorClassifier.MessageRecoversText` | src/client/utils.ts:12-26 | for every non-403 failure the thrown message gives back the available text: the payload text, or the error message |
| `ErrorClassifier.ServerErrorExample` | src/client/utils.ts:19-23 | a 500 response with payload "server exploded" throws a base exception with message "server exploded" |
| `ErrorClassifier.ConnectionRefusedExample` | src/client/utils.ts:26 | a failure "ECONNREFUSED" with no response throws a base exception with message "ECONNREFUSED" |
| `ErrorClassifier.BadRequestObjectExample` | src/client/utils.ts:12-17 | a 400 response with payload {"error":"bad phone"} throws a BadRequest whose message is `Bad Request: {"error":"bad phone"}` |
| `Transport.HttpChannel.Post` | src/client/csim.client.ts:30-32 | posting a request appends exactly that request to the channel's log and yields the channel's answer to it |
| `Client.CreateHttpClient` | src/client/csim.client.ts:17-23 | base URL is the API URL; the headers are exactly x-provider-id = provider id and authorization = "Bearer " + API key |
| `Client.CreateHttpClientInjective` | src/client/csim.client.ts:17-23 | two configurations are equal exactly when the constructor arguments were, so API URL, provider id and API key can each be read back |
| `Client.HeadersExample` | src/client/csim.client.ts:19-22 | provider id "p1" and API key "k1" give the headers x-provider-id: p1 and authorization: Bearer k1 |
| `Client.RequestTotpCall` | src/client/csim.client.ts:30-32 | the request operation posts to "/request" with a body holding only csim_number = phone number |
| `Client.ValidateTotpCall` | src/client/csim.client.ts:43-49 | the validate operation posts to "/validate" with body csim_number = phone number, totp_code = code |
| `Client.ValidateExtendsRequest` | src/client/csim.client.ts:30-48 | the validate body is the request body for the same phone number with totp_code appended |
| `Client.Outbound` | src/client/csim.client.ts:17-23 | every outbound request carries the configured base URL and headers with the call's path and body |
| `Client.RequestOutcome` | src/client/csim.client.ts:29-35 | a request that went through returns nothing; a failed one throws exactly the classifier's exception |
| `Client.ValidateOutcome` | src/client/csim.client.ts:41-54 | a validation that went through returns the payload's result field unchanged; a failed one throws exactly the classifier's exception |
| `Client.SuccessFlagIgnored` | src/client/csim.client.ts:51 | the payload's success flag is never inspected: true and false give the same returned result |
| `Client.ValidateExample` | src/client/csim.client.ts:51 | a payload with number "+15551234567", contract_address "0xabc" and user "0xdef" is returned as that same record |
| `Client.FailuresPropagate` | src/client/csim.client.ts:33-54 | both operations throw on every failure, and both throw the same exception, the classifier's |
| `Client.CSimClient.constructor` | src/client/csim.client.ts:16-24 | the client's one field is the configuration built from the arguments: base URL and exactly the two headers |
| `Client.CSimClient.RequestTotpAuthorization` | src/client/csim.client.ts:26-36 | exactly one request is posted, POST /request with the configured base URL and headers, appended to the channel's log; returns normally exactly when it went through, else throws the classifier's exception |
| `Client.CSimClient.ValidateTotpAuthorization` | src/client/csim.client.ts:38-55 | exactly one request is posted, POST /validate with the configured base URL and headers, appended to the channel's log; returns the payload's result when it went through, else throws the classifier's exception |

## Left out

- axios: `axios.create`, `post`, and real HTTP and TLS. Sending is `HttpChannel.Post`, which answers by a fixed function, so the model does not capture timeouts, retries or changing answers inside the library.
- Rejections that are not axios errors: the catch blocks hand whatever was thrown to the classifier. A `null` or `undefined` rejection would make reading `error.response` throw a TypeError that nothing classifies, and a non-Error value would give an empty message. axios never rejects this way, so the model's failures are always `AxiosFailure` values.
- async and Promise semantics: each operation is modelled as the straight-line code it is once awaited. There is no concurrency logic here.
- `JSON.stringify` internals: it is the uninterpreted parameter `stringify`.
- JavaScript `typeof` corner cases: a payload is either JSON null, an array or an object (typeof "object"), or a string. Number, boolean and undefined payloads, which the code casts with `as string`, are not modelled.
- JSON numbers are integers; floating point is not modelled.
- The shape of the validate payload is not checked at run time by the code (a type assertion). The model takes the payload in its declared shape, `ValidateTotpAuthorizationResponse`, and so does not model a payload without a `result` field.
- src/client/index.ts `create`: factory glue around a constant URL from a constants module, which is not part of this model.
- src/client/interfaces/csim-client.interface.ts and src/client/types.ts: declarations only. The types give the model's datatype shapes.
- Error stack traces and the rest of the JavaScript `Error` machinery.
- One channel per response type: `RequestTotpAuthorization` posts through an `HttpChannel<Json>` and `ValidateTotpAuthorization` through an `HttpChannel<ValidateTotpAuthorizationResponse>`. In the code both go through the one axios instance `httpClient`, so the model keeps two separate logs and does not capture the order between requests of the two operations.
- Strings are Dafny strings, sequences of Unicode scalar values. JavaScript strings are UTF-16 code units and may hold lone surrogates, so lengths such as the one in `BadRequestMessageLength` are counted in scalar values rather than in `.length` units.
