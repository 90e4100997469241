/**
 * CSimClient: an authenticated HTTP client with two operations, one asking the
 * service to send a TOTP challenge to a phone number and one validating the
 * code the user entered. The only state is the HTTP client configuration, set
 * once by the constructor and never changed (a `const` field).
 *
 * Sending goes through an HttpChannel, which records every request posted.
 * What each operation does with the awaited result (the body of its
 * try/catch) is a function, so that lemmas can speak about it; the methods
 * post exactly one request and return that function's answer.
 */
module Client {
  import opened Transport
  import opened Exceptions
  import opened ErrorClassifier

  // ---- shapes of the parameters and results ----

  /** What the constructor is given. */
  datatype CSimClientConstructor = CSimClientConstructor(apiUrl: string, providerId: string, apiKey: string)

  datatype RequestTotpAuthorizationParams = RequestTotpAuthorizationParams(phoneNumber: string)

  datatype ValidateTotpAuthorizationParams = ValidateTotpAuthorizationParams(phoneNumber: string, code: string)

  /** The service's record of a phone number; field names are the wire names, forwarded as they are. */
  datatype Number = Number(number: string, contract_address: string)

  datatype User = User(address: string)

  datatype ValidateTotpAuthorizationResult = ValidateTotpAuthorizationResult(number: Number, user: User)

  /** The success payload of the validate action, in the shape the client declares for it. */
  datatype ValidateTotpAuthorizationResponse = ValidateTotpAuthorizationResponse(success: bool, result: ValidateTotpAuthorizationResult)

  /** What an operation does as the caller sees it: return a value or throw an exception. */
  datatype Result<T> = Returned(value: T) | Threw(exc: Exc)

  // ---- the HTTP client configuration ----

  const ProviderIdHeader := "x-provider-id"
  const AuthorizationHeader := "authorization"
  const BearerPrefix := "Bearer "

  /** What axios.create is given: a base URL and the headers sent with every request. */
  datatype HttpClientConfig = HttpClientConfig(baseURL: string, headers: map<string, string>)

  /** The configuration the constructor creates its HTTP client with. */
  function CreateHttpClient(params: CSimClientConstructor): (c: HttpClientConfig)
    ensures c.baseURL == params.apiUrl
    ensures c.headers.Keys == {ProviderIdHeader, AuthorizationHeader}
    ensures c.headers[ProviderIdHeader] == params.providerId
    ensures c.headers[AuthorizationHeader] == BearerPrefix + params.apiKey
  {
    HttpClientConfig(params.apiUrl, map[ProviderIdHeader := params.providerId, AuthorizationHeader := BearerPrefix + params.apiKey])
  }

  /**
   * The configuration determines the constructor's arguments: base URL,
   * provider id and API key can each be read back from it.
   */
  lemma CreateHttpClientInjective(p1: CSimClientConstructor, p2: CSimClientConstructor)
    ensures CreateHttpClient(p1) == CreateHttpClient(p2) <==> p1 == p2
  {
    if CreateHttpClient(p1) == CreateHttpClient(p2) {
      var k1, k2 := CreateHttpClient(p1).headers[AuthorizationHeader], CreateHttpClient(p2).headers[AuthorizationHeader];
      assert p1.apiKey == k1[|BearerPrefix|..];
      assert p2.apiKey == k2[|BearerPrefix|..];
    }
  }

  /** A client built with provider id "p1" and API key "k1" sends exactly these two headers. */
  lemma HeadersExample(apiUrl: string)
    ensures CreateHttpClient(CSimClientConstructor(apiUrl, "p1", "k1")).headers
         == map["x-provider-id" := "p1", "authorization" := "Bearer k1"]
  {
    assert BearerPrefix + "k1" == "Bearer k1";
  }

  // ---- the request each operation sends ----

  /** The relative path and JSON body of one POST. */
  datatype Call = Call(path: string, body: Json)

  /** The call requestTotpAuthorization makes: POST /request carrying only the phone number. */
  function RequestTotpCall(params: RequestTotpAuthorizationParams): (c: Call)
    ensures c.path == "/request"
    ensures c.body == JObj([("csim_number", JStr(params.phoneNumber))])
  {
    Call("/request", JObj([("csim_number", JStr(params.phoneNumber))]))
  }

  /** The call validateTotpAuthorization makes: POST /validate carrying the phone number and the code. */
  function ValidateTotpCall(params: ValidateTotpAuthorizationParams): (c: Call)
    ensures c.path == "/validate"
    ensures c.body == JObj([("csim_number", JStr(params.phoneNumber)), ("totp_code", JStr(params.code))])
  {
    Call("/validate", JObj([("csim_number", JStr(params.phoneNumber)), ("totp_code", JStr(params.code))]))
  }

  /** The validate call extends the request call's body with the code, under the same phone number field. */
  lemma ValidateExtendsRequest(params: ValidateTotpAuthorizationParams)
    ensures var r := RequestTotpCall(RequestTotpAuthorizationParams(params.phoneNumber));
      var v := ValidateTotpCall(params);
      r.body.JObj? && v.body.JObj? && r.body.members <= v.body.members
      && v.body.members == r.body.members + [("totp_code", JStr(params.code))]
  {
  }

  /** The outbound request: the call, sent from the configured base URL with the configured headers. */
  function Outbound(config: HttpClientConfig, call: Call): (r: HttpRequest)
    ensures r.baseURL == config.baseURL && r.headers == config.headers
    ensures r.path == call.path && r.body == call.body
  {
    Post(config.baseURL, config.headers, call.path, call.body)
  }

  // ---- what each operation does with the transport's answer ----

  /** requestTotpAuthorization's try/catch: nothing on success, the classifier's exception on failure. */
  function RequestOutcome<T>(o: Outcome<T>, stringify: Json -> string): (r: Result<()>)
    ensures o.Sent? <==> r.Returned?
    ensures o.Failed? ==> r == Threw(Classify(o.failure, stringify))
  {
    match o
    case Sent(_) => Returned(())
    case Failed(failure) => Threw(Classify(failure, stringify))
  }

  /** validateTotpAuthorization's try/catch: the payload's `result` on success, the classifier's exception on failure. */
  function ValidateOutcome(o: Outcome<ValidateTotpAuthorizationResponse>, stringify: Json -> string): (r: Result<ValidateTotpAuthorizationResult>)
    ensures o.Sent? <==> r.Returned?
    ensures o.Sent? ==> r.value == o.data.result
    ensures o.Failed? ==> r == Threw(Classify(o.failure, stringify))
  {
    match o
    case Sent(data) => Returned(data.result)
    case Failed(failure) => Threw(Classify(failure, stringify))
  }

  /** The success flag of the validate payload is never looked at. */
  lemma SuccessFlagIgnored(result: ValidateTotpAuthorizationResult, stringify: Json -> string)
    ensures ValidateOutcome(Sent(ValidateTotpAuthorizationResponse(true, result)), stringify)
         == ValidateOutcome(Sent(ValidateTotpAuthorizationResponse(false, result)), stringify)
         == Returned(result)
  {
  }

  /** A successful validation hands back the record exactly as the service sent it. */
  lemma ValidateExample(stringify: Json -> string)
    ensures var result := ValidateTotpAuthorizationResult(Number("+15551234567", "0xabc"), User("0xdef"));
      ValidateOutcome(Sent(ValidateTotpAuthorizationResponse(true, result)), stringify) == Returned(result)
  {
  }

  /**
   * Both operations treat a failure the same way: neither swallows it, both
   * throw exactly what the classifier throws.
   */
  lemma FailuresPropagate(failure: AxiosFailure, stringify: Json -> string)
    ensures RequestOutcome<Json>(Failed(failure), stringify).Threw?
    ensures ValidateOutcome(Failed(failure), stringify).Threw?
    ensures RequestOutcome<Json>(Failed(failure), stringify).exc
         == ValidateOutcome(Failed(failure), stringify).exc
         == Classify(failure, stringify)
  {
  }

  /** The client: its one field is the HTTP client configuration, fixed at construction. */
  class CSimClient {
    const httpClient: HttpClientConfig

    constructor (params: CSimClientConstructor)
      ensures httpClient == CreateHttpClient(params)
      ensures httpClient.baseURL == params.apiUrl
      ensures httpClient.headers == map[ProviderIdHeader := params.providerId, AuthorizationHeader := BearerPrefix + params.apiKey]
    {
      httpClient := CreateHttpClient(params);
    }

    /** Ask the service to send a challenge: one POST /request, nothing returned on success. */
    method RequestTotpAuthorization(params: RequestTotpAuthorizationParams, channel: HttpChannel<Json>, stringify: Json -> string)
      returns (r: Result<()>)
      modifies channel
      ensures channel.sent == old(channel.sent) + [Outbound(httpClient, RequestTotpCall(params))]
      ensures r == RequestOutcome(channel.respond(Outbound(httpClient, RequestTotpCall(params))), stringify)
      ensures r.Returned? <==> channel.respond(Post(httpClient.baseURL, httpClient.headers, "/request", JObj([("csim_number", JStr(params.phoneNumber))]))).Sent?
    {
      var response := channel.Post(Outbound(httpClient, RequestTotpCall(params)));
      r := RequestOutcome(response, stringify);
    }

    /** Validate a code: one POST /validate, the payload's `result` returned as it came. */
    method ValidateTotpAuthorization(params: ValidateTotpAuthorizationParams, channel: HttpChannel<ValidateTotpAuthorizationResponse>, stringify: Json -> string)
      returns (r: Result<ValidateTotpAuthorizationResult>)
      modifies channel
      ensures channel.sent == old(channel.sent) + [Outbound(httpClient, ValidateTotpCall(params))]
      ensures r == ValidateOutcome(channel.respond(Outbound(httpClient, ValidateTotpCall(params))), stringify)
      ensures var o := channel.respond(Post(httpClient.baseURL, httpClient.headers, "/validate",
                                  JObj([("csim_number", JStr(params.phoneNumber)), ("totp_code", JStr(params.code))])));
        (o.Sent? ==> r == Returned(o.data.result)) && (o.Failed? ==> r == Threw(Classify(o.failure, stringify)))
    {
      var response := channel.Post(Outbound(httpClient, ValidateTotpCall(params)));
      r := ValidateOutcome(response, stringify);
    }
  }
}
