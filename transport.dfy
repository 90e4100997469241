/**
 * The HTTP transport the client sits on (an axios instance), reduced to the
 * values the client builds and inspects: JSON payloads, the outbound POST
 * request, the body of an error response, and the failure an awaited call
 * rejects with; and HttpChannel, the object requests are posted through: it
 * answers each request by a fixed function and records it in a ghost log.
 * Nothing here performs real I/O.
 */
module Transport {

  /** A parsed JSON value. Numbers are integers here: floating point is not modelled. */
  datatype Json =
    | JNull
    | JBool(b: bool)
    | JNum(n: int)
    | JStr(s: string)
    | JArr(items: seq<Json>)
    | JObj(members: seq<(string, Json)>)

  /** The JSON values for which JavaScript's `typeof` answers "object": null, arrays and objects. */
  predicate IsObjectLike(j: Json): (r: bool)
    ensures r <==> !(j.JBool? || j.JNum? || j.JStr?)
  {
    j.JNull? || j.JArr? || j.JObj?
  }

  type ObjectJson = j: Json | IsObjectLike(j) witness JNull

  /**
   * The payload of an error response, as the classifier distinguishes it:
   * a structured value (typeof "object") or a string.
   */
  datatype Body = Structured(value: ObjectJson) | Text(text: string)

  /** The response attached to a rejected request: its HTTP status and its payload. */
  datatype ErrorResponse = ErrorResponse(status: int, data: Body)

  datatype Option<T> = None | Some(value: T)

  /**
   * What an awaited axios call rejects with: the error's own message text and,
   * when the server answered at all, the response it sent.
   */
  datatype AxiosFailure = AxiosFailure(message: string, response: Option<ErrorResponse>)

  /** One outbound POST, as an axios instance sends it: its base URL, headers, path and JSON body. */
  datatype HttpRequest = Post(baseURL: string, headers: map<string, string>, path: string, body: Json)

  /** What awaiting a request yields: the parsed response data, or the failure it rejected with. */
  datatype Outcome<T> = Sent(data: T) | Failed(failure: AxiosFailure)

  /**
   * The network as seen by one kind of call (one response type T): `respond`
   * is what the server (or the network) answers to each request, and `sent`
   * records every request posted through this channel so far, in order.
   */
  class HttpChannel<T> {
    const respond: HttpRequest -> Outcome<T>
    ghost var sent: seq<HttpRequest>

    constructor (respond: HttpRequest -> Outcome<T>)
      ensures this.respond == respond && sent == []
    {
      this.respond := respond;
      sent := [];
    }

    /** Post one request and await its outcome. */
    method Post(request: HttpRequest) returns (o: Outcome<T>)
      modifies this
      ensures sent == old(sent) + [request]
      ensures o == respond(request)
    {
      o := respond(request);
      sent := sent + [request];
    }
  }
}
