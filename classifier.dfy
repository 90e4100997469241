/**
 * handleAxiosError: the function every failed request is handed to. It never
 * returns normally; it always throws exactly one exception. Here it is a total
 * function from the failure to the exception it throws.
 *
 * JSON.stringify is not modelled; it is the parameter `stringify`.
 */
module ErrorClassifier {
  import opened Transport
  import opened Exceptions

  /**
   * The message text derived from a response payload: the serialised JSON for
   * a structured payload, the string itself otherwise.
   */
  function BodyText(data: Body, stringify: Json -> string): (t: string)
    ensures data.Structured? ==> t == stringify(data.value)
    ensures data.Text? ==> t == data.text
  {
    match data
    case Structured(value) => stringify(value)
    case Text(text) => text
  }

  /** The exception handleAxiosError throws for `error`. */
  function Classify(error: AxiosFailure, stringify: Json -> string): (e: Exc)
    // a 403 response: the fixed Unauthorized exception, whatever the payload
    ensures error.response.Some? && error.response.value.status == 403 ==>
      e == Unauthorized && Message(e) == UnauthorizedMessage
    // a 400 response: BadRequest carrying the payload's text
    ensures error.response.Some? && error.response.value.status == 400 ==>
      e == BadRequest(BodyText(error.response.value.data, stringify))
      && Message(e) == BadRequestPrefix + BodyText(error.response.value.data, stringify)
    // any other response: a base exception carrying the payload's text
    ensures error.response.Some? && error.response.value.status !in {400, 403} ==>
      e == CSim(BodyText(error.response.value.data, stringify))
      && Message(e) == BodyText(error.response.value.data, stringify)
    // no response at all: a base exception carrying the error's own message
    ensures error.response.None? ==> e == CSim(error.message) && Message(e) == error.message
    // every exception thrown is a CSimException by name
    ensures Name(e) == BaseName
  {
    match error.response
    case Some(response) =>
      if response.status == 403 then Unauthorized
      else if response.status == 400 then BadRequest(BodyText(response.data, stringify))
      else CSim(BodyText(response.data, stringify))
    case None => CSim(error.message)
  }

  /** The exception is Unauthorized exactly when a 403 response came back. */
  lemma UnauthorizedIff403(error: AxiosFailure, stringify: Json -> string)
    ensures Classify(error, stringify).Unauthorized? <==>
      error.response.Some? && error.response.value.status == 403
  {
  }

  /** The exception is a BadRequest exactly when a 400 response came back. */
  lemma BadRequestIff400(error: AxiosFailure, stringify: Json -> string)
    ensures Classify(error, stringify).BadRequest? <==>
      error.response.Some? && error.response.value.status == 400
  {
  }

  /** A 403 is classified before anything else: the payload (and the error message) play no part. */
  lemma PayloadIgnoredOn403(e1: AxiosFailure, e2: AxiosFailure, stringify: Json -> string)
    requires e1.response.Some? && e1.response.value.status == 403
    requires e2.response.Some? && e2.response.value.status == 403
    ensures Classify(e1, stringify) == Classify(e2, stringify)
  {
  }

  /** Whenever a response exists, the error's own message plays no part. */
  lemma MessageIgnoredWithResponse(e1: AxiosFailure, e2: AxiosFailure, stringify: Json -> string)
    requires e1.response.Some? && e1.response == e2.response
    ensures Classify(e1, stringify) == Classify(e2, stringify)
  {
  }

  /**
   * The 400 branch and the other-status branch compute the same text from the
   * same payload; only the exception kind differs, so a 400 message is the
   * other-status message behind the BadRequest prefix.
   */
  lemma BadRequestAndGenericShareText(message: string, data: Body, status: int, stringify: Json -> string)
    requires status != 400 && status != 403
    ensures Message(Classify(AxiosFailure(message, Some(ErrorResponse(400, data))), stringify))
         == BadRequestPrefix + Message(Classify(AxiosFailure(message, Some(ErrorResponse(status, data))), stringify))
  {
  }

  /**
   * The message of the exception thrown for any failure other than a 403 gives
   * back the text that was available: the payload's text, or the error message.
   */
  lemma MessageRecoversText(error: AxiosFailure, stringify: Json -> string)
    requires error.response.None? || error.response.value.status != 403
    ensures var m := Message(Classify(error, stringify));
      var text := if error.response.Some? then BodyText(error.response.value.data, stringify) else error.message;
      if Classify(error, stringify).BadRequest? then m[|BadRequestPrefix|..] == text else m == text
  {
  }

  // ---- concrete failures ----

  /** A 500 response with a string payload throws a base exception with that string. */
  lemma ServerErrorExample(stringify: Json -> string)
    ensures var e := Classify(AxiosFailure("Request failed with status code 500",
                                           Some(ErrorResponse(500, Text("server exploded")))), stringify);
      e == CSim("server exploded") && Message(e) == "server exploded"
  {
  }

  /** A refused connection has no response: the error's own message is thrown. */
  lemma ConnectionRefusedExample(stringify: Json -> string)
    ensures var e := Classify(AxiosFailure("ECONNREFUSED", None), stringify);
      e == CSim("ECONNREFUSED") && Message(e) == "ECONNREFUSED"
  {
  }

  /** A 400 response with an object payload throws a BadRequest carrying the serialised object. */
  lemma BadRequestObjectExample(stringify: Json -> string)
    requires stringify(JObj([("error", JStr("bad phone"))])) == "{\"error\":\"bad phone\"}"
    ensures var e := Classify(AxiosFailure("Request failed with status code 400",
                                           Some(ErrorResponse(400, Structured(JObj([("error", JStr("bad phone"))]))))), stringify);
      e.BadRequest? && Message(e) == "Bad Request: {\"error\":\"bad phone\"}"
  {
    var data := Structured(JObj([("error", JStr("bad phone"))]));
    assert BodyText(data, stringify) == "{\"error\":\"bad phone\"}";
    PrefixedExampleText();
  }

  /** Proof step for BadRequestObjectExample: the prefix followed by the example's serialised object, as one literal. */
  lemma PrefixedExampleText()
    ensures BadRequestPrefix + "{\"error\":\"bad phone\"}" == "Bad Request: {\"error\":\"bad phone\"}"
  {
  }
}
