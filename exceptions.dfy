/**
 * The exception hierarchy of the client: a base class CSimException carrying
 * a message, and two subclasses, BadRequestException and UnauthorizedException,
 * that only choose the message they pass to the base constructor. An
 * exception is a value here: the constructor that built it and its argument.
 */
module Exceptions {

  /** The name the base constructor assigns, read from the base class itself. */
  const BaseName := "CSimException"

  const BadRequestPrefix := "Bad Request: "

  const UnauthorizedMessage := "Unauthorized. Invalid Api Key or Provider Id"

  /**
   * Every exception the client throws, by the class that was instantiated.
   * All three are CSimException instances.
   */
  datatype Exc =
    | CSim(text: string)        // new CSimException(text)
    | BadRequest(arg: string)   // new BadRequestException(arg)
    | Unauthorized              // new UnauthorizedException()

  /** The `message` property of the constructed exception. */
  function Message(e: Exc): (m: string)
    ensures e.CSim? ==> m == e.text
    ensures e.BadRequest? ==> BadRequestPrefix <= m && m[|BadRequestPrefix|..] == e.arg
    ensures e.Unauthorized? ==> m == UnauthorizedMessage
  {
    match e
    case CSim(text) => text
    case BadRequest(arg) => BadRequestPrefix + arg
    case Unauthorized => UnauthorizedMessage
  }

  /** The class that was instantiated, as `e.constructor.name` would report it. */
  function RuntimeClass(e: Exc): (c: string)
    ensures c == "CSimException" <==> e.CSim?
    ensures c == "BadRequestException" <==> e.BadRequest?
    ensures c == "UnauthorizedException" <==> e.Unauthorized?
  {
    match e
    case CSim(_) => "CSimException"
    case BadRequest(_) => "BadRequestException"
    case Unauthorized => "UnauthorizedException"
  }

  /**
   * The `name` property. The base constructor assigns the name of the base
   * class, so a subclass instance does not report its own class.
   */
  function Name(e: Exc): (n: string)
    ensures n == BaseName
    ensures n == RuntimeClass(e) <==> e.CSim?
  {
    BaseName
  }

  /** The base message is the constructor argument, whatever string it is. */
  lemma CSimMessageVerbatim(text: string)
    ensures Message(CSim(text)) == text && Name(CSim(text)) == BaseName
  {
  }

  /** Every BadRequest message is at least as long as its prefix. */
  lemma BadRequestMessageLength(arg: string)
    ensures |Message(BadRequest(arg))| == |BadRequestPrefix| + |arg| >= 13
  {
  }

  /** Distinct arguments give distinct BadRequest messages. */
  lemma BadRequestMessageInjective(a: string, b: string)
    ensures Message(BadRequest(a)) == Message(BadRequest(b)) <==> a == b
  {
  }

  /** The fixed Unauthorized message does not begin with the BadRequest prefix. */
  lemma UnauthorizedIsNotBadRequest(arg: string)
    ensures !(BadRequestPrefix <= Message(Unauthorized))
    ensures Message(Unauthorized) != Message(BadRequest(arg))
  {
    // the two strings already differ in their first character
    assert Message(Unauthorized)[0] == 'U';
    assert BadRequestPrefix[0] == 'B';
  }

  /**
   * Neither the message nor the name tells a base exception from a subclass
   * one: a base exception can carry any text, including a subclass's message.
   */
  lemma MessageAndNameDoNotDetermineClass(arg: string)
    ensures var e := CSim(Message(BadRequest(arg)));
      Message(e) == Message(BadRequest(arg)) && Name(e) == Name(BadRequest(arg)) && e != BadRequest(arg)
    ensures var e := CSim(UnauthorizedMessage);
      Message(e) == Message(Unauthorized) && Name(e) == Name(Unauthorized) && e != Unauthorized
  {
  }
}
