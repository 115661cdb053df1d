/**
 * The message entities the outgoing-mutation stage reads: references to
 * message objects, header dictionaries, and the incoming logical and physical
 * messages that earlier stages may have placed in the context's bag.
 */
module Messages {

  /**
   * A reference to a message object. The behaviour never looks inside a
   * message, it only passes references along, so a message is its identity;
   * `Null` is C#'s null.
   */
  datatype Ref = Null | Obj(address: nat)

  /** The content of a header dictionary. */
  type Headers = map<string, string>

  /** The incoming logical message: the deserialised instance that is being handled. */
  datatype LogicalMessage = LogicalMessage(instance: Ref)

  /** The incoming physical message: its transport id and its headers. */
  datatype IncomingMessage = IncomingMessage(messageId: string, headers: Headers)

  /**
   * A mutable header dictionary. The outgoing context and the mutator context
   * hold the SAME dictionary object, so an edit made through one is seen
   * through the other.
   */
  class HeaderDictionary {
    var entries: Headers

    constructor (entries: Headers)
      ensures this.entries == entries
    {
      this.entries := entries;
    }
  }
}
