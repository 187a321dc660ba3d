/** The plain data types exchanged between chat peers (src/protocol.rs). */
module Protocol {

  /** A point in time in UTC; its rendering in the local time zone is left abstract. */
  datatype Timestamp = Timestamp(nanosSinceEpoch: int)

  /** The errors a peer may answer a `SendText` with. */
  datatype ChatError = Rejected | UnknownUser | InvalidNodeId

  /** One line of text typed by a user, stamped when it was typed. */
  datatype TextMessage = TextMessage(content: string, timestamp: Timestamp)

  /** A batch of text messages sent to one peer in a single call. */
  datatype SendText = SendText(messages: seq<TextMessage>)

  /** The identifier under which `SendText` is routed on the service bus. */
  const SendTextId: string := "SendText"
}
