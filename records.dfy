/** Rows of the relational store (the `Conversation` and `Message` tables) and the
    shapes the server and the client pass between each other. */
module Records {

  datatype Option<+T> = None | Some(value: T)

  /** The business account's own number, written into every message `sendMessage` creates. */
  const BusinessNumber: string := "918329446654"

  /** Values the `direction` column takes. */
  const Inbound: string := "inbound"
  const Outbound: string := "outbound"

  /** A row of the conversation table, keyed by `conversationId`.
      Times are milliseconds since the epoch. */
  datatype Conversation = Conversation(
    conversationId: string,
    waId: string,
    name: string,
    lastMessageAt: int,
    createdAt: int)

  /** A row of the message table, keyed by `messageId` (unique).
      `textBody` is `None` when the provider sent no `text.body`. */
  datatype Message = Message(
    messageId: string,
    conversationId: string,
    direction: string,
    kind: string,
    status: string,
    textBody: Option<string>,
    timestamp: int,
    senderWaId: string)

  /** A contact as both the provider payload and the send action carry it:
      `{ wa_id, profile: { name } }`. */
  datatype Contact = Contact(waId: string, name: string)

  /** A message row as the store returns it to a reader: the store-assigned
      identity `id` beside the stored columns, and the `wa_id` field that the
      client view looks up on a message (neither write path sets it). */
  datatype MessageRecord = MessageRecord(id: int, data: Message, waId: Option<string>)

  /** A conversation row as the store returns it to a reader, with its messages. */
  datatype ConversationRecord = ConversationRecord(id: int, data: Conversation, messages: seq<MessageRecord>)
}
