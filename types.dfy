// The shared record types of the site (types.ts) that the chat widget and the
// gateway adapter exchange.

module Types {

  datatype Option<T> = None | Some(value: T)

  /** The three roles a chat message can carry. */
  datatype Role = User | Model | System

  /** One entry of the chat log. `types.ts`'s optional `isStreaming` flag is a
      plain boolean here: an absent flag reads as `false`, which is how the
      widget treats it. */
  datatype ChatMessage = ChatMessage(id: string, role: Role, text: string, streaming: bool)

  /** The `{ role, text }` pair the widget hands to the gateway adapter. */
  datatype HistoryEntry = HistoryEntry(role: Role, text: string)
}
