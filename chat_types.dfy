/** The record types of the bot: one transcript entry and one message returned by the completion service. */
module ChatTypes {
  import opened Wrappers

  /** The three roles a transcript entry may carry; no other value is representable. */
  datatype Role = System | User | Assistant

  /**
   * One transcript entry. The declared type of `content` is a string, but the
   * system entry is built with a lookup that may miss and is cast with `as string`;
   * `None` stands for the `undefined` that then ends up stored.
   */
  datatype ChatHistoryItem = ChatHistoryItem(role: Role, content: Option<string>)

  /** The message object of the first completion choice, as the completion service returns it. */
  datatype ApiMessage = ApiMessage(role: Role, content: string)

  /** The transcript entry that pushing an API message onto the history stores. */
  function StoredItem(m: ApiMessage): ChatHistoryItem
  {
    ChatHistoryItem(m.role, Some(m.content))
  }

  /**
   * The transcript invariant: it is non-empty, its first entry is the system
   * entry and no later entry has the system role.
   */
  ghost predicate SystemOnlyAtHead(h: seq<ChatHistoryItem>)
  {
    |h| > 0 && h[0].role == System &&
    forall i :: 1 <= i < |h| ==> h[i].role != System
  }
}
