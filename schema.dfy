/** The records the web stores keep, reduced to the fields their actions read
    or write. An optional field is an `Option`; JavaScript truthiness of a
    string is "present and not empty". */
module Schema {
  import opened Wrappers

  /** A chat message (`AppSchema.ChatMessage`). `userId` is set on messages a
      user wrote and absent on the character's replies. */
  datatype ChatMessage = ChatMessage(
    id: string,
    chatId: string,
    msg: string,
    characterId: Option<string>,
    userId: Option<string>,
    createdAt: string)

  /** A conversation (`AppSchema.Chat`). */
  datatype Chat = Chat(id: string, characterId: string, name: string)

  /** A character (`AppSchema.Character`). */
  datatype Character = Character(id: string, name: string, sampleChat: string)

  /** The key of a message: its `_id`. */
  function MessageId(m: ChatMessage): string {
    m.id
  }

  /** `if (s)` on an optional string. */
  predicate Truthy(s: Option<string>) {
    s.Some? && s.value != []
  }
}
