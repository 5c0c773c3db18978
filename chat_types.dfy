/** The records the chat store and the message handler exchange. */
module ChatTypes {
  import opened Wrappers

  datatype Role = User | Assistant

  /**
   * A chat message. `id` is a clock reading in milliseconds; the optional
   * fields are `undefined` when absent.
   */
  datatype Message = Message(
    id: int,
    role: Role,
    content: string,
    reasoning: Option<string>,
    completionTokens: Option<int>)

  datatype Chat = Chat(id: string, title: string, messages: seq<Message>)
}
