/** The record shapes shared by the chat core: a transcript message, a model
    descriptor, and the body of a chat-completion request. */
module ChatTypes {
  import opened Wrappers

  /** The author of a message: exactly one of the two. */
  datatype Role = User | Assistant

  /** One turn of a conversation. The identifier is drawn from the store's
      id counter; the timestamp is a clock reading supplied by the caller. */
  datatype Message = Message(
    id: nat,
    content: string,
    role: Role,
    timestamp: int,
    model: Option<string>)

  /** A selectable model: identifier and display name are required, the
      description is optional. */
  datatype AIModel = AIModel(name: string, id: string, description: Option<string>)

  /** A message as it travels in a request: role and content only. */
  datatype ChatMessage = ChatMessage(role: Role, content: string)

  /** The body of a chat-completion request; the token cap and the sampling
      temperature are optional. */
  datatype ChatRequest = ChatRequest(
    model: string,
    messages: seq<ChatMessage>,
    maxTokens: Option<nat>,
    temperature: Option<real>)
}
