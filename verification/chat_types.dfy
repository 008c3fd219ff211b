/**
 * The records of the chat application (types.ts). Optional flags that
 * JavaScript leaves `undefined` are `false` here, and an absent attachment
 * is `None`.
 */
module ChatTypes {
  import opened Wrappers

  datatype Role = User | Assistant | System

  datatype Provider = Gemini | Puter | OpenRouter | HuggingFace | Groq

  datatype AppTab = ChatTab | ImageTab | VideoTab

  datatype Model = Model(id: string, name: string, provider: Provider, isFree: bool)

  /** The name and MIME type kept of an attached file. */
  datatype Attachment = Attachment(name: string, mime: string)

  datatype Message = Message(
    id: string,
    role: Role,
    content: string,
    timestamp: int,
    file: Option<Attachment>,
    isStreaming: bool,
    isError: bool,
    liked: bool,
    disliked: bool)

  datatype ChatSession = ChatSession(
    id: string,
    title: string,
    messages: seq<Message>,
    lastUpdated: int,
    preview: string,
    pinned: bool)
}
