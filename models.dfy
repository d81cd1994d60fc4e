/** The data shapes of the chat service: messages, citations, the response it
    returns, and the settings it reads. */
module Models {
  import opened Wrappers

  /** One part of a message's content. Only text parts occur in this system. */
  datatype ContentPart = TextPart(text: string)

  /** One retrieved document fragment that grounds an answer; produced only by
      the search-augmented completion, never by the service itself. */
  datatype Citation = Citation(
    title: string,
    content: string,
    url: Option<string>,
    filePath: Option<string>,
    chunkId: Option<string>)

  datatype Role = System | User | Assistant

  /** A conversation message: a role, its content parts, and for an assistant
      message that was built with citations, those citations. The C# subclass
      `AssistantMessageWithCitations` becomes the optional `citations` field. */
  datatype ChatMessage = ChatMessage(
    role: Role,
    content: seq<ContentPart>,
    citations: Option<seq<Citation>>)

  /** `new SystemChatMessage(text)`: one system message with one text part. */
  function SystemChatMessage(text: string): (m: ChatMessage)
    ensures m.role == System && m.content == [TextPart(text)]
    ensures m.citations == None
  {
    ChatMessage(System, [TextPart(text)], None)
  }

  /** `new AssistantChatMessage(content)`: the base assistant message. */
  function AssistantChatMessage(content: seq<ContentPart>): (m: ChatMessage)
    ensures m.role == Assistant && m.content == content
    ensures m.citations == None
  {
    ChatMessage(Assistant, content, None)
  }

  /** `new AssistantMessageWithCitations(content, citations = null)`: the base
      assistant message with its content, then the citations stored as given.
      Being a datatype value, the result's citations cannot be reassigned later. */
  function AssistantMessageWithCitations(
    content: seq<ContentPart>,
    citations: Option<seq<Citation>> := None): (m: ChatMessage)
    ensures m.role == Assistant
    ensures m.content == content
    ensures m.citations == citations
  {
    AssistantChatMessage(content).(citations := citations)
  }

  /** Omitting the citations argument leaves the message without citations. */
  lemma AssistantMessageDefaultCitations(content: seq<ContentPart>)
    ensures AssistantMessageWithCitations(content).citations == None
    ensures AssistantMessageWithCitations(content) == AssistantChatMessage(content)
  {
  }

  /** The response of one chat completion: content parts, citations and an
      error text, each of them possibly null. */
  datatype ChatResponse = ChatResponse(
    content: Option<seq<ContentPart>>,
    citations: Option<seq<Citation>>,
    error: Option<string>)

  /** `new ChatResponse()`: no property is set yet. Object initialisers start
      from this value and set only the properties they name. */
  function NewChatResponse(): (r: ChatResponse)
    ensures r.content.None? && r.citations.None? && r.error.None?
  {
    ChatResponse(None, None, None)
  }

  /** The application settings, every property a nullable string. */
  datatype AppSettings = AppSettings(
    openAIEndpoint: Option<string>,
    openAIGptDeployment: Option<string>,
    openAIEmbeddingDeployment: Option<string>,
    systemPrompt: Option<string>,
    searchServiceUrl: Option<string>,
    searchIndexName: Option<string>)

  const DefaultSystemPrompt: string := "You are an AI assistant that helps people find information."

  /** `new AppSettings()`: only the system prompt has a value, the default one. */
  function NewAppSettings(): (s: AppSettings)
    ensures s.systemPrompt == Some(DefaultSystemPrompt)
    ensures s.openAIEndpoint.None? && s.openAIGptDeployment.None? && s.openAIEmbeddingDeployment.None?
    ensures s.searchServiceUrl.None? && s.searchIndexName.None?
  {
    AppSettings(None, None, None, Some(DefaultSystemPrompt), None, None)
  }
}
