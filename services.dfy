/** The retrieval-augmented chat service: the settings check made when the
    service is created, and the routine that shapes one completion request and
    normalises its outcome into a `ChatResponse`. */
module Services {
  import opened Wrappers
  import opened Models
  import Enumerable

  /** How many of the caller's most recent messages are forwarded. */
  const MaxHistoryMessages: nat := 20

  /** Appended to the index name to name its semantic ranking configuration. */
  const SemanticConfigurationSuffix: string := "-semantic-configuration"

  const ErrorPrefix: string := "An error occurred: "

  function Min(a: int, b: int): int { if a <= b then a else b }

  // ---------------------------------------------------------------------------
  // Faults

  /** An exception caught or thrown by the service: an `ArgumentNullException`
      naming its parameter, or any other exception with its message. */
  datatype Fault = ArgumentNull(paramName: string) | Raised(message: string)
  {
    /** `Exception.Message`; for `ArgumentNullException(paramName)` the .NET
        runtime's fixed wording around the parameter name. */
    function Message(): string {
      match this
      case ArgumentNull(p) => "Value cannot be null. (Parameter '" + p + "')"
      case Raised(m) => m
    }
  }

  // ---------------------------------------------------------------------------
  // Settings check made by the constructor

  /** The four settings without which no request can be made are present. */
  predicate ValidSettings(s: AppSettings) {
    && s.openAIEndpoint.Some?
    && s.openAIGptDeployment.Some?
    && s.searchServiceUrl.Some?
    && s.searchIndexName.Some?
  }

  /** The parameter name reported by the first `ThrowIfNull` that throws,
      checked in the order endpoint, chat deployment, search URL, index name;
      `None` when all four pass. */
  function MissingSetting(s: AppSettings): (r: Option<string>)
    ensures r.None? <==> ValidSettings(s)
    ensures s.openAIEndpoint.None? ==> r == Some("_settings.OpenAIEndpoint")
    ensures s.openAIEndpoint.Some? && s.openAIGptDeployment.None? ==>
              r == Some("_settings.OpenAIGptDeployment")
    ensures s.openAIEndpoint.Some? && s.openAIGptDeployment.Some? && s.searchServiceUrl.None? ==>
              r == Some("_settings.SearchServiceUrl")
    ensures s.openAIEndpoint.Some? && s.openAIGptDeployment.Some? && s.searchServiceUrl.Some?
            && s.searchIndexName.None? ==>
              r == Some("_settings.SearchIndexName")
  {
    if s.openAIEndpoint.None? then Some("_settings.OpenAIEndpoint")
    else if s.openAIGptDeployment.None? then Some("_settings.OpenAIGptDeployment")
    else if s.searchServiceUrl.None? then Some("_settings.SearchServiceUrl")
    else if s.searchIndexName.None? then Some("_settings.SearchIndexName")
    else None
  }

  /** Settings left at their defaults never pass the check: the endpoint is
      the first one reported missing. */
  lemma DefaultSettingsRejected()
    ensures !ValidSettings(NewAppSettings())
    ensures MissingSetting(NewAppSettings()) == Some("_settings.OpenAIEndpoint")
  {
  }

  // ---------------------------------------------------------------------------
  // History bounding

  /** The history forwarded to the model: the whole history when it has at
      most 20 messages, otherwise `Skip(Count - 20)`. Either way the result is
      the suffix of the history of length min(|history|, 20). */
  function RecentHistory(history: seq<ChatMessage>): (r: seq<ChatMessage>)
    ensures |r| == Min(|history|, MaxHistoryMessages)
    ensures r == history[|history| - |r|..]
    ensures |history| <= MaxHistoryMessages ==> r == history
  {
    if |history| <= MaxHistoryMessages then history
    else Enumerable.Skip(history, |history| - MaxHistoryMessages)
  }

  /** Bounding a bounded history changes nothing. */
  lemma RecentHistoryIdempotent(history: seq<ChatMessage>)
    ensures RecentHistory(RecentHistory(history)) == RecentHistory(history)
  {
  }

  /** The caller's history grows by one message per turn; the forwarded window
      then slides: the new message is appended and, once the window is full,
      its oldest message is dropped. */
  lemma RecentHistoryAppend(history: seq<ChatMessage>, m: ChatMessage)
    ensures RecentHistory(history + [m]) ==
              (if |history| < MaxHistoryMessages then history
               else RecentHistory(history)[1..]) + [m]
  {
  }

  // ---------------------------------------------------------------------------
  // Search data source

  /** `indexName + "-semantic-configuration"`; C# string concatenation reads a
      null operand as the empty string. */
  function SemanticConfigurationName(indexName: Option<string>): (r: string)
    ensures |SemanticConfigurationSuffix| <= |r|
    ensures r[|r| - |SemanticConfigurationSuffix|..] == SemanticConfigurationSuffix
    ensures indexName.Some? ==>
              |r| == |indexName.value| + |SemanticConfigurationSuffix| && r[..|indexName.value|] == indexName.value
    ensures indexName.None? ==> r == SemanticConfigurationSuffix
  {
    match indexName
    case None => SemanticConfigurationSuffix
    case Some(name) => name + SemanticConfigurationSuffix
  }

  /** Distinct index names never share a semantic configuration name. */
  lemma SemanticConfigurationNameInjective(a: string, b: string)
    requires SemanticConfigurationName(Some(a)) == SemanticConfigurationName(Some(b))
    ensures a == b
  {
  }

  /** Example: index "docs-v1". */
  lemma SemanticConfigurationNameExample()
    ensures SemanticConfigurationName(Some("docs-v1")) == "docs-v1-semantic-configuration"
  {
  }

  /** How the search service authenticates the completion service's queries. */
  datatype DataSourceAuthentication = SystemManagedIdentity

  /** Retrieval modes of the search data source. */
  datatype DataSourceQueryType = Simple | Semantic | Vector | VectorSimpleHybrid | VectorSemanticHybrid

  /** Where query embeddings come from: a named embedding deployment. */
  datatype DataSourceVectorizer = FromDeploymentName(deploymentName: Option<string>)

  /** The `AzureSearchChatDataSource` attached to every request. */
  datatype SearchDataSource = SearchDataSource(
    endpoint: string,
    indexName: Option<string>,
    authentication: DataSourceAuthentication,
    queryType: DataSourceQueryType,
    vectorizationSource: DataSourceVectorizer,
    semanticConfiguration: string)

  /** The `AzureSearchChatDataSource` initialiser: every property is read from
      the settings, except the endpoint, which the caller has checked. */
  function BuildDataSource(settings: AppSettings, endpoint: string): (ds: SearchDataSource)
    ensures ds.endpoint == endpoint
    ensures ds.indexName == settings.searchIndexName
    ensures ds.authentication == SystemManagedIdentity
    ensures ds.queryType == VectorSemanticHybrid
    ensures ds.vectorizationSource == FromDeploymentName(settings.openAIEmbeddingDeployment)
    ensures settings.searchIndexName.Some? ==>
              ds.semanticConfiguration == settings.searchIndexName.value + SemanticConfigurationSuffix
    ensures settings.searchIndexName.None? ==> ds.semanticConfiguration == SemanticConfigurationSuffix
  {
    SearchDataSource(
      endpoint,
      settings.searchIndexName,
      SystemManagedIdentity,
      VectorSemanticHybrid,
      FromDeploymentName(settings.openAIEmbeddingDeployment),
      SemanticConfigurationName(settings.searchIndexName))
  }

  // ---------------------------------------------------------------------------
  // The remote completion and the normalised response

  /** Grounding metadata of a completion: the detected intent and the citations. */
  datatype ChatMessageContext = ChatMessageContext(intent: Option<string>, citations: seq<Citation>)

  /** What the completion client does with the request: return content parts
      and, when the search grounded the answer, a message context; or throw an
      exception with the given message. */
  datatype RemoteResult =
    | Completed(content: seq<ContentPart>, context: Option<ChatMessageContext>)
    | Faulted(message: string)

  /** The request handed to the chat client: the messages and the data source. */
  datatype CompletionRequest = CompletionRequest(messages: seq<ChatMessage>, dataSource: SearchDataSource)

  /** One call of the routine: the request it built (`None` when a fault stopped
      it before the remote call) and the response it returned. */
  datatype Completion = Completion(request: Option<CompletionRequest>, response: ChatResponse)

  /** The response built in the catch block. */
  function ErrorResponse(fault: Fault): (r: ChatResponse)
    ensures r.content.None? && r.citations.None?
    ensures r.error == Some("An error occurred: " + fault.Message())
    ensures |r.error.value| > 0
  {
    NewChatResponse().(error := Some(ErrorPrefix + fault.Message()))
  }

  /** `ctx?.Citations`. */
  function CitationsOf(context: Option<ChatMessageContext>): (r: Option<seq<Citation>>)
    ensures r.None? <==> context.None?
    ensures context.Some? ==> r == Some(context.value.citations)
  {
    match context
    case None => None
    case Some(ctx) => Some(ctx.citations)
  }

  /** The response for the remote outcome: content and citations on success,
      the error text and nothing else on a fault. */
  function Normalise(remote: RemoteResult): (r: ChatResponse)
    ensures r.error.None? <==> remote.Completed?
    ensures remote.Completed? ==>
              && r.content == Some(remote.content)
              && r.citations == (if remote.context.Some? then Some(remote.context.value.citations) else None)
    ensures remote.Faulted? ==> r == ChatResponse(None, None, Some("An error occurred: " + remote.message))
  {
    match remote
    case Completed(content, context) =>
      NewChatResponse().(content := Some(content), citations := CitationsOf(context))
    case Faulted(message) => ErrorResponse(Raised(message))
  }

  /** `GetChatCompletionAsync` with the settings as they are read at call time:
      bound the history, put the system message in front, attach the search
      data source, then normalise the remote outcome. A null system prompt or
      search URL throws before the remote call and is caught like any other
      fault. Every input yields a response: nothing escapes. */
  function ChatCompletion(settings: AppSettings, history: seq<ChatMessage>, remote: RemoteResult): (c: Completion)
    ensures c.request.Some? <==> settings.systemPrompt.Some? && settings.searchServiceUrl.Some?
    ensures c.response.error.None? <==> c.request.Some? && remote.Completed?
  {
    var recentHistory := RecentHistory(history);
    match settings.systemPrompt
    case None => Completion(None, ErrorResponse(ArgumentNull("SystemPrompt")))
    case Some(prompt) =>
      var messages := Enumerable.Prepend(recentHistory, SystemChatMessage(prompt));
      match settings.searchServiceUrl
      case None => Completion(None, ErrorResponse(ArgumentNull("SearchServiceUrl")))
      case Some(url) =>
        Completion(Some(CompletionRequest(messages, BuildDataSource(settings, url))), Normalise(remote))
  }

  // ---------------------------------------------------------------------------
  // Properties of the routine

  /** The messages sent are one system message carrying the configured prompt,
      followed by the last min(|history|, 20) messages of the history in their
      original order; a history of at most 20 messages is sent unchanged. */
  lemma SentMessages(settings: AppSettings, history: seq<ChatMessage>, remote: RemoteResult)
    requires ChatCompletion(settings, history, remote).request.Some?
    ensures var sent := ChatCompletion(settings, history, remote).request.value.messages;
      && |sent| == Min(|history|, MaxHistoryMessages) + 1
      && sent[0] == SystemChatMessage(settings.systemPrompt.value)
      && sent[1..] == history[|history| - Min(|history|, MaxHistoryMessages)..]
      && (|history| <= MaxHistoryMessages ==> sent == [SystemChatMessage(settings.systemPrompt.value)] + history)
  {
  }

  /** A history longer than 20 messages is cut to exactly its last 20: no
      earlier message is sent. */
  lemma LongHistoryTruncated(settings: AppSettings, history: seq<ChatMessage>, remote: RemoteResult)
    requires ChatCompletion(settings, history, remote).request.Some?
    requires |history| > MaxHistoryMessages
    ensures var sent := ChatCompletion(settings, history, remote).request.value.messages;
      && |sent| == MaxHistoryMessages + 1
      && sent[1..] == history[|history| - MaxHistoryMessages..]
      && forall i :: 1 <= i < |sent| ==> sent[i] == history[|history| - MaxHistoryMessages + i - 1]
  {
  }

  /** 25 alternating user and assistant messages: 21 messages are sent, the
      system message and messages 5 to 24. */
  lemma TwentyFiveMessageScenario(settings: AppSettings, history: seq<ChatMessage>, remote: RemoteResult)
    requires settings.systemPrompt.Some? && settings.searchServiceUrl.Some?
    requires |history| == 25
    requires forall i :: 0 <= i < |history| ==> history[i].role == (if i % 2 == 0 then User else Assistant)
    ensures var sent := ChatCompletion(settings, history, remote).request.value.messages;
      && |sent| == 21
      && sent[0].role == System
      && sent[1..] == history[5..]
      && sent[1].role == Assistant
  {
  }

  /** The data source names the configured index, authenticates with the
      service's managed identity, uses vector-semantic hybrid retrieval,
      vectorises with the embedding deployment, points at the search URL and
      names the semantic configuration after the index. */
  lemma DataSourceFromSettings(settings: AppSettings, history: seq<ChatMessage>, remote: RemoteResult)
    requires ChatCompletion(settings, history, remote).request.Some?
    ensures var ds := ChatCompletion(settings, history, remote).request.value.dataSource;
      && ds.endpoint == settings.searchServiceUrl.value
      && ds.indexName == settings.searchIndexName
      && ds.authentication == SystemManagedIdentity
      && ds.queryType == VectorSemanticHybrid
      && ds.vectorizationSource == FromDeploymentName(settings.openAIEmbeddingDeployment)
      && ds.semanticConfiguration == SemanticConfigurationName(settings.searchIndexName)
      && (settings.searchIndexName.None? ==> ds.semanticConfiguration == SemanticConfigurationSuffix)
  {
  }

  /** On a successful remote call the response carries the returned content,
      the context's citations (null without a context) and no error. */
  lemma SuccessNormalised(settings: AppSettings, history: seq<ChatMessage>,
                          content: seq<ContentPart>, context: Option<ChatMessageContext>)
    requires settings.systemPrompt.Some? && settings.searchServiceUrl.Some?
    ensures var r := ChatCompletion(settings, history, Completed(content, context)).response;
      && r.content == Some(content)
      && r.citations == (if context.Some? then Some(context.value.citations) else None)
      && r.error == None
  {
  }

  /** On a failed remote call the response carries only the error text built
      from the exception's message. */
  lemma FailureNormalised(settings: AppSettings, history: seq<ChatMessage>, message: string)
    requires settings.systemPrompt.Some? && settings.searchServiceUrl.Some?
    ensures ChatCompletion(settings, history, Faulted(message)).response ==
              ChatResponse(None, None, Some("An error occurred: " + message))
  {
  }

  /** A null system prompt at call time is caught: no request is made and the
      response reports the argument fault. */
  lemma NullSystemPromptCaught(settings: AppSettings, history: seq<ChatMessage>, remote: RemoteResult)
    requires settings.systemPrompt.None?
    ensures ChatCompletion(settings, history, remote) ==
              Completion(None, ChatResponse(None, None,
                Some(ErrorPrefix + "Value cannot be null. (Parameter '" + "SystemPrompt" + "')")))
  {
    var v, q := "Value cannot be null. (Parameter '", "')";
    assert ErrorPrefix + (v + "SystemPrompt" + q) == ErrorPrefix + v + "SystemPrompt" + q;
  }

  /** A null search URL at call time is caught in the same way. */
  lemma NullSearchServiceUrlCaught(settings: AppSettings, history: seq<ChatMessage>, remote: RemoteResult)
    requires settings.systemPrompt.Some? && settings.searchServiceUrl.None?
    ensures ChatCompletion(settings, history, remote) ==
              Completion(None, ChatResponse(None, None,
                Some(ErrorPrefix + "Value cannot be null. (Parameter '" + "SearchServiceUrl" + "')")))
  {
    var v, q := "Value cannot be null. (Parameter '", "')";
    assert ErrorPrefix + (v + "SearchServiceUrl" + q) == ErrorPrefix + v + "SearchServiceUrl" + q;
  }

  /** Every response has one of two shapes: a success (content present, no
      error) or an error (a non-empty text starting with the fixed prefix, no
      content, no citations). */
  lemma ResponseShapes(settings: AppSettings, history: seq<ChatMessage>, remote: RemoteResult)
    ensures var r := ChatCompletion(settings, history, remote).response;
      || (r.content.Some? && r.error.None?)
      || (&& r.content.None? && r.citations.None? && r.error.Some?
          && |ErrorPrefix| <= |r.error.value| && r.error.value[..|ErrorPrefix|] == ErrorPrefix)
  {
  }

  /** Normalisation reads nothing but the remote outcome and the two null
      checks: for a fixed remote outcome and settings, the history has no
      influence on the response (the remote outcome itself is an input here). */
  lemma ResponseIgnoresHistory(settings: AppSettings, h1: seq<ChatMessage>, h2: seq<ChatMessage>, remote: RemoteResult)
    ensures ChatCompletion(settings, h1, remote).response == ChatCompletion(settings, h2, remote).response
  {
  }

  // ---------------------------------------------------------------------------
  // The service object

  /** The chat client bound to the completion endpoint and chat deployment. */
  datatype ChatClient = ChatClient(endpoint: string, deployment: string)

  class RagChatService {
    const settings: AppSettings
    const chatClient: ChatClient

    ghost predicate Valid() {
      && ValidSettings(settings)
      && chatClient == ChatClient(settings.openAIEndpoint.value, settings.openAIGptDeployment.value)
    }

    /** The constructor once its null checks have passed. */
    constructor (settings: AppSettings)
      requires ValidSettings(settings)
      ensures this.settings == settings && Valid()
    {
      this.settings := settings;
      this.chatClient := ChatClient(settings.openAIEndpoint.value, settings.openAIGptDeployment.value);
    }

    /** `new RagChatService(settings, logger)`: throws naming the first missing
        required setting, or yields a service holding the settings. */
    static method Create(settings: AppSettings) returns (r: Result<RagChatService, Fault>)
      ensures r.Failure? <==> !ValidSettings(settings)
      ensures r.Failure? ==> r.error == ArgumentNull(MissingSetting(settings).value)
      ensures r.Success? ==> fresh(r.value) && r.value.settings == settings && r.value.Valid()
    {
      match MissingSetting(settings)
      case Some(name) =>
        r := Failure(ArgumentNull(name));
      case None =>
        var service := new RagChatService(settings);
        r := Success(service);
    }

    /** One chat completion with the settings held by the service. As those
        passed the constructor's check, a request is built exactly when the
        system prompt is present. */
    method GetChatCompletionAsync(history: seq<ChatMessage>, remote: RemoteResult) returns (c: Completion)
      requires Valid()
      ensures c == ChatCompletion(settings, history, remote)
      ensures c.request.Some? <==> settings.systemPrompt.Some?
    {
      c := ChatCompletion(settings, history, remote);
    }
  }
}
