# Retrieval-augmented chat service: a Dafny model

This project models the core of a Blazor chat application that answers from
documents held in a search index. The application's `RagChatService` takes the
conversation so far, keeps its 20 most recent messages, and puts one system
message built from the configured prompt in front of them. It attaches a
search data source to the request, with hybrid vector-semantic retrieval, a
managed-identity login and a semantic configuration named after the index. It
sends the request to the chat deployment. The result becomes a `ChatResponse`:
the content and the citations on success, or only an error text when anything
throws. When the service is constructed, it throws at once if the endpoint,
the chat deployment, the search URL or the index name is missing.

Modules:

- `Wrappers` (wrappers.dfy): `Option` for C# nullable references, `Result` for throw-or-return.
- `Enumerable` (enumerable.dfy): the LINQ operators `Skip` and `Prepend` on sequences.
- `Models` (models.dfy): messages, citations, `ChatResponse` and `AppSettings` as datatypes.
- `Services` (services.dfy): the settings check, history bounding, the data source, result
  normalisation, the whole routine as the pure function `ChatCompletion`, and the class
  `RagChatService`.

The remote completion is an input value (`RemoteResult`). The client either
returns content plus an optional message context holding citations, or it
throws with a message. `ChatCompletion(settings, history, remote)` returns the
request it built and the response. The request is absent when a null setting
stopped the routine before the remote call. The C# settings object is shared
and mutable, so the function takes the settings as read at call time. This is
why the null checks on the system prompt and the search URL inside the `try`
are modelled even though the constructor already checked the search URL. The
class `RagChatService` holds the settings it was created with. Its
`GetChatCompletionAsync` is the function applied to those settings.

The code comment above the history bound speaks of 10 messages. The code keeps
20, and the model follows the code.

## Model

| member | source | states |
|---|---|---|
| `Enumerable.Skip` | Services/RagChatService.cs:57 | `Skip(n)` drops exactly the first n elements: the whole sequence when n is 0 or less, the slice `s[n..]` otherwise, nothing when n passes the end |
| `Enumerable.Prepend` | Services/RagChatService.cs:60 | the prepended element comes first and the source follows unchanged, so the length grows by one |
| `Models.SystemChatMessage` | Services/RagChatService.cs:60 | the system message has the system role and a single text part holding the prompt, and no citations |
| `Models.AssistantChatMessage` | Models/ChatModels.cs:31-32 | the base assistant message has the assistant role and the given content, and no citations |
| `Models.AssistantMessageWithCitations` | Models/ChatModels.cs:26-36 | the content becomes the base message's content unchanged, and the citations are stored exactly as passed |
| `Models.AssistantMessageDefaultCitations` | Models/ChatModels.cs:31 | leaving out the citations argument leaves them null, which gives the plain base assistant message |
| `Models.NewChatResponse` | Models/ChatModels.cs:11-21 | a fresh response has content, citations and error all null |
| `Models.NewAppSettings` | Models/AppSettings.cs:6-17 | default settings have only the system prompt set, to the fixed default text |
| `Services.MissingSetting` | Services/RagChatService.cs:30-33 | reports nothing exactly when all four required settings are present (the predicate `ValidSettings`); otherwise it names the first missing one in check order, with `ThrowIfNull`'s parameter name |
| `Services.DefaultSettingsRejected` | Services/RagChatService.cs:30 | settings left at their defaults fail the check, and the endpoint is reported first |
| `Services.RecentHistory` | Services/RagChatService.cs:55-57 | the kept history is the suffix of length min(|history|, 20), and a history of at most 20 messages is kept whole |
| `Services.RecentHistoryIdempotent` | Services/RagChatService.cs:55-57 | bounding an already bounded history changes nothing |
| `Services.RecentHistoryAppend` | Services/RagChatService.cs:55-57 | when the caller appends one message, the window gains it at the end and drops its oldest message only if it already held 20 |
| `Services.SemanticConfigurationName` | Services/RagChatService.cs:72 | the name is the index name followed by `-semantic-configuration`; a null index name gives the suffix alone, as C# concatenation does |
| `Services.SemanticConfigurationNameInjective` | Services/RagChatService.cs:72 | two index names that give the same configuration name are equal |
| `Services.SemanticConfigurationNameExample` | Services/RagChatService.cs:72 | index `docs-v1` gives `docs-v1-semantic-configuration` |
| `Services.BuildDataSource` | Services/RagChatService.cs:65-73 | the data source has the given endpoint, the configured index name, managed-identity authentication, vector-semantic hybrid queries and the embedding deployment as vectorizer; its semantic configuration is the index name plus `-semantic-configuration`, or the suffix alone for a null index name |
| `Services.ErrorResponse` | Services/RagChatService.cs:90-93 | the catch block's response has null content and citations and the error `An error occurred: ` followed by the exception's message, a non-empty text |
| `Services.CitationsOf` | Services/RagChatService.cs:82 | `ctx?.Citations` is null exactly when there is no message context, and otherwise the context's citations |
| `Services.Normalise` | Services/RagChatService.cs:79-93 | the error is null exactly when the remote call succeeded; on success the response holds the returned content and the context's citations; on a fault it holds only `An error occurred: ` plus the fault's message |
| `Services.ChatCompletion` | Services/RagChatService.cs:50-95 | every input yields a response; a request is built exactly when the system prompt and search URL are present; the error is null exactly when a request was built and the remote call succeeded |
| `Services.SentMessages` | Services/RagChatService.cs:55-60 | the sent messages are min(|history|, 20) + 1 in number: the system message with the configured prompt, then the history's last messages in order; a history of at most 20 is sent unchanged |
| `Services.LongHistoryTruncated` | Services/RagChatService.cs:55-57 | a history of more than 20 messages is cut to its last 20 index by index, and no earlier message is sent |
| `Services.TwentyFiveMessageScenario` | Services/RagChatService.cs:55-60 | a history of 25 alternating user and assistant messages sends 21 messages: the system message, then messages 5 to 24 |
| `Services.DataSourceFromSettings` | Services/RagChatService.cs:65-73 | the data source uses the search URL, the configured index, managed identity, vector-semantic hybrid queries and the embedding deployment, and names its semantic configuration after the index, which is `-semantic-configuration` alone when the index name is null at call time |
| `Services.SuccessNormalised` | Services/RagChatService.cs:75-85 | on success the response holds the returned content, the context's citations (null when there is no context) and a null error |
| `Services.FailureNormalised` | Services/RagChatService.cs:87-94 | on a remote fault the response is `An error occurred: ` plus the exception's message, with null content and null citations |
| `Services.NullSystemPromptCaught` | Services/RagChatService.cs:60 | a null system prompt sends no request and returns the argument-null error for `SystemPrompt` |
| `Services.NullSearchServiceUrlCaught` | Services/RagChatService.cs:67 | a null search URL at call time sends no request and returns the argument-null error for `SearchServiceUrl` |
| `Services.ResponseShapes` | Services/RagChatService.cs:79-93 | every response is either a success, with content and no error, or an error: a non-empty text with the fixed prefix and no content or citations |
| `Services.ResponseIgnoresHistory` | Services/RagChatService.cs:50-95 | for a fixed remote outcome and settings the history has no influence on the response: normalisation reads only the remote outcome and the two null checks |
| `Services.RagChatService.constructor` | Services/RagChatService.cs:24-43 | once the checks pass, the service keeps the settings and binds its chat client to the endpoint and the chat deployment |
| `Services.RagChatService.Create` | Services/RagChatService.cs:24-43 | construction fails exactly when a required setting is null, with an argument-null fault naming the first one; otherwise it yields a new valid service holding the settings |
| `Services.RagChatService.GetChatCompletionAsync` | Services/RagChatService.cs:50-95 | the call is the routine applied to the service's settings; because those passed the constructor's check, a request is built exactly when the system prompt is present |

## Left out

- Logging (Services/RagChatService.cs:42, :89): an output sink with no effect on results.
- Identity and transport: `AzureOpenAIClient`, `DefaultAzureCredential`, `DataSourceAuthentication.FromSystemManagedIdentity` and `GetChatClient` are foreign library code. The chat client is a record of endpoint and deployment. The authentication is a single tag.
- `CompleteChatAsync` and `GetMessageContext`: foreign calls. Their outcome is the input `RemoteResult`.
- async/await and concurrent callers: the routine holds no shared per-call state, so it is modelled as one pure call.
- URI parsing: the model does not decide whether a URL is well formed.
  - If `new Uri` rejects the endpoint in the constructor (lines 36-37), construction fails. `Create` does not model this.
  - If `new Uri` rejects the search URL (line 67), or the vectorizer factory throws (line 71), the fault is caught like a remote fault and gives the same error response. The model covers these cases through the `Faulted` outcome. In those cases `ChatCompletion` still reports the request that would have been built.
- Later changes to the shared settings object: `RagChatService` keeps the settings value it was built with. The pure `ChatCompletion` covers every call-time settings value, including null system prompt and search URL.
- Laziness and aliasing: `Prepend` is lazy in C#, and a short history is passed on by reference. Sequences are values here, so neither is modelled. The caller's list is never changed, in the source or in the model.
- Message contents are text parts only. Roles are system, user and assistant only. Citations carry title, content, URL, file path and chunk id. Message-context fields other than the intent and the citations are not modelled.
- `AssistantMessageWithCitations`' private setter (Models/ChatModels.cs:29) has no separate member. A datatype value is immutable, so its citations are fixed when it is built.
- `Fault.Message` uses the .NET runtime's wording for `ArgumentNullException`, "Value cannot be null. (Parameter 'name')". That wording comes from the runtime, not from this repository.
