/**
 * client.go's entry points: `NewClient`, which picks an adapter by the
 * configured provider tag, the `Client` interface the adapters implement,
 * and the package-level `Generate*` helpers.
 */
module Factory {
  import opened Wrappers
  import opened Json
  import opened Types
  import opened Wire
  import opened Builders
  import OpenAIAdapter
  import AzureAdapter
  import QwenAdapter
  import CohereAdapter

  /** A value implementing the `Client` interface. Cohere's adapter implements
      it too, but `NewClient` never builds one (there is no `cohere` tag). */
  datatype Client =
    | ViaOpenAI(openai: OpenAIAdapter.OpenAIClient)
    | ViaQwen(qwen: QwenAdapter.QwenClient)
    | ViaAzure(azure: AzureAdapter.AzureClient)
    | ViaCohere(cohere: CohereAdapter.CohereClient)
  {
    predicate Valid() {
      match this
      case ViaOpenAI(c) => c.Valid()
      case ViaQwen(c) => c.Valid()
      case ViaAzure(c) => c.Valid()
      case ViaCohere(c) => c.Valid()
    }

    /** The configuration of whichever adapter sits behind the interface. */
    function GetConfig(): (c: Config)
      ensures ViaOpenAI? ==> c == openai.config
      ensures ViaQwen? ==> c == qwen.config
      ensures ViaAzure? ==> c == azure.config
      ensures ViaCohere? ==> c == cohere.config
      ensures Valid() ==> c.apiKey != "" && c.timeout != 0 && c.defaultModel != ""
    {
      match this
      case ViaOpenAI(c) => c.GetConfig()
      case ViaQwen(c) => c.GetConfig()
      case ViaAzure(c) => c.GetConfig()
      case ViaCohere(c) => c.GetConfig()
    }

    /** No adapter holds anything to release. */
    function Close(): (r: Option<Error>)
      ensures r == None
    {
      match this
      case ViaOpenAI(c) => c.Close()
      case ViaQwen(c) => c.Close()
      case ViaAzure(c) => c.Close()
      case ViaCohere(c) => c.Close()
    }

    /** The name each adapter puts at the head of a status error. */
    function ApiName(): string {
      match this
      case ViaOpenAI(_) => "LLM"
      case ViaQwen(_) => "Qwen"
      case ViaAzure(_) => "Azure OpenAI"
      case ViaCohere(_) => "Cohere"
    }

    /** The chat POST the adapter sends for a request. */
    function Outgoing(request: Request): HttpRequest {
      match this
      case ViaOpenAI(c) => c.Outgoing(request)
      case ViaQwen(c) => c.Outgoing(request)
      case ViaAzure(c) => c.Outgoing(request)
      case ViaCohere(c) => c.Outgoing(request)
    }

    /** `Generate` through the interface. */
    function Generate(request: Request, transport: Transport): Result<Response, Error> {
      match this
      case ViaOpenAI(c) => c.Generate(request, transport)
      case ViaQwen(c) => c.Generate(request, transport)
      case ViaAzure(c) => c.Generate(request, transport)
      case ViaCohere(c) => c.Generate(request, transport)
    }

    function GenerateWithHistory(history: seq<Message>, userMessage: string, systemPrompt: string,
                                 transport: Transport): Result<Response, Error>
    {
      match this
      case ViaOpenAI(c) => c.GenerateWithHistory(history, userMessage, systemPrompt, transport)
      case ViaQwen(c) => c.GenerateWithHistory(history, userMessage, systemPrompt, transport)
      case ViaAzure(c) => c.GenerateWithHistory(history, userMessage, systemPrompt, transport)
      case ViaCohere(c) => c.GenerateWithHistory(history, userMessage, systemPrompt, transport)
    }
  }

  /** `NewClient`: `openai` and `deepseek` build the OpenAI-compatible
      adapter, `qwen` the Qwen one, `azure` the Azure one, each with its own
      validation; any other tag, `cohere` included, is unsupported. */
  method NewClient(config: Config) returns (r: Result<Client, Error>)
    ensures ParseProvider(config.provider).None? ==> r == Failure(UnsupportedProvider(config.provider))
    ensures config.provider == Provider.OpenAI.Tag() || config.provider == Provider.DeepSeek.Tag() ==>
              && (r.Success? <==> config.apiKey != "")
              && (r.Success? ==> r.value == ViaOpenAI(OpenAIAdapter.OpenAIClient(OpenAIAdapter.Defaulted(config))))
    ensures config.provider == Provider.Qwen.Tag() ==>
              && (r.Success? <==> config.apiKey != "")
              && (r.Success? ==> r.value == ViaQwen(QwenAdapter.QwenClient(QwenAdapter.Defaulted(config))))
    ensures config.provider == Provider.Azure.Tag() ==>
              && (r.Success? <==> config.apiKey != "" && Contains(config.baseUrl, AzureAdapter.DeploymentSegment))
              && (r.Success? ==> r.value == ViaAzure(AzureAdapter.AzureClient(AzureAdapter.Defaulted(config))))
              && (config.apiKey != "" && config.baseUrl == "" ==> r == Failure(MissingBaseUrl))
              && (config.apiKey != "" && config.baseUrl != "" && !Contains(config.baseUrl, AzureAdapter.DeploymentSegment) ==>
                    r == Failure(MissingDeployment))
    ensures ParseProvider(config.provider).Some? && config.apiKey == "" ==> r == Failure(MissingApiKey)
    ensures r.Success? ==> !r.value.ViaCohere? && r.value.Valid()
    ensures r.Success? ==> r.value.GetConfig().provider == config.provider && r.value.GetConfig().apiKey == config.apiKey
  {
    if config.provider == Provider.OpenAI.Tag() || config.provider == Provider.DeepSeek.Tag() {
      var c := OpenAIAdapter.NewOpenAIClient(config);
      r := if c.Success? then Success(ViaOpenAI(c.value)) else Failure(c.error);
    } else if config.provider == Provider.Qwen.Tag() {
      var c := QwenAdapter.NewQwenClient(config);
      r := if c.Success? then Success(ViaQwen(c.value)) else Failure(c.error);
    } else if config.provider == Provider.Azure.Tag() {
      var c := AzureAdapter.NewAzureClient(config);
      r := if c.Success? then Success(ViaAzure(c.value)) else Failure(c.error);
    } else {
      r := Failure(UnsupportedProvider(config.provider));
    }
  }

  /** `GenerateSimple`: one user message, which is a history call with no
      history and no system prompt. */
  function GenerateSimple(client: Client, prompt: string, transport: Transport): (r: Result<Response, Error>)
    ensures r == GenerateWithHistory(client, [], prompt, "", transport)
  {
    var request := BuildSimpleRequest(prompt);
    assert request == HistoryRequest([], prompt, "") by {
      SimpleIsChatWithoutHistory(prompt);
    }
    client.Generate(request, transport)
  }

  /** The package-level `GenerateWithHistory`, which does what every
      adapter's own `GenerateWithHistory` does. */
  function GenerateWithHistory(client: Client, history: seq<Message>, userMessage: string, systemPrompt: string,
                               transport: Transport): (r: Result<Response, Error>)
    ensures r == client.GenerateWithHistory(history, userMessage, systemPrompt, transport)
  {
    client.Generate(HistoryRequest(history, userMessage, systemPrompt), transport)
  }

  /** `GenerateWithSystemPrompt`: a system message, then the user message. A
      non-empty prompt makes it a history call with no history; an empty one
      is still sent as an empty system message, which the history call would
      leave out. */
  function GenerateWithSystemPrompt(client: Client, systemPrompt: string, userMessage: string,
                                    transport: Transport): (r: Result<Response, Error>)
    ensures systemPrompt != "" ==> r == GenerateWithHistory(client, [], userMessage, systemPrompt, transport)
    ensures systemPrompt == "" ==>
              r == client.Generate(WithSystemMessage(BuildSimpleRequest(userMessage), ""), transport)
  {
    var request := BuildRequestWithSystemPrompt(systemPrompt, userMessage);
    assert systemPrompt != "" ==> request == HistoryRequest([], userMessage, systemPrompt) by {
      if systemPrompt != "" {
        SystemPromptIsHistoryRequest(systemPrompt, userMessage);
      }
    }
    assert systemPrompt == "" ==> request == WithSystemMessage(BuildSimpleRequest(userMessage), "");
    client.Generate(request, transport)
  }

  /** Whatever the adapter, a status outside [200, 300) comes back as that
      adapter's API error carrying the code and the body. */
  lemma StatusError(client: Client, request: Request, transport: Transport)
    requires Encodable(client.Outgoing(request).body)
    requires transport(client.Outgoing(request)).Received?
    requires !IsSuccessStatus(transport(client.Outgoing(request)).status)
    ensures var outcome := transport(client.Outgoing(request));
      client.Generate(request, transport) == Failure(ApiError(client.ApiName(), outcome.status, outcome.body))
  {
    var out := client.Outgoing(request);
    var outcome := transport(out);
    assert Exchange(out, transport, client.ApiName(), false) == Failure(ApiError(client.ApiName(), outcome.status, outcome.body));
    match client
    case ViaOpenAI(c) =>
    case ViaQwen(c) =>
    case ViaAzure(c) =>
    case ViaCohere(c) =>
  }

  /** A rejected call reads back as "<API> API error <code>: <body>": the
      error text starts with the adapter's API name followed by the status
      code in decimal (whose value is the code, by `Decimal`'s contract) and
      ends with the body the server sent. */
  lemma StatusErrorText(client: Client, request: Request, transport: Transport)
    requires Encodable(client.Outgoing(request).body)
    requires transport(client.Outgoing(request)).Received?
    requires !IsSuccessStatus(transport(client.Outgoing(request)).status)
    ensures var r := client.Generate(request, transport);
      var outcome := transport(client.Outgoing(request));
      && r.Failure?
      && StartsWith(r.error.Text(), client.ApiName() + " API error " + Decimal(outcome.status) + ": ")
      && EndsWith(r.error.Text(), outcome.body)
      && |r.error.Text()| == |client.ApiName() + " API error " + Decimal(outcome.status) + ": "| + |outcome.body|
  {
    StatusError(client, request, transport);
    var outcome := transport(client.Outgoing(request));
    var e := ApiError(client.ApiName(), outcome.status, outcome.body);
    var t := e.Text();
    assert StartsWith(t, client.ApiName() + " API error " + Decimal(outcome.status) + ": ");
    assert EndsWith(t, outcome.body);
    assert |t| == |client.ApiName() + " API error " + Decimal(outcome.status) + ": "| + |outcome.body|;
  }
}
