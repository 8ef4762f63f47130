/**
 * azure_client.go: the Azure OpenAI adapter. The deployment (and so the
 * model) is part of the base URL, the key travels in an `api-key` header,
 * and the payload never names a model.
 */
module AzureAdapter {
  import opened Wrappers
  import opened Json
  import opened Types
  import opened Wire
  import opened Builders
  import OpenAIAdapter

  const DeploymentSegment := "/deployments/"
  const AzureModel := "gpt-35-turbo"
  const ApiVersionQuery := "?api-version=2023-12-01-preview"

  /** What construction does to an accepted configuration: a zero timeout and
      an empty default model are filled in; the base URL, which names the
      deployment, and everything else are kept. */
  function Defaulted(config: Config): (c: Config)
    ensures c.timeout != 0 && c.defaultModel != ""
    ensures config.timeout != 0 ==> c.timeout == config.timeout
    ensures config.timeout == 0 ==> c.timeout == DefaultTimeout
    ensures config.defaultModel != "" ==> c.defaultModel == config.defaultModel
    ensures config.defaultModel == "" ==> c.defaultModel == AzureModel
    ensures c == config.(timeout := c.timeout, defaultModel := c.defaultModel)
  {
    config.(timeout := if config.timeout == 0 then DefaultTimeout else config.timeout,
            defaultModel := if config.defaultModel == "" then AzureModel else config.defaultModel)
  }

  datatype AzureClient = AzureClient(config: Config) {

    /** What construction guarantees of the configuration it keeps. */
    predicate Valid() {
      && config.apiKey != ""
      && Contains(config.baseUrl, DeploymentSegment)
      && config.timeout != 0
      && config.defaultModel != ""
    }

    /** The configuration as construction settled it (see `Defaulted`). */
    function GetConfig(): (c: Config)
      ensures c == config
      ensures Valid() ==> c.apiKey != "" && c.timeout != 0 && c.defaultModel != ""
    {
      config
    }

    function Close(): (r: Option<Error>)
      ensures r == None
    {
      None
    }

    /** Azure has no embedding mapping: every call fails, whatever it asks for. */
    function CreateEmbedding(request: EmbeddingRequest): (r: Result<EmbeddingResponse, Error>)
      ensures r == Failure(EmbeddingsNotSupported)
    {
      Failure(EmbeddingsNotSupported)
    }

    /** The keys Azure's payload starts with: no `model`, since the
        deployment in the URL names it. */
    function Head(request: Request): (h: map<string, Json>)
      ensures "messages" in h && h["messages"] == JArray(Objects(OpenAIAdapter.MessageObjects(request.messages)))
      ensures "stream" in h && h["stream"] == JBool(request.stream)
      ensures h.Keys == {"messages", "stream"}
    {
      map["messages" := JArray(Objects(OpenAIAdapter.MessageObjects(request.messages))),
          "stream" := JBool(request.stream)]
    }

    /** The payload `buildPayload` returns: `model` and `top_k` appear only
        when `ExtraParams` supplies them, and extra keys win. */
    function Payload(request: Request): (p: map<string, Json>)
      ensures p.Keys == Head(request).Keys + OpenAIAdapter.Tuning(request, config).Keys + request.extraParams.Keys
      ensures forall k :: k in request.extraParams ==> k in p && p[k] == request.extraParams[k]
      ensures "model" in p <==> "model" in request.extraParams
      ensures "top_k" in p <==> "top_k" in request.extraParams
    {
      var head, tuning := Head(request), OpenAIAdapter.Tuning(request, config);
      assert "model" !in head && "top_k" !in head;
      assert "model" !in tuning && "top_k" !in tuning;
      head + tuning + request.extraParams
    }

    /** Where `ExtraParams` does not override them, `messages` and `stream`
        go out as the request gives them. */
    lemma PayloadHead(request: Request)
      ensures var p := Payload(request);
        && ("messages" !in request.extraParams ==>
              p["messages"] == JArray(Objects(OpenAIAdapter.MessageObjects(request.messages))))
        && ("stream" !in request.extraParams ==> p["stream"] == JBool(request.stream))
    {
      var tuning := OpenAIAdapter.Tuning(request, config);
      assert "messages" !in tuning && "stream" !in tuning;
      LayeredUnion(Head(request), tuning, request.extraParams);
    }

    /** Where `ExtraParams` does not override them, `temperature`,
        `max_tokens` and `top_p` follow request > configuration > absent. */
    lemma PayloadTuning(request: Request)
      ensures var p := Payload(request);
        && ("temperature" !in request.extraParams ==>
              Carries(p, "temperature", FloatParam(Pick(request.temperature, config.defaultTemperature))))
        && ("max_tokens" !in request.extraParams ==>
              Carries(p, "max_tokens", IntParam(Pick(request.maxTokens, config.defaultMaxTokens))))
        && ("top_p" !in request.extraParams ==> Carries(p, "top_p", FloatParam(Pick(request.topP, config.defaultTopP))))
    {
      var head := Head(request);
      assert "temperature" !in head && "max_tokens" !in head && "top_p" !in head;
      LayeredUnion(head, OpenAIAdapter.Tuning(request, config), request.extraParams);
    }

    /** `buildPayload` as the source writes it. */
    method BuildPayload(request: Request) returns (p: map<string, Json>)
      ensures p == Payload(request)
    {
      var messages := OpenAIAdapter.ConvertMessages(request.messages);
      assert messages == OpenAIAdapter.MessageObjects(request.messages);
      p := map["messages" := JArray(Objects(messages)), "stream" := JBool(request.stream)];
      p := OpenAIAdapter.AddTuning(p, request, config);
      p := ApplyExtraParams(p, request.extraParams);
    }

    /** The POST `Generate` sends: the versioned chat endpoint under the
        deployment URL, authenticated by the raw key in `api-key`. */
    function Outgoing(request: Request): (out: HttpRequest)
      ensures out.url == config.baseUrl + "/chat/completions" + ApiVersionQuery
      ensures "api-key" in out.headers && out.headers["api-key"] == config.apiKey
      ensures "Authorization" !in out.headers
      ensures out.body == JObject(Payload(request))
    {
      HttpRequest(config.baseUrl + "/chat/completions" + ApiVersionQuery,
                  map["Content-Type" := "application/json", "api-key" := config.apiKey],
                  JObject(Payload(request)))
    }

    /** One chat completion, mapped exactly as the OpenAI adapter maps it. */
    function Generate(request: Request, transport: Transport): (r: Result<Response, Error>)
      ensures !Encodable(Outgoing(request).body) ==> r == Failure(MarshalFailed(false))
      ensures var outcome := transport(Outgoing(request));
        Encodable(Outgoing(request).body) ==>
          && (outcome.Received? && !IsSuccessStatus(outcome.status) ==>
                r == Failure(ApiError("Azure OpenAI", outcome.status, outcome.body)))
          && (outcome.NotCreated? ==> r == Failure(CreateFailed(false, outcome.cause)))
          && (outcome.NotSent? ==> r == Failure(SendFailed(false, outcome.cause)))
          && (outcome.NotRead? ==> r == Failure(ReadFailed(false, outcome.cause)))
          && (outcome.Received? && IsSuccessStatus(outcome.status) && outcome.decoded.Failure? ==>
                r == Failure(UnmarshalFailed(false, outcome.decoded.error)))
          && ((outcome.Received? && IsSuccessStatus(outcome.status) && outcome.decoded.Success?
               && |outcome.decoded.value.choices| == 0) ==> r == Failure(NoChoices("Azure OpenAI response")))
          && (r.Success? <==> outcome.Received? && IsSuccessStatus(outcome.status)
                              && outcome.decoded.Success? && |outcome.decoded.value.choices| > 0)
          && (r.Success? ==>
                var reply := outcome.decoded.value;
                r.value == Response(reply.choices[0].message.content, reply.choices[0].message.role,
                                    reply.usage.totalTokens, reply.choices[0].finishReason))
    {
      match Exchange(Outgoing(request), transport, "Azure OpenAI", false)
      case Failure(e) => Failure(e)
      case Success(reply) => FirstChoice(reply, "Azure OpenAI response")
    }

    /** The chat-history entry point: the history, then the user message, with
        the system prompt in front only when it is non-empty. With no history
        it sends what the simple and system-prompt builders build. */
    function GenerateWithHistory(history: seq<Message>, userMessage: string, systemPrompt: string,
                                 transport: Transport): (r: Result<Response, Error>)
      ensures systemPrompt == "" ==> r == Generate(BuildChatRequest(history, userMessage), transport)
      ensures systemPrompt != "" ==>
                r == Generate(WithSystemMessage(BuildChatRequest(history, userMessage), systemPrompt), transport)
      ensures history == [] && systemPrompt == "" ==> r == Generate(BuildSimpleRequest(userMessage), transport)
      ensures history == [] && systemPrompt != "" ==>
                r == Generate(BuildRequestWithSystemPrompt(systemPrompt, userMessage), transport)
    {
      var request := HistoryRequest(history, userMessage, systemPrompt);
      assert systemPrompt == "" ==> request == BuildChatRequest(history, userMessage);
      assert systemPrompt != "" ==> request == WithSystemMessage(BuildChatRequest(history, userMessage), systemPrompt);
      assert history == [] && systemPrompt == "" ==> request == BuildSimpleRequest(userMessage) by {
        SimpleIsChatWithoutHistory(userMessage);
      }
      assert history == [] && systemPrompt != "" ==> request == BuildRequestWithSystemPrompt(systemPrompt, userMessage) by {
        if systemPrompt != "" {
          SystemPromptIsHistoryRequest(systemPrompt, userMessage);
        }
      }
      Generate(request, transport)
    }
  }

  /** `newAzureClient`: an empty key, then an empty base URL, then a base URL
      without `/deployments/` fail, checked in that order; otherwise a zero
      timeout and an empty default model are filled in and nothing else
      changes. */
  method NewAzureClient(config: Config) returns (r: Result<AzureClient, Error>)
    ensures config.apiKey == "" ==> r == Failure(MissingApiKey)
    ensures config.apiKey != "" && config.baseUrl == "" ==> r == Failure(MissingBaseUrl)
    ensures config.apiKey != "" && config.baseUrl != "" && !Contains(config.baseUrl, DeploymentSegment) ==>
              r == Failure(MissingDeployment)
    ensures r.Success? <==> config.apiKey != "" && Contains(config.baseUrl, DeploymentSegment)
    ensures r.Success? ==> r.value.Valid()
    ensures r.Success? ==> r.value.config == Defaulted(config)
  {
    if config.apiKey == "" {
      return Failure(MissingApiKey);
    }
    if config.baseUrl == "" {
      return Failure(MissingBaseUrl);
    }
    if !Contains(config.baseUrl, DeploymentSegment) {
      return Failure(MissingDeployment);
    }
    var c := config;
    if c.timeout == 0 {
      c := c.(timeout := DefaultTimeout);
    }
    if c.defaultModel == "" {
      c := c.(defaultModel := AzureModel);
    }
    return Success(AzureClient(c));
  }
}
