/**
 * qwen_client.go: the Alibaba Qwen adapter, on DashScope's OpenAI-compatible
 * endpoint. Messages travel without names, `max_tokens` is always sent, and
 * `top_k` is passed through.
 */
module QwenAdapter {
  import opened Wrappers
  import opened Json
  import opened Types
  import opened Wire
  import opened Builders

  const QwenBaseUrl := "https://dashscope-intl.aliyuncs.com/compatible-mode/v1"
  const QwenModel := "qwen3-next-80b-a3b-instruct"
  const QwenMaxTokens: Int64 := 1500

  /** `{role, content}`: a message's name is never sent. */
  function MessageObject(m: Message): (o: map<string, Json>)
    ensures o.Keys == {"role", "content"}
    ensures o["role"] == JString(m.role.Tag()) && o["content"] == JString(m.content)
  {
    map["role" := JString(m.role.Tag()), "content" := JString(m.content)]
  }

  function MessageObjects(messages: seq<Message>): (os: seq<map<string, Json>>)
    ensures |os| == |messages|
    ensures forall i :: 0 <= i < |messages| ==> os[i] == MessageObject(messages[i])
  {
    seq(|messages|, i requires 0 <= i < |messages| => MessageObject(messages[i]))
  }

  /** The `messages` value: one object per message, in order. The slice starts
      out nil and only `append` makes it non-nil, so a request without
      messages sends `null`. */
  function MessagesValue(messages: seq<Message>): (j: Json)
    ensures |messages| == 0 ==> j == JNull
    ensures |messages| > 0 ==> j.JArray? && |j.items| == |messages|
    ensures |messages| > 0 ==> forall i :: 0 <= i < |messages| ==> j.items[i] == JObject(MessageObject(messages[i]))
  {
    if |messages| == 0 then JNull else JArray(Objects(MessageObjects(messages)))
  }

  /** The message loop of `buildPayload`: append one object per message. */
  method ConvertMessages(messages: seq<Message>) returns (j: Json)
    ensures j == MessagesValue(messages)
  {
    var objects: seq<map<string, Json>> := [];
    var isNil := true;
    for i := 0 to |messages|
      invariant |objects| == i
      invariant forall k :: 0 <= k < i ==> objects[k] == MessageObject(messages[k])
      invariant isNil <==> i == 0
    {
      objects := objects + [map["role" := JString(messages[i].role.Tag()), "content" := JString(messages[i].content)]];
      isNil := false;
    }
    assert objects == MessageObjects(messages);
    j := if isNil then JNull else JArray(Objects(objects));
  }

  /** What construction does to the configuration: an empty base URL, a zero
      timeout and an empty default model are filled in with DashScope's
      defaults, and everything else is kept. */
  function Defaulted(config: Config): (c: Config)
    ensures c.timeout != 0 && c.defaultModel != ""
    ensures c.baseUrl != ""
    ensures config.baseUrl != "" ==> c.baseUrl == config.baseUrl
    ensures config.baseUrl == "" ==> c.baseUrl == QwenBaseUrl
    ensures config.timeout != 0 ==> c.timeout == config.timeout
    ensures config.timeout == 0 ==> c.timeout == DefaultTimeout
    ensures config.defaultModel != "" ==> c.defaultModel == config.defaultModel
    ensures config.defaultModel == "" ==> c.defaultModel == QwenModel
    ensures c == config.(baseUrl := c.baseUrl, timeout := c.timeout, defaultModel := c.defaultModel)
  {
    config.(baseUrl := if config.baseUrl == "" then QwenBaseUrl else config.baseUrl,
            timeout := if config.timeout == 0 then DefaultTimeout else config.timeout,
            defaultModel := if config.defaultModel == "" then QwenModel else config.defaultModel)
  }

  datatype QwenClient = QwenClient(config: Config) {

    /** What construction guarantees of the configuration it keeps. */
    predicate Valid() {
      config.apiKey != "" && config.baseUrl != "" && config.timeout != 0 && config.defaultModel != ""
    }

    /** The configuration as construction settled it (see `Defaulted`). */
    function GetConfig(): (c: Config)
      ensures c == config
      ensures Valid() ==> c.apiKey != "" && c.timeout != 0 && c.defaultModel != ""
    {
      config
    }

    function Close(): (r: Option<Error>)
      ensures r == None
    {
      None
    }

    /** Kept from the older DashScope format and no longer used: always empty. */
    function BuildPromptFromMessages(messages: seq<Message>): (prompt: string)
      ensures prompt == ""
    {
      ""
    }

    function GetModel(override: Option<string>): (m: string)
      ensures override.Some? ==> m == override.value
      ensures override.None? ==> m == config.defaultModel
      ensures override.None? && Valid() ==> m != ""
    {
      if override.Some? then override.value else config.defaultModel
    }

    /** The request's value, else the configured default, else 1500. */
    function GetMaxTokens(override: Option<Int64>): (n: Int64)
      ensures override.Some? ==> n == override.value
      ensures override.None? && config.defaultMaxTokens.Some? ==> n == config.defaultMaxTokens.value
      ensures override.None? && config.defaultMaxTokens.None? ==> n == QwenMaxTokens
    {
      if override.Some? then override.value
      else if config.defaultMaxTokens.Some? then config.defaultMaxTokens.value
      else QwenMaxTokens
    }

    /** The keys every Qwen payload starts with, `max_tokens` among them. */
    function Head(request: Request): (h: map<string, Json>)
      ensures "model" in h && h["model"] == JString(GetModel(request.model))
      ensures "messages" in h && h["messages"] == MessagesValue(request.messages)
      ensures "max_tokens" in h && h["max_tokens"] == JInt(GetMaxTokens(request.maxTokens))
      ensures h.Keys == {"model", "messages", "max_tokens"}
    {
      map["model" := JString(GetModel(request.model)),
          "messages" := MessagesValue(request.messages),
          "max_tokens" := JInt(GetMaxTokens(request.maxTokens))]
    }

    /** The optional tuning keys, `top_k` included, each present only when
        the request or the configuration sets it, the request winning. */
    function Tuning(request: Request): (t: map<string, Json>)
      ensures Carries(t, "temperature", FloatParam(Pick(request.temperature, config.defaultTemperature)))
      ensures Carries(t, "top_p", FloatParam(Pick(request.topP, config.defaultTopP)))
      ensures Carries(t, "top_k", IntParam(Pick(request.topK, config.defaultTopK)))
      ensures t.Keys <= {"temperature", "top_p", "top_k"}
    {
      Optional("temperature", FloatParam(Pick(request.temperature, config.defaultTemperature)))
        + Optional("top_p", FloatParam(Pick(request.topP, config.defaultTopP)))
        + Optional("top_k", IntParam(Pick(request.topK, config.defaultTopK)))
    }

    /** The payload `buildPayload` returns: `max_tokens` is always there,
        `stream` never is unless supplied, and extra keys win, `model` and
        `max_tokens` included. */
    function Payload(request: Request): (p: map<string, Json>)
      ensures p.Keys == Head(request).Keys + Tuning(request).Keys + request.extraParams.Keys
      ensures forall k :: k in request.extraParams ==> k in p && p[k] == request.extraParams[k]
      ensures "max_tokens" in p
      ensures "stream" in p <==> "stream" in request.extraParams
    {
      var head, tuning := Head(request), Tuning(request);
      assert "max_tokens" in head;
      assert "stream" !in head && "stream" !in tuning;
      head + tuning + request.extraParams
    }

    /** Where `ExtraParams` does not override them, `model`, `messages` and
        `max_tokens` go out as resolved from the request and the configuration. */
    lemma PayloadHead(request: Request)
      ensures var p := Payload(request);
        && ("model" !in request.extraParams ==> p["model"] == JString(GetModel(request.model)))
        && ("messages" !in request.extraParams ==> p["messages"] == MessagesValue(request.messages))
        && ("max_tokens" !in request.extraParams ==> p["max_tokens"] == JInt(GetMaxTokens(request.maxTokens)))
    {
      var tuning := Tuning(request);
      assert "model" !in tuning && "messages" !in tuning && "max_tokens" !in tuning;
      LayeredUnion(Head(request), tuning, request.extraParams);
    }

    /** Where `ExtraParams` does not override them, `temperature`, `top_p`
        and `top_k` follow request > configuration > absent. */
    lemma PayloadTuning(request: Request)
      ensures var p := Payload(request);
        && ("temperature" !in request.extraParams ==>
              Carries(p, "temperature", FloatParam(Pick(request.temperature, config.defaultTemperature))))
        && ("top_p" !in request.extraParams ==> Carries(p, "top_p", FloatParam(Pick(request.topP, config.defaultTopP))))
        && ("top_k" !in request.extraParams ==> Carries(p, "top_k", IntParam(Pick(request.topK, config.defaultTopK))))
    {
      var head := Head(request);
      assert "temperature" !in head && "top_p" !in head && "top_k" !in head;
      LayeredUnion(head, Tuning(request), request.extraParams);
    }

    /** `buildPayload` as the source writes it. */
    method BuildPayload(request: Request) returns (p: map<string, Json>)
      ensures p == Payload(request)
    {
      var messages := ConvertMessages(request.messages);
      p := map["model" := JString(GetModel(request.model)),
               "messages" := messages,
               "max_tokens" := JInt(GetMaxTokens(request.maxTokens))];
      ghost var head := p;
      if request.temperature.Some? {
        p := p["temperature" := JFloat(request.temperature.value)];
      } else if config.defaultTemperature.Some? {
        p := p["temperature" := JFloat(config.defaultTemperature.value)];
      }
      ghost var tuning := Optional("temperature", FloatParam(Pick(request.temperature, config.defaultTemperature)));
      InsertOptional(head, "temperature", FloatParam(Pick(request.temperature, config.defaultTemperature)));
      if request.topP.Some? {
        p := p["top_p" := JFloat(request.topP.value)];
      } else if config.defaultTopP.Some? {
        p := p["top_p" := JFloat(config.defaultTopP.value)];
      }
      InsertOptionalAfter(head, tuning, "top_p", FloatParam(Pick(request.topP, config.defaultTopP)));
      tuning := tuning + Optional("top_p", FloatParam(Pick(request.topP, config.defaultTopP)));
      if request.topK.Some? {
        p := p["top_k" := JInt(request.topK.value)];
      } else if config.defaultTopK.Some? {
        p := p["top_k" := JInt(config.defaultTopK.value)];
      }
      InsertOptionalAfter(head, tuning, "top_k", IntParam(Pick(request.topK, config.defaultTopK)));
      p := ApplyExtraParams(p, request.extraParams);
    }

    /** The POST `Generate` sends: a bearer token and server-sent events off. */
    function Outgoing(request: Request): (out: HttpRequest)
      ensures out.url == config.baseUrl + "/chat/completions"
      ensures "Authorization" in out.headers && out.headers["Authorization"] == "Bearer " + config.apiKey
      ensures "X-DashScope-SSE" in out.headers && out.headers["X-DashScope-SSE"] == "disable"
      ensures out.body == JObject(Payload(request))
    {
      HttpRequest(config.baseUrl + "/chat/completions",
                  map["Content-Type" := "application/json",
                      "Authorization" := "Bearer " + config.apiKey,
                      "X-DashScope-SSE" := "disable"],
                  JObject(Payload(request)))
    }

    /** One chat completion. Unlike OpenAI and Azure, the role is always
        `assistant` and the finish reason is left empty. */
    function Generate(request: Request, transport: Transport): (r: Result<Response, Error>)
      ensures !Encodable(Outgoing(request).body) ==> r == Failure(MarshalFailed(false))
      ensures var outcome := transport(Outgoing(request));
        Encodable(Outgoing(request).body) ==>
          && (outcome.Received? && !IsSuccessStatus(outcome.status) ==>
                r == Failure(ApiError("Qwen", outcome.status, outcome.body)))
          && (outcome.NotCreated? ==> r == Failure(CreateFailed(false, outcome.cause)))
          && (outcome.NotSent? ==> r == Failure(SendFailed(false, outcome.cause)))
          && (outcome.NotRead? ==> r == Failure(ReadFailed(false, outcome.cause)))
          && (outcome.Received? && IsSuccessStatus(outcome.status) && outcome.decoded.Failure? ==>
                r == Failure(UnmarshalFailed(false, outcome.decoded.error)))
          && ((outcome.Received? && IsSuccessStatus(outcome.status) && outcome.decoded.Success?
               && |outcome.decoded.value.choices| == 0) ==> r == Failure(NoChoices("response")))
          && (r.Success? <==> outcome.Received? && IsSuccessStatus(outcome.status)
                              && outcome.decoded.Success? && |outcome.decoded.value.choices| > 0)
          && (r.Success? ==>
                var reply := outcome.decoded.value;
                r.value == Response(reply.choices[0].message.content, Assistant.Tag(), reply.usage.totalTokens, ""))
    {
      match Exchange(Outgoing(request), transport, "Qwen", false)
      case Failure(e) => Failure(e)
      case Success(reply) =>
        if |reply.choices| == 0 then Failure(NoChoices("response"))
        else Success(Response(reply.choices[0].message.content, Assistant.Tag(), reply.usage.totalTokens, ""))
    }

    /** The chat-history entry point: the history, then the user message, with
        the system prompt in front only when it is non-empty. With no history
        it sends what the simple and system-prompt builders build. */
    function GenerateWithHistory(history: seq<Message>, userMessage: string, systemPrompt: string,
                                 transport: Transport): (r: Result<Response, Error>)
      ensures systemPrompt == "" ==> r == Generate(BuildChatRequest(history, userMessage), transport)
      ensures systemPrompt != "" ==>
                r == Generate(WithSystemMessage(BuildChatRequest(history, userMessage), systemPrompt), transport)
      ensures history == [] && systemPrompt == "" ==> r == Generate(BuildSimpleRequest(userMessage), transport)
      ensures history == [] && systemPrompt != "" ==>
                r == Generate(BuildRequestWithSystemPrompt(systemPrompt, userMessage), transport)
    {
      var request := HistoryRequest(history, userMessage, systemPrompt);
      assert systemPrompt == "" ==> request == BuildChatRequest(history, userMessage);
      assert systemPrompt != "" ==> request == WithSystemMessage(BuildChatRequest(history, userMessage), systemPrompt);
      assert history == [] && systemPrompt == "" ==> request == BuildSimpleRequest(userMessage) by {
        SimpleIsChatWithoutHistory(userMessage);
      }
      assert history == [] && systemPrompt != "" ==> request == BuildRequestWithSystemPrompt(systemPrompt, userMessage) by {
        if systemPrompt != "" {
          SystemPromptIsHistoryRequest(systemPrompt, userMessage);
        }
      }
      Generate(request, transport)
    }
  }

  /** `newQwenClient`: fails exactly when the key is empty; otherwise fills in
      the DashScope base URL, the 30-second timeout and the default model
      where they are empty or zero. */
  method NewQwenClient(config: Config) returns (r: Result<QwenClient, Error>)
    ensures r.Failure? <==> config.apiKey == ""
    ensures r.Failure? ==> r.error == MissingApiKey
    ensures r.Success? ==> r.value.Valid()
    ensures r.Success? ==> r.value.config == Defaulted(config)
  {
    if config.apiKey == "" {
      return Failure(MissingApiKey);
    }
    var c := config;
    if c.baseUrl == "" {
      c := c.(baseUrl := QwenBaseUrl);
    }
    if c.timeout == 0 {
      c := c.(timeout := DefaultTimeout);
    }
    if c.defaultModel == "" {
      c := c.(defaultModel := QwenModel);
    }
    return Success(QwenClient(c));
  }
}
