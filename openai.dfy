/**
 * openai_client.go: the adapter for OpenAI and every OpenAI-shaped API
 * (DeepSeek among them). It sends `{model, messages, stream}` plus the tuning
 * keys to `<base>/chat/completions` with a bearer token and maps the first
 * choice back.
 */
module OpenAIAdapter {
  import opened Wrappers
  import opened Json
  import opened Types
  import opened Wire
  import opened Builders

  const OpenAIBaseUrl := "https://api.openai.com/v1"
  const DeepSeekBaseUrl := "https://api.deepseek.com"
  const OpenAIModel := "gpt-3.5-turbo"
  const DeepSeekModel := "deepseek-chat"

  /** The base URL an empty one is replaced with: DeepSeek's for the
      `deepseek` tag, OpenAI's for `openai` and for any other tag. */
  function DefaultBaseUrl(provider: string): string {
    if provider == Provider.DeepSeek.Tag() then DeepSeekBaseUrl else OpenAIBaseUrl
  }

  function DefaultModel(provider: string): string {
    if provider == Provider.DeepSeek.Tag() then DeepSeekModel else OpenAIModel
  }

  /** `{role, content}` plus `name` only when the message has one. */
  function MessageObject(m: Message): (o: map<string, Json>)
    ensures "role" in o && o["role"] == JString(m.role.Tag())
    ensures "content" in o && o["content"] == JString(m.content)
    ensures "name" in o <==> m.name != ""
    ensures "name" in o ==> o["name"] == JString(m.name)
    ensures o.Keys <= {"role", "content", "name"}
  {
    map["role" := JString(m.role.Tag()), "content" := JString(m.content)]
      + (if m.name != "" then map["name" := JString(m.name)] else map[])
  }

  function MessageObjects(messages: seq<Message>): (os: seq<map<string, Json>>)
    ensures |os| == |messages|
    ensures forall i :: 0 <= i < |messages| ==> os[i] == MessageObject(messages[i])
  {
    seq(|messages|, i requires 0 <= i < |messages| => MessageObject(messages[i]))
  }

  /** `convertMessages`: fills a slice of the request's length, one object per
      message, in order. Shared verbatim by the Azure adapter. */
  method ConvertMessages(messages: seq<Message>) returns (r: seq<map<string, Json>>)
    ensures |r| == |messages|
    ensures forall i :: 0 <= i < |messages| ==> r[i] == MessageObject(messages[i])
    ensures forall i :: 0 <= i < |messages| ==> ("name" in r[i] <==> messages[i].name != "")
  {
    var result := new map<string, Json>[|messages|];
    for i := 0 to |messages|
      invariant forall j :: 0 <= j < i ==> result[j] == MessageObject(messages[j])
    {
      var m := messages[i];
      result[i] := map["role" := JString(m.role.Tag()), "content" := JString(m.content)];
      if m.name != "" {
        result[i] := result[i]["name" := JString(m.name)];
      }
    }
    r := result[..];
  }

  /** The tuning keys of an OpenAI-shaped payload, each present only when the
      request or the configuration sets it, the request winning. Shared
      verbatim by the Azure adapter. */
  function Tuning(request: Request, config: Config): (t: map<string, Json>)
    ensures Carries(t, "temperature", FloatParam(Pick(request.temperature, config.defaultTemperature)))
    ensures Carries(t, "max_tokens", IntParam(Pick(request.maxTokens, config.defaultMaxTokens)))
    ensures Carries(t, "top_p", FloatParam(Pick(request.topP, config.defaultTopP)))
    ensures t.Keys <= {"temperature", "max_tokens", "top_p"}
  {
    Optional("temperature", FloatParam(Pick(request.temperature, config.defaultTemperature)))
      + Optional("max_tokens", IntParam(Pick(request.maxTokens, config.defaultMaxTokens)))
      + Optional("top_p", FloatParam(Pick(request.topP, config.defaultTopP)))
  }

  /** The tuning values marshal when the floats sent are finite. */
  lemma TuningEncodable(request: Request, config: Config)
    requires FiniteParam(Pick(request.temperature, config.defaultTemperature))
    requires FiniteParam(Pick(request.topP, config.defaultTopP))
    ensures EncodableValues(Tuning(request, config))
  {
  }

  /** The three tuning inserts of `buildPayload`, each taking the request's
      value or else the configuration's, applied to the map built so far. */
  method AddTuning(head: map<string, Json>, request: Request, config: Config) returns (p: map<string, Json>)
    ensures p == head + Tuning(request, config)
  {
    p := head;
    if request.temperature.Some? {
      p := p["temperature" := JFloat(request.temperature.value)];
    } else if config.defaultTemperature.Some? {
      p := p["temperature" := JFloat(config.defaultTemperature.value)];
    }
    ghost var tuning := Optional("temperature", FloatParam(Pick(request.temperature, config.defaultTemperature)));
    InsertOptional(head, "temperature", FloatParam(Pick(request.temperature, config.defaultTemperature)));
    if request.maxTokens.Some? {
      p := p["max_tokens" := JInt(request.maxTokens.value)];
    } else if config.defaultMaxTokens.Some? {
      p := p["max_tokens" := JInt(config.defaultMaxTokens.value)];
    }
    InsertOptionalAfter(head, tuning, "max_tokens", IntParam(Pick(request.maxTokens, config.defaultMaxTokens)));
    tuning := tuning + Optional("max_tokens", IntParam(Pick(request.maxTokens, config.defaultMaxTokens)));
    if request.topP.Some? {
      p := p["top_p" := JFloat(request.topP.value)];
    } else if config.defaultTopP.Some? {
      p := p["top_p" := JFloat(config.defaultTopP.value)];
    }
    InsertOptionalAfter(head, tuning, "top_p", FloatParam(Pick(request.topP, config.defaultTopP)));
  }

  /** What construction does to the configuration: an empty base URL, a zero
      timeout and an empty default model are filled in for the provider tag,
      and everything else is kept. */
  function Defaulted(config: Config): (c: Config)
    ensures c.timeout != 0 && c.defaultModel != ""
    ensures c.baseUrl != ""
    ensures config.baseUrl != "" ==> c.baseUrl == config.baseUrl
    ensures config.baseUrl == "" ==> c.baseUrl == DefaultBaseUrl(config.provider)
    ensures config.timeout != 0 ==> c.timeout == config.timeout
    ensures config.timeout == 0 ==> c.timeout == DefaultTimeout
    ensures config.defaultModel != "" ==> c.defaultModel == config.defaultModel
    ensures config.defaultModel == "" ==> c.defaultModel == DefaultModel(config.provider)
    ensures c == config.(baseUrl := c.baseUrl, timeout := c.timeout, defaultModel := c.defaultModel)
  {
    config.(baseUrl := if config.baseUrl == "" then DefaultBaseUrl(config.provider) else config.baseUrl,
            timeout := if config.timeout == 0 then DefaultTimeout else config.timeout,
            defaultModel := if config.defaultModel == "" then DefaultModel(config.provider) else config.defaultModel)
  }

  datatype OpenAIClient = OpenAIClient(config: Config) {

    /** What construction guarantees of the configuration it keeps. */
    predicate Valid() {
      config.apiKey != "" && config.baseUrl != "" && config.timeout != 0 && config.defaultModel != ""
    }

    /** The configuration as construction settled it (see `Defaulted`). */
    function GetConfig(): (c: Config)
      ensures c == config
      ensures Valid() ==> c.apiKey != "" && c.timeout != 0 && c.defaultModel != ""
    {
      config
    }

    /** Nothing to release: always succeeds. */
    function Close(): (r: Option<Error>)
      ensures r == None
    {
      None
    }

    /** The request's override if present, else the configured default, which
        construction made non-empty. */
    function GetModel(override: Option<string>): (m: string)
      ensures override.Some? ==> m == override.value
      ensures override.None? ==> m == config.defaultModel
      ensures override.None? && Valid() ==> m != ""
    {
      if override.Some? then override.value else config.defaultModel
    }

    /** The keys every OpenAI-shaped payload starts with. */
    function Head(request: Request): (h: map<string, Json>)
      ensures "model" in h && h["model"] == JString(GetModel(request.model))
      ensures "messages" in h && h["messages"] == JArray(Objects(MessageObjects(request.messages)))
      ensures "stream" in h && h["stream"] == JBool(request.stream)
      ensures h.Keys == {"model", "messages", "stream"}
    {
      map["model" := JString(GetModel(request.model)),
          "messages" := JArray(Objects(MessageObjects(request.messages))),
          "stream" := JBool(request.stream)]
    }

    /** The payload `buildPayload` returns: the fixed keys, then the tuning
        keys, then the extra keys, a later group winning on a clash. `top_k`
        is never sent unless `ExtraParams` carries it. */
    function Payload(request: Request): (p: map<string, Json>)
      ensures p.Keys == Head(request).Keys + Tuning(request, config).Keys + request.extraParams.Keys
      ensures forall k :: k in request.extraParams ==> k in p && p[k] == request.extraParams[k]
      ensures "top_k" in p <==> "top_k" in request.extraParams
    {
      var head, tuning := Head(request), Tuning(request, config);
      assert "top_k" !in head && "top_k" !in tuning;
      head + tuning + request.extraParams
    }

    /** Where `ExtraParams` does not override them, `model`, `messages` and
        `stream` go out as the request and the configuration give them. */
    lemma PayloadHead(request: Request)
      ensures var p := Payload(request);
        && ("model" !in request.extraParams ==> p["model"] == JString(GetModel(request.model)))
        && ("messages" !in request.extraParams ==> p["messages"] == JArray(Objects(MessageObjects(request.messages))))
        && ("stream" !in request.extraParams ==> p["stream"] == JBool(request.stream))
    {
      var tuning := Tuning(request, config);
      assert "model" !in tuning && "messages" !in tuning && "stream" !in tuning;
      LayeredUnion(Head(request), tuning, request.extraParams);
    }

    /** Where `ExtraParams` does not override them, `temperature`,
        `max_tokens` and `top_p` are present exactly when the request or the
        configuration sets them, the request winning. */
    lemma PayloadTuning(request: Request)
      ensures var p := Payload(request);
        && ("temperature" !in request.extraParams ==>
              Carries(p, "temperature", FloatParam(Pick(request.temperature, config.defaultTemperature))))
        && ("max_tokens" !in request.extraParams ==>
              Carries(p, "max_tokens", IntParam(Pick(request.maxTokens, config.defaultMaxTokens))))
        && ("top_p" !in request.extraParams ==> Carries(p, "top_p", FloatParam(Pick(request.topP, config.defaultTopP))))
    {
      var head := Head(request);
      assert "temperature" !in head && "max_tokens" !in head && "top_p" !in head;
      LayeredUnion(head, Tuning(request, config), request.extraParams);
    }

    /** `json.Marshal` accepts the payload whenever the tuning floats that are
        sent are finite and the extra values marshal: everything else in it
        is strings, integers, booleans and message objects. */
    lemma PayloadEncodable(request: Request)
      requires FiniteParam(Pick(request.temperature, config.defaultTemperature))
      requires FiniteParam(Pick(request.topP, config.defaultTopP))
      requires EncodableValues(request.extraParams)
      ensures Encodable(Outgoing(request).body)
    {
      var head := Head(request);
      ObjectsEncodable(MessageObjects(request.messages));
      assert EncodableValues(head) by {
        assert head.Keys == {"model", "messages", "stream"};
      }
      TuningEncodable(request, config);
      LayeredEncodable(head, Tuning(request, config), request.extraParams);
    }

    /** `buildPayload` as the source writes it: a literal map, three
        conditional inserts, then the `ExtraParams` loop. */
    method BuildPayload(request: Request) returns (p: map<string, Json>)
      ensures p == Payload(request)
    {
      var messages := ConvertMessages(request.messages);
      assert messages == MessageObjects(request.messages);
      p := map["model" := JString(GetModel(request.model)),
               "messages" := JArray(Objects(messages)),
               "stream" := JBool(request.stream)];
      p := AddTuning(p, request, config);
      p := ApplyExtraParams(p, request.extraParams);
    }

    /** The POST `Generate` sends. */
    function Outgoing(request: Request): (out: HttpRequest)
      ensures out.url == config.baseUrl + "/chat/completions"
      ensures "Authorization" in out.headers && out.headers["Authorization"] == "Bearer " + config.apiKey
      ensures out.body == JObject(Payload(request))
    {
      HttpRequest(config.baseUrl + "/chat/completions",
                  map["Content-Type" := "application/json", "Authorization" := "Bearer " + config.apiKey],
                  JObject(Payload(request)))
    }

    /** One chat completion: a status outside [200, 300) is an error with the
        code and the body, zero choices is an error, and otherwise the first
        choice and `usage.total_tokens` make the response. */
    function Generate(request: Request, transport: Transport): (r: Result<Response, Error>)
      ensures !Encodable(Outgoing(request).body) ==> r == Failure(MarshalFailed(false))
      ensures var outcome := transport(Outgoing(request));
        Encodable(Outgoing(request).body) ==>
          && (outcome.Received? && !IsSuccessStatus(outcome.status) ==>
                r == Failure(ApiError("LLM", outcome.status, outcome.body)))
          && (outcome.NotCreated? ==> r == Failure(CreateFailed(false, outcome.cause)))
          && (outcome.NotSent? ==> r == Failure(SendFailed(false, outcome.cause)))
          && (outcome.NotRead? ==> r == Failure(ReadFailed(false, outcome.cause)))
          && (outcome.Received? && IsSuccessStatus(outcome.status) && outcome.decoded.Failure? ==>
                r == Failure(UnmarshalFailed(false, outcome.decoded.error)))
          && ((outcome.Received? && IsSuccessStatus(outcome.status) && outcome.decoded.Success?
               && |outcome.decoded.value.choices| == 0) ==> r == Failure(NoChoices("LLM response")))
          && (r.Success? <==> outcome.Received? && IsSuccessStatus(outcome.status)
                              && outcome.decoded.Success? && |outcome.decoded.value.choices| > 0)
          && (r.Success? ==>
                var reply := outcome.decoded.value;
                r.value == Response(reply.choices[0].message.content, reply.choices[0].message.role,
                                    reply.usage.totalTokens, reply.choices[0].finishReason))
    {
      match Exchange(Outgoing(request), transport, "LLM", false)
      case Failure(e) => Failure(e)
      case Success(reply) => FirstChoice(reply, "LLM response")
    }

    /** The chat-history entry point: the history, then the user message, with
        the system prompt in front only when it is non-empty. With no history
        it sends what the simple and system-prompt builders build. */
    function GenerateWithHistory(history: seq<Message>, userMessage: string, systemPrompt: string,
                                 transport: Transport): (r: Result<Response, Error>)
      ensures systemPrompt == "" ==> r == Generate(BuildChatRequest(history, userMessage), transport)
      ensures systemPrompt != "" ==>
                r == Generate(WithSystemMessage(BuildChatRequest(history, userMessage), systemPrompt), transport)
      ensures history == [] && systemPrompt == "" ==> r == Generate(BuildSimpleRequest(userMessage), transport)
      ensures history == [] && systemPrompt != "" ==>
                r == Generate(BuildRequestWithSystemPrompt(systemPrompt, userMessage), transport)
    {
      var request := HistoryRequest(history, userMessage, systemPrompt);
      assert systemPrompt == "" ==> request == BuildChatRequest(history, userMessage);
      assert systemPrompt != "" ==> request == WithSystemMessage(BuildChatRequest(history, userMessage), systemPrompt);
      assert history == [] && systemPrompt == "" ==> request == BuildSimpleRequest(userMessage) by {
        SimpleIsChatWithoutHistory(userMessage);
      }
      assert history == [] && systemPrompt != "" ==> request == BuildRequestWithSystemPrompt(systemPrompt, userMessage) by {
        if systemPrompt != "" {
          SystemPromptIsHistoryRequest(systemPrompt, userMessage);
        }
      }
      Generate(request, transport)
    }

    /** A request `json.Marshal` accepts, answered with a 2xx status and at
        least one choice, comes back as the first choice with the total token
        count. */
    lemma Answered(request: Request, transport: Transport, status: int, body: string, reply: Reply)
      requires FiniteParam(Pick(request.temperature, config.defaultTemperature))
      requires FiniteParam(Pick(request.topP, config.defaultTopP))
      requires EncodableValues(request.extraParams)
      requires transport(Outgoing(request)) == Received(status, body, Success(reply))
      requires IsSuccessStatus(status) && |reply.choices| > 0
      ensures Generate(request, transport)
              == Success(Response(reply.choices[0].message.content, reply.choices[0].message.role,
                                  reply.usage.totalTokens, reply.choices[0].finishReason))
    {
      PayloadEncodable(request);
    }
  }

  /** `newOpenAIClient`: fails exactly when the key is empty; otherwise fills
      in an empty base URL, a zero timeout and an empty default model, and
      keeps every other field of the configuration. */
  method NewOpenAIClient(config: Config) returns (r: Result<OpenAIClient, Error>)
    ensures r.Failure? <==> config.apiKey == ""
    ensures r.Failure? ==> r.error == MissingApiKey
    ensures r.Success? ==> r.value.Valid()
    ensures r.Success? ==> r.value.config == Defaulted(config)
  {
    if config.apiKey == "" {
      return Failure(MissingApiKey);
    }
    var c := config;
    if c.baseUrl == "" {
      if c.provider == Provider.OpenAI.Tag() {
        c := c.(baseUrl := OpenAIBaseUrl);
      } else if c.provider == Provider.DeepSeek.Tag() {
        c := c.(baseUrl := DeepSeekBaseUrl);
      } else {
        c := c.(baseUrl := OpenAIBaseUrl);
      }
    }
    if c.timeout == 0 {
      c := c.(timeout := DefaultTimeout);
    }
    if c.defaultModel == "" {
      if c.provider == Provider.OpenAI.Tag() {
        c := c.(defaultModel := OpenAIModel);
      } else if c.provider == Provider.DeepSeek.Tag() {
        c := c.(defaultModel := DeepSeekModel);
      } else {
        c := c.(defaultModel := OpenAIModel);
      }
    }
    return Success(OpenAIClient(c));
  }
}
