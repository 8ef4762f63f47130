/**
 * cohere_client.go: the Cohere adapter. Chat sends the final user turn as
 * `message` and folds the earlier user and assistant turns into
 * `chat_history` (as `USER`/`CHATBOT`); system and function turns are not
 * sent at all. It is also the one adapter with an embedding call.
 */
module CohereAdapter {
  import opened Wrappers
  import opened Json
  import opened Types
  import opened Wire
  import opened Builders

  const CohereBaseUrl := "https://api.cohere.ai/v1"
  const CohereEmbedModel := "embed-multilingual-v3.0"
  const CohereChatModel := "command-r-plus"
  const EmbedInputType := "search_document"

  /** One `chat_history` entry. */
  function Turn(speaker: string, content: string): map<string, Json> {
    map["role" := JString(speaker), "message" := JString(content)]
  }

  /** The entry a message contributes to the history: users and assistants
      under Cohere's names, nothing for system and function turns. */
  function TurnsOf(m: Message): seq<map<string, Json>> {
    match m.role
    case User => [Turn("USER", m.content)]
    case Assistant => [Turn("CHATBOT", m.content)]
    case System => []
    case Function => []
  }

  /** Every message's entry, in conversation order. */
  function Fold(ms: seq<Message>): (h: seq<map<string, Json>>)
    ensures |h| <= |ms|
    decreases |ms|
  {
    if |ms| == 0 then [] else TurnsOf(ms[0]) + Fold(ms[1..])
  }

  /** Every history entry is a `{role, message}` object spoken by `USER` or `CHATBOT`. */
  lemma {:induction false} FoldEntries(ms: seq<Message>)
    ensures forall i :: 0 <= i < |Fold(ms)| ==>
              Fold(ms)[i].Keys == {"role", "message"} && Fold(ms)[i]["role"] in {JString("USER"), JString("CHATBOT")}
    decreases |ms|
  {
    if |ms| > 0 {
      FoldEntries(ms[1..]);
    }
  }

  predicate EndsWithUser(ms: seq<Message>) {
    |ms| > 0 && ms[|ms| - 1].role == User
  }

  /** `message`: the content of the last message when it is a user message, else "". */
  function LastUserContent(ms: seq<Message>): (message: string)
    ensures EndsWithUser(ms) ==> message == ms[|ms| - 1].content
    ensures !EndsWithUser(ms) ==> message == ""
  {
    if EndsWithUser(ms) then ms[|ms| - 1].content else ""
  }

  /** `chat_history`: the fold of every message except a final user turn.
      That turn followed it is the fold of all messages, so no user or
      assistant turn is lost or repeated. */
  function CohereHistory(ms: seq<Message>): (h: seq<map<string, Json>>)
    ensures EndsWithUser(ms) ==> h + [Turn("USER", LastUserContent(ms))] == Fold(ms)
    ensures !EndsWithUser(ms) ==> h == Fold(ms)
  {
    if EndsWithUser(ms) then
      var front, last := ms[..|ms| - 1], ms[|ms| - 1];
      assert front + [last] == ms;
      FoldSnoc(front, last);
      assert TurnsOf(last) == [Turn("USER", last.content)];
      Fold(front)
    else Fold(ms)
  }

  /** Folding distributes over concatenation. */
  lemma {:induction false} FoldConcat(a: seq<Message>, b: seq<Message>)
    ensures Fold(a + b) == Fold(a) + Fold(b)
    decreases |a|
  {
    if |a| == 0 {
      assert a + b == b;
    } else {
      assert (a + b)[0] == a[0];
      assert (a + b)[1..] == a[1..] + b;
      FoldConcat(a[1..], b);
    }
  }

  /** Folding one more message appends that message's entry. */
  lemma FoldSnoc(a: seq<Message>, m: Message)
    ensures Fold(a + [m]) == Fold(a) + TurnsOf(m)
  {
    FoldConcat(a, [m]);
    assert [m][1..] == [];
  }

  /** A user turn followed by an assistant turn folds to one entry each. */
  lemma TwoTurnsFold(asked: string, answered: string)
    ensures Fold([Plain(User, asked), Plain(Assistant, answered)]) == [Turn("USER", asked), Turn("CHATBOT", answered)]
  {
    var h := [Plain(User, asked), Plain(Assistant, answered)];
    assert h[1..][1..] == [];
  }

  /** Folding skips a system or function turn wherever it stands. */
  lemma SilentTurnFolds(a: seq<Message>, m: Message, c: seq<Message>)
    requires m.role == System || m.role == Function
    ensures Fold(a + [m] + c) == Fold(a + c)
  {
    FoldConcat(a + [m], c);
    FoldSnoc(a, m);
    FoldConcat(a, c);
  }

  /** A system or function turn that is not the last message changes neither
      `message` nor `chat_history`. As the last message it does matter: see
      `TrailingSystemTurnDemotesMessage`. */
  lemma InnerSilentTurnIgnored(a: seq<Message>, m: Message, b: seq<Message>)
    requires m.role == System || m.role == Function
    requires |b| > 0
    ensures CohereHistory(a + [m] + b) == CohereHistory(a + b)
    ensures LastUserContent(a + [m] + b) == LastUserContent(a + b)
  {
    var with := a + [m] + b;
    var without := a + b;
    assert with[|with| - 1] == b[|b| - 1] && without[|without| - 1] == b[|b| - 1];
    if EndsWithUser(b) {
      var c := b[..|b| - 1];
      assert with[..|with| - 1] == a + [m] + c;
      assert without[..|without| - 1] == a + c;
      assert CohereHistory(with) == Fold(a + [m] + c);
      assert CohereHistory(without) == Fold(a + c);
      SilentTurnFolds(a, m, c);
    } else {
      assert CohereHistory(with) == Fold(with) && CohereHistory(without) == Fold(without);
      SilentTurnFolds(a, m, b);
    }
  }

  /** A trailing system turn demotes the user's last message into the
      history, and `message` goes out empty. */
  lemma TrailingSystemTurnDemotesMessage(a: seq<Message>, u: string, s: string)
    ensures LastUserContent(a + [Plain(User, u)] + [Plain(System, s)]) == ""
    ensures CohereHistory(a + [Plain(User, u)] + [Plain(System, s)]) == Fold(a) + [Turn("USER", u)]
  {
    var front := a + [Plain(User, u)];
    FoldSnoc(front, Plain(System, s));
    FoldSnoc(a, Plain(User, u));
  }

  /** The request `GenerateWithHistory` builds ends with the new user
      message, and everything before it folds to the history alone: the
      system prompt, if any, contributes nothing. */
  lemma HistoryRequestFolds(history: seq<Message>, userMessage: string, systemPrompt: string)
    ensures var ms := HistoryRequest(history, userMessage, systemPrompt).messages;
      LastUserContent(ms) == userMessage && CohereHistory(ms) == Fold(history)
  {
    var ms := HistoryRequest(history, userMessage, systemPrompt).messages;
    if systemPrompt != "" {
      var front := [Plain(System, systemPrompt)] + history;
      assert ms == front + [Plain(User, userMessage)];
      UserTurnLast(front, userMessage);
      LeadingSilentTurnFolds(Plain(System, systemPrompt), history);
    } else {
      assert ms == history + [Plain(User, userMessage)];
      UserTurnLast(history, userMessage);
    }
  }

  /** A leading system or function turn contributes nothing to the fold. */
  lemma LeadingSilentTurnFolds(m: Message, c: seq<Message>)
    requires m.role == System || m.role == Function
    ensures Fold([m] + c) == Fold(c)
  {
    assert [] + [m] + c == [m] + c && [] + c == c;
    SilentTurnFolds([], m, c);
  }

  /** A final user turn is `message`, and `chat_history` is the fold of what precedes it. */
  lemma UserTurnLast(front: seq<Message>, u: string)
    ensures LastUserContent(front + [Plain(User, u)]) == u
    ensures CohereHistory(front + [Plain(User, u)]) == Fold(front)
  {
    var ms := front + [Plain(User, u)];
    assert ms[..|ms| - 1] == front;
  }

  /** The message loop of `buildPayload`: skip system turns, take a final user
      turn as `message`, append every other user and assistant turn. */
  method FoldMessages(messages: seq<Message>) returns (message: string, chatHistory: seq<map<string, Json>>)
    ensures message == LastUserContent(messages)
    ensures chatHistory == CohereHistory(messages)
  {
    message := "";
    chatHistory := [];
    ghost var cut := if EndsWithUser(messages) then |messages| - 1 else |messages|;
    for i := 0 to |messages|
      invariant chatHistory == Fold(messages[..Min(i, cut)])
      invariant message == (if i == |messages| then LastUserContent(messages) else "")
    {
      var m := messages[i];
      assert messages[..i + 1] == messages[..i] + [m];
      FoldSnoc(messages[..i], m);
      if m.role == System {
        // Cohere has no system role: the turn is not sent
      } else if m.role == User {
        if i == |messages| - 1 {
          message := m.content;
        } else {
          chatHistory := chatHistory + [Turn("USER", m.content)];
        }
      } else if m.role == Assistant {
        chatHistory := chatHistory + [Turn("CHATBOT", m.content)];
      }
    }
    assert messages[..|messages|] == messages;
  }

  /** What construction does to the configuration: an empty base URL, a zero
      timeout and an empty default model (the embedding model) are filled in,
      and everything else is kept. */
  function Defaulted(config: Config): (c: Config)
    ensures c.timeout != 0 && c.defaultModel != ""
    ensures c.baseUrl != ""
    ensures config.baseUrl != "" ==> c.baseUrl == config.baseUrl
    ensures config.baseUrl == "" ==> c.baseUrl == CohereBaseUrl
    ensures config.timeout != 0 ==> c.timeout == config.timeout
    ensures config.timeout == 0 ==> c.timeout == DefaultTimeout
    ensures config.defaultModel != "" ==> c.defaultModel == config.defaultModel
    ensures config.defaultModel == "" ==> c.defaultModel == CohereEmbedModel
    ensures c == config.(baseUrl := c.baseUrl, timeout := c.timeout, defaultModel := c.defaultModel)
  {
    config.(baseUrl := if config.baseUrl == "" then CohereBaseUrl else config.baseUrl,
            timeout := if config.timeout == 0 then DefaultTimeout else config.timeout,
            defaultModel := if config.defaultModel == "" then CohereEmbedModel else config.defaultModel)
  }

  datatype CohereClient = CohereClient(config: Config) {

    /** What construction guarantees of the configuration it keeps. */
    predicate Valid() {
      config.apiKey != "" && config.baseUrl != "" && config.timeout != 0 && config.defaultModel != ""
    }

    /** The configuration as construction settled it (see `Defaulted`). */
    function GetConfig(): (c: Config)
      ensures c == config
      ensures Valid() ==> c.apiKey != "" && c.timeout != 0 && c.defaultModel != ""
    {
      config
    }

    function Close(): (r: Option<Error>)
      ensures r == None
    {
      None
    }

    /** The chat model: the override, else the configured default unless that
        is empty or the embedding default, in which case `command-r-plus`. */
    function GetModel(override: Option<string>): (m: string)
      ensures override.Some? ==> m == override.value
      ensures override.None? && config.defaultModel in {"", CohereEmbedModel} ==> m == CohereChatModel
      ensures override.None? && config.defaultModel !in {"", CohereEmbedModel} ==> m == config.defaultModel
      ensures override.None? ==> m != "" && m != CohereEmbedModel
    {
      if override.Some? then override.value
      else if config.defaultModel == "" || config.defaultModel == CohereEmbedModel then CohereChatModel
      else config.defaultModel
    }

    /** The embedding model: the request's, else a non-empty default, else
        `embed-multilingual-v3.0`. */
    function EmbeddingModel(override: Option<string>): (m: string)
      ensures override.Some? ==> m == override.value
      ensures override.None? && config.defaultModel != "" ==> m == config.defaultModel
      ensures override.None? && config.defaultModel == "" ==> m == CohereEmbedModel
      ensures override.None? ==> m != ""
    {
      if override.Some? then override.value
      else if config.defaultModel != "" then config.defaultModel
      else CohereEmbedModel
    }

    function HistoryParam(ms: seq<Message>): Option<Json> {
      var h := CohereHistory(ms);
      if |h| > 0 then Some(JArray(Objects(h))) else None
    }

    /** The conversation keys: `message`, `model`, and `chat_history` when non-empty. */
    function Head(request: Request): (h: map<string, Json>)
      ensures "message" in h && h["message"] == JString(LastUserContent(request.messages))
      ensures "model" in h && h["model"] == JString(GetModel(request.model))
      ensures Carries(h, "chat_history", HistoryParam(request.messages))
      ensures h.Keys <= {"message", "model", "chat_history"}
    {
      map["message" := JString(LastUserContent(request.messages)), "model" := JString(GetModel(request.model))]
        + Optional("chat_history", HistoryParam(request.messages))
    }

    /** The tuning keys under Cohere's names, each only when the request or
        the configuration sets it, the request winning. */
    function Tuning(request: Request): (t: map<string, Json>)
      ensures Carries(t, "temperature", FloatParam(Pick(request.temperature, config.defaultTemperature)))
      ensures Carries(t, "max_tokens", IntParam(Pick(request.maxTokens, config.defaultMaxTokens)))
      ensures Carries(t, "p", FloatParam(Pick(request.topP, config.defaultTopP)))
      ensures Carries(t, "k", IntParam(Pick(request.topK, config.defaultTopK)))
      ensures t.Keys <= {"temperature", "max_tokens", "p", "k"}
    {
      Optional("temperature", FloatParam(Pick(request.temperature, config.defaultTemperature)))
        + Optional("max_tokens", IntParam(Pick(request.maxTokens, config.defaultMaxTokens)))
        + Optional("p", FloatParam(Pick(request.topP, config.defaultTopP)))
        + Optional("k", IntParam(Pick(request.topK, config.defaultTopK)))
    }

    /** The keys `buildPayload` sets before the `ExtraParams` loop. */
    function Built(request: Request): map<string, Json> {
      Head(request) + Tuning(request)
    }

    /** The payload `buildPayload` returns: the conversation keys, then the
        tuning keys, then the extra keys, a later group winning on a clash.
        Cohere gets no `stream` and no `messages` key of its own. */
    function Payload(request: Request): (p: map<string, Json>)
      ensures p.Keys == Head(request).Keys + Tuning(request).Keys + request.extraParams.Keys
      ensures forall k :: k in request.extraParams ==> k in p && p[k] == request.extraParams[k]
      ensures "messages" in p <==> "messages" in request.extraParams
      ensures "stream" in p <==> "stream" in request.extraParams
    {
      var head, tuning := Head(request), Tuning(request);
      assert "messages" !in head && "stream" !in head;
      assert "messages" !in tuning && "stream" !in tuning;
      head + tuning + request.extraParams
    }

    /** Where `ExtraParams` does not override them, `message`, `model` and
        `chat_history` go out as the conversation and the model resolve them. */
    lemma PayloadConversation(request: Request)
      ensures var p := Payload(request);
        && ("message" !in request.extraParams ==> p["message"] == JString(LastUserContent(request.messages)))
        && ("model" !in request.extraParams ==> p["model"] == JString(GetModel(request.model)))
        && ("chat_history" !in request.extraParams ==> Carries(p, "chat_history", HistoryParam(request.messages)))
    {
      var head, tuning := Head(request), Tuning(request);
      assert "message" !in tuning && "model" !in tuning && "chat_history" !in tuning;
      LayeredUnion(head, tuning, request.extraParams);
    }

    /** Where `ExtraParams` does not override them, `temperature`,
        `max_tokens`, `p` and `k` are present exactly when the request or the
        configuration sets them, the request winning. */
    lemma PayloadTuning(request: Request)
      ensures var p := Payload(request);
        && ("temperature" !in request.extraParams ==>
              Carries(p, "temperature", FloatParam(Pick(request.temperature, config.defaultTemperature))))
        && ("max_tokens" !in request.extraParams ==>
              Carries(p, "max_tokens", IntParam(Pick(request.maxTokens, config.defaultMaxTokens))))
        && ("p" !in request.extraParams ==> Carries(p, "p", FloatParam(Pick(request.topP, config.defaultTopP))))
        && ("k" !in request.extraParams ==> Carries(p, "k", IntParam(Pick(request.topK, config.defaultTopK))))
    {
      var head, tuning := Head(request), Tuning(request);
      LayeredUnion(head, tuning, request.extraParams);
    }

    /** `buildPayload` as the source writes it. */
    method BuildPayload(request: Request) returns (p: map<string, Json>)
      ensures p == Payload(request)
    {
      var message, chatHistory := FoldMessages(request.messages);
      p := map["message" := JString(message), "model" := JString(GetModel(request.model))];
      ghost var before := p;
      if |chatHistory| > 0 {
        p := p["chat_history" := JArray(Objects(chatHistory))];
      }
      InsertOptional(before, "chat_history", HistoryParam(request.messages));
      assert p == Head(request);
      ghost var head := p;
      if request.temperature.Some? {
        p := p["temperature" := JFloat(request.temperature.value)];
      } else if config.defaultTemperature.Some? {
        p := p["temperature" := JFloat(config.defaultTemperature.value)];
      }
      ghost var tuning := Optional("temperature", FloatParam(Pick(request.temperature, config.defaultTemperature)));
      InsertOptional(head, "temperature", FloatParam(Pick(request.temperature, config.defaultTemperature)));
      if request.maxTokens.Some? {
        p := p["max_tokens" := JInt(request.maxTokens.value)];
      } else if config.defaultMaxTokens.Some? {
        p := p["max_tokens" := JInt(config.defaultMaxTokens.value)];
      }
      InsertOptionalAfter(head, tuning, "max_tokens", IntParam(Pick(request.maxTokens, config.defaultMaxTokens)));
      tuning := tuning + Optional("max_tokens", IntParam(Pick(request.maxTokens, config.defaultMaxTokens)));
      if request.topP.Some? {
        p := p["p" := JFloat(request.topP.value)];
      } else if config.defaultTopP.Some? {
        p := p["p" := JFloat(config.defaultTopP.value)];
      }
      InsertOptionalAfter(head, tuning, "p", FloatParam(Pick(request.topP, config.defaultTopP)));
      tuning := tuning + Optional("p", FloatParam(Pick(request.topP, config.defaultTopP)));
      if request.topK.Some? {
        p := p["k" := JInt(request.topK.value)];
      } else if config.defaultTopK.Some? {
        p := p["k" := JInt(config.defaultTopK.value)];
      }
      InsertOptionalAfter(head, tuning, "k", IntParam(Pick(request.topK, config.defaultTopK)));
      tuning := tuning + Optional("k", IntParam(Pick(request.topK, config.defaultTopK)));
      assert p == Built(request);
      p := ApplyExtraParams(p, request.extraParams);
    }

    /** The chat POST. */
    function Outgoing(request: Request): (out: HttpRequest)
      ensures out.url == config.baseUrl + "/chat"
      ensures "Authorization" in out.headers && out.headers["Authorization"] == "Bearer " + config.apiKey
      ensures out.body == JObject(Payload(request))
    {
      HttpRequest(config.baseUrl + "/chat",
                  map["Content-Type" := "application/json", "Authorization" := "Bearer " + config.apiKey],
                  JObject(Payload(request)))
    }

    /** One chat call. There is no emptiness check: a 2xx body that decodes
        always yields a response, with the billed input and output tokens
        added as Go adds `int`s. */
    function Generate(request: Request, transport: Transport): (r: Result<Response, Error>)
      ensures !Encodable(Outgoing(request).body) ==> r == Failure(MarshalFailed(false))
      ensures var outcome := transport(Outgoing(request));
        Encodable(Outgoing(request).body) ==>
          && (outcome.Received? && !IsSuccessStatus(outcome.status) ==>
                r == Failure(ApiError("Cohere", outcome.status, outcome.body)))
          && (outcome.NotCreated? ==> r == Failure(CreateFailed(false, outcome.cause)))
          && (outcome.NotSent? ==> r == Failure(SendFailed(false, outcome.cause)))
          && (outcome.NotRead? ==> r == Failure(ReadFailed(false, outcome.cause)))
          && (outcome.Received? && IsSuccessStatus(outcome.status) && outcome.decoded.Failure? ==>
                r == Failure(UnmarshalFailed(false, outcome.decoded.error)))
          && (r.Success? <==> outcome.Received? && IsSuccessStatus(outcome.status) && outcome.decoded.Success?)
          && (r.Success? ==>
                var reply := outcome.decoded.value;
                && r.value.content == reply.text
                && r.value.role == Assistant.Tag()
                && r.value.finishReason == reply.finishReason
                && r.value.tokensUsed == WrapAdd(reply.billedUnits.inputTokens, reply.billedUnits.outputTokens))
    {
      match Exchange(Outgoing(request), transport, "Cohere", false)
      case Failure(e) => Failure(e)
      case Success(reply) =>
        Success(Response(reply.text, Assistant.Tag(),
                         WrapAdd(reply.billedUnits.inputTokens, reply.billedUnits.outputTokens),
                         reply.finishReason))
    }

    /** The chat-history entry point: the history, then the user message, with
        the system prompt in front only when it is non-empty. With no history
        it sends what the simple and system-prompt builders build. */
    function GenerateWithHistory(history: seq<Message>, userMessage: string, systemPrompt: string,
                                 transport: Transport): (r: Result<Response, Error>)
      ensures systemPrompt == "" ==> r == Generate(BuildChatRequest(history, userMessage), transport)
      ensures systemPrompt != "" ==>
                r == Generate(WithSystemMessage(BuildChatRequest(history, userMessage), systemPrompt), transport)
      ensures history == [] && systemPrompt == "" ==> r == Generate(BuildSimpleRequest(userMessage), transport)
      ensures history == [] && systemPrompt != "" ==>
                r == Generate(BuildRequestWithSystemPrompt(systemPrompt, userMessage), transport)
    {
      var request := HistoryRequest(history, userMessage, systemPrompt);
      assert systemPrompt == "" ==> request == BuildChatRequest(history, userMessage);
      assert systemPrompt != "" ==> request == WithSystemMessage(BuildChatRequest(history, userMessage), systemPrompt);
      assert history == [] && systemPrompt == "" ==> request == BuildSimpleRequest(userMessage) by {
        SimpleIsChatWithoutHistory(userMessage);
      }
      assert history == [] && systemPrompt != "" ==> request == BuildRequestWithSystemPrompt(systemPrompt, userMessage) by {
        if systemPrompt != "" {
          SystemPromptIsHistoryRequest(systemPrompt, userMessage);
        }
      }
      Generate(request, transport)
    }

    /** The embed payload: the resolved model, the inputs as `texts`, and the
        fixed input type. */
    function EmbeddingPayload(request: EmbeddingRequest): (p: map<string, Json>)
      ensures p.Keys == {"model", "texts", "input_type"}
      ensures p["model"] == JString(EmbeddingModel(request.model))
      ensures p["input_type"] == JString(EmbedInputType)
      ensures p["texts"].JArray? && |p["texts"].items| == |request.input|
      ensures forall i :: 0 <= i < |request.input| ==> p["texts"].items[i] == JString(request.input[i])
    {
      map["model" := JString(EmbeddingModel(request.model)),
          "texts" := JArray(seq(|request.input|, i requires 0 <= i < |request.input| => JString(request.input[i]))),
          "input_type" := JString(EmbedInputType)]
    }

    function EmbeddingOutgoing(request: EmbeddingRequest): (out: HttpRequest)
      ensures out.url == config.baseUrl + "/embed"
      ensures "Authorization" in out.headers && out.headers["Authorization"] == "Bearer " + config.apiKey
      ensures out.body == JObject(EmbeddingPayload(request))
    {
      HttpRequest(config.baseUrl + "/embed",
                  map["Content-Type" := "application/json", "Authorization" := "Bearer " + config.apiKey],
                  JObject(EmbeddingPayload(request)))
    }

    /** One embed call: zero vectors is an error; otherwise the vectors as
        returned (their count is not compared with the inputs), the resolved
        model and the billed input tokens. The payload holds only strings, so
        marshalling cannot fail. */
    function CreateEmbedding(request: EmbeddingRequest, transport: Transport): (r: Result<EmbeddingResponse, Error>)
      ensures r != Failure(MarshalFailed(true))
      ensures var outcome := transport(EmbeddingOutgoing(request));
        && (outcome.Received? && !IsSuccessStatus(outcome.status) ==>
              r == Failure(ApiError("Cohere Embedding", outcome.status, outcome.body)))
        && (outcome.NotCreated? ==> r == Failure(CreateFailed(true, outcome.cause)))
        && (outcome.NotSent? ==> r == Failure(SendFailed(true, outcome.cause)))
        && (outcome.NotRead? ==> r == Failure(ReadFailed(true, outcome.cause)))
        && (outcome.Received? && IsSuccessStatus(outcome.status) && outcome.decoded.Failure? ==>
              r == Failure(UnmarshalFailed(true, outcome.decoded.error)))
        && ((outcome.Received? && IsSuccessStatus(outcome.status) && outcome.decoded.Success?
             && |outcome.decoded.value.embeddings| == 0) ==> r == Failure(NoEmbeddings))
        && (r.Success? <==> outcome.Received? && IsSuccessStatus(outcome.status)
                            && outcome.decoded.Success? && |outcome.decoded.value.embeddings| > 0)
        && (r.Success? ==>
              r.value == EmbeddingResponse(outcome.decoded.value.embeddings, EmbeddingModel(request.model),
                                           outcome.decoded.value.billedUnits.inputTokens))
    {
      EmbeddingPayloadEncodable(request);
      match Exchange(EmbeddingOutgoing(request), transport, "Cohere Embedding", true)
      case Failure(e) => Failure(e)
      case Success(reply) =>
        if |reply.embeddings| == 0 then Failure(NoEmbeddings)
        else Success(EmbeddingResponse(reply.embeddings, EmbeddingModel(request.model), reply.billedUnits.inputTokens))
    }

    lemma EmbeddingPayloadEncodable(request: EmbeddingRequest)
      ensures Encodable(EmbeddingOutgoing(request).body)
    {
      var p := EmbeddingPayload(request);
      assert Encodable(p["texts"]);
    }

    /** Through `GenerateWithHistory`, the new user message is always the
        `message`, the history folds into `chat_history`, and the system
        prompt is not sent, whether or not it is empty. */
    lemma HistoryRequestPayload(history: seq<Message>, userMessage: string, systemPrompt: string)
      ensures var p := Payload(HistoryRequest(history, userMessage, systemPrompt));
        && p["message"] == JString(userMessage)
        && ("chat_history" in p <==> |Fold(history)| > 0)
        && (|Fold(history)| > 0 ==> p["chat_history"] == JArray(Objects(Fold(history))))
    {
      HistoryRequestFolds(history, userMessage, systemPrompt);
      PayloadConversation(HistoryRequest(history, userMessage, systemPrompt));
    }

    /** A user turn and an assistant reply in the history, then a new question:
        the two earlier turns go out as `USER` and `CHATBOT`, the question as `message`. */
    lemma TwoTurnScenario(asked: string, answered: string, question: string)
      ensures var p := Payload(HistoryRequest([Plain(User, asked), Plain(Assistant, answered)], question, ""));
        && p["message"] == JString(question)
        && p["chat_history"] == JArray([JObject(Turn("USER", asked)), JObject(Turn("CHATBOT", answered))])
    {
      var h := [Plain(User, asked), Plain(Assistant, answered)];
      TwoTurnsFold(asked, answered);
      assert Objects(Fold(h)) == [JObject(Turn("USER", asked)), JObject(Turn("CHATBOT", answered))];
      assert |Fold(h)| > 0;
      HistoryRequestPayload(h, question, "");
    }
  }

  /** `newCohereClient`: fails exactly when the key is empty; the default model
      it fills in is the embedding model (chat substitutes its own, see
      `GetModel`). */
  method NewCohereClient(config: Config) returns (r: Result<CohereClient, Error>)
    ensures r.Failure? <==> config.apiKey == ""
    ensures r.Failure? ==> r.error == MissingApiKey
    ensures r.Success? ==> r.value.Valid()
    ensures r.Success? ==> r.value.config == Defaulted(config)
  {
    if config.apiKey == "" {
      return Failure(MissingApiKey);
    }
    var c := config;
    if c.baseUrl == "" {
      c := c.(baseUrl := CohereBaseUrl);
    }
    if c.timeout == 0 {
      c := c.(timeout := DefaultTimeout);
    }
    if c.defaultModel == "" {
      c := c.(defaultModel := CohereEmbedModel);
    }
    return Success(CohereClient(c));
  }
}
