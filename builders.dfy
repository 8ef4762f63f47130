/**
 * The request helpers of client.go: the three request constructors, the
 * pointer-receiver mutators of `Request`, the methods of `ChatHistory`, and
 * the request that `GenerateWithHistory` assembles before calling `Generate`.
 */
module Builders {
  import opened Wrappers
  import opened Json
  import opened Types

  function Min(a: int, b: int): int {
    if a <= b then a else b
  }

  /** A message as the helpers build it: no name. */
  function Plain(role: MessageRole, content: string): Message {
    Message(role, content, "")
  }

  /** A request holding one user message and nothing else. */
  function BuildSimpleRequest(message: string): (r: Request)
    ensures r.messages == [Plain(User, message)]
    ensures r == EmptyRequest.(messages := r.messages)
  {
    EmptyRequest.(messages := [Plain(User, message)])
  }

  /** A fresh request: the history in order, then the new user message. The
      source copies `history` into a new slice, so the caller's history is not
      touched (here: it is a value). */
  function BuildChatRequest(history: seq<Message>, userMessage: string): (r: Request)
    ensures |r.messages| == |history| + 1
    ensures r.messages[..|history|] == history
    ensures r.messages[|history|] == Plain(User, userMessage)
    ensures r == EmptyRequest.(messages := r.messages)
  {
    EmptyRequest.(messages := history + [Plain(User, userMessage)])
  }

  /** Exactly a system message followed by a user message. */
  function BuildRequestWithSystemPrompt(systemPrompt: string, userMessage: string): (r: Request)
    ensures |r.messages| == 2
    ensures r.messages[0] == Plain(System, systemPrompt) && r.messages[1] == Plain(User, userMessage)
    ensures r == EmptyRequest.(messages := r.messages)
  {
    EmptyRequest.(messages := [Plain(System, systemPrompt), Plain(User, userMessage)])
  }

  /** `AddSystemMessage` on a request value: the new message at index 0, the
      old ones shifted by one, every other field as it was. */
  function WithSystemMessage(r: Request, content: string): (r': Request)
    ensures |r'.messages| == |r.messages| + 1
    ensures r'.messages[0] == Plain(System, content)
    ensures forall i :: 0 <= i < |r.messages| ==> r'.messages[i + 1] == r.messages[i]
    ensures r' == r.(messages := r'.messages)
  {
    r.(messages := [Plain(System, content)] + r.messages)
  }

  /** What `GenerateWithHistory` hands to `Generate`: the chat request built
      from the history, with the system prompt put first only when it is
      non-empty. */
  function HistoryRequest(history: seq<Message>, userMessage: string, systemPrompt: string): (r: Request)
    ensures var offset := if systemPrompt != "" then 1 else 0;
      && |r.messages| == offset + |history| + 1
      && (systemPrompt != "" ==> r.messages[0] == Plain(System, systemPrompt))
      && r.messages[offset..offset + |history|] == history
      && r.messages[|r.messages| - 1] == Plain(User, userMessage)
    ensures r == EmptyRequest.(messages := r.messages)
  {
    var req := BuildChatRequest(history, userMessage);
    if systemPrompt != "" then WithSystemMessage(req, systemPrompt) else req
  }

  /** A one-message request is a chat request with no history. */
  lemma SimpleIsChatWithoutHistory(message: string)
    ensures BuildSimpleRequest(message) == BuildChatRequest([], message)
  {
  }

  /** With a non-empty prompt, the system-prompt helper and the history path agree on an empty history. */
  lemma SystemPromptIsHistoryRequest(systemPrompt: string, userMessage: string)
    requires systemPrompt != ""
    ensures BuildRequestWithSystemPrompt(systemPrompt, userMessage) == HistoryRequest([], userMessage, systemPrompt)
  {
  }

  /** A `*Request`: the receiver of the Add and Set methods, which update the
      struct's fields in place. */
  class RequestRef {
    var messages: seq<Message>
    var systemPrompt: string
    var temperature: Option<Float64>
    var maxTokens: Option<Int64>
    var topP: Option<Float64>
    var topK: Option<Int64>
    var stream: bool
    var extraParams: map<string, Json>
    var model: Option<string>

    /** The struct the pointer points to. */
    function Value(): Request
      reads this
    {
      Request(messages, systemPrompt, temperature, maxTokens, topP, topK, stream, extraParams, model)
    }

    /** Taking the address of a request value. */
    constructor (r: Request)
      ensures Value() == r
    {
      messages := r.messages;
      systemPrompt := r.systemPrompt;
      temperature := r.temperature;
      maxTokens := r.maxTokens;
      topP := r.topP;
      topK := r.topK;
      stream := r.stream;
      extraParams := r.extraParams;
      model := r.model;
    }

    method AddSystemMessage(content: string)
      modifies this`messages
      ensures Value() == WithSystemMessage(old(Value()), content)
    {
      messages := [Plain(System, content)] + messages;
    }

    method AddUserMessage(content: string)
      modifies this`messages
      ensures Value() == old(Value()).(messages := old(messages) + [Plain(User, content)])
    {
      messages := messages + [Plain(User, content)];
    }

    method AddAssistantMessage(content: string)
      modifies this`messages
      ensures Value() == old(Value()).(messages := old(messages) + [Plain(Assistant, content)])
    {
      messages := messages + [Plain(Assistant, content)];
    }

    method SetTemperature(temp: Float64)
      modifies this`temperature
      ensures Value() == old(Value()).(temperature := Some(temp))
    {
      temperature := Some(temp);
    }

    method SetMaxTokens(tokens: Int64)
      modifies this`maxTokens
      ensures Value() == old(Value()).(maxTokens := Some(tokens))
    {
      maxTokens := Some(tokens);
    }

    method SetTopP(p: Float64)
      modifies this`topP
      ensures Value() == old(Value()).(topP := Some(p))
    {
      topP := Some(p);
    }

    method SetTopK(k: Int64)
      modifies this`topK
      ensures Value() == old(Value()).(topK := Some(k))
    {
      topK := Some(k);
    }

    method SetModel(name: string)
      modifies this`model
      ensures Value() == old(Value()).(model := Some(name))
    {
      model := Some(name);
    }

    method SetStreaming(on: bool)
      modifies this`stream
      ensures Value() == old(Value()).(stream := on)
    {
      stream := on;
    }
  }

  /** A conversation log, oldest message first; its only state is the sequence. */
  class ChatHistory {
    var messages: seq<Message>

    constructor ()
      ensures messages == []
    {
      messages := [];
    }

    method AddMessage(role: MessageRole, content: string)
      modifies this
      ensures messages == old(messages) + [Plain(role, content)]
    {
      messages := messages + [Plain(role, content)];
    }

    method AddSystemMessage(content: string)
      modifies this
      ensures messages == old(messages) + [Plain(System, content)]
    {
      AddMessage(System, content);
    }

    method AddUserMessage(content: string)
      modifies this
      ensures messages == old(messages) + [Plain(User, content)]
    {
      AddMessage(User, content);
    }

    method AddAssistantMessage(content: string)
      modifies this
      ensures messages == old(messages) + [Plain(Assistant, content)]
    {
      AddMessage(Assistant, content);
    }

    /** The whole log, oldest first; its last entry is what `GetLastMessage` reports. */
    function GetMessages(): (r: seq<Message>)
      reads this
      ensures r == messages
      ensures |r| == 0 <==> GetLastMessage().None?
      ensures |r| > 0 ==> GetLastMessage() == Some(r[|r| - 1])
    {
      messages
    }

    method Clear()
      modifies this
      ensures messages == []
    {
      messages := [];
    }

    /** The newest message, or none when the history is empty. */
    function GetLastMessage(): (r: Option<Message>)
      reads this
      ensures r.None? <==> |messages| == 0
      ensures r.Some? ==> r.value == messages[|messages| - 1] && r.value in messages
    {
      if |messages| == 0 then None else Some(messages[|messages| - 1])
    }

    /** Keeps the newest `n` messages in order; a history of at most `n`
        messages is left alone. A negative `n` makes the source's slice
        expression panic. */
    method Truncate(n: int)
      requires n >= 0
      modifies this
      ensures |messages| == Min(n, |old(messages)|)
      ensures messages == old(messages)[|old(messages)| - |messages|..]
    {
      if |messages| > n {
        messages := messages[|messages| - n..];
      }
    }
  }
}
