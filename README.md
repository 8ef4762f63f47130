# llm-unified-client, modelled in Dafny

`llm-unified-client` is a Go package that puts one interface in front of several
chat-completion HTTP APIs: OpenAI and every OpenAI-compatible service (DeepSeek among
them), Alibaba Qwen through DashScope's compatible mode, Azure OpenAI, and Cohere.
A caller builds a `Config` and gets a `Client` from `NewClient`. It then builds a
`Request` with the helpers of `client.go` and calls `Generate`. Each adapter
turns the request into its vendor's JSON payload, POSTs it, and maps the JSON reply
back to a `Response`. Cohere's adapter also has an embedding call.

This project models everything around the HTTP round trip:

- the shared types, the request helpers and the mutable `Request` and `ChatHistory`;
- the provider switch of `NewClient`;
- per adapter: the constructor's validation and defaults, the payload, the message
  conversion, the model resolution, and how a status, a decoded body and its fields
  become a `Response` or an error.

The round trip itself is a parameter `Transport = HttpRequest -> HttpOutcome`. An
outcome is a failure to create, send or read, or a status, the raw body and the
decoded body. `json.Marshal` enters as the predicate `Json.Encodable`, which rejects
NaN and infinite floats.

| file | module | models |
|---|---|---|
| wrappers.dfy | `Wrappers` | `Option` (a nil-able pointer) and `Result` (Go's `(value, error)`) |
| json.dfy | `Json` | JSON values, `float64` as its IEEE bits, `json.Marshal`'s NaN/Inf refusal |
| types.dfy | `Types` | types.go: providers, roles, `Message`, `Request`, `Response`, `Config`, error texts, Go `int` wrap-around, `strings.Contains` |
| wire.dfy | `Wire` | what the adapters share: status and decode checks, request > config precedence, the `ExtraParams` loop |
| builders.dfy | `Builders` | client.go's request constructors, the `*Request` mutators (class `RequestRef`), `ChatHistory` (class) |
| openai.dfy | `OpenAIAdapter` | openai_client.go |
| azure.dfy | `AzureAdapter` | azure_client.go |
| qwen.dfy | `QwenAdapter` | qwen_client.go |
| cohere.dfy | `CohereAdapter` | cohere_client.go |
| factory.dfy | `Factory` | `NewClient`, the `Client` interface as a sum over the adapters, the `Generate*` helpers |

Each adapter is an immutable value holding its `Config`, because no adapter method
changes its receiver. For each adapter, `Payload` is the specification of what
`buildPayload` returns:

- `Head` holds the keys of the literal map.
- `Tuning` holds the optional keys.
- `ExtraParams` is laid over both.

`BuildPayload` is a method that performs the source's steps in order: the message
loop, the literal map, each `if`/`else if` insert, and the `ExtraParams` loop. It is
proved equal to `Payload`.

Cohere's message loop is the method `FoldMessages`. It is proved against two
functions: `LastUserContent`, the final user turn, and `CohereHistory`, a `Fold` of
every other message. The lemmas about `Fold` say what the loop does to system turns,
function turns and the last user turn.

## Where the code differs from the documentation

The model follows the code in each of these cases:

- The package's description and its tests mention a `cohere` provider, an
  OpenAI-compatible embedding call, and `CreateEmbedding` as part of the client
  interface. The code has none of these:
  - `Provider` declares only `openai`, `deepseek`, `qwen` and `azure` (types.go:11-16).
  - `NewClient` rejects any other tag (client.go:10-19), so it never builds a Cohere
    adapter (`Factory.NewClient` ensures `!r.value.ViaCohere?`).
  - The `Client` interface has no `CreateEmbedding` (types.go:99-111).
  - openai_client.go and qwen_client.go declare no embedding call.
- `EmbeddingRequest` and `EmbeddingResponse` are not declared in types.go. They are
  modelled from their uses in cohere_client.go and azure_client.go.
- The description promises as many embedding vectors as inputs. Cohere's
  `CreateEmbedding` only rejects zero vectors (cohere_client.go:187-189), and so does
  the model.
- A comment in Cohere's `buildPayload` says a system message is "prepended to the
  first user message". The code skips it (cohere_client.go:218-221), and so does
  the model (`CohereAdapter.HistoryRequestPayload`). As a result, a system message
  that is the last message leaves `message` empty and moves the user's last turn into
  `chat_history` (`CohereAdapter.TrailingSystemTurnDemotesMessage`).

## Model

| member | source | states |
|---|---|---|
| Types.WrapAdd | cohere_client.go:107 | Go's `int` addition: the result equals the exact sum modulo 2^64, and equals the sum itself when that fits in 64 bits |
| Types.ContainsIff | azure_client.go:32 | `Contains(s, sub)` holds exactly when `sub` occurs in `s` at some index |
| Types.Decimal | openai_client.go:97 | `%d`: the text starts with '-' exactly when the number is negative, the rest is decimal digits only with no leading zero (except "0" itself), and the sign and digits spell the number back |
| Types.Digits | openai_client.go:97 | a non-empty run of decimal digits without a leading zero whose value, read most significant first, is the number |
| Types.ParseProvider | types.go:11-16 | a tag names a provider exactly when it is one of the four declared constants, and then that provider's tag is the tag |
| Types.ProviderTagsRoundTrip | types.go:11-16 | each of the four providers' tags parses back to that provider; `cohere` names no provider |
| Types.ParseRole | types.go:28-33 | a string names a role exactly when it is one of the four declared role constants |
| Types.RoleTagsRoundTrip | types.go:28-33 | each role's wire string parses back to that role, so the four strings are distinct |
| Types.Error.Text | openai_client.go:97-99 | the text of a status error is exactly the API's name, " API error ", the code in decimal and ": ", followed by the response body and nothing else (prefix, suffix and total length); an unsupported provider's text ends with the tag |
| Wire.ReadReply | openai_client.go:84-119 | after the round trip: failing to create, send or read is the create, send or read error with its cause; a status outside [200, 300) is an API error with that code and body; a 2xx body that does not decode is an unmarshal error with the decoder's cause; success holds exactly the decoded body |
| Wire.Exchange | openai_client.go:68-73 | a payload `json.Marshal` refuses fails before anything is sent; otherwise the outcome of the round trip decides |
| Wire.FirstChoice | openai_client.go:121-133 | zero choices is an error; otherwise content, role and finish reason come from the first choice and tokens from `usage.total_tokens` |
| Wire.Pick | openai_client.go:165-169 | a tuning value is set when the request or the configuration sets it, and the request's value wins |
| Wire.LayeredUnion | openai_client.go:158-186 | keys written in three rounds: the payload's keys are the union of the rounds, and each key holds the value of the last round that wrote it |
| Wire.ApplyExtraParams | openai_client.go:184-186 | after the loop every extra key holds its extra value, every other key keeps its value, and there are no other keys |
| Builders.BuildSimpleRequest | client.go:40-46 | the messages are exactly one plain user message with the given content; every other field is zero |
| Builders.BuildChatRequest | client.go:49-57 | the history in order followed by the user message, length one more than the history; every other field is zero |
| Builders.BuildRequestWithSystemPrompt | client.go:60-67 | exactly `[{system, s}, {user, u}]`; every other field is zero |
| Builders.WithSystemMessage | client.go:70-72 | the system message at index 0, the old messages shifted by one, and every other field unchanged |
| Builders.HistoryRequest | client.go:173-179 | the system prompt comes first only when non-empty, then the history in order, then the user message |
| Builders.SimpleIsChatWithoutHistory | client.go:40-57 | a simple request equals a chat request with an empty history |
| Builders.SystemPromptIsHistoryRequest | client.go:60-72 | with a non-empty prompt, the system-prompt request equals the history request with no history |
| Builders.RequestRef.constructor | types.go:41-56 | a pointer to a request value holds exactly that value, field by field |
| Builders.RequestRef.AddSystemMessage | client.go:70-72 | the request afterwards is `WithSystemMessage` of the request before |
| Builders.RequestRef.AddUserMessage | client.go:75-77 | appends `{user, content}`; no other field changes |
| Builders.RequestRef.AddAssistantMessage | client.go:80-82 | appends `{assistant, content}`; no other field changes |
| Builders.RequestRef.SetTemperature | client.go:85-87 | sets the temperature and only it, so the last write wins |
| Builders.RequestRef.SetMaxTokens | client.go:90-92 | sets the max tokens and only them |
| Builders.RequestRef.SetTopP | client.go:95-97 | sets top-p and only it |
| Builders.RequestRef.SetTopK | client.go:100-102 | sets top-k and only it |
| Builders.RequestRef.SetModel | client.go:105-107 | sets the model override and only it |
| Builders.RequestRef.SetStreaming | client.go:110-112 | sets the stream flag and only it |
| Builders.ChatHistory.constructor | types.go:36-38 | a history starts empty; the message sequence is its only state |
| Builders.ChatHistory.AddMessage | client.go:117-122 | appends one message with the given role and content |
| Builders.ChatHistory.AddSystemMessage | client.go:125-127 | appends `{system, content}` |
| Builders.ChatHistory.AddUserMessage | client.go:130-132 | appends `{user, content}` |
| Builders.ChatHistory.AddAssistantMessage | client.go:135-137 | appends `{assistant, content}` |
| Builders.ChatHistory.GetMessages | client.go:140-142 | all messages, oldest first; empty exactly when there is no last message, and otherwise ending with the message `GetLastMessage` reports |
| Builders.ChatHistory.Clear | client.go:145-147 | the history is empty afterwards |
| Builders.ChatHistory.GetLastMessage | client.go:150-155 | none exactly when the history is empty; otherwise the final message |
| Builders.ChatHistory.Truncate | client.go:158-162 | keeps the last `min(n, length)` messages in order; a history of at most `n` messages is unchanged |
| OpenAIAdapter.MessageObject | openai_client.go:203-209 | `role` and `content` always; `name` exactly when the message's name is non-empty |
| OpenAIAdapter.MessageObjects | openai_client.go:200-211 | one object per message, same length and order |
| OpenAIAdapter.ConvertMessages | openai_client.go:200-211 | the filled slice has the messages' length, holds each message's object at its index, and has `name` exactly where the name is non-empty |
| OpenAIAdapter.Tuning | openai_client.go:164-181 | `temperature`, `max_tokens` and `top_p` are each present exactly when the request or the configuration sets them, with the request's value winning; there are no other keys |
| OpenAIAdapter.AddTuning | openai_client.go:164-181 | the three conditional inserts add exactly `Tuning` to the map built so far |
| OpenAIAdapter.Defaulted | openai_client.go:25-51 | an empty base URL and an empty model get the DeepSeek values for `deepseek` and the OpenAI values for any other tag, a zero timeout becomes 30 s; set fields are kept, the three are then non-empty, and no other field changes |
| OpenAIAdapter.OpenAIClient.GetModel | openai_client.go:192-197 | the override if present, else the configured default, which is non-empty after construction |
| OpenAIAdapter.OpenAIClient.Head | openai_client.go:158-162 | the literal map is exactly `model`, `messages` and `stream` with their resolved values |
| OpenAIAdapter.OpenAIClient.Payload | openai_client.go:157-189 | the keys are the head's, the tuning's and the extra keys; extra values win; `top_k` is never sent unless supplied as an extra |
| OpenAIAdapter.OpenAIClient.PayloadHead | openai_client.go:158-186 | `model`, `messages` and `stream` go out as resolved unless an extra key overrides them |
| OpenAIAdapter.OpenAIClient.PayloadTuning | openai_client.go:164-186 | where no extra key overrides them, `temperature`, `max_tokens` and `top_p` follow request > configuration > absent |
| OpenAIAdapter.OpenAIClient.PayloadEncodable | openai_client.go:70-73 | the payload marshals whenever the tuning floats sent are finite and the extra values marshal |
| OpenAIAdapter.OpenAIClient.BuildPayload | openai_client.go:157-189 | the map built step by step is `Payload` |
| OpenAIAdapter.OpenAIClient.Outgoing | openai_client.go:76-82 | POST to `<base>/chat/completions` with `Authorization: Bearer <key>` and the payload as body |
| OpenAIAdapter.OpenAIClient.Generate | openai_client.go:64-134 | a marshal failure comes first; a status outside [200, 300) is an `LLM API error` with code and body; a 2xx reply with zero choices is "no choices in LLM response"; success holds exactly when the status is 2xx, the body decodes and there is a choice; a success carries the first choice's content, role and finish reason and `usage.total_tokens`; failing to create, send or read is the matching error with its cause, and a 2xx body that does not decode is an unmarshal error |
| OpenAIAdapter.OpenAIClient.Answered | openai_client.go:97-133 | a marshallable request answered with a 2xx status and at least one choice returns that choice's content, role and finish reason with the total token count |
| OpenAIAdapter.OpenAIClient.GenerateWithHistory | openai_client.go:137-143 | without a system prompt it sends the chat request of the history and the user message, and with a non-empty one that same request with the system message put in front; with no history it sends what `BuildSimpleRequest` or, for a non-empty prompt, `BuildRequestWithSystemPrompt` builds |
| OpenAIAdapter.OpenAIClient.GetConfig | openai_client.go:152-154 | the configuration the client holds, whose key, timeout and default model are set once constructed |
| OpenAIAdapter.OpenAIClient.Close | openai_client.go:146-149 | closing always succeeds |
| OpenAIAdapter.NewOpenAIClient | openai_client.go:20-61 | fails with "API key is required" exactly when the key is empty; otherwise the client holds `Defaulted(config)` |
| AzureAdapter.AzureClient.CreateEmbedding | azure_client.go:151-153 | always the "not supported" error, whatever the request |
| AzureAdapter.Defaulted | azure_client.go:36-43 | a zero timeout becomes 30 s and an empty model `gpt-35-turbo`; set fields, the base URL included, are kept and nothing else changes |
| AzureAdapter.AzureClient.GetConfig | azure_client.go:146-148 | the configuration the client holds, whose key, timeout and default model are set once constructed |
| AzureAdapter.AzureClient.Close | azure_client.go:141-143 | closing always succeeds |
| AzureAdapter.AzureClient.Head | azure_client.go:157-160 | the literal map is exactly `messages` and `stream`, with no `model` |
| AzureAdapter.AzureClient.Payload | azure_client.go:156-187 | the keys are the head's, the tuning's and the extra keys; extra values win; `model` and `top_k` appear only as extras |
| AzureAdapter.AzureClient.PayloadHead | azure_client.go:157-184 | `messages` and `stream` go out as given unless an extra key overrides them |
| AzureAdapter.AzureClient.PayloadTuning | azure_client.go:162-184 | where no extra key overrides them, `temperature`, `max_tokens` and `top_p` follow request > configuration > absent |
| AzureAdapter.AzureClient.BuildPayload | azure_client.go:156-187 | the map built step by step is `Payload` |
| AzureAdapter.AzureClient.Outgoing | azure_client.go:68-77 | POST to `<base>/chat/completions?api-version=2023-12-01-preview` with the raw key in `api-key` and no `Authorization` header |
| AzureAdapter.AzureClient.Generate | azure_client.go:56-129 | as OpenAI's mapping, with `Azure OpenAI API error` for a status outside [200, 300) and "no choices in Azure OpenAI response" for a 2xx reply with zero choices; failing to create, send or read is the matching error with its cause, and a 2xx body that does not decode is an unmarshal error |
| AzureAdapter.AzureClient.GenerateWithHistory | azure_client.go:132-138 | without a system prompt it sends the chat request of the history and the user message, and with a non-empty one that same request with the system message put in front; with no history it sends what `BuildSimpleRequest` or, for a non-empty prompt, `BuildRequestWithSystemPrompt` builds |
| AzureAdapter.NewAzureClient | azure_client.go:21-53 | an empty key, then an empty base URL, then a base URL without `/deployments/` fail, in that order; success holds exactly when the key is non-empty and the URL contains the segment, and then the client holds `Defaulted(config)` |
| QwenAdapter.MessageObject | qwen_client.go:144-147 | exactly `role` and `content`; a name is never sent |
| QwenAdapter.MessageObjects | qwen_client.go:143-148 | one object per message, same length and order |
| QwenAdapter.MessagesValue | qwen_client.go:142-148 | `null` for a request without messages (the slice is never appended to); otherwise one object per message in order |
| QwenAdapter.ConvertMessages | qwen_client.go:142-148 | the append loop produces `MessagesValue` |
| QwenAdapter.Defaulted | qwen_client.go:25-35 | an empty base URL, a zero timeout and an empty model get the DashScope URL, 30 s and `qwen3-next-80b-a3b-instruct`; set fields are kept and nothing else changes |
| QwenAdapter.QwenClient.GetConfig | qwen_client.go:135-137 | the configuration the client holds, whose key, timeout and default model are set once constructed |
| QwenAdapter.QwenClient.Close | qwen_client.go:130-132 | closing always succeeds |
| QwenAdapter.QwenClient.BuildPromptFromMessages | qwen_client.go:188-191 | always the empty string |
| QwenAdapter.QwenClient.GetModel | qwen_client.go:194-199 | the override if present, else the configured default, which is non-empty after construction |
| QwenAdapter.QwenClient.GetMaxTokens | qwen_client.go:202-210 | the request's value, else the configured default, else 1500 |
| QwenAdapter.QwenClient.Head | qwen_client.go:150-154 | the literal map is exactly `model`, `messages` and `max_tokens` with their resolved values |
| QwenAdapter.QwenClient.Tuning | qwen_client.go:156-175 | `temperature`, `top_p` and `top_k` are each present exactly when the request or the configuration sets them, with the request's value winning |
| QwenAdapter.QwenClient.Payload | qwen_client.go:140-184 | the keys are the head's, the tuning's and the extra keys; extra values win; `max_tokens` is always present; `stream` only as an extra |
| QwenAdapter.QwenClient.PayloadHead | qwen_client.go:150-181 | `model`, `messages` and `max_tokens` go out as resolved unless an extra key overrides them |
| QwenAdapter.QwenClient.PayloadTuning | qwen_client.go:156-181 | where no extra key overrides them, `temperature`, `top_p` and `top_k` follow request > configuration > absent |
| QwenAdapter.QwenClient.BuildPayload | qwen_client.go:140-184 | the map built step by step is `Payload` |
| QwenAdapter.QwenClient.Outgoing | qwen_client.go:59-67 | POST to `<base>/chat/completions` with `Authorization: Bearer <key>` and `X-DashScope-SSE: disable` |
| QwenAdapter.QwenClient.Generate | qwen_client.go:48-118 | `Qwen API error` for a status outside [200, 300); zero choices is an error; a success has the first choice's content, role `assistant`, an empty finish reason and `total_tokens`; failing to create, send or read is the matching error with its cause, and a 2xx body that does not decode is an unmarshal error |
| QwenAdapter.QwenClient.GenerateWithHistory | qwen_client.go:121-127 | without a system prompt it sends the chat request of the history and the user message, and with a non-empty one that same request with the system message put in front; with no history it sends what `BuildSimpleRequest` or, for a non-empty prompt, `BuildRequestWithSystemPrompt` builds |
| QwenAdapter.NewQwenClient | qwen_client.go:20-45 | fails with "API key is required" exactly when the key is empty; otherwise the client holds `Defaulted(config)` |
| CohereAdapter.Fold | cohere_client.go:217-238 | the history entries are never more than the messages |
| CohereAdapter.FoldEntries | cohere_client.go:227-236 | every history entry is a `{role, message}` object spoken by `USER` or `CHATBOT` |
| CohereAdapter.LastUserContent | cohere_client.go:222-226 | the content of the last message when it is a user message, else the empty string |
| CohereAdapter.FoldConcat | cohere_client.go:217-238 | folding distributes over concatenation, so entries keep the messages' order |
| CohereAdapter.FoldSnoc | cohere_client.go:217-238 | folding one more message appends only that message's entry |
| CohereAdapter.TwoTurnsFold | cohere_client.go:227-236 | a user turn then an assistant turn fold to `USER` then `CHATBOT` |
| CohereAdapter.CohereHistory | cohere_client.go:215-238 | `chat_history` followed by the final user turn (if the last message is one) is the fold of all messages, so no user or assistant turn is lost or repeated; without a final user turn it is the whole fold |
| CohereAdapter.SilentTurnFolds | cohere_client.go:218-221 | a system or function turn contributes nothing wherever it stands |
| CohereAdapter.LeadingSilentTurnFolds | cohere_client.go:218-221 | a leading system or function turn leaves the fold unchanged |
| CohereAdapter.UserTurnLast | cohere_client.go:222-236 | after a final user turn, `message` is its content and `chat_history` is the fold of everything before it |
| CohereAdapter.InnerSilentTurnIgnored | cohere_client.go:217-238 | a system or function turn that is not the last message changes neither `message` nor `chat_history` |
| CohereAdapter.TrailingSystemTurnDemotesMessage | cohere_client.go:222-226 | a trailing system turn empties `message` and moves the user's last turn into the history |
| CohereAdapter.HistoryRequestFolds | cohere_client.go:113-119 | for a history request, `message` is the new user message and the history is the fold of the old history; the system prompt contributes nothing |
| CohereAdapter.FoldMessages | cohere_client.go:213-238 | the loop computes exactly `LastUserContent` and `CohereHistory` |
| CohereAdapter.Defaulted | cohere_client.go:25-35 | an empty base URL, a zero timeout and an empty model get Cohere's URL, 30 s and the embedding model `embed-multilingual-v3.0`; set fields are kept and nothing else changes |
| CohereAdapter.CohereClient.GetConfig | cohere_client.go:207-209 | the configuration the client holds, whose key, timeout and default model are set once constructed |
| CohereAdapter.CohereClient.Close | cohere_client.go:202-204 | closing always succeeds |
| CohereAdapter.CohereClient.GetModel | cohere_client.go:286-295 | the override if present; else `command-r-plus` when the default is empty or the embedding model; else the default. Never empty, never the embedding model, without an override |
| CohereAdapter.CohereClient.EmbeddingModel | cohere_client.go:126-132 | the request's model, else a non-empty default, else `embed-multilingual-v3.0` |
| CohereAdapter.CohereClient.Head | cohere_client.go:240-247 | `message` and `model` always; `chat_history` exactly when the history is non-empty; no other keys |
| CohereAdapter.CohereClient.Tuning | cohere_client.go:249-275 | `temperature`, `max_tokens`, `p` and `k` are each present exactly when the request or the configuration sets them, with the request's value winning |
| CohereAdapter.CohereClient.Payload | cohere_client.go:211-283 | the keys are the head's, the tuning's and the extra keys; extra values win; `messages` and `stream` only as extras |
| CohereAdapter.CohereClient.PayloadConversation | cohere_client.go:240-280 | `message`, `model` and `chat_history` go out as resolved unless an extra key overrides them |
| CohereAdapter.CohereClient.PayloadTuning | cohere_client.go:249-280 | where no extra key overrides them, `temperature`, `max_tokens`, `p` and `k` follow request > configuration > absent |
| CohereAdapter.CohereClient.BuildPayload | cohere_client.go:211-283 | the map built by the loop and the inserts is `Payload` |
| CohereAdapter.CohereClient.Outgoing | cohere_client.go:60-67 | POST to `<base>/chat` with `Authorization: Bearer <key>` |
| CohereAdapter.CohereClient.Generate | cohere_client.go:49-111 | `Cohere API error` for a status outside [200, 300); success holds exactly when the status is 2xx and the body decodes; content is `text`, role is `assistant`, tokens are input plus output billed units with Go's wrap-around; failing to create, send or read is the matching error with its cause, and a 2xx body that does not decode is an unmarshal error |
| CohereAdapter.CohereClient.GenerateWithHistory | cohere_client.go:114-120 | without a system prompt it sends the chat request of the history and the user message, and with a non-empty one that same request with the system message put in front; with no history it sends what `BuildSimpleRequest` or, for a non-empty prompt, `BuildRequestWithSystemPrompt` builds |
| CohereAdapter.CohereClient.EmbeddingPayload | cohere_client.go:134-139 | exactly `model` (resolved), `texts` (the inputs in order) and `input_type` `search_document` |
| CohereAdapter.CohereClient.EmbeddingOutgoing | cohere_client.go:146-153 | POST to `<base>/embed` with `Authorization: Bearer <key>` |
| CohereAdapter.CohereClient.CreateEmbedding | cohere_client.go:122-199 | never a marshal failure; `Cohere Embedding API error` for a status outside [200, 300); zero vectors is an error; a success has the vectors as returned, the resolved model and the billed input tokens; failing to create, send or read is the matching error with its cause, and a 2xx body that does not decode is an unmarshal error |
| CohereAdapter.CohereClient.EmbeddingPayloadEncodable | cohere_client.go:141-144 | the embed payload holds only strings, so it always marshals |
| CohereAdapter.CohereClient.HistoryRequestPayload | cohere_client.go:113-119 | through `GenerateWithHistory`, `message` is the new user message, `chat_history` is the folded history (present exactly when non-empty) and the system prompt is never sent |
| CohereAdapter.CohereClient.TwoTurnScenario | cohere_client.go:211-247 | history `[{user, a}, {assistant, b}]` plus question `c` sends `chat_history` `[{USER, a}, {CHATBOT, b}]` and `message` `c` |
| CohereAdapter.NewCohereClient | cohere_client.go:20-46 | fails with "API key is required" exactly when the key is empty; otherwise the client holds `Defaulted(config)`, whose model is the embedding one |
| Factory.Client.Close | types.go:106-107 | closing any client succeeds |
| Factory.Client.GetConfig | types.go:109-110 | the configuration of the adapter behind the interface; a constructed client's key, timeout and default model are set |
| Factory.NewClient | client.go:9-20 | `openai` and `deepseek` build the OpenAI-compatible adapter, `qwen` the Qwen one, `azure` the Azure one, each succeeding exactly when its own validation passes and then holding that adapter's `Defaulted(config)`; for `azure` an empty key, then an empty base URL, then a URL without `/deployments/` fail in that order; any other tag, `cohere` included, is unsupported |
| Factory.GenerateSimple | client.go:167-170 | a simple prompt is the history helper with no history and no system prompt |
| Factory.GenerateWithHistory | client.go:173-179 | the package-level helper does what the chosen adapter's own `GenerateWithHistory` does |
| Factory.GenerateWithSystemPrompt | client.go:182-185 | with a non-empty prompt it is the history helper with no history; with an empty one it still sends an empty system message before the user message |
| Factory.StatusError | types.go:100-101 | through the interface, for every adapter, a status outside [200, 300) is that adapter's API error with the code and the body |
| Factory.StatusErrorText | openai_client.go:97-99 | such an error's text is exactly the adapter's API name, " API error ", the status code in decimal and ": ", followed by the body the server sent and nothing else |

## Left out

- The HTTP round trip is a parameter of every call. This covers creating the request,
  sending it, reading the body and decoding it. Context cancellation and the client's
  timeout are not modelled; the timeout is kept only as a configuration value.
- The HTTP method (always POST) is not modelled. Headers are a plain map: Go's
  `Header.Set` canonicalises names (`api-key` goes out as `Api-Key`), and the model
  keeps the names as written.
- `json.Unmarshal` is modelled as a decoded record with Go's zero values for missing
  fields, or a failure. The record does not say which field mismatched.
- `json.Marshal` is modelled as `Json.Encodable`, which rejects only NaN and infinite
  floats. Values of `ExtraParams` are JSON values here, so Go values that cannot be
  encoded at all (channels, functions) are not modelled.
- `Types.Error.Text`: the wrapped cause of a marshal failure is not included in the
  text.
- `ResponseTime` is not modelled because it depends on the clock.
- The `Response.Stream` channel and `StreamChunk` are declared but never filled, and
  they concern concurrency.
- `Config.ExtraConfig` is never read by any adapter.
- `Builders.ChatHistory.GetMessages`: returns the sequence by value, so Go's aliasing
  of the backing array through `GetMessages` and `GetLastMessage` is not modelled.
- `Builders.ChatHistory.Truncate` requires `n >= 0`. The source's slice expression
  panics on a negative `n`.
- `Types.MessageRole` has only the four declared roles. Go lets a caller convert any
  string to `MessageRole`, and such a role would also be sent as-is.
- `CohereAdapter.CohereClient.EmbeddingPayload`: a nil `Input` slice marshals to
  `null` in Go. The model does not tell nil from empty and always sends an array.
- `Factory.Client.Generate` and `Factory.Client.GenerateWithHistory` carry no contract
  of their own; they only dispatch to the adapter.
  What they promise is stated by `Factory.StatusError`, `Factory.GenerateWithHistory`
  and each adapter's `Generate`.
- The cosine-similarity helpers are floating-point numerics used only by tests and
  examples.
- The demos, the examples and the integration tests that need live API keys are
  not modelled.
