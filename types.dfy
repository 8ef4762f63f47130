/**
 * The shared vocabulary of types.go: providers, roles, messages, requests,
 * responses and configuration, plus the error values the adapters return.
 */
module Types {
  import opened Wrappers
  import opened Json

  /** A Go `int` (64 bits on every platform the client targets). */
  type Int64 = x: int | -0x8000_0000_0000_0000 <= x < 0x8000_0000_0000_0000

  /** A Go `time.Duration`: a count of nanoseconds. */
  type Duration = Int64

  /** `30 * time.Second`, the timeout every constructor puts in place of zero. */
  const DefaultTimeout: Duration := 30_000_000_000

  /** Go's `+` on `int`: two's-complement wrap-around modulo 2^64. */
  function WrapAdd(a: Int64, b: Int64): (r: Int64)
    ensures (r - (a + b)) % 0x1_0000_0000_0000_0000 == 0
    ensures -0x8000_0000_0000_0000 <= a + b < 0x8000_0000_0000_0000 ==> r == a + b
  {
    var s := a + b;
    if s >= 0x8000_0000_0000_0000 then s - 0x1_0000_0000_0000_0000
    else if s < -0x8000_0000_0000_0000 then s + 0x1_0000_0000_0000_0000
    else s
  }

  /** `strings.Contains`: does `sub` occur in `s`? */
  function Contains(s: string, sub: string): bool
    decreases |s|
  {
    if |s| < |sub| then false
    else if s[..|sub|] == sub then true
    else Contains(s[1..], sub)
  }

  /** `sub` starts at index `i` of `s`. */
  predicate OccursAt(s: string, sub: string, i: int) {
    0 <= i <= |s| - |sub| && s[i..i + |sub|] == sub
  }

  /** `Contains` finds an occurrence exactly when there is one. */
  lemma {:induction false} ContainsIff(s: string, sub: string)
    ensures Contains(s, sub) <==> exists i :: OccursAt(s, sub, i)
    decreases |s|
  {
    if |s| < |sub| {
    } else if s[..|sub|] == sub {
      assert OccursAt(s, sub, 0);
    } else {
      ContainsIff(s[1..], sub);
      if Contains(s[1..], sub) {
        var i :| OccursAt(s[1..], sub, i);
        TailSlice(s, i, |sub|);
        assert OccursAt(s, sub, i + 1);
      } else {
        forall i | 0 < i <= |s| - |sub| ensures OccursAt(s, sub, i) ==> OccursAt(s[1..], sub, i - 1) {
          TailSlice(s, i - 1, |sub|);
        }
      }
    }
  }

  /** A slice of the tail is the slice of the whole one place further on. */
  lemma TailSlice(s: string, i: nat, n: nat)
    requires i + n < |s|
    ensures s[1..][i..i + n] == s[i + 1..i + 1 + n]
  {
    var a, b := s[1..][i..i + n], s[i + 1..i + 1 + n];
    assert forall k :: 0 <= k < |a| ==> a[k] == b[k];
  }

  /** The four declared provider constants. Go's `Provider` is a string type,
      so a `Config` carries the raw tag and this is what a tag may name. */
  datatype Provider = OpenAI | DeepSeek | Qwen | Azure {
    function Tag(): string {
      match this
      case OpenAI => "openai"
      case DeepSeek => "deepseek"
      case Qwen => "qwen"
      case Azure => "azure"
    }
  }

  /** The declared constant a tag names, if any. */
  function ParseProvider(tag: string): (p: Option<Provider>)
    ensures p.Some? ==> p.value.Tag() == tag
    ensures p.None? ==> forall q: Provider :: q.Tag() != tag
  {
    if tag == "openai" then Some(OpenAI)
    else if tag == "deepseek" then Some(DeepSeek)
    else if tag == "qwen" then Some(Qwen)
    else if tag == "azure" then Some(Azure)
    else None
  }

  /** Each provider's tag parses back to it, and `cohere` names no provider. */
  lemma ProviderTagsRoundTrip()
    ensures forall p: Provider :: ParseProvider(p.Tag()) == Some(p)
    ensures ParseProvider("cohere") == None
  {
  }

  /** The four declared role constants and their wire strings. */
  datatype MessageRole = System | User | Assistant | Function {
    function Tag(): string {
      match this
      case System => "system"
      case User => "user"
      case Assistant => "assistant"
      case Function => "function"
    }
  }

  /** The role a wire string names, if any. */
  function ParseRole(tag: string): (r: Option<MessageRole>)
    ensures r.Some? ==> r.value.Tag() == tag
    ensures r.None? ==> forall q: MessageRole :: q.Tag() != tag
  {
    if tag == "system" then Some(System)
    else if tag == "user" then Some(User)
    else if tag == "assistant" then Some(Assistant)
    else if tag == "function" then Some(Function)
    else None
  }

  /** Each role's wire string parses back to it: the four strings are distinct. */
  lemma RoleTagsRoundTrip()
    ensures forall r: MessageRole :: ParseRole(r.Tag()) == Some(r)
  {
  }

  /** `name` is serialised only when non-empty (`omitempty`); the empty string means "no name". */
  datatype Message = Message(role: MessageRole, content: string, name: string)

  /** The tuning fields are Go pointers: `None` is "unset", distinct from zero or "". */
  datatype Request = Request(
    messages: seq<Message>,
    systemPrompt: string,
    temperature: Option<Float64>,
    maxTokens: Option<Int64>,
    topP: Option<Float64>,
    topK: Option<Int64>,
    stream: bool,
    extraParams: map<string, Json>,
    model: Option<string>)

  /** The zero `Request{}`. */
  const EmptyRequest := Request([], "", None, None, None, None, false, map[], None)

  /** `role` is the wire string: OpenAI and Azure copy whatever the server sent. */
  datatype Response = Response(content: string, role: string, tokensUsed: Int64, finishReason: string)

  /** The `Default*` tuning fields are optional in the same way as on `Request`. */
  datatype Config = Config(
    provider: string,
    apiKey: string,
    baseUrl: string,
    timeout: Duration,
    defaultModel: string,
    defaultTemperature: Option<Float64>,
    defaultMaxTokens: Option<Int64>,
    defaultTopP: Option<Float64>,
    defaultTopK: Option<Int64>,
    extraConfig: map<string, Json>)

  datatype EmbeddingRequest = EmbeddingRequest(input: seq<string>, model: Option<string>)

  datatype EmbeddingResponse = EmbeddingResponse(embeddings: seq<seq<Float64>>, model: string, tokensUsed: Int64)

  /** Every error the core returns. `embedding` selects the wording of the
      embedding call ("failed to send embedding request", ...). */
  datatype Error =
    | MissingApiKey
    | MissingBaseUrl
    | MissingDeployment
    | UnsupportedProvider(tag: string)
    | EmbeddingsNotSupported
    | MarshalFailed(embedding: bool)
    | CreateFailed(embedding: bool, cause: string)
    | SendFailed(embedding: bool, cause: string)
    | ReadFailed(embedding: bool, cause: string)
    | ApiError(api: string, status: int, body: string)
    | UnmarshalFailed(embedding: bool, cause: string)
    | NoChoices(where: string)
    | NoEmbeddings
  {
    /** The text of the Go error. A marshal failure's wrapped library cause is not modelled. */
    function Text(): (t: string)
      ensures ApiError? ==> StartsWith(t, api + " API error " + Decimal(status) + ": ")
      ensures ApiError? ==> EndsWith(t, body)
      ensures ApiError? ==> |t| == |api + " API error " + Decimal(status) + ": "| + |body|
      ensures UnsupportedProvider? ==> EndsWith(t, tag)
    {
      match this
      case MissingApiKey => "API key is required"
      case MissingBaseUrl => "base URL is required for Azure OpenAI"
      case MissingDeployment => "Azure OpenAI URL must include deployment name: /deployments/<deployment-name>"
      case UnsupportedProvider(tag) => "unsupported LLM provider: " + tag
      case EmbeddingsNotSupported => "embeddings not supported for Azure provider yet"
      case MarshalFailed(e) => "failed to marshal " + Subject(e, "request")
      case CreateFailed(e, cause) => "failed to create " + Subject(e, "request") + ": " + cause
      case SendFailed(e, cause) => "failed to send " + Subject(e, "request") + ": " + cause
      case ReadFailed(e, cause) => "failed to read " + Subject(e, "response") + ": " + cause
      case ApiError(api, status, body) => api + " API error " + Decimal(status) + ": " + body
      case UnmarshalFailed(e, cause) => "failed to unmarshal " + Subject(e, "response") + ": " + cause
      case NoChoices(where) => "no choices in " + where
      case NoEmbeddings => "no embeddings in response"
    }
  }

  predicate StartsWith(t: string, prefix: string) {
    |prefix| <= |t| && t[..|prefix|] == prefix
  }

  predicate EndsWith(t: string, suffix: string) {
    |suffix| <= |t| && t[|t| - |suffix|..] == suffix
  }

  function Subject(embedding: bool, noun: string): string {
    if embedding then "embedding " + noun else noun
  }

  /** The number a string of decimal digits spells, most significant first. */
  function DigitsValue(s: string): int
    decreases |s|
  {
    if |s| == 0 then 0 else DigitsValue(s[..|s| - 1]) * 10 + (s[|s| - 1] as int - '0' as int)
  }

  /** The number a `%d` rendering spells: an optional '-' and then digits. */
  function DecimalValue(s: string): int {
    if 0 < |s| && s[0] == '-' then -DigitsValue(s[1..]) else DigitsValue(s)
  }

  /** `%d`: a leading '-' exactly when negative, then the digits of |n|. */
  function Decimal(n: int): (s: string)
    ensures 0 < |s|
    ensures n >= 0 <==> s[0] != '-'
    ensures DecimalValue(s) == n
    ensures var d := if n < 0 then s[1..] else s;
      && 0 < |d|
      && (forall i :: 0 <= i < |d| ==> '0' <= d[i] <= '9')
      && (d[0] != '0' || |d| == 1)
  {
    if n < 0 then
      var s := "-" + Digits(-n);
      assert s[1..] == Digits(-n);
      s
    else Digits(n)
  }

  /** The decimal digits of `n`, without leading zeros. */
  function Digits(n: nat): (s: string)
    ensures 0 < |s|
    ensures forall i :: 0 <= i < |s| ==> '0' <= s[i] <= '9'
    ensures s[0] != '0' || |s| == 1
    ensures DigitsValue(s) == n
    decreases n
  {
    var d := ['0' + (n % 10) as char];
    if n < 10 then d
    else
      var s := Digits(n / 10) + d;
      assert s[..|s| - 1] == Digits(n / 10);
      s
  }
}
