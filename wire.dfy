/**
 * What the four adapters share around the HTTP round trip: the outgoing
 * request, the outcome of sending it, the status/decode checks every
 * `Generate` performs in the same order, the request > config precedence of
 * the tuning fields, and the `ExtraParams` loop that closes every payload.
 *
 * The transport itself (`http.NewRequestWithContext`, `httpClient.Do`,
 * `io.ReadAll`, `json.Unmarshal`) is a parameter: a function from the
 * request the adapter prepares to what came back.
 */
module Wire {
  import opened Wrappers
  import opened Json
  import opened Types

  /** One POST: URL, headers as set with `Header.Set`, and the JSON payload. */
  datatype HttpRequest = HttpRequest(url: string, headers: map<string, string>, body: Json)

  datatype ChoiceMessage = ChoiceMessage(role: string, content: string)
  datatype Choice = Choice(message: ChoiceMessage, finishReason: string)
  datatype Usage = Usage(promptTokens: Int64, completionTokens: Int64, totalTokens: Int64)
  datatype BilledUnits = BilledUnits(inputTokens: Int64, outputTokens: Int64)

  /** A response body as `json.Unmarshal` leaves the adapters' anonymous
      structs: every field some adapter reads, Go's zero value where the body
      has none. `choices`/`usage` are read by OpenAI, Azure and Qwen; `text`,
      `finishReason` and `billedUnits` by Cohere's chat; `embeddings` and
      `billedUnits.inputTokens` by Cohere's embed call. */
  datatype Reply = Reply(
    choices: seq<Choice>,
    usage: Usage,
    text: string,
    finishReason: string,
    billedUnits: BilledUnits,
    embeddings: seq<seq<Float64>>)

  /** What one round trip produced. `decoded` is the body after
      `json.Unmarshal`: `Failure(cause)` when it does not parse. */
  datatype HttpOutcome =
    | NotCreated(cause: string)
    | NotSent(cause: string)
    | NotRead(cause: string)
    | Received(status: int, body: string, decoded: Result<Reply, string>)

  type Transport = HttpRequest -> HttpOutcome

  predicate IsSuccessStatus(status: int) {
    200 <= status < 300
  }

  /** The checks every call makes after the round trip, in the source's order:
      transport failures, then a status outside [200, 300) (an error carrying
      the code and the body), then a body that does not decode. */
  function ReadReply(outcome: HttpOutcome, api: string, embedding: bool): (r: Result<Reply, Error>)
    ensures r.Success? <==> outcome.Received? && IsSuccessStatus(outcome.status) && outcome.decoded.Success?
    ensures r.Success? ==> r.value == outcome.decoded.value
    ensures outcome.Received? && !IsSuccessStatus(outcome.status) ==>
              r == Failure(ApiError(api, outcome.status, outcome.body))
    ensures outcome.NotCreated? ==> r == Failure(CreateFailed(embedding, outcome.cause))
    ensures outcome.NotSent? ==> r == Failure(SendFailed(embedding, outcome.cause))
    ensures outcome.NotRead? ==> r == Failure(ReadFailed(embedding, outcome.cause))
    ensures outcome.Received? && IsSuccessStatus(outcome.status) && outcome.decoded.Failure? ==>
              r == Failure(UnmarshalFailed(embedding, outcome.decoded.error))
  {
    match outcome
    case NotCreated(cause) => Failure(CreateFailed(embedding, cause))
    case NotSent(cause) => Failure(SendFailed(embedding, cause))
    case NotRead(cause) => Failure(ReadFailed(embedding, cause))
    case Received(status, body, decoded) =>
      if status < 200 || status >= 300 then Failure(ApiError(api, status, body))
      else if decoded.Failure? then Failure(UnmarshalFailed(embedding, decoded.error))
      else Success(decoded.value)
  }

  /** The one step shared by every call once the payload is built: a payload
      `json.Marshal` refuses fails before anything is sent; otherwise the
      outcome of the round trip goes through `ReadReply`. */
  function Exchange(out: HttpRequest, transport: Transport, api: string, embedding: bool): (r: Result<Reply, Error>)
    ensures !Encodable(out.body) ==> r == Failure(MarshalFailed(embedding))
    ensures Encodable(out.body) ==> r == ReadReply(transport(out), api, embedding)
  {
    if !Encodable(out.body) then Failure(MarshalFailed(embedding))
    else ReadReply(transport(out), api, embedding)
  }

  /** The OpenAI-shaped mapping used by the OpenAI and Azure adapters: zero
      choices is an error; otherwise content, role and finish reason come from
      the first choice and the token count is `usage.total_tokens`. */
  function FirstChoice(reply: Reply, noChoices: string): (r: Result<Response, Error>)
    ensures r.Failure? <==> |reply.choices| == 0
    ensures r.Failure? ==> r.error == NoChoices(noChoices)
    ensures r.Success? ==>
              && r.value.content == reply.choices[0].message.content
              && r.value.role == reply.choices[0].message.role
              && r.value.finishReason == reply.choices[0].finishReason
              && r.value.tokensUsed == reply.usage.totalTokens
  {
    if |reply.choices| == 0 then Failure(NoChoices(noChoices))
    else
      var choice := reply.choices[0];
      Success(Response(choice.message.content, choice.message.role, reply.usage.totalTokens, choice.finishReason))
  }

  /** `[]map[string]interface{}` as a JSON array. */
  function Objects(ms: seq<map<string, Json>>): (js: seq<Json>)
    ensures |js| == |ms|
    ensures forall i :: 0 <= i < |ms| ==> js[i] == JObject(ms[i])
  {
    seq(|ms|, i requires 0 <= i < |ms| => JObject(ms[i]))
  }

  /** A tuning value: the request's own when it sets one, else the
      configuration's default, else nothing. */
  function Pick<T>(fromRequest: Option<T>, fromConfig: Option<T>): (r: Option<T>)
    ensures r.Some? <==> fromRequest.Some? || fromConfig.Some?
    ensures fromRequest.Some? ==> r == fromRequest
    ensures fromRequest.None? ==> r == fromConfig
  {
    if fromRequest.Some? then fromRequest else fromConfig
  }

  function FloatParam(v: Option<Float64>): Option<Json> {
    match v
    case Some(f) => Some(JFloat(f))
    case None => None
  }

  function IntParam(v: Option<Int64>): Option<Json> {
    match v
    case Some(n) => Some(JInt(n))
    case None => None
  }

  /** `key` is in the payload exactly when `v` is set, and holds its value. */
  predicate Carries(p: map<string, Json>, key: string, v: Option<Json>) {
    && (key in p <==> v.Some?)
    && (v.Some? ==> key in p && p[key] == v.value)
  }

  /** The one-key map a conditional `payload[key] = ...` contributes. */
  function Optional(key: string, v: Option<Json>): (m: map<string, Json>)
    ensures key in m <==> v.Some?
    ensures m.Keys <= {key}
    ensures v.Some? ==> m[key] == v.value
  {
    if v.Some? then map[key := v.value] else map[]
  }

  /** A conditional insert is a union with the one-key map. */
  lemma InsertOptional(m: map<string, Json>, key: string, v: Option<Json>)
    ensures (if v.Some? then m[key := v.value] else m) == m + Optional(key, v)
  {
  }

  /** A conditional insert after a fixed head extends the tail that follows it. */
  lemma InsertOptionalAfter(head: map<string, Json>, tail: map<string, Json>, key: string, v: Option<Json>)
    ensures (if v.Some? then (head + tail)[key := v.value] else head + tail) == head + (tail + Optional(key, v))
  {
  }

  /** Three layers of keys written one after the other: a key takes the
      value of the last layer that has it. */
  lemma LayeredUnion(head: map<string, Json>, tuning: map<string, Json>, extra: map<string, Json>)
    ensures (head + tuning + extra).Keys == head.Keys + tuning.Keys + extra.Keys
    ensures forall k :: k in extra ==> (head + tuning + extra)[k] == extra[k]
    ensures forall k :: k in tuning && k !in extra ==> (head + tuning + extra)[k] == tuning[k]
    ensures forall k :: k in head && k !in tuning && k !in extra ==> (head + tuning + extra)[k] == head[k]
  {
  }

  /** The optional float is absent or finite. */
  predicate FiniteParam(v: Option<Float64>) {
    v.Some? ==> v.value.IsFinite()
  }

  predicate EncodableValues(m: map<string, Json>) {
    forall k :: k in m ==> Encodable(m[k])
  }

  /** An object marshals when each of its layers does. */
  lemma LayeredEncodable(head: map<string, Json>, tuning: map<string, Json>, extra: map<string, Json>)
    requires EncodableValues(head) && EncodableValues(tuning) && EncodableValues(extra)
    ensures Encodable(JObject(head + tuning + extra))
  {
    LayeredUnion(head, tuning, extra);
  }

  /** An array of string-valued objects always marshals. */
  lemma ObjectsEncodable(ms: seq<map<string, Json>>)
    requires forall i, k :: 0 <= i < |ms| && k in ms[i] ==> ms[i][k].JString?
    ensures Encodable(JArray(Objects(ms)))
  {
    var items := Objects(ms);
    forall i | 0 <= i < |items|
      ensures Encodable(items[i])
    {
      assert items[i] == JObject(ms[i]);
    }
  }

  /** The `ExtraParams` loop: every extra key lands in the payload and
      overwrites a built key of the same name. */
  method ApplyExtraParams(payload: map<string, Json>, extra: map<string, Json>) returns (r: map<string, Json>)
    ensures r.Keys == payload.Keys + extra.Keys
    ensures forall k :: k in extra ==> r[k] == extra[k]
    ensures forall k :: k in payload && k !in extra ==> r[k] == payload[k]
    ensures r == payload + extra
  {
    r := payload;
    var pending := extra.Keys;
    while pending != {}
      invariant pending <= extra.Keys
      invariant r.Keys == payload.Keys + (extra.Keys - pending)
      invariant forall k :: k in extra && k !in pending ==> r[k] == extra[k]
      invariant forall k :: k in payload && (k !in extra || k in pending) ==> r[k] == payload[k]
      decreases pending
    {
      var k :| k in pending;
      r := r[k := extra[k]];
      pending := pending - {k};
    }
    assert r.Keys == (payload + extra).Keys;
  }
}
