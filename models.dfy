/**
 * The model configuration and the Bedrock client wrapper of the serverless
 * library: provider detection, the per-provider request body, the
 * per-provider reading of the reply's text and token usage, and the retry
 * loop of `invoke`. The Bedrock runtime itself is the parameter `call`.
 */
module Models {
  import opened Wrappers
  import opened Json
  import Text

  datatype ModelConfig = ModelConfig(modelId: string, provider: string, maxTokens: int, temperature: real)

  /** One entry of the capabilities file: the provider, and whether calls go through an inference profile ARN. */
  datatype Capability = Capability(provider: string, requiresProfile: bool, profileArn: Option<string>)

  type Capabilities = map<string, Capability>

  /** The dictionary `from_dict` reads; `model_id` is the one key it requires. */
  datatype ConfigData = ConfigData(modelId: string, provider: Option<string>, maxTokens: Option<int>, temperature: Option<real>)

  const DefaultMaxTokens: int := 200
  const DefaultTemperature: real := 0.7

  /** The part of a model id before its first '.', or "unknown" when the id has no '.'. */
  function ProviderPrefix(modelId: string): (p: string)
    ensures '.' !in modelId ==> p == "unknown"
    ensures '.' in modelId ==> '.' !in p && Text.StartsWith(modelId, p + ".")
  {
    var (head, tail) := Text.SplitOnce(modelId, '.');
    if tail.None? then "unknown"
    else
      assert modelId == head + "." + tail.value;
      assert modelId[..|head| + 1] == head + ".";
      head
  }

  /** `ModelConfig.from_dict`: the provider comes from the capabilities file, else from the data, else from the id's prefix. */
  function FromDict(data: ConfigData, caps: Capabilities): (c: ModelConfig)
    ensures c.modelId == data.modelId
    ensures data.modelId in caps ==> c.provider == caps[data.modelId].provider
    ensures data.modelId !in caps && data.provider.Some? ==> c.provider == data.provider.value
    ensures data.modelId !in caps && data.provider.None? ==> c.provider == ProviderPrefix(data.modelId)
    ensures data.maxTokens.None? ==> c.maxTokens == DefaultMaxTokens
    ensures data.temperature.None? ==> c.temperature == DefaultTemperature
  {
    var provider :=
      if data.modelId in caps then caps[data.modelId].provider
      else if data.provider.Some? then data.provider.value
      else ProviderPrefix(data.modelId);
    ModelConfig(data.modelId, provider, data.maxTokens.GetOr(DefaultMaxTokens), data.temperature.GetOr(DefaultTemperature))
  }

  /** A bare model id with no capabilities entry takes its provider from its prefix and the default limits. */
  lemma FromDictDefaults(modelId: string, caps: Capabilities)
    requires modelId !in caps
    ensures var c := FromDict(ConfigData(modelId, None, None, None), caps);
      c.maxTokens == 200 && c.temperature == 0.7
      && ('.' in modelId ==> Text.StartsWith(modelId, c.provider + "."))
      && ('.' !in modelId ==> c.provider == "unknown")
  {
  }

  /** The providers the client knows how to talk to. */
  datatype Provider = Anthropic | Meta | Mistral | Amazon | Cohere | Ai21 | Qwen | DeepSeek | OpenAI

  function ProviderName(p: Provider): string {
    match p
    case Anthropic => "anthropic"
    case Meta => "meta"
    case Mistral => "mistral"
    case Amazon => "amazon"
    case Cohere => "cohere"
    case Ai21 => "ai21"
    case Qwen => "qwen"
    case DeepSeek => "deepseek"
    case OpenAI => "openai"
  }

  /** The `config.provider == "..."` comparisons of the client: which provider a name selects, if any. */
  function ParseProvider(name: string): Option<Provider> {
    match name
    case "anthropic" => Some(Anthropic)
    case "meta" => Some(Meta)
    case "mistral" => Some(Mistral)
    case "amazon" => Some(Amazon)
    case "cohere" => Some(Cohere)
    case "ai21" => Some(Ai21)
    case "qwen" => Some(Qwen)
    case "deepseek" => Some(DeepSeek)
    case "openai" => Some(OpenAI)
    case _ => None
  }

  /** A name selects a provider exactly when it is that provider's name. */
  lemma ParseProviderName(name: string, p: Provider)
    ensures ParseProvider(name) == Some(p) <==> name == ProviderName(p)
  {
  }

  function Num(n: int): Json { JNum(n as real) }

  function Obj1(k: string, v: Json): Json { JObj(map[k := v]) }

  function UserMessage(content: Json): Json {
    JObj(map["role" := JStr("user"), "content" := content])
  }

  function MistralPrompt(prompt: string): string { "<s>[INST] " + prompt + " [/INST]" }

  /** `_build_request_body`: the request each provider expects, or a ValueError for an unknown provider. */
  function BuildRequestBody(c: ModelConfig, prompt: string): (r: Result<Json, string>)
    ensures r.Ok? <==> ParseProvider(c.provider).Some?
    ensures r.Ok? ==> PromptOf(ParseProvider(c.provider).value, r.value) == Some(prompt)
    ensures r.Ok? ==> MaxTokensOf(ParseProvider(c.provider).value, r.value) == Some(c.maxTokens as real)
  {
    var chat := JObj(map[
      "messages" := JArr([UserMessage(JStr(prompt))]),
      "max_tokens" := Num(c.maxTokens),
      "temperature" := JNum(c.temperature)]);
    match ParseProvider(c.provider)
    case None => Err("Unknown provider: " + c.provider)
    case Some(Anthropic) =>
      Ok(JObj(map[
        "anthropic_version" := JStr("bedrock-2023-05-31"),
        "max_tokens" := Num(c.maxTokens),
        "temperature" := JNum(c.temperature),
        "messages" := JArr([UserMessage(JStr(prompt))])]))
    case Some(Meta) =>
      Ok(JObj(map[
        "prompt" := JStr(prompt),
        "max_gen_len" := Num(c.maxTokens),
        "temperature" := JNum(c.temperature),
        "top_p" := JNum(0.9)]))
    case Some(Mistral) =>
      UnwrapMistral(prompt);
      Ok(JObj(map[
        "prompt" := JStr(MistralPrompt(prompt)),
        "max_tokens" := Num(c.maxTokens),
        "temperature" := JNum(c.temperature),
        "top_p" := JNum(0.9)]))
    case Some(Amazon) =>
      Ok(JObj(map[
        "messages" := JArr([UserMessage(JArr([Obj1("text", JStr(prompt))]))]),
        "inferenceConfig" := JObj(map[
          "maxTokens" := Num(c.maxTokens),
          "temperature" := JNum(c.temperature),
          "topP" := JNum(0.9)])]))
    case Some(Cohere) =>
      Ok(JObj(map[
        "message" := JStr(prompt),
        "max_tokens" := Num(c.maxTokens),
        "temperature" := JNum(c.temperature)]))
    case Some(Ai21) =>
      Ok(JObj(chat.fields["top_p" := JNum(0.9)]))
    case Some(Qwen) => Ok(chat)
    case Some(DeepSeek) => Ok(chat)
    case Some(OpenAI) => Ok(chat)
  }

  lemma UnwrapMistral(prompt: string)
    ensures var w := MistralPrompt(prompt);
      |w| >= 18 && w[..10] == "<s>[INST] " && w[|w| - 8..] == " [/INST]" && w[10..|w| - 8] == prompt
  {
  }

  /** The prompt a request body carries, read back the way each provider reads it. */
  function PromptOf(p: Provider, body: Json): Option<string> {
    var v :=
      match p
      case Meta => Field(body, "prompt")
      case Mistral => Field(body, "prompt")
      case Amazon =>
        var ms :- Field(body, "messages"); var m :- Item(ms, 0); var cs :- Field(m, "content");
        var c :- Item(cs, 0); Field(c, "text")
      case Cohere => Field(body, "message")
      case _ =>
        var ms :- Field(body, "messages"); var m :- Item(ms, 0); Field(m, "content");
    if v.Err? || !v.value.JStr? then None
    else if p != Mistral then Some(v.value.s)
    else
      var w := v.value.s;
      if |w| >= 18 && w[..10] == "<s>[INST] " && w[|w| - 8..] == " [/INST]" then Some(w[10..|w| - 8]) else None
  }

  /** The generation limit a request body carries. */
  function MaxTokensOf(p: Provider, body: Json): Option<real> {
    var m :=
      match p
      case Meta => Field(body, "max_gen_len")
      case Amazon => var ic :- Field(body, "inferenceConfig"); Field(ic, "maxTokens")
      case _ => Field(body, "max_tokens");
    if m.Ok? && m.value.JNum? then Some(m.value.n) else None
  }

  /** `s.strip()` on a value that must be a string. */
  function StripValue(j: Json): Result<string, string> {
    var s :- AsString(j); Ok(Text.Strip(s))
  }

  /** `_extract_text`: the reply's text, stripped, found where each provider puts it; an unknown provider is a ValueError. */
  function ExtractText(provider: string, data: Json): (r: Result<string, string>)
    ensures ParseProvider(provider).None? ==> r.Err?
  {
    match ParseProvider(provider)
    case None => Err("Unknown provider: " + provider)
    case Some(p) => ExtractTextFor(p, data)
  }

  /** The text a provider's reply carries, stripped; a reply without it where the code looks is an error. */
  function ExtractTextFor(p: Provider, data: Json): Result<string, string> {
    var v :- TextValue(p, data);
    StripValue(v)
  }

  /** The value each provider's branch of `_extract_text` calls `strip()` on. */
  function TextValue(p: Provider, data: Json): Result<Json, string> {
    match p
    case Anthropic =>
      var cs :- Field(data, "content"); var c :- Item(cs, 0); Field(c, "text")
    case Meta =>
      DictGet(data, "generation", JStr(""))
    case Mistral =>
      var os :- Field(data, "outputs"); var o :- Item(os, 0); Field(o, "text")
    case Amazon =>
      var out :- Field(data, "output"); var msg :- Field(out, "message"); var cs :- Field(msg, "content");
      var c :- Item(cs, 0); Field(c, "text")
    case Cohere =>
      Field(data, "text")
    case DeepSeek =>
      // a falsy content reads as the empty text, which strips to itself
      var chs :- Field(data, "choices"); var ch :- Item(chs, 0); var msg :- Field(ch, "message");
      var content :- DictGet(msg, "content", JNull);
      Ok(if Truthy(content) then content else JStr(""))
    case _ =>
      var chs :- Field(data, "choices"); var ch :- Item(chs, 0); var msg :- Field(ch, "message");
      Field(msg, "content")
  }

  /** A well-formed reply carrying `text`, shaped as each provider shapes it. */
  function ReplyWithText(p: Provider, text: string): Json {
    match p
    case Anthropic => Obj1("content", JArr([Obj1("text", JStr(text))]))
    case Meta => Obj1("generation", JStr(text))
    case Mistral => Obj1("outputs", JArr([Obj1("text", JStr(text))]))
    case Amazon => Obj1("output", Obj1("message", Obj1("content", JArr([Obj1("text", JStr(text))]))))
    case Cohere => Obj1("text", JStr(text))
    case _ => Obj1("choices", JArr([Obj1("message", Obj1("content", JStr(text)))]))
  }

  /** Reading the text back out of a well-formed reply gives the text, stripped, for every provider. */
  lemma ExtractTextOfReply(p: Provider, text: string)
    ensures ExtractText(ProviderName(p), ReplyWithText(p, text)) == Ok(Text.Strip(text))
  {
    ParseProviderName(ProviderName(p), p);
    ReadsReply(p, text);
  }

  /** Every provider's branch finds the text where that provider's reply puts it. */
  lemma ReadsReply(p: Provider, text: string)
    ensures TextValue(p, ReplyWithText(p, text)) == Ok(JStr(text))
  {
  }

  /** A DeepSeek reply whose content is null reads as the empty text. */
  lemma ExtractTextDeepSeekNull()
    ensures ExtractText("deepseek", Obj1("choices", JArr([Obj1("message", Obj1("content", JNull))]))) == Ok("")
  {
    var data := Obj1("choices", JArr([Obj1("message", Obj1("content", JNull))]));
    assert ParseProvider("deepseek") == Some(DeepSeek);
    assert TextValue(DeepSeek, data) == Ok(JStr(""));
    Text.StripEmpty();
  }

  datatype Usage = Usage(inputTokens: int, outputTokens: int)

  /** A token count as the code passes it on; a count that is not a whole number is outside the model. */
  function TokenCount(j: Json): Result<int, string> {
    if j.JNum? && j.n == j.n.Floor as real then Ok(j.n.Floor) else Err("token count is not an integer")
  }

  function UsageFrom(d: Json, inKey: string, outKey: string): Result<Usage, string> {
    var i :- DictGet(d, inKey, JNum(0.0));
    var o :- DictGet(d, outKey, JNum(0.0));
    var a :- TokenCount(i);
    var b :- TokenCount(o);
    Ok(Usage(a, b))
  }

  /** The providers whose replies report token usage. */
  predicate ReportsUsage(p: Provider) {
    p in {Anthropic, Amazon, Cohere, Qwen, DeepSeek, OpenAI}
  }

  /** `_extract_usage`: token usage where the provider reports it, zeros for every other provider name. */
  function ExtractUsage(provider: string, data: Json): (r: Result<Usage, string>)
    ensures (ParseProvider(provider).None? || !ReportsUsage(ParseProvider(provider).value)) ==> r == Ok(Usage(0, 0))
  {
    match ParseProvider(provider)
    case Some(Anthropic) | Some(Qwen) =>
      var u :- DictGet(data, "usage", JObj(map[])); UsageFrom(u, "input_tokens", "output_tokens")
    case Some(Amazon) =>
      var u :- DictGet(data, "usage", JObj(map[])); UsageFrom(u, "inputTokens", "outputTokens")
    case Some(Cohere) =>
      UsageFrom(data, "prompt_tokens", "generation_tokens")
    case Some(DeepSeek) | Some(OpenAI) =>
      var u :- DictGet(data, "usage", JObj(map[])); UsageFrom(u, "prompt_tokens", "completion_tokens")
    case _ => Ok(Usage(0, 0))
  }

  /** A reply reporting `a` input and `b` output tokens, under each reporting provider's field names. */
  function ReplyWithUsage(p: Provider, a: int, b: int): Json {
    match p
    case Amazon => Obj1("usage", JObj(map["inputTokens" := Num(a), "outputTokens" := Num(b)]))
    case Cohere => JObj(map["prompt_tokens" := Num(a), "generation_tokens" := Num(b)])
    case DeepSeek => Obj1("usage", JObj(map["prompt_tokens" := Num(a), "completion_tokens" := Num(b)]))
    case OpenAI => Obj1("usage", JObj(map["prompt_tokens" := Num(a), "completion_tokens" := Num(b)]))
    case _ => Obj1("usage", JObj(map["input_tokens" := Num(a), "output_tokens" := Num(b)]))
  }

  /** Every reporting provider's usage fields are read back as the counts they carry. */
  lemma ExtractUsageOfReply(p: Provider, a: int, b: int)
    requires ReportsUsage(p)
    ensures ExtractUsage(ProviderName(p), ReplyWithUsage(p, a, b)) == Ok(Usage(a, b))
  {
    ParseProviderName(ProviderName(p), p);
    match p
    case Amazon =>
      UsageFromCounts("inputTokens", "outputTokens", a, b);
    case Cohere =>
      UsageFromCounts("prompt_tokens", "generation_tokens", a, b);
    case DeepSeek =>
      UsageFromCounts("prompt_tokens", "completion_tokens", a, b);
    case OpenAI =>
      UsageFromCounts("prompt_tokens", "completion_tokens", a, b);
    case _ =>
      UsageFromCounts("input_tokens", "output_tokens", a, b);
  }

  /** Two whole-number counts under two distinct names are read back as they are. */
  lemma UsageFromCounts(inKey: string, outKey: string, a: int, b: int)
    requires inKey != outKey
    ensures UsageFrom(JObj(map[inKey := Num(a), outKey := Num(b)]), inKey, outKey) == Ok(Usage(a, b))
  {
    assert (a as real).Floor == a && (b as real).Floor == b;
  }

  /** What one `invoke_model` call does: return a reply, raise a ClientError, or raise anything else. */
  datatype RawCall = Returned(data: Json, latencyMs: real) | ClientError(message: string) | OtherError(message: string)

  /** The unified reply of `invoke`. */
  datatype Response = Response(text: string, latencyMs: real, inputTokens: int, outputTokens: int)

  datatype InvokeError =
    | BadRequest(message: string)       // ValueError from `_build_request_body`, raised before any attempt
    | ClientFailure(message: string)    // the last attempt's ClientError, re-raised
    | Raised(message: string)           // any other exception inside an attempt; it is not retried
    | RetriesExhausted(maxRetries: int) // the RuntimeError after the loop

  /** `str(e)` of what `invoke` raised. */
  function ErrorText(e: InvokeError): string {
    match e
    case RetriesExhausted(n) =>
      "Failed to invoke model after " + (if n < 0 then "-" + Text.NatToString(-n) else Text.NatToString(n)) + " attempts"
    case BadRequest(m) => m
    case ClientFailure(m) => m
    case Raised(m) => m
  }

  /** The id an attempt calls: the capability's profile ARN when it requires one, the model id otherwise. */
  function TargetId(c: ModelConfig, caps: Capabilities): Result<string, string> {
    if c.modelId in caps && caps[c.modelId].requiresProfile then
      match caps[c.modelId].profileArn
      case Some(arn) => Ok(arn)
      case None => Err("'profile_arn'")
    else Ok(c.modelId)
  }

  /** An attempt either asks for a retry (after a ClientError) or settles the call. */
  datatype Step = Retry(message: string) | Done(result: Result<Response, InvokeError>)

  /** The reply `invoke` builds from a returned body; a malformed body raises, and that is not retried. */
  function Reply(provider: string, data: Json, latency: real): Result<Response, InvokeError> {
    match ExtractText(provider, data)
    case Err(e) => Err(Raised(e))
    case Ok(text) =>
      match ExtractUsage(provider, data)
      case Err(e) => Err(Raised(e))
      case Ok(u) => Ok(Response(text, latency, u.inputTokens, u.outputTokens))
  }

  /** One pass through the body of the retry loop; `call(k, id, body)` is the runtime's answer to attempt `k`. */
  function Attempt(k: nat, c: ModelConfig, body: Json, caps: Capabilities, call: (nat, string, Json) -> RawCall): Step {
    match TargetId(c, caps)
    case Err(e) => Done(Err(Raised(e)))
    case Ok(id) =>
      match call(k, id, body)
      case ClientError(m) => Retry(m)
      case OtherError(m) => Done(Err(Raised(m)))
      case Returned(data, latency) => Done(Reply(c.provider, data, latency))
  }

  /** The outcome of the retry loop entered at attempt `k`, where `step(k)` is what attempt `k` does. */
  function RetryFrom(k: nat, maxRetries: int, step: nat -> Step): Result<Response, InvokeError>
    decreases if k < maxRetries then maxRetries - k else 0
  {
    if k >= maxRetries then Err(RetriesExhausted(maxRetries))
    else match step(k)
      case Done(r) => r
      case Retry(m) => if k == maxRetries - 1 then Err(ClientFailure(m)) else RetryFrom(k + 1, maxRetries, step)
  }

  /** How many attempts the loop from attempt `k` makes: it stops at the first that returns or raises, or after the last. */
  function AttemptsMade(k: nat, maxRetries: int, step: nat -> Step): (n: nat)
    ensures k < maxRetries ==> 1 <= n <= maxRetries - k
    ensures k >= maxRetries ==> n == 0
    decreases if k < maxRetries then maxRetries - k else 0
  {
    if k >= maxRetries then 0
    else match step(k)
      case Done(_) => 1
      case Retry(_) => if k == maxRetries - 1 then 1 else 1 + AttemptsMade(k + 1, maxRetries, step)
  }

  /** The attempts of one `invoke` call. */
  function Attempts(c: ModelConfig, body: Json, caps: Capabilities, call: (nat, string, Json) -> RawCall): nat -> Step {
    (k: nat) => Attempt(k, c, body, caps, call)
  }

  /** What `invoke` returns or raises. */
  function InvokeSpec(c: ModelConfig, prompt: string, maxRetries: int, caps: Capabilities, call: (nat, string, Json) -> RawCall): Result<Response, InvokeError> {
    match BuildRequestBody(c, prompt)
    case Err(e) => Err(BadRequest(e))
    case Ok(body) => RetryFrom(0, maxRetries, Attempts(c, body, caps, call))
  }

  /** How many model calls one `invoke` makes: none when the request body cannot be built. */
  function InvokeAttempts(c: ModelConfig, prompt: string, maxRetries: int, caps: Capabilities, call: (nat, string, Json) -> RawCall): nat {
    match BuildRequestBody(c, prompt)
    case Err(_) => 0
    case Ok(body) => AttemptsMade(0, maxRetries, Attempts(c, body, caps, call))
  }

  function Pow2(n: nat): (r: nat)
    ensures r >= 1
  {
    if n == 0 then 1 else 2 * Pow2(n - 1)
  }

  /**
   * `BedrockClient.invoke`. `sleeps` are the back-off delays in seconds, in
   * order: one before each retry, doubling from 2.
   */
  method Invoke(c: ModelConfig, prompt: string, maxRetries: int, caps: Capabilities, call: (nat, string, Json) -> RawCall)
    returns (r: Result<Response, InvokeError>, sleeps: seq<nat>)
    ensures r == InvokeSpec(c, prompt, maxRetries, caps, call)
    ensures forall i :: 0 <= i < |sleeps| ==> sleeps[i] == Pow2(i + 1)
    ensures |sleeps| < maxRetries || sleeps == []
    ensures var n := InvokeAttempts(c, prompt, maxRetries, caps, call); |sleeps| == if n == 0 then 0 else n - 1
  {
    var built := BuildRequestBody(c, prompt);
    if built.Err? {
      return Err(BadRequest(built.error)), [];
    }
    r, sleeps := RetryLoop(maxRetries, Attempts(c, built.value, caps, call));
  }

  /** The `for attempt in range(max_retries)` loop of `invoke`, once the request body is built. */
  method RetryLoop(maxRetries: int, step: nat -> Step) returns (r: Result<Response, InvokeError>, sleeps: seq<nat>)
    ensures r == RetryFrom(0, maxRetries, step)
    ensures forall i :: 0 <= i < |sleeps| ==> sleeps[i] == Pow2(i + 1)
    ensures |sleeps| < maxRetries || sleeps == []
    ensures var n := AttemptsMade(0, maxRetries, step); |sleeps| == if n == 0 then 0 else n - 1
  {
    sleeps := [];
    var attempt := 0;
    while attempt < maxRetries
      invariant attempt == 0 || attempt < maxRetries
      invariant RetryFrom(attempt, maxRetries, step) == RetryFrom(0, maxRetries, step)
      invariant |sleeps| == attempt && forall i :: 0 <= i < attempt ==> sleeps[i] == Pow2(i + 1)
      invariant AttemptsMade(0, maxRetries, step) == attempt + AttemptsMade(attempt, maxRetries, step)
      decreases maxRetries - attempt
    {
      var s := step(attempt);
      if s.Done? {
        return s.result, sleeps;
      }
      if attempt == maxRetries - 1 {
        return Err(ClientFailure(s.message)), sleeps;
      }
      sleeps := sleeps + [Pow2(attempt + 1)];
      attempt := attempt + 1;
    }
    r := Err(RetriesExhausted(maxRetries));
  }

  /** No single attempt settles the call with the loop's own RuntimeError. */
  ghost predicate NeverExhaustsAlone(step: nat -> Step) {
    forall j: nat :: step(j).Done? ==> !(step(j).result.Err? && step(j).result.error.RetriesExhausted?)
  }

  lemma AttemptsNeverExhaustAlone(c: ModelConfig, body: Json, caps: Capabilities, call: (nat, string, Json) -> RawCall)
    ensures NeverExhaustsAlone(Attempts(c, body, caps, call))
  {
    forall j: nat ensures Attempts(c, body, caps, call)(j) == Attempt(j, c, body, caps, call) {}
  }

  lemma {:induction false} NotExhaustedFrom(k: nat, maxRetries: int, step: nat -> Step)
    requires k < maxRetries && NeverExhaustsAlone(step)
    ensures !(RetryFrom(k, maxRetries, step).Err? && RetryFrom(k, maxRetries, step).error.RetriesExhausted?)
    decreases maxRetries - k
  {
    if step(k).Retry? && k != maxRetries - 1 {
      NotExhaustedFrom(k + 1, maxRetries, step);
    }
  }

  /** The RuntimeError after the loop is raised exactly when no attempt is made at all. */
  lemma RuntimeErrorIffNoAttempts(c: ModelConfig, prompt: string, maxRetries: int, caps: Capabilities, call: (nat, string, Json) -> RawCall)
    requires BuildRequestBody(c, prompt).Ok?
    ensures var r := InvokeSpec(c, prompt, maxRetries, caps, call);
      (r.Err? && r.error.RetriesExhausted?) <==> maxRetries <= 0
  {
    if maxRetries > 0 {
      AttemptsNeverExhaustAlone(c, BuildRequestBody(c, prompt).value, caps, call);
      NotExhaustedFrom(0, maxRetries, Attempts(c, BuildRequestBody(c, prompt).value, caps, call));
    }
  }

  /** Attempts from `k` on that all hit a ClientError end in the last one's ClientError. */
  lemma {:induction false} AllClientErrorsFrom(k: nat, maxRetries: int, step: nat -> Step)
    requires k < maxRetries
    requires forall j :: k <= j < maxRetries ==> step(j).Retry?
    ensures RetryFrom(k, maxRetries, step) == Err(ClientFailure(step(maxRetries - 1).message))
    decreases maxRetries - k
  {
    if k < maxRetries - 1 {
      AllClientErrorsFrom(k + 1, maxRetries, step);
    }
  }

  /** When every attempt raises a ClientError, `invoke` re-raises the last one. */
  lemma AllClientErrorsReRaiseLast(c: ModelConfig, prompt: string, maxRetries: int, caps: Capabilities, call: (nat, string, Json) -> RawCall)
    requires BuildRequestBody(c, prompt).Ok? && maxRetries > 0
    requires forall j :: 0 <= j < maxRetries ==> Attempt(j, c, BuildRequestBody(c, prompt).value, caps, call).Retry?
    ensures InvokeSpec(c, prompt, maxRetries, caps, call)
      == Err(ClientFailure(Attempt(maxRetries - 1, c, BuildRequestBody(c, prompt).value, caps, call).message))
  {
    AllClientErrorsFrom(0, maxRetries, Attempts(c, BuildRequestBody(c, prompt).value, caps, call));
  }

  /** A successful loop from attempt `k` on is the reply of some attempt whose predecessors all asked for a retry. */
  lemma {:induction false} SuccessFrom(k: nat, maxRetries: int, step: nat -> Step)
    requires RetryFrom(k, maxRetries, step).Ok?
    ensures exists a :: (k <= a < maxRetries && step(a) == Done(RetryFrom(k, maxRetries, step))
      && forall j :: k <= j < a ==> step(j).Retry?)
    decreases if k < maxRetries then maxRetries - k else 0
  {
    if step(k).Retry? {
      SuccessFrom(k + 1, maxRetries, step);
      var a :| k + 1 <= a < maxRetries && step(a) == Done(RetryFrom(k + 1, maxRetries, step))
        && forall j :: k + 1 <= j < a ==> step(j).Retry?;
      assert forall j :: k <= j < a ==> step(j).Retry?;
    } else {
      assert step(k) == Done(RetryFrom(k, maxRetries, step));
    }
  }

  /** A successful `invoke` returns the reply of an attempt within the budget, every earlier attempt having hit a ClientError. */
  lemma SuccessIsFirstNonRetriedAttempt(c: ModelConfig, prompt: string, maxRetries: int, caps: Capabilities, call: (nat, string, Json) -> RawCall)
    requires InvokeSpec(c, prompt, maxRetries, caps, call).Ok?
    ensures BuildRequestBody(c, prompt).Ok?
    ensures exists a :: (0 <= a < maxRetries
      && Attempt(a, c, BuildRequestBody(c, prompt).value, caps, call) == Done(InvokeSpec(c, prompt, maxRetries, caps, call))
      && forall j :: 0 <= j < a ==> Attempt(j, c, BuildRequestBody(c, prompt).value, caps, call).Retry?)
  {
    var body := BuildRequestBody(c, prompt).value;
    var step := Attempts(c, body, caps, call);
    SuccessFrom(0, maxRetries, step);
    var a :| 0 <= a < maxRetries && step(a) == Done(RetryFrom(0, maxRetries, step)) && forall j :: 0 <= j < a ==> step(j).Retry?;
    assert step(a) == Attempt(a, c, body, caps, call);
    forall j | 0 <= j < a ensures Attempt(j, c, body, caps, call).Retry? {
      assert step(j) == Attempt(j, c, body, caps, call);
    }
  }
}
