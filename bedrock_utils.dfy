/**
 * The unified Bedrock call of the phase-one evaluation: a model id is mapped
 * to its US inference profile when it needs one, and the call goes to the
 * provider whose name first occurs in the id.
 */
module BedrockUtils {
  import opened Wrappers
  import Text

  /** Model ids that Bedrock serves only through a US inference profile. */
  const InferenceProfileModels: seq<string> := [
    "anthropic.claude-3-opus-20240229-v1:0",
    "anthropic.claude-3-sonnet-20240229-v1:0",
    "anthropic.claude-3-haiku-20240307-v1:0",
    "anthropic.claude-3-5-sonnet-20241022-v2:0",
    "anthropic.claude-3-5-sonnet-20240620-v1:0",
    "anthropic.claude-3-5-haiku-20241022-v1:0",
    "anthropic.claude-3-7-sonnet-20250219-v1:0",
    "anthropic.claude-sonnet-4-20250514-v1:0",
    "anthropic.claude-opus-4-20250514-v1:0",
    "anthropic.claude-opus-4-1-20250805-v1:0",
    "anthropic.claude-haiku-4-5-20251001-v1:0",
    "anthropic.claude-sonnet-4-5-20250929-v1:0",
    "meta.llama3-1-8b-instruct-v1:0",
    "meta.llama3-1-70b-instruct-v1:0",
    "meta.llama3-2-1b-instruct-v1:0",
    "meta.llama3-2-3b-instruct-v1:0",
    "meta.llama3-2-11b-instruct-v1:0",
    "meta.llama3-2-90b-instruct-v1:0",
    "meta.llama3-3-70b-instruct-v1:0",
    "meta.llama4-scout-17b-instruct-v1:0",
    "meta.llama4-maverick-17b-instruct-v1:0",
    "amazon.nova-micro-v1:0",
    "amazon.nova-lite-v1:0",
    "amazon.nova-pro-v1:0",
    "amazon.nova-premier-v1:0",
    "deepseek.r1-v1:0",
    "mistral.pixtral-large-2502-v1:0"
  ]

  const ProfilePrefix: string := "us."

  /** `_get_inference_profile_id`: the "us." profile for a listed model, the id itself otherwise. */
  function InferenceProfileId(modelId: string): (r: string)
    ensures modelId in InferenceProfileModels ==> r == ProfilePrefix + modelId
    ensures modelId !in InferenceProfileModels ==> r == modelId
  {
    if modelId in InferenceProfileModels then ProfilePrefix + modelId else modelId
  }

  /** No listed id begins with 'u', so no profile id is itself listed. */
  lemma ListedIdsDoNotStartWithU()
    ensures forall m :: m in InferenceProfileModels ==> |m| > 0 && m[0] != 'u'
  {
  }

  /** Mapping a model id twice is the same as mapping it once. */
  lemma InferenceProfileIdIdempotent(modelId: string)
    ensures InferenceProfileId(InferenceProfileId(modelId)) == InferenceProfileId(modelId)
  {
    if modelId in InferenceProfileModels {
      var p := ProfilePrefix + modelId;
      ListedIdsDoNotStartWithU();
      assert p[0] == 'u';
      assert p !in InferenceProfileModels;
    }
  }

  /** The provider-specific request bodies and reply readers the call can go to. */
  datatype Provider = Anthropic | Meta | Mistral | Amazon | Cohere | AI21 | DeepSeek | Qwen | OpenAI

  /** One branch of the dispatch: the names that select it, and the provider it calls. */
  datatype Route = Route(names: seq<string>, provider: Provider)

  /** The branches in the order they are tried; Amazon answers to "amazon" and to "nova". */
  const Routes: seq<Route> := [
    Route(["anthropic"], Anthropic),
    Route(["meta"], Meta),
    Route(["mistral"], Mistral),
    Route(["amazon", "nova"], Amazon),
    Route(["cohere"], Cohere),
    Route(["ai21"], AI21),
    Route(["deepseek"], DeepSeek),
    Route(["qwen"], Qwen),
    Route(["openai"], OpenAI)
  ]

  /** Whether any of the route's names occurs in the model id. */
  predicate Selects(route: Route, modelId: string) {
    exists k :: 0 <= k < |route.names| && Text.Contains(modelId, route.names[k])
  }

  /** The index of the first route from `i` on that selects the model id. */
  function FirstRoute(modelId: string, routes: seq<Route>, i: nat): (r: Option<nat>)
    requires i <= |routes|
    ensures r.Some? ==> i <= r.value < |routes| && Selects(routes[r.value], modelId)
    ensures r.Some? ==> forall j :: i <= j < r.value ==> !Selects(routes[j], modelId)
    ensures r.None? <==> forall j :: i <= j < |routes| ==> !Selects(routes[j], modelId)
    decreases |routes| - i
  {
    if i == |routes| then None
    else if Selects(routes[i], modelId) then Some(i)
    else FirstRoute(modelId, routes, i + 1)
  }

  /** The provider branch of `call_bedrock_model`, or the ValueError it raises for an unknown provider. */
  function Dispatch(modelId: string): (r: Result<Provider, string>)
    ensures r.Ok? <==> exists j :: 0 <= j < |Routes| && Selects(Routes[j], modelId)
    ensures r.Ok? ==>
      (exists j :: 0 <= j < |Routes| && Selects(Routes[j], modelId) && r.value == Routes[j].provider
         && forall i :: 0 <= i < j ==> !Selects(Routes[i], modelId))
    ensures r.Err? ==> r.error == "ValueError: Unsupported model provider in: " + modelId
  {
    match FirstRoute(modelId, Routes, 0)
    case Some(j) => Ok(Routes[j].provider)
    case None => Err("ValueError: Unsupported model provider in: " + modelId)
  }

  /**
   * `call_bedrock_model`: the provider is chosen from the id as given, the
   * call goes to that provider's reader with the inference profile id.
   * `call` stands for the provider readers and the Bedrock client; it gives
   * the stripped reply text or the exception raised.
   */
  function CallBedrockModel(modelId: string, prompt: string, maxTokens: int, temperature: real,
                            call: (Provider, string, string, int, real) -> Result<string, string>): (r: Result<string, string>)
    ensures Dispatch(modelId).Err? ==> r == Err(Dispatch(modelId).error)
    ensures Dispatch(modelId).Ok? ==>
      r == call(Dispatch(modelId).value, InferenceProfileId(modelId), prompt, maxTokens, temperature)
  {
    var provider :- Dispatch(modelId);
    call(provider, InferenceProfileId(modelId), prompt, maxTokens, temperature)
  }

  /** Any id naming Anthropic goes to the Anthropic reader, whatever else it names. */
  lemma AnthropicComesFirst(modelId: string)
    requires Text.Contains(modelId, "anthropic")
    ensures Dispatch(modelId) == Ok(Anthropic)
  {
    assert Selects(Routes[0], modelId) by { assert Routes[0].names[0] == "anthropic"; }
  }

  /** A Nova model id goes to the Amazon reader unless an earlier provider's name occurs in it. */
  lemma NovaGoesToAmazon(modelId: string)
    requires Text.Contains(modelId, "nova")
    requires forall j :: 0 <= j < 3 ==> !Selects(Routes[j], modelId)
    ensures Dispatch(modelId) == Ok(Amazon)
  {
    assert Selects(Routes[3], modelId) by { assert Routes[3].names[1] == "nova"; }
  }

  /** A listed model is called through its profile id, with the provider its own id names. */
  lemma ListedModelCall(modelId: string, prompt: string, maxTokens: int, temperature: real,
                        call: (Provider, string, string, int, real) -> Result<string, string>)
    requires modelId in InferenceProfileModels && Text.Contains(modelId, "anthropic")
    ensures CallBedrockModel(modelId, prompt, maxTokens, temperature, call)
         == call(Anthropic, "us." + modelId, prompt, maxTokens, temperature)
  {
    AnthropicComesFirst(modelId);
  }
}
