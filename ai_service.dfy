/** `lib/ai-service.ts`: the model catalogue and the part of
    `generateResponse` around the DeepSeek call: looking the model up,
    resolving the token budget, assembling the messages and shaping the
    result. The completion itself, or the error it throws, is an input. */
module AIService {
  import opened Basics
  import opened ChatTypes

  datatype AIModel = AIModel(id: string, name: string, description: string, maxTokens: Option<nat>)

  const DeepSeekChat := AIModel("deepseek-chat", "DeepSeek Chat",
                                "DeepSeek V3 model for text generation and conversational AI", Some(2048))

  /** `AIService.MODELS`: DeepSeek Chat only. */
  const Models: seq<AIModel> := [DeepSeekChat]

  const ServiceSystemPrompt := "You are a helpful assistant."
  const DefaultMaxTokens: nat := 2048
  const NoResponse := "No response generated"
  const Provider := "deepseek"

  /** `models.find(m => m.id === id)`: the first entry with that id. */
  function Find(models: seq<AIModel>, id: string): (r: Option<AIModel>)
    ensures r.None? <==> forall i :: 0 <= i < |models| ==> models[i].id != id
    ensures r.Some? ==> exists i :: 0 <= i < |models| && models[i] == r.value
                           && forall j :: 0 <= j < i ==> models[j].id != id
    ensures r.Some? ==> r.value.id == id
  {
    if models == [] then None
    else if models[0].id == id then Some(models[0])
    else
      var r := Find(models[1..], id);
      assert r.Some? ==> exists i :: 0 <= i < |models| && models[i] == r.value
                            && forall j :: 0 <= j < i ==> models[j].id != id by {
        if r.Some? {
          var i :| 0 <= i < |models[1..]| && models[1..][i] == r.value
                   && forall j :: 0 <= j < i ==> models[1..][j].id != id;
          forall j | 0 <= j < i + 1 ensures models[j].id != id {
            if j > 0 { assert models[j] == models[1..][j - 1]; }
          }
          assert models[i + 1] == r.value;
        }
      }
      r
  }

  /** `getAvailableModels()`. */
  function GetAvailableModels(): (ms: seq<AIModel>)
    ensures |ms| == 1 && ms[0].id == "deepseek-chat" && ms[0].maxTokens == Some(2048)
  {
    Models
  }

  /** `getModelById(id)`: the catalogue entry, which exists only for
      "deepseek-chat". */
  function GetModelById(id: string): (r: Option<AIModel>)
    ensures r.Some? <==> id == "deepseek-chat"
    ensures r.Some? ==> r.value == DeepSeekChat
  {
    Find(Models, id)
  }

  datatype GenerateOptions = GenerateOptions(maxTokens: Option<nat>)

  /** The budget: an explicit option, even 0, wins; then the model's own
      budget if non-zero; then 2048. */
  function ResolveMaxTokens(model: AIModel, options: GenerateOptions): (n: nat)
    ensures options.maxTokens.Some? ==> n == options.maxTokens.value
    ensures options.maxTokens.None? && model.maxTokens.Some? && model.maxTokens.value != 0 ==> n == model.maxTokens.value
    ensures options.maxTokens.None? && (model.maxTokens.None? || model.maxTokens.value == 0) ==> n == DefaultMaxTokens
  {
    match options.maxTokens
    case Some(n) => n
    case None => if model.maxTokens.Some? && model.maxTokens.value != 0 then model.maxTokens.value else DefaultMaxTokens
  }

  /** The DeepSeek request. */
  datatype DeepSeekRequest = DeepSeekRequest(messages: seq<Turn>, model: string, maxTokens: nat)

  function NotSupported(modelId: string): string {
    "Model " + modelId + " not found or not supported (only DeepSeek is allowed)"
  }

  /** Everything before the call: an unknown model is refused before any
      request exists. */
  function PrepareRequest(modelId: string, messages: seq<Turn>, options: GenerateOptions): (r: Result<DeepSeekRequest, string>)
    ensures r.Err? <==> GetModelById(modelId).None?
    ensures r.Err? ==> r.error == NotSupported(modelId)
    ensures r.Ok? ==>
              && |r.value.messages| == |messages| + 1
              && r.value.messages[0] == Turn("system", ServiceSystemPrompt)
              && r.value.messages[1..] == messages
              && r.value.model == "deepseek-chat"
              && r.value.maxTokens == ResolveMaxTokens(DeepSeekChat, options)
  {
    match Find(Models, modelId)
    case None => Err(NotSupported(modelId))
    case Some(model) =>
      Ok(DeepSeekRequest([Turn("system", ServiceSystemPrompt)] + messages, "deepseek-chat", ResolveMaxTokens(model, options)))
  }

  datatype Usage = Usage(promptTokens: Option<nat>, completionTokens: Option<nat>, totalTokens: Option<nat>)

  /** What the code reads of a completion: `choices[0]?.message?.content`,
      `model` and `usage`. */
  datatype Completion = Completion(content: Option<string>, model: string, usage: Option<Usage>)

  datatype AIResponse = AIResponse(content: string, model: string, provider: string, usage: Option<Usage>)

  /** `generateResponse`: the shaped result, or what it throws: a new
      `Error` for an unknown model, or the call's own error passed on. */
  function GenerateResponse(modelId: string, messages: seq<Turn>, options: GenerateOptions,
                            completion: Result<Completion, Thrown>): (r: Result<AIResponse, Thrown>)
    ensures PrepareRequest(modelId, messages, options).Err? ==> r.Err? && r.error.message == NotSupported(modelId)
    ensures PrepareRequest(modelId, messages, options).Ok? && completion.Err? ==> r == Err(completion.error)
    ensures r.Ok? <==> GetModelById(modelId).Some? && completion.Ok?
    ensures r.Ok? ==>
              && r.value.provider == Provider
              && r.value.model == completion.value.model
              && r.value.usage == completion.value.usage
              && (Truthy(completion.value.content) ==> r.value.content == completion.value.content.value)
              && (!Truthy(completion.value.content) ==> r.value.content == NoResponse)
  {
    match PrepareRequest(modelId, messages, options)
    case Err(e) => Err(Thrown(None, e, "Error: " + e))
    case Ok(_) =>
      match completion
      case Err(e) => Err(e)
      case Ok(c) => Ok(AIResponse(OrElse(c.content, NoResponse), c.model, Provider, c.usage))
  }
}
