/** `app/api/chat/route.ts`: the `POST /api/chat` handler that forwards a
    message with its history to DeepSeek R1 through OpenRouter.

    The handler's decisions are the pure function `Respond`, from the parsed
    body (or the error parsing threw), the signed-in user (absent when the
    auth check fails, whose error the handler swallows), the environment, the
    upstream outcome, the index `Math.random` would pick and the clock
    reading that stamps the reply. `Post` adds the
    two writes to the store that the handler then attempts. */
module ChatRoute {
  import opened Basics
  import opened ChatTypes
  import opened Config
  import opened Conversations

  const SupportedModel := "deepseek/deepseek-r1:free"
  const Provider := "deepseek"
  const SystemPrompt := "You are a helpful assistant."
  const NoResponse := "No response generated."
  const MaxTokens: nat := 2048
  const MessageRequired := "Message is required"
  const KeyMissing := "OpenRouter/DeepSeek API key not configured."
  const InvalidKey := "Invalid API key. Please check your API configuration."
  const RateLimited := "Rate limit exceeded. Please try again later."
  const FallbackSuffix := " This is a fallback response. Please check your AI API configuration."
  const FallbackResponses: seq<string> := [
    "I'm having trouble connecting to my AI service right now, but I can still help with some basic responses.",
    "There seems to be a temporary issue with my AI connection. Let me provide a helpful response based on common knowledge.",
    "I'm experiencing some technical difficulties, but I'll do my best to assist you."
  ]

  /** The request body; absent fields are `None`. */
  datatype ChatBody = ChatBody(message: Option<string>, conversationId: Option<Id>,
                               conversationHistory: Option<seq<Turn>>, modelId: Option<string>)

  datatype Usage = Usage(promptTokens: nat, completionTokens: nat, totalTokens: nat)

  /** What the handler reads of a completion: `choices?.[0]?.message?.content`
      and `usage`. */
  datatype Completion = Completion(content: Option<string>, usage: Option<Usage>)

  /** The request made to OpenRouter. */
  datatype UpstreamCall = UpstreamCall(apiKey: string, model: string, messages: seq<Turn>, maxTokens: nat)

  datatype Body =
    | ErrorBody(error: string)
    | ErrorDetails(error: string, details: string)
    | Reply(response: string, timestamp: nat, model: string, provider: string, usage: Option<Usage>)
    | FallbackReply(response: string, timestamp: nat, fallback: bool, error: string)

  datatype Response = Response(status: nat, body: Body)

  /** The two messages the handler asks the store to save after a reply. */
  datatype PendingSave = PendingSave(conversationId: Id, userText: string, replyText: string)

  datatype Handled = Handled(response: Response, call: Option<UpstreamCall>, save: Option<PendingSave>)

  /** `modelId` with its destructuring default, which replaces only an absent
      field: an empty `modelId` stays empty. */
  function ModelIdOf(b: ChatBody): (id: string)
    ensures b.modelId.Some? ==> id == b.modelId.value
    ensures b.modelId.None? ==> id == SupportedModel
  {
    Default(b.modelId, SupportedModel)
  }

  /** The error of the unsupported-model answer. */
  function UnsupportedModel(id: string): string {
    "Model " + id + " not supported. Only DeepSeek-R1 is available."
  }

  /** `OPENROUTER_API_KEY || DEEPSEEK_API_KEY`, with an unset key read as "". */
  function ApiKeyOf(env: Env): (k: string)
    ensures Truthy(EnvVar(env, "OPENROUTER_API_KEY")) ==> k == env["OPENROUTER_API_KEY"]
    ensures !Truthy(EnvVar(env, "OPENROUTER_API_KEY")) ==> k == OrElse(EnvVar(env, "DEEPSEEK_API_KEY"), "")
    ensures k == "" <==> !Truthy(EnvVar(env, "OPENROUTER_API_KEY")) && !Truthy(EnvVar(env, "DEEPSEEK_API_KEY"))
  {
    OrElse(EnvVar(env, "OPENROUTER_API_KEY"), OrElse(EnvVar(env, "DEEPSEEK_API_KEY"), ""))
  }

  /** `error?.message || error?.toString()`: the message unless it is empty,
      then the rendered error; empty only when both are. */
  function Details(e: Thrown): (d: string)
    ensures e.message != "" ==> d == e.message
    ensures e.message == "" ==> d == e.text
    ensures d == "" <==> e.message == "" && e.text == ""
  {
    if e.message != "" then e.message else e.text
  }

  /** The `catch` block: 401 and 429 keep their status; anything else becomes
      a fallback reply, stamped with the clock reading `now`, that still
      reports the error. */
  function CaughtResponse(e: Thrown, pick: nat, now: nat): (r: Response)
    requires pick < |FallbackResponses|
    ensures e.status == Some(401) ==> r == Response(401, ErrorDetails(InvalidKey, Details(e)))
    ensures e.status == Some(429) ==> r == Response(429, ErrorDetails(RateLimited, Details(e)))
    ensures e.status != Some(401) && e.status != Some(429) ==>
              && r.status == 200 && r.body.FallbackReply? && r.body.fallback
              && r.body.error != ""
              && |r.body.response| >= |FallbackSuffix|
              && r.body.response[|r.body.response| - |FallbackSuffix|..] == FallbackSuffix
    ensures e.status != Some(401) && e.status != Some(429) ==>
              && r.body.response == FallbackResponses[pick] + FallbackSuffix
              && r.body.timestamp == now
              && (Details(e) != "" ==> r.body.error == Details(e))
              && (Details(e) == "" ==> r.body.error == "Unknown error")
  {
    if e.status == Some(401) then Response(401, ErrorDetails(InvalidKey, Details(e)))
    else if e.status == Some(429) then Response(429, ErrorDetails(RateLimited, Details(e)))
    else
      var text := FallbackResponses[pick] + FallbackSuffix;
      assert text[|text| - |FallbackSuffix|..] == FallbackSuffix;
      Response(200, FallbackReply(text, now, true, if Details(e) != "" then Details(e) else "Unknown error"))
  }

  /** The handler's decisions, in its order: parse, message present, model
      supported, key configured, upstream call, save request, reply. `now`
      is the clock reading that stamps a reply. */
  function Respond(body: Result<ChatBody, Thrown>, user: Option<AuthUser>, env: Env,
                   upstream: Result<Completion, Thrown>, pick: nat, now: nat): (h: Handled)
    requires pick < |FallbackResponses|
    ensures body.Err? ==> h == Handled(CaughtResponse(body.error, pick, now), None, None)
    ensures body.Ok? && !Truthy(body.value.message) ==>
              h == Handled(Response(400, ErrorBody(MessageRequired)), None, None)
    ensures body.Ok? && Truthy(body.value.message) && ModelIdOf(body.value) != SupportedModel ==>
              h == Handled(Response(400, ErrorBody(UnsupportedModel(ModelIdOf(body.value)))), None, None)
    ensures h.call.Some? <==>
              body.Ok? && Truthy(body.value.message) && ModelIdOf(body.value) == SupportedModel && ApiKeyOf(env) != ""
    ensures body.Ok? && Truthy(body.value.message) && ModelIdOf(body.value) == SupportedModel && ApiKeyOf(env) == "" ==>
              h == Handled(Response(500, ErrorBody(KeyMissing)), None, None)
    ensures h.call.Some? ==>
              h.call.value == UpstreamCall(ApiKeyOf(env), SupportedModel,
                                           Outgoing(SystemPrompt, Default(body.value.conversationHistory, []), body.value.message.value),
                                           MaxTokens)
    ensures h.call.Some? && upstream.Err? ==> h == Handled(CaughtResponse(upstream.error, pick, now), h.call, None)
    ensures h.call.Some? && upstream.Ok? ==>
              h.response == Response(200, Reply(OrElse(upstream.value.content, NoResponse), now, SupportedModel, Provider, upstream.value.usage))
    ensures h.save.Some? <==> h.call.Some? && upstream.Ok? && body.value.conversationId.Some? && user.Some?
    ensures h.save.Some? ==>
              h.save.value == PendingSave(body.value.conversationId.value, body.value.message.value, h.response.body.response)
  {
    match body
    case Err(e) => Handled(CaughtResponse(e, pick, now), None, None)
    case Ok(b) =>
      if !Truthy(b.message) then Handled(Response(400, ErrorBody(MessageRequired)), None, None)
      else if ModelIdOf(b) != SupportedModel then
        Handled(Response(400, ErrorBody(UnsupportedModel(ModelIdOf(b)))), None, None)
      else
        var messages := Outgoing(SystemPrompt, Default(b.conversationHistory, []), b.message.value);
        var key := ApiKeyOf(env);
        if key == "" then Handled(Response(500, ErrorBody(KeyMissing)), None, None)
        else
          var call := Some(UpstreamCall(key, SupportedModel, messages, MaxTokens));
          match upstream
          case Err(e) => Handled(CaughtResponse(e, pick, now), call, None)
          case Ok(c) =>
            var aiContent := OrElse(c.content, NoResponse);
            var save := if b.conversationId.Some? && user.Some?
                        then Some(PendingSave(b.conversationId.value, b.message.value, aiContent)) else None;
            Handled(Response(200, Reply(aiContent, now, SupportedModel, Provider, c.usage)), call, save)
  }

  /** The handler with its writes. It calls `addMessage` without a user id, so
      the first write is always refused, the error is swallowed, and the store
      never changes; the response is `Respond`'s. */
  method Post(store: ConversationService, body: Result<ChatBody, Thrown>, user: Option<AuthUser>, env: Env,
              upstream: Result<Completion, Thrown>, pick: nat, now: nat, dbError: Option<string>)
    returns (response: Response)
    requires pick < |FallbackResponses|
    requires store.Valid()
    modifies store
    ensures store.Valid()
    ensures response == Respond(body, user, env, upstream, pick, now).response
    ensures store.conversations == old(store.conversations) && store.messages == old(store.messages)
    ensures store.nextId == old(store.nextId)
  {
    var h := Respond(body, user, env, upstream, pick, now);
    if h.save.Some? {
      var saved := h.save.value;
      var first := store.AddMessage(saved.conversationId, Role.User, saved.userText, None, now, dbError);
      if first.Ok? {
        // The assistant's reply would be saved here; a write without a user
        // id never succeeds, so the handler never gets this far.
        assert false;
      }
    }
    response := h.response;
  }

  /** The handler as the comment above its writes intends: both writes carry
      the signed-in user's id. The user's message is saved first and the
      reply after it; a refused write is swallowed as before, and a refused
      first write means the reply is not attempted. */
  method PostAsUser(store: ConversationService, body: Result<ChatBody, Thrown>, user: Option<AuthUser>, env: Env,
                    upstream: Result<Completion, Thrown>, pick: nat, now: nat,
                    userSaveError: Option<string>, replySaveError: Option<string>)
    returns (response: Response)
    requires pick < |FallbackResponses|
    requires store.Valid()
    modifies store
    ensures store.Valid()
    ensures response == Respond(body, user, env, upstream, pick, now).response
    ensures store.conversations == old(store.conversations)
    ensures var h := Respond(body, user, env, upstream, pick, now);
      var accepted := h.save.Some? && user.value.id != "" && HasConversation(old(store.conversations), h.save.value.conversationId);
      && (!accepted || userSaveError.Some? ==> store.messages == old(store.messages))
      && (accepted && userSaveError.None? && replySaveError.Some? ==>
            store.messages == old(store.messages) + [StoredMessage(old(store.nextId), h.save.value.conversationId, Role.User, h.save.value.userText, now)])
      && (accepted && userSaveError.None? && replySaveError.None? ==>
            store.messages == old(store.messages) + [StoredMessage(old(store.nextId), h.save.value.conversationId, Role.User, h.save.value.userText, now),
                                                     StoredMessage(old(store.nextId) + 1, h.save.value.conversationId, Role.Assistant, h.save.value.replyText, now)])
  {
    var h := Respond(body, user, env, upstream, pick, now);
    if h.save.Some? {
      var saved := h.save.value;
      var owner := Some(user.value.id);
      var first := store.AddMessage(saved.conversationId, Role.User, saved.userText, owner, now, userSaveError);
      if first.Ok? {
        var second := store.AddMessage(saved.conversationId, Role.Assistant, saved.replyText, owner, now, replySaveError);
      }
    }
    response := h.response;
  }
}
