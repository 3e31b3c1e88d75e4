/** `app/api/chat/enhanced/route.ts`: the `POST /api/chat/enhanced` handler,
    a simulated assistant that picks a canned reply by keyword and appends
    one of four closing remarks. The remark `Math.random` would choose is
    an input index. */
module EnhancedRoute {
  import opened Basics

  const HelloReply := "Hello! I'm your AI assistant. How can I help you today?"
  const HelpReply := "I'm here to help! I can answer questions, provide information, assist with coding, and much more. What would you like to know?"
  const WeatherReply := "I don't have access to real-time weather data, but I can help you find weather information or discuss weather-related topics!"
  const CodeReply := "I'd be happy to help with coding! I can assist with various programming languages, debug issues, explain concepts, and provide code examples."
  const DefaultReply := "That's an interesting question! I'm here to help you with information, problem-solving, and various tasks. What specific assistance do you need?"
  const Variations: seq<string> := [
    " I hope this helps!",
    " Let me know if you need any clarification.",
    " Feel free to ask follow-up questions!",
    " I'm here to assist further if needed."
  ]
  const SimulatedModel := "simulated-ai"

  predicate MentionsHello(lower: string) { Includes(lower, "hello") || Includes(lower, "hi") }
  predicate MentionsHelp(lower: string) { Includes(lower, "help") }
  predicate MentionsWeather(lower: string) { Includes(lower, "weather") }
  predicate MentionsCode(lower: string) { Includes(lower, "code") || Includes(lower, "programming") }

  /** The canned reply for a message, by the first keyword group that its
      lower-cased text contains. */
  function BaseReply(message: string): (r: string)
    ensures var lower := LowerAscii(message);
      && (r == HelloReply <==> MentionsHello(lower))
      && (r == HelpReply <==> !MentionsHello(lower) && MentionsHelp(lower))
      && (r == WeatherReply <==> !MentionsHello(lower) && !MentionsHelp(lower) && MentionsWeather(lower))
      && (r == CodeReply <==> !MentionsHello(lower) && !MentionsHelp(lower) && !MentionsWeather(lower) && MentionsCode(lower))
      && (r == DefaultReply <==> !MentionsHello(lower) && !MentionsHelp(lower) && !MentionsWeather(lower) && !MentionsCode(lower))
  {
    var lower := LowerAscii(message);
    if MentionsHello(lower) then HelloReply
    else if MentionsHelp(lower) then HelpReply
    else if MentionsWeather(lower) then WeatherReply
    else if MentionsCode(lower) then CodeReply
    else DefaultReply
  }

  /** Matching is by substring: "this" contains "hi", so any message whose
      text contains "this" (a request for help included) is answered as a
      greeting. */
  lemma SubstringGreeting(m: string)
    requires Includes(LowerAscii(m), "this")
    ensures BaseReply(m) == HelloReply
  {
    var lower := LowerAscii(m);
    var i: nat :| OccursAt(lower, "this", i);
    assert lower[i + 1..i + 3] == lower[i..i + 4][1..3];
    assert OccursAt(lower, "hi", i + 1);
  }

  datatype EnhancedBody = EnhancedBody(message: Option<string>, model: Option<string>)

  datatype Usage = Usage(promptTokens: nat, completionTokens: nat, totalTokens: nat)

  datatype Body =
    | ErrorBody(error: string)
    | Reply(response: string, timestamp: nat, model: string, usage: Usage)

  datatype Response = Response(status: nat, body: Body)

  /** The handler: 500 for an unreadable body, 400 without a message,
      otherwise the simulated reply. Its usage figures are JavaScript string
      lengths, counted in UTF-16 code units, and it is stamped with the clock
      reading `now`. */
  function Respond(body: Result<EnhancedBody, Thrown>, pick: nat, now: nat): (r: Response)
    requires pick < |Variations|
    ensures body.Err? ==> r == Response(500, ErrorBody("Internal server error"))
    ensures body.Ok? && !Truthy(body.value.message) ==> r == Response(400, ErrorBody("Message is required"))
    ensures body.Ok? && Truthy(body.value.message) ==>
              var m := body.value.message.value;
              && r.status == 200 && r.body.Reply?
              && r.body.response == BaseReply(m) + Variations[pick]
              && r.body.timestamp == now
              && r.body.model == SimulatedModel
              && r.body.usage.promptTokens == |Utf16(m)|
              && r.body.usage.completionTokens == |Utf16(r.body.response)|
              && r.body.usage.totalTokens == r.body.usage.promptTokens + r.body.usage.completionTokens
  {
    match body
    case Err(_) => Response(500, ErrorBody("Internal server error"))
    case Ok(b) =>
      if !Truthy(b.message) then Response(400, ErrorBody("Message is required"))
      else
        var m := b.message.value;
        var response := BaseReply(m) + Variations[pick];
        Response(200, Reply(response, now, SimulatedModel, Usage(|Utf16(m)|, |Utf16(response)|, |Utf16(m)| + |Utf16(response)|)))
  }

  /** The requested `model` never changes the answer. */
  lemma ModelIgnored(body: EnhancedBody, other: Option<string>, pick: nat, now: nat)
    requires pick < |Variations|
    ensures Respond(Ok(body.(model := other)), pick, now) == Respond(Ok(body), pick, now)
  {
  }
}
