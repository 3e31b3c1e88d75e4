/** `app/api/gemini/route.ts`: the `POST /api/gemini` handler that forwards a
    message and its history to Gemini's `generateContent` and returns the
    first candidate's text. The upstream reply is an input. */
module GeminiRoute {
  import opened Basics
  import opened ChatTypes

  const GeminiApiError := "Gemini API error"

  /** The request body; absent fields are `None`. `conversationId` is read
      but not used. */
  datatype GeminiBody = GeminiBody(message: Option<string>, conversationId: Option<string>,
                                   conversationHistory: Option<seq<Turn>>)

  /** `{ text }`; an undefined text is left out of the JSON. */
  datatype Part = Part(text: Option<string>)

  /** One entry of `contents`. */
  datatype Content = Content(role: string, parts: seq<Part>)

  /** Gemini names the assistant side "model"; only "user" is kept. */
  function GeminiRole(role: string): (r: string)
    ensures r == "user" <==> role == "user"
    ensures r == "model" <==> role != "user"
  {
    if role == "user" then "user" else "model"
  }

  function HistoryContent(t: Turn): Content {
    Content(GeminiRole(t.role), [Part(Some(t.content))])
  }

  /** The request's `contents`: one entry per history entry, in order, with
      its role translated and its content as the single part, then the new
      user message. */
  function Contents(history: seq<Turn>, message: Option<string>): (cs: seq<Content>)
    ensures |cs| == |history| + 1
    ensures forall i :: 0 <= i < |history| ==>
              && (cs[i].role == "user" <==> history[i].role == "user")
              && (cs[i].role != "user" ==> cs[i].role == "model")
              && cs[i].parts == [Part(Some(history[i].content))]
    ensures cs[|history|] == Content("user", [Part(message)])
  {
    seq(|history|, i requires 0 <= i < |history| => HistoryContent(history[i])) + [Content("user", [Part(message)])]
  }

  /** The request body sent to Gemini, with an absent history read as empty. */
  function RequestContents(b: GeminiBody): (cs: seq<Content>)
    ensures b.conversationHistory.None? ==> cs == [Content("user", [Part(b.message)])]
  {
    Contents(Default(b.conversationHistory, []), b.message)
  }

  /** What the client sends, `HistoryOf(ms)`, arrives with user turns as
      "user" and assistant turns as "model". */
  lemma ClientHistoryRoles(ms: seq<Message>, message: Option<string>)
    requires forall i :: 0 <= i < |ms| ==> ms[i].role != System
    ensures var cs := Contents(HistoryOf(ms), message);
      && |cs| == |ms| + 1
      && forall i :: 0 <= i < |ms| ==>
           cs[i] == Content(if ms[i].role == User then "user" else "model", [Part(Some(ms[i].content))])
  {
    HistoryOfNoSystem(ms);
  }

  // The parts of Gemini's reply the handler reads.
  datatype ReplyPart = ReplyPart(text: Option<string>)
  datatype CandidateContent = CandidateContent(parts: Option<seq<ReplyPart>>)
  datatype Candidate = Candidate(content: Option<CandidateContent>)
  datatype GeminiData = GeminiData(candidates: Option<seq<Candidate>>)
  datatype GeminiErrorInfo = GeminiErrorInfo(message: Option<string>)
  datatype GeminiErrorData = GeminiErrorData(error: Option<GeminiErrorInfo>)

  /** The upstream HTTP reply: ok with data, or not ok with an error body. */
  datatype GeminiReply = Success(data: GeminiData) | Failure(errorData: GeminiErrorData)

  /** `candidates?.[0]?.content?.parts?.[0]?.text`, or `None` at the first
      missing link. */
  function FirstText(d: GeminiData): (t: Option<string>)
    ensures t.Some? <==>
              && d.candidates.Some? && |d.candidates.value| > 0
              && d.candidates.value[0].content.Some?
              && d.candidates.value[0].content.value.parts.Some?
              && |d.candidates.value[0].content.value.parts.value| > 0
              && d.candidates.value[0].content.value.parts.value[0].text.Some?
    ensures t.Some? ==> t == d.candidates.value[0].content.value.parts.value[0].text
  {
    if d.candidates.None? || |d.candidates.value| == 0 then None
    else
      var c := d.candidates.value[0];
      if c.content.None? || c.content.value.parts.None? || |c.content.value.parts.value| == 0 then None
      else c.content.value.parts.value[0].text
  }

  /** `error.error?.message`. */
  function ErrorMessage(e: GeminiErrorData): (m: Option<string>)
    ensures m.Some? <==> e.error.Some? && e.error.value.message.Some?
    ensures m.Some? ==> m == e.error.value.message
  {
    if e.error.None? then None else e.error.value.message
  }

  datatype Body = ErrorBody(error: string) | ReplyBody(response: string)
  datatype Response = Response(status: nat, body: Body)

  function Respond(reply: GeminiReply): (r: Response)
    ensures reply.Failure? ==> r.status == 500 && r.body.ErrorBody?
    ensures reply.Failure? && Truthy(ErrorMessage(reply.errorData)) ==> r.body.error == ErrorMessage(reply.errorData).value
    ensures reply.Failure? && !Truthy(ErrorMessage(reply.errorData)) ==> r.body.error == GeminiApiError
    ensures reply.Success? ==> r.status == 200 && r.body.ReplyBody?
    ensures reply.Success? && FirstText(reply.data).None? ==> r.body.response == ""
    ensures reply.Success? && FirstText(reply.data).Some? ==> r.body.response == FirstText(reply.data).value
  {
    match reply
    case Failure(e) => Response(500, ErrorBody(OrElse(ErrorMessage(e), GeminiApiError)))
    case Success(d) => Response(200, ReplyBody(OrElse(FirstText(d), "")))
  }
}
