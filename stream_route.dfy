/** `app/api/chat/stream/route.ts`: the `POST /api/chat/stream` handler that
    relays an OpenAI completion as a stream of events.

    Checking the request and assembling the upstream call is the pure
    function `Prepare`. The body is produced by `Pump`, which reads the
    upstream chunks one by one and enqueues a frame into a
    `StreamController` for each piece of content; the upstream iteration is
    a finite sequence of chunks, after which it either ends or throws. */
module StreamRoute {
  import opened Basics
  import opened ChatTypes
  import opened Config
  import opened EventStream

  const StreamPrompt := "You are a helpful, friendly, and knowledgeable AI assistant. Provide clear, accurate, and helpful responses. Keep responses conversational and engaging."
  const StreamMaxTokens: nat := 1000
  const InternalError := "Internal server error"

  datatype StreamBody = StreamBody(message: Option<string>, conversationHistory: Option<seq<Turn>>)

  /** The streaming completion request. */
  datatype UpstreamRequest = UpstreamRequest(model: string, messages: seq<Turn>, maxTokens: nat)

  /** A JSON error response. */
  datatype Rejection = Rejection(status: nat, error: string)

  /** The checks before the upstream call, in the handler's order: the body
      parses, the message is present, the API key is configured. */
  function Prepare(body: Result<StreamBody, Thrown>, env: Env): (r: Result<UpstreamRequest, Rejection>)
    ensures body.Err? ==> r == Err(Rejection(500, InternalError))
    ensures body.Ok? && !Truthy(body.value.message) ==> r == Err(Rejection(400, "Message is required"))
    ensures body.Ok? && Truthy(body.value.message) && !Truthy(EnvVar(env, "OPENAI_API_KEY")) ==>
              r == Err(Rejection(500, NotConfigured))
    ensures r.Ok? <==> body.Ok? && Truthy(body.value.message) && Truthy(EnvVar(env, "OPENAI_API_KEY"))
    ensures r.Ok? ==> r.value.maxTokens == 1000 && r.value.model == ConfigOf(env).openai.model
    ensures r.Ok? ==>
              r.value.messages == Outgoing(StreamPrompt, Default(body.value.conversationHistory, []), body.value.message.value)
  {
    match body
    case Err(_) => Err(Rejection(500, InternalError))
    case Ok(b) =>
      if !Truthy(b.message) then Err(Rejection(400, "Message is required"))
      else if !Truthy(EnvVar(env, "OPENAI_API_KEY")) then Err(Rejection(500, NotConfigured))
      else
        Ok(UpstreamRequest(OrElse(EnvVar(env, "OPENAI_MODEL"), DefaultOpenAIModel),
                           Outgoing(StreamPrompt, Default(b.conversationHistory, []), b.message.value),
                           StreamMaxTokens))
  }

  /** The model of the streamed request is `OPENAI_MODEL` when that is set
      and non-empty, otherwise "gpt-3.5-turbo". */
  lemma StreamModelFromEnv(body: Result<StreamBody, Thrown>, env: Env)
    requires Prepare(body, env).Ok?
    ensures var m := Prepare(body, env).value.model;
      && (Truthy(EnvVar(env, "OPENAI_MODEL")) ==> m == env["OPENAI_MODEL"])
      && (!Truthy(EnvVar(env, "OPENAI_MODEL")) ==> m == "gpt-3.5-turbo")
  {
  }

  datatype Delta = Delta(content: Option<string>)
  datatype Choice = Choice(delta: Option<Delta>)

  /** A streamed chunk; `choices` may be missing. */
  datatype Chunk = Chunk(choices: Option<seq<Choice>>)

  /** What the completion stream yields: its chunks, then either the end or
      an error. */
  datatype Upstream = Upstream(chunks: seq<Chunk>, throwsAtEnd: bool)

  /** `chunk.choices[0]?.delta?.content`: reading `[0]` of missing `choices`
      throws; every other missing link gives `undefined`. */
  datatype Read = Throws | Content(text: Option<string>)

  function ReadChunk(c: Chunk): (r: Read)
    ensures r.Throws? <==> c.choices.None?
    ensures r == Content(None) <==>
              c.choices.Some? && (c.choices.value == [] || c.choices.value[0].delta.None? ||
                                  c.choices.value[0].delta.value.content.None?)
    ensures r.Content? && r.text.Some? ==> r.text == c.choices.value[0].delta.value.content
  {
    match c.choices
    case None => Throws
    case Some(cs) =>
      if cs == [] || cs[0].delta.None? then Content(None) else Content(cs[0].delta.value.content)
  }

  predicate Readable(c: Chunk) {
    ReadChunk(c).Content?
  }

  /** The number of chunks read before one throws. */
  function FirstUnreadable(chunks: seq<Chunk>): (k: nat)
    ensures k <= |chunks|
    ensures forall j :: 0 <= j < k ==> Readable(chunks[j])
    ensures k < |chunks| ==> !Readable(chunks[k])
  {
    if chunks == [] || !Readable(chunks[0]) then 0 else 1 + FirstUnreadable(chunks[1..])
  }

  /** The non-empty contents of a run of readable chunks, in order. */
  function Contents(chunks: seq<Chunk>): (cs: seq<string>)
    requires forall j :: 0 <= j < |chunks| ==> Readable(chunks[j])
    ensures |cs| <= |chunks|
    ensures forall i :: 0 <= i < |cs| ==> cs[i] != ""
  {
    if chunks == [] then []
    else
      assert Readable(chunks[|chunks| - 1]);
      Contents(chunks[..|chunks| - 1]) + ContentOf(chunks[|chunks| - 1])
  }

  /** The content one readable chunk contributes: nothing when it is absent
      or empty. */
  function ContentOf(c: Chunk): (cs: seq<string>)
    requires Readable(c)
    ensures |cs| <= 1
    ensures forall i :: 0 <= i < |cs| ==> cs[i] != ""
  {
    var text := ReadChunk(c).text;
    if Truthy(text) then [text.value] else []
  }

  lemma ContentsSnoc(chunks: seq<Chunk>, i: nat)
    requires i < |chunks|
    requires forall j :: 0 <= j <= i ==> Readable(chunks[j])
    ensures Contents(chunks[..i + 1]) == Contents(chunks[..i]) + ContentOf(chunks[i])
  {
    assert chunks[..i + 1][..i] == chunks[..i];
  }

  /** The iteration reaches its natural end. */
  predicate Completes(u: Upstream) {
    FirstUnreadable(u.chunks) == |u.chunks| && !u.throwsAtEnd
  }

  /** The contents relayed before the stream ends or fails. */
  function Relayed(u: Upstream): seq<string> {
    Contents(u.chunks[..FirstUnreadable(u.chunks)])
  }

  /** The frames of the response body. */
  function BodyFrames(u: Upstream): (fs: seq<string>)
    ensures Completes(u) ==> |fs| >= 1 && fs[|fs| - 1] == DoneFrame
    ensures forall i :: 0 <= i < |fs| - 1 ==> fs[i] != DoneFrame
    ensures !Completes(u) ==> DoneFrame !in fs
  {
    var fs := Frames(Relayed(u));
    assert forall i :: 0 <= i < |fs| ==> fs[i] != DoneFrame by {
      forall i | 0 <= i < |fs| ensures fs[i] != DoneFrame {
        FramesAt(Relayed(u), i);
      }
    }
    fs + (if Completes(u) then [DoneFrame] else [])
  }

  datatype StreamState = Open | Closed | Errored

  /** The readable stream's controller: the log of every chunk enqueued so
      far, and whether the stream is still open. `queue` is what the handler
      has handed over, not what remains for a reader: erroring a stream
      discards the chunks not yet read, which this log does not model. */
  class StreamController {
    var queue: seq<string>
    var state: StreamState

    constructor()
      ensures queue == [] && state == Open
    {
      queue := [];
      state := Open;
    }

    method Enqueue(chunk: string)
      requires state == Open
      modifies this
      ensures queue == old(queue) + [chunk] && state == Open
    {
      queue := queue + [chunk];
    }

    method Close()
      requires state == Open
      modifies this
      ensures queue == old(queue) && state == Closed
    {
      state := Closed;
    }

    /** `controller.error()`: the stream becomes errored; the log of what was
        enqueued stays as it was. */
    method Error()
      requires state == Open
      modifies this
      ensures queue == old(queue) && state == Errored
    {
      state := Errored;
    }
  }

  /** The frame a readable chunk gives: one for content, none otherwise. */
  function ChunkFrames(c: Chunk): seq<string>
    requires Readable(c)
  {
    var text := ReadChunk(c).text;
    if Truthy(text) then [Frame(text.value)] else []
  }

  /** One more readable chunk adds its frame, if it has content. */
  lemma RelayStep(chunks: seq<Chunk>, i: nat)
    requires i < FirstUnreadable(chunks)
    ensures Frames(Contents(chunks[..i + 1])) == Frames(Contents(chunks[..i])) + ChunkFrames(chunks[i])
  {
    var added := ContentOf(chunks[i]);
    ContentsSnoc(chunks, i);
    FramesAppend(Contents(chunks[..i]), added);
    var text := ReadChunk(chunks[i]).text;
    if Truthy(text) {
      assert Frames(added) == Frames([]) + [Frame(text.value)];
    } else {
      assert added == [];
    }
  }

  /** The frames the loop has enqueued once it has read the first `i`
      chunks. */
  function RelayedFrames(chunks: seq<Chunk>, i: nat): seq<string>
    requires i <= FirstUnreadable(chunks)
  {
    if i == 0 then [] else RelayedFrames(chunks, i - 1) + ChunkFrames(chunks[i - 1])
  }

  /** Those are the frames of the contents of the chunks read. */
  lemma {:induction false} RelayedFramesAreFrames(chunks: seq<Chunk>, i: nat)
    requires i <= FirstUnreadable(chunks)
    ensures RelayedFrames(chunks, i) == Frames(Contents(chunks[..i]))
  {
    if i > 0 {
      var j := i - 1;
      RelayedFramesAreFrames(chunks, j);
      RelayStep(chunks, j);
      assert RelayedFrames(chunks, j + 1) == RelayedFrames(chunks, j) + ChunkFrames(chunks[j]);
    }
  }

  /** The `for await` loop: one frame per chunk with content, in chunk
      order, until a chunk cannot be read. */
  method RelayChunks(controller: StreamController, chunks: seq<Chunk>) returns (readAll: bool)
    requires controller.state == Open
    modifies controller
    ensures readAll <==> FirstUnreadable(chunks) == |chunks|
    ensures controller.queue == old(controller.queue) + Frames(Contents(chunks[..FirstUnreadable(chunks)]))
    ensures controller.state == Open
  {
    var i := 0;
    while i < |chunks|
      invariant i <= FirstUnreadable(chunks)
      invariant controller.queue == old(controller.queue) + RelayedFrames(chunks, i)
      invariant controller.state == Open
    {
      var read := ReadChunk(chunks[i]);
      if read.Throws? {
        ghost var n := FirstUnreadable(chunks);
        assert n == i;
        RelayedFramesAreFrames(chunks, n);
        return false;
      }
      assert RelayedFrames(chunks, i + 1) == RelayedFrames(chunks, i) + ChunkFrames(chunks[i]);
      if Truthy(read.text) {
        controller.Enqueue(Frame(read.text.value));
      }
      i := i + 1;
    }
    ghost var n := FirstUnreadable(chunks);
    assert n == i;
    RelayedFramesAreFrames(chunks, n);
    return true;
  }

  /** The `start` callback: the relayed frames, then `[DONE]` and close; or
      error the stream, without `[DONE]`, if reading throws. */
  method Pump(controller: StreamController, u: Upstream)
    requires controller.state == Open
    modifies controller
    ensures controller.queue == old(controller.queue) + BodyFrames(u)
    ensures controller.state == if Completes(u) then Closed else Errored
  {
    var readAll := RelayChunks(controller, u.chunks);
    if !readAll || u.throwsAtEnd {
      controller.Error();
      return;
    }
    controller.Enqueue(DoneFrame);
    controller.Close();
  }

  /** The frames the handler enqueues decode to exactly the relayed
      contents, with `[DONE]` at the end exactly when the upstream iteration
      ended normally. */
  lemma BodyDecodes(u: Upstream)
    ensures DecodeStream(Concat(BodyFrames(u))) == Some(Decoded(Relayed(u), Completes(u)))
  {
    var fs := Frames(Relayed(u));
    if Completes(u) {
      ConcatAppend(fs, [DoneFrame]);
      assert Concat([DoneFrame]) == DoneFrame;
      DecodeFrames(Relayed(u), true);
    } else {
      assert BodyFrames(u) == fs;
      assert Concat(fs) + "" == Concat(fs);
      DecodeFrames(Relayed(u), false);
    }
  }

  /** What the handler answers. */
  datatype Outcome =
    | Rejected(rejection: Rejection)
    | Streamed(request: UpstreamRequest, body: seq<string>, state: StreamState)

  /** The handler: a JSON error, or the relayed stream. Creating the
      completion stream may itself throw, which gives a 500. */
  method Post(body: Result<StreamBody, Thrown>, env: Env, upstream: Result<Upstream, Thrown>)
    returns (o: Outcome)
    ensures Prepare(body, env).Err? ==> o == Rejected(Prepare(body, env).error)
    ensures Prepare(body, env).Ok? && upstream.Err? ==> o == Rejected(Rejection(500, InternalError))
    ensures Prepare(body, env).Ok? && upstream.Ok? ==>
              o == Streamed(Prepare(body, env).value, BodyFrames(upstream.value),
                            if Completes(upstream.value) then Closed else Errored)
  {
    var prepared := Prepare(body, env);
    if prepared.Err? {
      return Rejected(prepared.error);
    }
    if upstream.Err? {
      return Rejected(Rejection(500, InternalError));
    }
    var controller := new StreamController();
    Pump(controller, upstream.value);
    o := Streamed(prepared.value, controller.queue, controller.state);
  }
}
