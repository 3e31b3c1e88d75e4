/** `components/streaming-chat-interface.tsx`: the chat window with the
    conversation sidebar. It keeps its React state in fields and talks to the
    store of `lib/conversation-service.ts` (the `store` field) and to
    `/api/gemini`. What the network answers, what the store's backend
    reports and the clock are inputs of each handler; a handler whose promise
    would reject unhandled returns the error instead of changing anything
    after the failed call. */
module StreamingChatComponent {
  import opened Basics
  import opened Seqs
  import opened ChatTypes
  import opened Conversations
  import GeminiRoute

  const StreamingGreeting := "Hello! I'm your AI assistant. I can use different AI models from OpenAI and Hugging Face. How can I help you today?"
  const NewChatTitle := "New Chat"
  const NoResponseError := "Failed to get response"
  const ErrorPrefix := "Sorry, I encountered an error: "
  const ErrorSuffix := ". Please try again."
  /** The sidebar shows at most this many words of a preview. */
  const PreviewWords: nat := 8
  const Ellipsis := "..."

  function GreetingMessage(now: nat): Message {
    Message("1", StreamingGreeting, Assistant, now)
  }

  function UserMessage(content: string, now: nat): Message {
    Message(NatToString(now), content, User, now)
  }

  function AssistantMessage(text: string, now: nat): Message {
    Message(NatToString(now + 1), text, Assistant, now)
  }

  /** The assistant message that reports a failed send. */
  function ErrorReply(error: string, now: nat): (m: Message)
    ensures m.role == Assistant
    ensures |m.content| == |ErrorPrefix| + |error| + |ErrorSuffix|
    ensures m.content[..|ErrorPrefix|] == ErrorPrefix
    ensures m.content[|ErrorPrefix|..|ErrorPrefix| + |error|] == error
    ensures m.content[|m.content| - |ErrorSuffix|..] == ErrorSuffix
  {
    var c := ErrorPrefix + error + ErrorSuffix;
    assert c[|ErrorPrefix|..|ErrorPrefix| + |error|] == error;
    Message(NatToString(now + 1), c, Assistant, now)
  }

  /** A stored message as the window shows it. */
  function Shown(m: StoredMessage): Message {
    Message(NatToString(m.id), m.content, m.role, m.createdAt)
  }

  function ShownAll(ms: seq<StoredMessage>): (r: seq<Message>)
    ensures |r| == |ms|
  {
    seq(|ms|, i requires 0 <= i < |ms| => Shown(ms[i]))
  }

  /** Showing the loaded messages keeps their order, content, roles and
      times. */
  lemma ShownAllKeepsOrder(ms: seq<StoredMessage>)
    ensures forall i :: 0 <= i < |ms| ==>
              ShownAll(ms)[i].content == ms[i].content && ShownAll(ms)[i].role == ms[i].role
    ensures NonDecreasing(ms, CreatedAt) ==>
              forall i, j :: 0 <= i < j < |ms| ==> ShownAll(ms)[i].timestamp <= ShownAll(ms)[j].timestamp
  {
  }

  // ---------------------------------------------------------------------------
  // The sidebar

  /** A sidebar row: a conversation and, when it was loaded on mount, the text
      of its latest message. */
  datatype SidebarEntry = SidebarEntry(conversation: Conversation, preview: Option<string>)

  /** The rows after a refresh, which carries no previews. */
  function Entries(cs: seq<Conversation>): (r: seq<SidebarEntry>)
    ensures |r| == |cs|
  {
    seq(|cs|, i requires 0 <= i < |cs| => SidebarEntry(cs[i], None))
  }

  /** `messages[0]?.content || ''` over the latest message of a conversation. */
  function LatestContent(latest: seq<Turn>): string {
    if |latest| > 0 then latest[0].content else ""
  }

  /** What the sidebar writes under a title: the first eight space-separated
      words, then "..." if there were more. */
  function PreviewText(p: string): (r: string)
    ensures |Split(p, ' ')| <= PreviewWords ==> r == p
    ensures |Split(p, ' ')| > PreviewWords ==>
              && |r| >= |Ellipsis|
              && r[|r| - |Ellipsis|..] == Ellipsis
              && var head := r[..|r| - |Ellipsis|];
                 |head| < |p| && head == p[..|head|]
                 && Split(head, ' ') == Split(p, ' ')[..PreviewWords]
  {
    var words := Split(p, ' ');
    var n := if |words| < PreviewWords then |words| else PreviewWords;
    var head := Join(words[..n], ' ');
    if |words| > PreviewWords then
      JoinTakeIsPrefix(words, ' ', n);
      JoinSplit(p, ' ');
      SplitJoin(words[..n], ' ');
      assert |Split(head, ' ')| < |words|;
      assert head != p;
      var r := head + Ellipsis;
      assert r[..|r| - |Ellipsis|] == head;
      r
    else
      assert words[..n] == words;
      JoinSplit(p, ' ');
      head
  }

  /** `conv.preview && ...`: a row shows a preview only for a non-empty one. */
  function Snippet(e: SidebarEntry): (r: Option<string>)
    ensures r.Some? <==> Truthy(e.preview)
    ensures r.Some? ==> r.value == PreviewText(e.preview.value)
  {
    if Truthy(e.preview) then Some(PreviewText(e.preview.value)) else None
  }

  // ---------------------------------------------------------------------------
  // Sending

  /** How the `POST /api/gemini` settled: an ok reply with `data.response`; a
      reply that was not ok, with the `error` of its body; or a throw (the
      network, or a body that is not JSON) with its message. */
  datatype GeminiOutcome = Replied(response: string) | NotOk(error: Option<string>) | Threw(message: string)

  /** The message of the `Error` a failed request ends in. */
  function Complaint(reply: GeminiOutcome): (e: string)
    requires !reply.Replied?
    ensures reply.NotOk? && Truthy(reply.error) ==> e == reply.error.value
    ensures reply.NotOk? && !Truthy(reply.error) ==> e == NoResponseError
    ensures reply.Threw? ==> e == reply.message
  {
    match reply
    case NotOk(error) => OrElse(error, NoResponseError)
    case Threw(message) => message
  }

  /** How a response of `/api/gemini` reaches the window: `response.ok`
      (a 2xx status) with the reply's text, or the `error` of the body. */
  function Received(r: GeminiRoute.Response): GeminiOutcome
    requires 200 <= r.status < 300 ==> r.body.ReplyBody?
  {
    if 200 <= r.status < 300 then Replied(r.body.response)
    else NotOk(if r.body.ErrorBody? then Some(r.body.error) else None)
  }

  /** End to end with the Gemini route: the window shows Gemini's first text
      (or nothing) for a success, and for a failure an error reply carrying
      Gemini's own message or the route's fixed "Gemini API error". */
  lemma GeminiReachesWindow(reply: GeminiRoute.GeminiReply)
    ensures var r := GeminiRoute.Respond(reply);
      200 <= r.status < 300 ==> r.body.ReplyBody?
    ensures reply.Success? ==>
              var r := GeminiRoute.Respond(reply); var t := GeminiRoute.FirstText(reply.data);
              Received(r) == Replied(if t.Some? then t.value else "")
    ensures reply.Failure? ==>
              var r := GeminiRoute.Respond(reply); var m := GeminiRoute.ErrorMessage(reply.errorData);
              !Received(r).Replied? &&
              Complaint(Received(r)) == if Truthy(m) then m.value else GeminiRoute.GeminiApiError
  {
    var r := GeminiRoute.Respond(reply);
    if reply.Failure? {
      assert GeminiRoute.GeminiApiError != "";
    }
  }

  /** `c.id !== id` for a sidebar row. */
  function NotRowOf(id: Id): SidebarEntry -> bool {
    (e: SidebarEntry) => e.conversation.id != id
  }

  /** What the store's backend reports for each call of a send. */
  datatype StoreFaults = StoreFaults(create: Option<string>, list: Option<string>,
                                     savePrompt: Option<string>, saveReply: Option<string>)

  /** The body posted to `/api/gemini`. */
  datatype GeminiRequest = GeminiRequest(message: string, conversationId: Id, conversationHistory: seq<Turn>)

  /** The step at which a send failed. */
  datatype Stage = Creating | Listing | SavingPrompt | Asking | SavingReply

  datatype SendOutcome = Skipped | Failed(stage: Stage, error: string) | Delivered(reply: string)

  predicate FailedAt(o: SendOutcome, s: Stage) {
    o.Failed? && o.stage == s
  }

  /** Whether a send got as far as having a conversation to write to. */
  predicate HadConversation(o: SendOutcome) {
    !o.Skipped? && !FailedAt(o, Creating) && !FailedAt(o, Listing)
  }

  /** Whether a send got as far as asking `/api/gemini`. */
  predicate Asked(o: SendOutcome) {
    o.Delivered? || FailedAt(o, Asking) || FailedAt(o, SavingReply)
  }

  /** The failure, if any, of the steps before the prompt is saved: a
      conversation is created, and the sidebar listed, only when nothing is
      selected, and the store refuses to create one without a user id. */
  function StartFailure(owner: string, selected: Option<Id>, faults: StoreFaults): (f: Option<SendOutcome>)
    ensures f.None? <==> selected.Some? || (owner != "" && faults.create.None? && faults.list.None?)
    ensures f.Some? ==> FailedAt(f.value, Creating) || FailedAt(f.value, Listing)
    ensures f.Some? && FailedAt(f.value, Creating) <==> selected.None? && (owner == "" || faults.create.Some?)
  {
    if selected.Some? then None
    else if owner == "" then Some(Failed(Creating, UserIdRequiredForConversation))
    else if faults.create.Some? then Some(Failed(Creating, "Failed to create conversation: " + faults.create.value))
    else if faults.list.Some? then Some(Failed(Listing, "Failed to fetch conversations: " + faults.list.value))
    else None
  }

  /** The outcome once a conversation is selected, `held` telling whether
      the store holds it: the prompt is saved (refused without a user id, on
      a backend error, or for a conversation the store does not hold), the
      request is made, the reply is saved. */
  function ConverseOutcome(owner: string, held: bool, reply: GeminiOutcome, faults: StoreFaults): (o: SendOutcome)
    ensures HadConversation(o)
    ensures Asked(o) <==> owner != "" && faults.savePrompt.None? && held
    ensures o.Delivered? <==> Asked(o) && reply.Replied? && faults.saveReply.None?
    ensures o.Delivered? ==> o.reply == reply.response
    ensures FailedAt(o, Asking) <==> Asked(o) && !reply.Replied?
    ensures FailedAt(o, Asking) ==> !reply.Replied? && o.error == Complaint(reply)
  {
    if owner == "" then Failed(SavingPrompt, UserIdRequiredForMessage)
    else if faults.savePrompt.Some? then Failed(SavingPrompt, "Failed to add message: " + faults.savePrompt.value)
    else if !held then Failed(SavingPrompt, "Failed to add message: " + MissingParentDetail)
    else ReplyOutcome(reply, faults.saveReply)
  }

  /** The outcome once the prompt is saved: the request, then saving the
      reply. */
  function ReplyOutcome(reply: GeminiOutcome, saveReply: Option<string>): (o: SendOutcome)
    ensures Asked(o)
    ensures o.Delivered? <==> reply.Replied? && saveReply.None?
    ensures o.Delivered? ==> o.reply == reply.response
    ensures FailedAt(o, Asking) <==> !reply.Replied?
    ensures FailedAt(o, Asking) ==> !reply.Replied? && o.error == Complaint(reply)
    ensures FailedAt(o, SavingReply) ==> o.error == "Failed to add message: " + saveReply.value
  {
    if !reply.Replied? then Failed(Asking, Complaint(reply))
    else if saveReply.Some? then Failed(SavingReply, "Failed to add message: " + saveReply.value)
    else Delivered(reply.response)
  }

  /** How a send ends, step by step: the guard; creating and listing when
      nothing is `selected`; then the rest, for a conversation the store
      holds (`stored`) unless it was just created. */
  function SendOutcomeOf(content: string, user: Option<AuthUser>, selected: Option<Id>, stored: seq<Conversation>,
                         reply: GeminiOutcome, faults: StoreFaults): SendOutcome
  {
    if IsBlank(content) || user.None? then Skipped
    else PastGuard(user.value.id, selected, stored, reply, faults)
  }

  /** The outcome of a send past its guard, by a user with id `owner`. */
  function PastGuard(owner: string, selected: Option<Id>, stored: seq<Conversation>,
                     reply: GeminiOutcome, faults: StoreFaults): (o: SendOutcome)
    ensures !o.Skipped?
  {
    match StartFailure(owner, selected, faults)
    case Some(f) => f
    case None => ConverseOutcome(owner, selected.None? || HasConversation(stored, selected.value), reply, faults)
  }

  /** The outcome of a send, by the step it reached: skipped exactly for a
      blank text or no user; a selected conversation is never created or
      listed; the request is made only once the prompt is saved under a user
      id; a reply is delivered only if `/api/gemini` answered and the store
      saved it; the stage named in a failure is the step that failed. */
  lemma SendOutcomeSteps(content: string, user: Option<AuthUser>, selected: Option<Id>, stored: seq<Conversation>,
                         reply: GeminiOutcome, faults: StoreFaults)
    ensures var o := SendOutcomeOf(content, user, selected, stored, reply, faults);
      && (o.Skipped? <==> IsBlank(content) || user.None?)
      && (selected.Some? ==> !FailedAt(o, Creating) && !FailedAt(o, Listing))
      && (Asked(o) ==> user.Some? && user.value.id != "" && faults.savePrompt.None?)
      && (Asked(o) && selected.Some? ==> HasConversation(stored, selected.value))
      && (o.Delivered? <==> Asked(o) && reply.Replied? && faults.saveReply.None?)
      && (o.Delivered? ==> o.reply == reply.response)
      && (FailedAt(o, Asking) ==> !reply.Replied? && o.error == Complaint(reply))
      && (!o.Skipped? && user.value.id == "" ==> o.Failed? && !Asked(o))
  {
  }

  /** The message list after a send that was not skipped, appended to
      `base`: the prompt once it is saved, then the reply or one error
      reply. */
  function AfterSend(base: seq<Message>, content: string, o: SendOutcome, now: nat): seq<Message>
    requires !o.Skipped?
  {
    if Asked(o) then base + [UserMessage(content, now)] + [Answer(o, now)]
    else base + [ErrorReply(o.error, now)]
  }

  /** The assistant message that ends a send that made its request: the
      reply, or the error reply. */
  function Answer(o: SendOutcome, now: nat): Message
    requires !o.Skipped?
  {
    if o.Delivered? then AssistantMessage(o.reply, now) else ErrorReply(o.error, now)
  }

  /** A send adds exactly one assistant message after the list it started
      from: the reply when it was delivered, otherwise an error reply naming
      the failure; the prompt precedes it exactly when the request was made. */
  lemma AfterSendAddsOneAnswer(base: seq<Message>, content: string, o: SendOutcome, now: nat)
    requires !o.Skipped?
    ensures var shown := AfterSend(base, content, o, now);
      && |shown| == |base| + (if Asked(o) then 2 else 1)
      && shown[..|base|] == base
      && shown[|shown| - 1].role == Assistant
      && (Asked(o) ==> shown[|base|] == UserMessage(content, now))
      && (o.Delivered? ==> shown[|shown| - 1].content == o.reply)
      && (o.Failed? ==>
            var c := shown[|shown| - 1].content;
            c[..|ErrorPrefix|] == ErrorPrefix && c[|ErrorPrefix|..|ErrorPrefix| + |o.error|] == o.error)
      && (forall i :: |base| <= i < |shown| ==> shown[i].role != System)
  {
    var shown := AfterSend(base, content, o, now);
    if o.Failed? {
      var m := ErrorReply(o.error, now);
      assert shown[|shown| - 1] == m;
    }
  }

  /** The rows a send stores in conversation `id`, numbered from `firstId`:
      the prompt once the request is made, and the reply once delivered. */
  function SavedRows(firstId: Id, id: Id, content: string, o: SendOutcome, now: nat): seq<StoredMessage> {
    if Asked(o) then [StoredMessage(firstId, id, User, content, now)] + SavedReply(firstId + 1, id, o, now)
    else []
  }

  /** The reply's row, once delivered. */
  function SavedReply(rowId: Id, id: Id, o: SendOutcome, now: nat): seq<StoredMessage> {
    if o.Delivered? then [StoredMessage(rowId, id, Assistant, o.reply, now)] else []
  }

  /** The window and the store agree: every saved row is shown, in order,
      with its role and text, and the only message shown but not saved is
      the error reply of a failed send. */
  lemma WindowMatchesStore(base: seq<Message>, firstId: Id, id: Id, content: string, o: SendOutcome, now: nat)
    requires !o.Skipped?
    ensures var shown := AfterSend(base, content, o, now)[|base|..];
      var saved := SavedRows(firstId, id, content, o, now);
      && |saved| <= |shown|
      && (forall i :: 0 <= i < |saved| ==> shown[i].role == saved[i].role && shown[i].content == saved[i].content)
      && (|shown| == |saved| <==> o.Delivered?)
      && (o.Failed? ==> shown[|shown| - 1] == ErrorReply(o.error, now))
  {
    var shown := AfterSend(base, content, o, now)[|base|..];
    if o.Delivered? {
      assert shown == [UserMessage(content, now), AssistantMessage(o.reply, now)];
    } else if Asked(o) {
      assert shown == [UserMessage(content, now), ErrorReply(o.error, now)];
    } else {
      assert shown == [ErrorReply(o.error, now)];
    }
  }

  // ---------------------------------------------------------------------------
  // The send, as a function of the state it starts from

  /** What the window and the store hold at one moment: the sidebar, the
      selection, the list, the loading flag, the streamed text, and the
      store's two tables with its id counter. */
  datatype Snapshot = Snapshot(conversations: seq<SidebarEntry>, selected: Option<Id>, messages: seq<Message>,
                               isLoading: bool, streaming: string,
                               stored: seq<Conversation>, saved: seq<StoredMessage>, nextId: nat)

  /** The `catch` and `finally` of a send. */
  function Settled(s: Snapshot, error: string, now: nat): Snapshot {
    s.(messages := s.messages + [ErrorReply(error, now)], isLoading := false)
  }

  /** Creating and listing, which happen only when nothing is selected. */
  function Started(s: Snapshot, owner: string, faults: StoreFaults, now: nat): (t: Snapshot)
    ensures StartFailure(owner, s.selected, faults).None? ==>
              && t.selected.Some?
              && (HasConversation(t.stored, t.selected.value) <==>
                    s.selected.None? || HasConversation(s.stored, s.selected.value))
  {
    if s.selected.Some? || owner == "" || faults.create.Some? then s
    else
      var row := Conversation(s.nextId, NewChatTitle, owner, now, now);
      var created := s.(selected := Some(s.nextId), stored := s.stored + [row], nextId := s.nextId + 1);
      assert created.stored[|s.stored|] == row;
      if faults.list.Some? then created
      else created.(conversations := Entries(ByRecentUpdate(created.stored)), messages := [])
  }

  /** Saving the prompt, then the rest. */
  function Conversed(s: Snapshot, content: string, owner: string, reply: GeminiOutcome, faults: StoreFaults,
                     now: nat): (t: Snapshot)
    requires s.selected.Some?
    ensures t.selected == s.selected
  {
    var o := ConverseOutcome(owner, HasConversation(s.stored, s.selected.value), reply, faults);
    if !Asked(o) then Settled(s, o.error, now)
    else
      Answered(s.(messages := s.messages + [UserMessage(content, now)],
                  saved := s.saved + [StoredMessage(s.nextId, s.selected.value, User, content, now)],
                  nextId := s.nextId + 1),
               reply, faults.saveReply, now)
  }

  /** The request and the saving of its reply. */
  function Answered(s: Snapshot, reply: GeminiOutcome, saveReply: Option<string>, now: nat): (t: Snapshot)
    requires s.selected.Some?
    ensures t.selected == s.selected
  {
    var o := ReplyOutcome(reply, saveReply);
    if o.Delivered? then
      s.(messages := s.messages + [AssistantMessage(o.reply, now)], isLoading := false,
         saved := s.saved + [StoredMessage(s.nextId, s.selected.value, Assistant, o.reply, now)],
         nextId := s.nextId + 1)
    else Settled(s, o.error, now)
  }

  /** A send past its guard, by a user with id `owner`. */
  function Sent(s: Snapshot, content: string, owner: string, reply: GeminiOutcome, faults: StoreFaults,
                now: nat): Snapshot
  {
    var t := Started(s.(isLoading := true, streaming := ""), owner, faults, now);
    match StartFailure(owner, s.selected, faults)
    case Some(f) => Settled(t, f.error, now)
    case None => Conversed(t, content, owner, reply, faults, now)
  }

  /** What a send with outcome `o` leaves behind (`t`), given the state `s`
      it started from: loading has ended; the list is `AfterSend` of the list
      it started from, or of an empty one once a new conversation was listed;
      when nothing was selected, the new conversation ("New Chat", owned by
      the user, with the next free id) is selected and, once listed, the
      sidebar shows every conversation; the store holds exactly the rows of
      `SavedRows` in addition, in the selected conversation, numbered after
      it. */
  ghost predicate SendEffect(s: Snapshot, t: Snapshot, o: SendOutcome, content: string, owner: string, now: nat)
    requires !o.Skipped?
  {
    var created := s.selected.None? && !FailedAt(o, Creating);
    var refreshed := s.selected.None? && HadConversation(o);
    && !t.isLoading && t.streaming == ""
    && t.messages == AfterSend(if refreshed then [] else s.messages, content, o, now)
    && t.selected == (if created then Some(s.nextId) else s.selected)
    && t.stored == s.stored + (if created then [Conversation(s.nextId, NewChatTitle, owner, now, now)] else [])
    && t.conversations == (if refreshed then Entries(ByRecentUpdate(t.stored)) else s.conversations)
    && (!Asked(o) ==> t.saved == s.saved)
    && (Asked(o) ==> && t.selected.Some?
                     && t.saved == s.saved + SavedRows(s.nextId + (if created then 1 else 0), t.selected.value,
                                                       content, o, now))
  }

  /** Every send past its guard has the effect `SendEffect` describes. */
  lemma SentEffect(s: Snapshot, content: string, owner: string, reply: GeminiOutcome, faults: StoreFaults, now: nat)
    ensures !PastGuard(owner, s.selected, s.stored, reply, faults).Skipped?
    ensures SendEffect(s, Sent(s, content, owner, reply, faults, now), PastGuard(owner, s.selected, s.stored, reply, faults),
                       content, owner, now)
  {
    if StartFailure(owner, s.selected, faults).Some? {
      SentWhenStartFails(s, content, owner, reply, faults, now);
    } else {
      SentAfterStart(s, content, owner, reply, faults, now);
    }
  }

  lemma SentWhenStartFails(s: Snapshot, content: string, owner: string, reply: GeminiOutcome, faults: StoreFaults,
                           now: nat)
    requires StartFailure(owner, s.selected, faults).Some?
    ensures SendEffect(s, Sent(s, content, owner, reply, faults, now), PastGuard(owner, s.selected, s.stored, reply, faults),
                       content, owner, now)
  {
  }

  lemma SentAfterStart(s: Snapshot, content: string, owner: string, reply: GeminiOutcome, faults: StoreFaults, now: nat)
    requires StartFailure(owner, s.selected, faults).None?
    ensures SendEffect(s, Sent(s, content, owner, reply, faults, now), PastGuard(owner, s.selected, s.stored, reply, faults),
                       content, owner, now)
  {
    if Asked(PastGuard(owner, s.selected, s.stored, reply, faults)) {
      SentAfterPrompt(s, content, owner, reply, faults, now);
    }
  }

  lemma SentAfterPrompt(s: Snapshot, content: string, owner: string, reply: GeminiOutcome, faults: StoreFaults, now: nat)
    requires StartFailure(owner, s.selected, faults).None?
    requires Asked(PastGuard(owner, s.selected, s.stored, reply, faults))
    ensures SendEffect(s, Sent(s, content, owner, reply, faults, now), PastGuard(owner, s.selected, s.stored, reply, faults),
                       content, owner, now)
  {
    var o := PastGuard(owner, s.selected, s.stored, reply, faults);
    var t := Started(s.(isLoading := true, streaming := ""), owner, faults, now);
    var u := t.(messages := t.messages + [UserMessage(content, now)],
                saved := t.saved + [StoredMessage(t.nextId, t.selected.value, User, content, now)],
                nextId := t.nextId + 1);
    assert t.saved == s.saved;
    assert u.saved + SavedReply(u.nextId, u.selected.value, o, now)
           == s.saved + SavedRows(t.nextId, t.selected.value, content, o, now);
  }

  /** With a limit of one, the history query returns a newest message of
      the conversation, if it has any. */
  lemma NewestMessage(ms: seq<StoredMessage>, id: Id)
    requires MessagesOf(ms, id) != []
    ensures var latest := LatestMessages(ms, id, 1); var all := MessagesOf(ms, id);
      && |latest| == 1 && latest[0] in all
      && forall m' :: m' in all ==> m'.createdAt <= latest[0].createdAt
  {
    LatestMessagesSpec(ms, id, 1);
    NewestOfOne(LatestMessages(ms, id, 1), MessagesOf(ms, id));
  }

  lemma NewestOfOne(latest: seq<StoredMessage>, all: seq<StoredMessage>)
    requires |latest| == 1 && multiset(latest) <= multiset(all)
    requires forall x, y :: x in latest && y in multiset(all) - multiset(latest) ==> y.createdAt <= x.createdAt
    ensures latest[0] in all && forall m' :: m' in all ==> m'.createdAt <= latest[0].createdAt
  {
    var m := latest[0];
    assert latest == [m];
    assert m in multiset(latest);
    forall m' | m' in all ensures m'.createdAt <= m.createdAt {
      if m' != m {
        assert m' in multiset(all) - multiset(latest);
      }
    }
  }

  class StreamingChatInterface {
    const store: ConversationService
    /** The signed-in user of `useAuth`. */
    const user: Option<AuthUser>
    /** The `conversationId` prop. */
    const initialConversationId: Option<Id>
    var conversations: seq<SidebarEntry>
    var selectedConversationId: Option<Id>
    var messages: seq<Message>
    var isLoading: bool
    var streamingMessage: string

    ghost predicate Valid()
      reads this, store
    {
      store.Valid()
    }

    /** The first render: an empty sidebar, the prop's conversation selected,
        the greeting alone. */
    constructor(store: ConversationService, user: Option<AuthUser>, initialConversationId: Option<Id>, now: nat)
      requires store.Valid()
      ensures Valid()
      ensures this.store == store && this.user == user && this.initialConversationId == initialConversationId
      ensures conversations == [] && selectedConversationId == initialConversationId
      ensures messages == [GreetingMessage(now)] && !isLoading && streamingMessage == ""
    {
      this.store := store;
      this.user := user;
      this.initialConversationId := initialConversationId;
      conversations := [];
      selectedConversationId := initialConversationId;
      messages := [GreetingMessage(now)];
      isLoading := false;
      streamingMessage := "";
    }

    /** The row for one conversation as the mount effect builds it. */
    function WithPreview(c: Conversation): (e: SidebarEntry)
      reads store
      ensures e.conversation == c && e.preview.Some?
    {
      var latest := store.GetConversationHistory(c.id, None, 1);
      SidebarEntry(c, Some(LatestContent(latest.value)))
    }

    function WithPreviews(cs: seq<Conversation>): (r: seq<SidebarEntry>)
      reads store
      ensures |r| == |cs|
    {
      seq(|cs|, i requires 0 <= i < |cs| reads store => WithPreview(cs[i]))
    }

    /** The preview of a conversation is the text of one of its newest
        messages, or empty when it has none. */
    lemma PreviewIsNewest(c: Conversation)
      ensures var p := WithPreview(c).preview.value; var all := MessagesOf(store.messages, c.id);
        && (all == [] ==> p == "")
        && (all != [] ==> exists m :: m in all && m.content == p &&
                            forall m' :: m' in all ==> m'.createdAt <= m.createdAt)
    {
      var all := MessagesOf(store.messages, c.id);
      LatestMessagesSpec(store.messages, c.id, 1);
      if all != [] {
        NewestMessage(store.messages, c.id);
        var m := LatestMessages(store.messages, c.id, 1)[0];
        assert m in all;
      }
    }

    /** The mount effect, `fetchConversations`: for a signed-in user, the
        listing with a preview per row, then the messages of the prop's
        conversation. Any failure empties the sidebar, even one that comes
        after the sidebar was filled. */
    method FetchConversations(listError: Option<string>, historyError: Option<string>,
                              conversationError: Option<string>, messagesError: Option<string>)
      requires Valid()
      modifies this
      ensures Valid()
      ensures selectedConversationId == old(selectedConversationId)
      ensures isLoading == old(isLoading) && streamingMessage == old(streamingMessage)
      ensures user.None? ==> conversations == old(conversations) && messages == old(messages)
      ensures user.Some? ==>
                var listed := store.GetConversations(listError);
                var loaded := if initialConversationId.Some?
                              then store.GetConversation(initialConversationId.value, conversationError, messagesError)
                              else Err("");
                var ok := listed.Ok? && (listed.value == [] || historyError.None?)
                          && (initialConversationId.None? || loaded.Ok?);
                && (ok ==> conversations == WithPreviews(listed.value))
                && (!ok ==> conversations == [])
                && (ok && initialConversationId.Some? ==> messages == ShownAll(loaded.value.messages))
                && (!ok || initialConversationId.None? ==> messages == old(messages))
    {
      if user.None? {
        return;
      }
      var listed := store.GetConversations(listError);
      if listed.Err? || (listed.value != [] && historyError.Some?) {
        conversations := [];
        return;
      }
      conversations := WithPreviews(listed.value);
      if initialConversationId.Some? {
        var threw := ShowConversation(initialConversationId.value, conversationError, messagesError);
        if threw.Some? {
          conversations := [];
        }
      }
    }

    /** `getConversation` and, if it succeeds, its messages replace the
        list. */
    method ShowConversation(id: Id, conversationError: Option<string>, messagesError: Option<string>)
      returns (threw: Option<string>)
      requires Valid()
      modifies this
      ensures Valid()
      ensures selectedConversationId == old(selectedConversationId)
      ensures conversations == old(conversations) && isLoading == old(isLoading)
      ensures streamingMessage == old(streamingMessage)
      ensures threw.None? <==> store.GetConversation(id, conversationError, messagesError).Ok?
      ensures threw.None? ==> messages == ShownAll(store.GetConversation(id, conversationError, messagesError).value.messages)
      ensures threw.Some? ==> messages == old(messages)
    {
      var loaded := store.GetConversation(id, conversationError, messagesError);
      if loaded.Err? {
        return Some(loaded.error);
      }
      messages := ShownAll(loaded.value.messages);
      threw := None;
    }

    /** The window and the store as a `Snapshot`. */
    ghost function Snap(): Snapshot
      reads this, store
    {
      Snapshot(conversations, selectedConversationId, messages, isLoading, streamingMessage,
               store.conversations, store.messages, store.nextId)
    }

    /** `handleSendMessage`. A blank text, or no user, changes nothing.
        Otherwise the send runs as `Sent` describes (see `SentEffect`): a
        conversation is created when none is selected, the prompt is saved
        and shown, `/api/gemini` is asked with the history of the list as it
        was when the send began, the reply is saved and shown, and a failure
        at any step adds one error reply instead. Loading ends in every
        case. */
    method HandleSendMessage(content: string, reply: GeminiOutcome, faults: StoreFaults, now: nat)
      returns (o: SendOutcome, request: Option<GeminiRequest>)
      requires Valid()
      modifies this, store
      ensures Valid()
      ensures o == SendOutcomeOf(content, user, old(selectedConversationId), old(store.conversations), reply, faults)
      ensures o.Skipped? ==> Snap() == old(Snap())
      ensures !o.Skipped? ==> Snap() == Sent(old(Snap()), content, user.value.id, reply, faults, now)
      ensures request.Some? <==> Asked(o)
      ensures request.Some? ==>
                && request.value.message == content
                && request.value.conversationHistory == HistoryOf(old(messages))
                && selectedConversationId == Some(request.value.conversationId)
    {
      var blank := TrimsToEmpty(content);
      if blank || user.None? {
        o, request := Skipped, None;
        assert request.Some? <==> Asked(o);
      } else {
        o, request := Send(content, reply, faults, now);
        assert request.Some? <==> Asked(o);
      }
    }

    /** The send past its guard. */
    method Send(content: string, reply: GeminiOutcome, faults: StoreFaults, now: nat)
      returns (o: SendOutcome, request: Option<GeminiRequest>)
      requires Valid() && user.Some? && !IsBlank(content)
      modifies this, store
      ensures Valid()
      ensures o == PastGuard(user.value.id, old(selectedConversationId), old(store.conversations), reply, faults)
      ensures o == SendOutcomeOf(content, user, old(selectedConversationId), old(store.conversations), reply, faults)
      ensures !o.Skipped?
      ensures Snap() == Sent(old(Snap()), content, user.value.id, reply, faults, now)
      ensures request.Some? <==> Asked(o)
      ensures request.Some? ==>
                && request.value.message == content
                && request.value.conversationHistory == HistoryOf(old(messages))
                && selectedConversationId == Some(request.value.conversationId)
    {
      isLoading := true;
      streamingMessage := "";
      var history := HistoryOf(messages);
      var failure := StartConversation(faults, now);
      if failure.Some? {
        Settle(failure.value.error, now);
        return failure.value, None;
      }
      o, request := Converse(content, history, reply, faults, now);
    }

    /** Creating and listing, when nothing is selected: the new conversation
        takes the next free id and is selected; once listed, the sidebar
        shows every conversation and the list is cleared. */
    method StartConversation(faults: StoreFaults, now: nat) returns (failure: Option<SendOutcome>)
      requires Valid() && user.Some?
      modifies this, store
      ensures Valid()
      ensures failure == StartFailure(user.value.id, old(selectedConversationId), faults)
      ensures Snap() == Started(old(Snap()), user.value.id, faults, now)
    {
      if selectedConversationId.Some? {
        return None;
      }
      var created := store.CreateConversation(NewChatTitle, Some(user.value.id), now, faults.create);
      if created.Err? {
        return Some(Failed(Creating, created.error));
      }
      selectedConversationId := Some(created.value.id);
      var listed := store.GetConversations(faults.list);
      if listed.Err? {
        return Some(Failed(Listing, listed.error));
      }
      conversations := Entries(listed.value);
      messages := [];
      failure := None;
    }

    /** Saving the prompt, asking, saving the reply, for the selected
        conversation; each failure ends the send with an error reply. */
    method Converse(content: string, history: seq<Turn>, reply: GeminiOutcome, faults: StoreFaults, now: nat)
      returns (o: SendOutcome, request: Option<GeminiRequest>)
      requires Valid() && user.Some? && selectedConversationId.Some?
      modifies this, store
      ensures Valid()
      ensures o == ConverseOutcome(user.value.id, HasConversation(old(store.conversations), old(selectedConversationId).value),
                                   reply, faults)
      ensures Snap() == Conversed(old(Snap()), content, user.value.id, reply, faults, now)
      ensures request == if Asked(o) then Some(GeminiRequest(content, old(selectedConversationId).value, history)) else None
    {
      var id := selectedConversationId.value;
      var saved := store.AddMessage(id, User, content, Some(user.value.id), now, faults.savePrompt);
      if saved.Err? {
        o := Failed(SavingPrompt, saved.error);
        Settle(o.error, now);
        return o, None;
      }
      messages := messages + [UserMessage(content, now)];
      request := Some(GeminiRequest(content, id, history));
      o := AwaitReply(reply, faults.saveReply, now);
    }

    /** The request and the saving of its reply: the reply, or an error
        reply, ends the list. */
    method AwaitReply(reply: GeminiOutcome, saveReply: Option<string>, now: nat) returns (o: SendOutcome)
      requires Valid() && user.Some? && user.value.id != "" && selectedConversationId.Some?
      requires HasConversation(store.conversations, selectedConversationId.value)
      modifies this, store
      ensures Valid()
      ensures o == ReplyOutcome(reply, saveReply)
      ensures Snap() == Answered(old(Snap()), reply, saveReply, now)
    {
      if !reply.Replied? {
        o := Failed(Asking, Complaint(reply));
        Settle(o.error, now);
        return;
      }
      var saved := store.AddMessage(selectedConversationId.value, Assistant, reply.response, Some(user.value.id), now,
                                    saveReply);
      if saved.Err? {
        o := Failed(SavingReply, saved.error);
        Settle(o.error, now);
        return;
      }
      messages := messages + [AssistantMessage(reply.response, now)];
      isLoading := false;
      o := Delivered(reply.response);
    }

    /** The `catch` and `finally` of a send: the error reply, and loading ends. */
    method Settle(error: string, now: nat)
      modifies this
      ensures Snap() == Settled(old(Snap()), error, now)
    {
      messages := messages + [ErrorReply(error, now)];
      isLoading := false;
    }

    /** A sidebar row's click: the conversation is selected at once; its
        messages, oldest first, replace the list if they load. */
    method SelectConversation(id: Id, conversationError: Option<string>, messagesError: Option<string>)
      returns (threw: Option<string>)
      requires Valid()
      modifies this
      ensures Valid()
      ensures selectedConversationId == Some(id)
      ensures conversations == old(conversations) && isLoading == old(isLoading)
      ensures streamingMessage == old(streamingMessage)
      ensures threw.None? <==> store.GetConversation(id, conversationError, messagesError).Ok?
      ensures threw.None? ==> messages == ShownAll(store.GetConversation(id, conversationError, messagesError).value.messages)
      ensures threw.Some? ==> messages == old(messages)
    {
      selectedConversationId := Some(id);
      threw := ShowConversation(id, conversationError, messagesError);
    }

    /** A row's delete button: once the store has deleted the conversation,
        its row leaves the sidebar; if it was the selected one, nothing is
        selected and the list is back to the greeting. */
    method DeleteConversation(id: Id, backendError: Option<string>, now: nat) returns (threw: Option<string>)
      requires Valid()
      modifies this, store
      ensures Valid()
      ensures threw.Some? <==> backendError.Some?
      ensures threw.Some? ==>
                && conversations == old(conversations) && messages == old(messages)
                && selectedConversationId == old(selectedConversationId)
                && store.conversations == old(store.conversations) && store.messages == old(store.messages)
      ensures threw.None? ==>
                && store.conversations == WithoutConversation(old(store.conversations), id)
                && store.messages == WithoutMessagesOf(old(store.messages), id)
                && !HasConversation(store.conversations, id)
                && conversations == Filter(old(conversations), NotRowOf(id))
                && (forall e :: e in conversations <==> e in old(conversations) && e.conversation.id != id)
      ensures threw.None? && old(selectedConversationId) == Some(id) ==>
                selectedConversationId.None? && messages == [GreetingMessage(now)]
      ensures threw.None? && old(selectedConversationId) != Some(id) ==>
                selectedConversationId == old(selectedConversationId) && messages == old(messages)
      ensures isLoading == old(isLoading) && streamingMessage == old(streamingMessage)
    {
      var deleted := store.DeleteConversation(id, backendError);
      if deleted.Err? {
        return Some(deleted.error);
      }
      forall e ensures e in Filter(conversations, NotRowOf(id)) <==> e in conversations && e.conversation.id != id {
        FilterMembership(conversations, NotRowOf(id), e);
      }
      conversations := Filter(conversations, NotRowOf(id));
      if selectedConversationId == Some(id) {
        selectedConversationId := None;
        messages := [GreetingMessage(now)];
      }
      threw := None;
    }

    /** The "+ New Chat" button: for a signed-in user, a "New Chat" of theirs
        is created and selected and the list cleared, then the sidebar is
        refreshed. */
    method NewChat(now: nat, createError: Option<string>, listError: Option<string>) returns (threw: Option<string>)
      requires Valid()
      modifies this, store
      ensures Valid()
      ensures user.None? ==>
                && threw.None? && conversations == old(conversations) && messages == old(messages)
                && selectedConversationId == old(selectedConversationId)
                && store.conversations == old(store.conversations)
      ensures user.Some? ==> (threw.Some? <==> user.value.id == "" || createError.Some? || listError.Some?)
      ensures user.Some? && (user.value.id == "" || createError.Some?) ==>
                && conversations == old(conversations) && messages == old(messages)
                && selectedConversationId == old(selectedConversationId)
                && store.conversations == old(store.conversations)
      ensures user.Some? && user.value.id != "" && createError.None? ==>
                && selectedConversationId.Some? && messages == []
                && !HasConversation(old(store.conversations), selectedConversationId.value)
                && store.conversations == old(store.conversations) +
                     [Conversation(selectedConversationId.value, NewChatTitle, user.value.id, now, now)]
                && (listError.None? ==> conversations == Entries(ByRecentUpdate(store.conversations)))
                && (listError.Some? ==> conversations == old(conversations))
      ensures store.messages == old(store.messages) && isLoading == old(isLoading)
      ensures streamingMessage == old(streamingMessage)
    {
      if user.None? {
        return None;
      }
      var created := store.CreateConversation(NewChatTitle, Some(user.value.id), now, createError);
      if created.Err? {
        return Some(created.error);
      }
      selectedConversationId := Some(created.value.id);
      messages := [];
      var listed := store.GetConversations(listError);
      if listed.Err? {
        return Some(listed.error);
      }
      conversations := Entries(listed.value);
      threw := None;
    }
  }
}
