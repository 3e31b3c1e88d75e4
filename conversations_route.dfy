/** `app/api/conversations/route.ts`: listing (`GET`) and creating (`POST`)
    conversations for the signed-in user, over the store of
    `lib/conversation-service.ts`. The outcome of the auth check is an
    input. */
module ConversationsRoute {
  import opened Basics
  import opened Seqs
  import opened ChatTypes
  import opened Conversations

  const AuthRequired := "Authentication required"
  const FetchFailed := "Failed to fetch conversations"
  const TitleRequired := "Title is required"
  const CreateFailed := "Failed to create conversation"

  /** `supabase.auth.getUser()`: the user and the error it reports, or an
      exception. */
  datatype AuthOutcome = Answered(user: Option<AuthUser>, error: Option<string>) | AuthThrew

  predicate SignedIn(a: AuthOutcome) {
    a.Answered? && a.error.None? && a.user.Some?
  }

  datatype Body =
    | ErrorBody(error: string)
    | Listed(conversations: seq<Conversation>)
    | Created(conversation: Conversation)

  datatype Response = Response(status: nat, body: Body)

  /** `GET`: 401 unless signed in; otherwise the store's listing, or 500 if
      it fails. */
  function Get(store: ConversationService, auth: AuthOutcome, backendError: Option<string>): (r: Response)
    reads store
    ensures auth.AuthThrew? ==> r == Response(500, ErrorBody(FetchFailed))
    ensures auth.Answered? && !SignedIn(auth) ==> r == Response(401, ErrorBody(AuthRequired))
    ensures SignedIn(auth) && backendError.Some? ==> r == Response(500, ErrorBody(FetchFailed))
    ensures r.status == 200 <==> SignedIn(auth) && backendError.None?
    ensures r.status == 200 ==>
              && r.body.Listed?
              && multiset(r.body.conversations) == multiset(store.conversations)
              && NonIncreasing(r.body.conversations, UpdatedAt)
  {
    match auth
    case AuthThrew => Response(500, ErrorBody(FetchFailed))
    case Answered(user, error) =>
      if error.Some? || user.None? then Response(401, ErrorBody(AuthRequired))
      else
        match store.GetConversations(backendError)
        case Err(_) => Response(500, ErrorBody(FetchFailed))
        case Ok(cs) => Response(200, Listed(cs))
  }

  /** The `POST` body; `title` may be absent. */
  datatype TitleBody = TitleBody(title: Option<string>)

  /** `POST`: the title is checked first, then the user; the conversation is
      then created without a user id, which the store always refuses, so a
      request that passes both checks ends in 500 and nothing is written. */
  method Post(store: ConversationService, body: Result<TitleBody, Thrown>, auth: AuthOutcome,
              now: nat, backendError: Option<string>)
    returns (r: Response)
    requires store.Valid()
    modifies store
    ensures store.Valid()
    ensures body.Err? ==> r == Response(500, ErrorBody(CreateFailed))
    ensures body.Ok? && !Truthy(body.value.title) ==> r == Response(400, ErrorBody(TitleRequired))
    ensures body.Ok? && Truthy(body.value.title) && auth.Answered? && !SignedIn(auth) ==>
              r == Response(401, ErrorBody(AuthRequired))
    ensures body.Ok? && Truthy(body.value.title) && (SignedIn(auth) || auth.AuthThrew?) ==>
              r == Response(500, ErrorBody(CreateFailed))
    ensures r.status != 200
    ensures store.conversations == old(store.conversations) && store.messages == old(store.messages)
    ensures store.nextId == old(store.nextId)
  {
    if body.Err? {
      return Response(500, ErrorBody(CreateFailed));
    }
    var title := body.value.title;
    if !Truthy(title) {
      return Response(400, ErrorBody(TitleRequired));
    }
    if auth.AuthThrew? {
      return Response(500, ErrorBody(CreateFailed));
    }
    if !SignedIn(auth) {
      return Response(401, ErrorBody(AuthRequired));
    }
    var created := store.CreateConversation(title.value, None, now, backendError);
    if created.Ok? {
      // Reaching this point would need a user id; the store has refused.
      assert false;
    }
    r := Response(500, ErrorBody(CreateFailed));
  }

  /** `POST` as intended: the conversation is created for the signed-in user,
      and the new row is returned with status 200. */
  method PostAsUser(store: ConversationService, body: Result<TitleBody, Thrown>, auth: AuthOutcome,
                    now: nat, backendError: Option<string>)
    returns (r: Response)
    requires store.Valid()
    modifies store
    ensures store.Valid()
    ensures body.Err? ==> r == Response(500, ErrorBody(CreateFailed))
    ensures body.Ok? && !Truthy(body.value.title) ==> r == Response(400, ErrorBody(TitleRequired))
    ensures body.Ok? && Truthy(body.value.title) && auth.Answered? && !SignedIn(auth) ==>
              r == Response(401, ErrorBody(AuthRequired))
    ensures body.Ok? && Truthy(body.value.title) && auth.AuthThrew? ==> r == Response(500, ErrorBody(CreateFailed))
    ensures r.status == 200 <==>
              body.Ok? && Truthy(body.value.title) && SignedIn(auth) && auth.user.value.id != "" && backendError.None?
    ensures r.status == 200 ==>
              && r.body.Created?
              && r.body.conversation.title == body.value.title.value
              && r.body.conversation.userId == auth.user.value.id
              && store.conversations == old(store.conversations) + [r.body.conversation]
    ensures r.status != 200 ==> store.conversations == old(store.conversations) && r.status in {400, 401, 500}
    ensures store.messages == old(store.messages)
  {
    if body.Err? {
      return Response(500, ErrorBody(CreateFailed));
    }
    var title := body.value.title;
    if !Truthy(title) {
      return Response(400, ErrorBody(TitleRequired));
    }
    if auth.AuthThrew? {
      return Response(500, ErrorBody(CreateFailed));
    }
    if !SignedIn(auth) {
      return Response(401, ErrorBody(AuthRequired));
    }
    var created := store.CreateConversation(title.value, Some(auth.user.value.id), now, backendError);
    if created.Err? {
      return Response(500, ErrorBody(CreateFailed));
    }
    r := Response(200, Created(created.value));
  }
}
