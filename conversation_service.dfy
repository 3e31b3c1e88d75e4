/** `lib/conversation-service.ts`: the `ConversationService` over the hosted
    database's `conversations` and `messages` tables.

    The two tables are the fields of a class; each service call is a method (if
    it writes) or a function reading the object (if it only queries). Backend
    failures (network, row-level security, anything the database reports) are
    explicit `Option<string>` inputs carrying the backend's message; identifiers
    come from the counter `nextId`; timestamps are the input `now`. */
module Conversations {
  import opened Basics
  import opened Seqs
  import opened ChatTypes

  type Id = nat

  /** A row of `conversations(id, title, user_id, created_at, updated_at)`. */
  datatype Conversation = Conversation(id: Id, title: string, userId: string, createdAt: nat, updatedAt: nat)

  /** A row of `messages(id, conversation_id, role, content, created_at)`. */
  datatype StoredMessage = StoredMessage(id: Id, conversationId: Id, role: Role, content: string, createdAt: nat)

  /** What `getConversation` returns. */
  datatype ConversationWithMessages = ConversationWithMessages(conversation: Conversation, messages: seq<StoredMessage>)

  const UserIdRequiredForConversation := "User ID is required to create a conversation (RLS enforced)"
  const UserIdRequiredForMessage := "User ID is required to add a message (RLS enforced)"

  /** The backend's detail when `.single()` finds no row. */
  const NoRowDetail := "JSON object requested, multiple (or no) rows returned"

  /** The backend's detail when a message names a conversation that does not
      exist (the foreign key from `messages.conversation_id`). */
  const MissingParentDetail := "violates foreign key constraint on messages.conversation_id"

  // ---------------------------------------------------------------------------
  // Column keys and row predicates

  function UpdatedAt(c: Conversation): int { c.updatedAt }
  function CreatedAt(m: StoredMessage): int { m.createdAt }
  function OlderFirst(m: StoredMessage): int { - (m.createdAt as int) }
  function ConversationKey(c: Conversation): int { c.id }
  function MessageKey(m: StoredMessage): int { m.id }

  function BelongsTo(id: Id): StoredMessage -> bool {
    (m: StoredMessage) => m.conversationId == id
  }

  function NotBelongingTo(id: Id): StoredMessage -> bool {
    (m: StoredMessage) => m.conversationId != id
  }

  function NotWithId(id: Id): Conversation -> bool {
    (c: Conversation) => c.id != id
  }

  // ---------------------------------------------------------------------------
  // The queries, as functions of the table contents

  predicate HasConversation(cs: seq<Conversation>, id: Id) {
    exists i :: 0 <= i < |cs| && cs[i].id == id
  }

  /** The row with id `id` (the first, though ids are unique in a valid store). */
  function FindConversation(cs: seq<Conversation>, id: Id): (r: Option<Conversation>)
    ensures r.Some? <==> HasConversation(cs, id)
    ensures r.Some? ==> r.value in cs && r.value.id == id
  {
    if cs == [] then None
    else if cs[0].id == id then Some(cs[0])
    else
      var r := FindConversation(cs[1..], id);
      assert HasConversation(cs[1..], id) <==> HasConversation(cs, id) by {
        if HasConversation(cs, id) {
          var i :| 0 <= i < |cs| && cs[i].id == id;
          assert cs[1..][i - 1].id == id;
        }
      }
      r
  }

  /** `WHERE conversation_id = id`. */
  function MessagesOf(ms: seq<StoredMessage>, id: Id): (r: seq<StoredMessage>)
    ensures forall m :: multiset(r)[m] == if m.conversationId == id then multiset(ms)[m] else 0
  {
    FilterMultisetAll(ms, BelongsTo(id));
    Filter(ms, BelongsTo(id))
  }

  lemma FilterMultisetAll<T>(s: seq<T>, p: T -> bool)
    ensures forall x :: multiset(Filter(s, p))[x] == if p(x) then multiset(s)[x] else 0
  {
    forall x ensures multiset(Filter(s, p))[x] == if p(x) then multiset(s)[x] else 0 {
      FilterMultiset(s, p, x);
    }
  }

  /** `ORDER BY updated_at DESC`. */
  function ByRecentUpdate(cs: seq<Conversation>): seq<Conversation> {
    SortDesc(cs, UpdatedAt)
  }

  /** `ORDER BY created_at ASC`. */
  function Chronological(ms: seq<StoredMessage>): (r: seq<StoredMessage>)
    ensures multiset(r) == multiset(ms)
    ensures NonDecreasing(r, CreatedAt)
  {
    var r := SortDesc(ms, OlderFirst);
    assert forall i, j :: 0 <= i < j < |r| ==> OlderFirst(r[i]) >= OlderFirst(r[j]);
    r
  }

  /** `WHERE conversation_id = id ORDER BY created_at DESC LIMIT limit`, then
      reversed. */
  function LatestMessages(ms: seq<StoredMessage>, id: Id, limit: nat): seq<StoredMessage> {
    Reverse(Take(SortDesc(MessagesOf(ms, id), CreatedAt), limit))
  }

  /** `getConversationHistory` returns `min(limit, n)` messages of the
      conversation, oldest first, and no message of the conversation left out
      is newer than one it returns. */
  lemma LatestMessagesSpec(ms: seq<StoredMessage>, id: Id, limit: nat)
    ensures var r := LatestMessages(ms, id, limit); var all := MessagesOf(ms, id);
      && |r| == (if limit < |all| then limit else |all|)
      && NonDecreasing(r, CreatedAt)
      && multiset(r) <= multiset(all)
      && (forall m :: m in r ==> m.conversationId == id)
      && (forall x, y :: x in r && y in multiset(all) - multiset(r) ==> y.createdAt <= x.createdAt)
  {
    LatestSize(ms, id, limit);
    LatestBelong(ms, id, limit);
    LatestNewest(ms, id, limit);
  }

  lemma LatestSize(ms: seq<StoredMessage>, id: Id, limit: nat)
    ensures var r := LatestMessages(ms, id, limit); var all := MessagesOf(ms, id);
      && |r| == (if limit < |all| then limit else |all|)
      && NonDecreasing(r, CreatedAt)
  {
    ReverseNonIncreasing(Take(SortDesc(MessagesOf(ms, id), CreatedAt), limit), CreatedAt);
  }

  lemma LatestBelong(ms: seq<StoredMessage>, id: Id, limit: nat)
    ensures var r := LatestMessages(ms, id, limit); var all := MessagesOf(ms, id);
      && multiset(r) <= multiset(all)
      && (forall m :: m in r ==> m.conversationId == id)
  {
    var all := MessagesOf(ms, id);
    var sorted := SortDesc(all, CreatedAt);
    var top := Take(sorted, limit);
    var r := Reverse(top);
    ReverseMultiset(top);
    TakeIsLargest(sorted, CreatedAt, limit);
    forall m | m in r ensures m.conversationId == id {
      assert m in multiset(r);
      assert m in multiset(all);
    }
  }

  lemma LatestNewest(ms: seq<StoredMessage>, id: Id, limit: nat)
    ensures var r := LatestMessages(ms, id, limit); var all := MessagesOf(ms, id);
      forall x, y :: x in r && y in multiset(all) - multiset(r) ==> y.createdAt <= x.createdAt
  {
    var all := MessagesOf(ms, id);
    var sorted := SortDesc(all, CreatedAt);
    var top := Take(sorted, limit);
    var r := Reverse(top);
    ReverseMultiset(top);
    TakeIsLargest(sorted, CreatedAt, limit);
    forall x: StoredMessage, y: StoredMessage | x in r && y in multiset(all) - multiset(r)
      ensures y.createdAt <= x.createdAt
    {
      assert x in multiset(top);
      assert CreatedAt(y) <= CreatedAt(x);
    }
  }

  /** Only the rows of `conversations` whose id is not `id`. */
  function WithoutConversation(cs: seq<Conversation>, id: Id): seq<Conversation> {
    Filter(cs, NotWithId(id))
  }

  /** Only the messages that do not belong to conversation `id`. */
  function WithoutMessagesOf(ms: seq<StoredMessage>, id: Id): seq<StoredMessage> {
    Filter(ms, NotBelongingTo(id))
  }

  /** `UPDATE conversations SET title = title WHERE id = id`. */
  function Retitled(cs: seq<Conversation>, id: Id, title: string): (r: seq<Conversation>)
    ensures |r| == |cs|
    ensures forall i :: 0 <= i < |cs| ==> r[i].id == cs[i].id
  {
    seq(|cs|, i requires 0 <= i < |cs| => if cs[i].id == id then cs[i].(title := title) else cs[i])
  }

  // ---------------------------------------------------------------------------
  // Distinct keys survive filtering

  predicate DistinctKeys<T>(s: seq<T>, key: T -> int) {
    forall i, j :: 0 <= i < j < |s| ==> key(s[i]) != key(s[j])
  }

  lemma {:induction false} FilterKeepsDistinctKeys<T>(s: seq<T>, p: T -> bool, key: T -> int)
    requires DistinctKeys(s, key)
    ensures DistinctKeys(Filter(s, p), key)
  {
    if s != [] {
      FilterKeepsDistinctKeys(s[1..], p, key);
      var rest := Filter(s[1..], p);
      forall y | y in rest ensures key(y) != key(s[0]) {
        FilterMembership(s[1..], p, y);
        var j :| 0 <= j < |s[1..]| && s[1..][j] == y;
        assert s[j + 1] == y;
      }
      if p(s[0]) {
        var r := [s[0]] + rest;
        forall i, j | 0 <= i < j < |r| ensures key(r[i]) != key(r[j]) {
          if i == 0 {
            assert r[j] == rest[j - 1] && r[j] in rest;
          } else {
            assert r[i] == rest[i - 1] && r[j] == rest[j - 1];
          }
        }
      }
    }
  }

  // ---------------------------------------------------------------------------
  // The service

  class ConversationService {
    var conversations: seq<Conversation>
    var messages: seq<StoredMessage>
    var nextId: nat

    /** Ids are unique in each table and below `nextId`; every message belongs
        to a conversation that exists. */
    ghost predicate Valid()
      reads this
    {
      && (forall i :: 0 <= i < |conversations| ==> conversations[i].id < nextId)
      && (forall i :: 0 <= i < |messages| ==> messages[i].id < nextId)
      && DistinctKeys(conversations, ConversationKey)
      && DistinctKeys(messages, MessageKey)
      && (forall i :: 0 <= i < |messages| ==> HasConversation(conversations, messages[i].conversationId))
    }

    constructor ()
      ensures Valid()
      ensures conversations == [] && messages == []
    {
      conversations, messages, nextId := [], [], 0;
    }

    /** `getConversations`: every conversation, most recently updated first. */
    function GetConversations(backendError: Option<string>): (r: Result<seq<Conversation>, string>)
      reads this
      ensures r.Err? <==> backendError.Some?
      ensures r.Err? ==> r.error == "Failed to fetch conversations: " + backendError.value
      ensures r.Ok? ==> multiset(r.value) == multiset(conversations)
      ensures r.Ok? ==> NonIncreasing(r.value, UpdatedAt)
    {
      match backendError
      case Some(e) => Err("Failed to fetch conversations: " + e)
      case None => Ok(ByRecentUpdate(conversations))
    }

    /** `getConversation`: the row with that id and exactly its messages,
        oldest first; an error when the row is missing or the backend fails. */
    function GetConversation(id: Id, conversationError: Option<string>, messagesError: Option<string>)
      : (r: Result<ConversationWithMessages, string>)
      reads this
      ensures r.Ok? <==> conversationError.None? && HasConversation(conversations, id) && messagesError.None?
      ensures conversationError.Some? ==> r == Err("Failed to fetch conversation: " + conversationError.value)
      ensures conversationError.None? && !HasConversation(conversations, id) ==>
                r == Err("Failed to fetch conversation: " + NoRowDetail)
      ensures conversationError.None? && HasConversation(conversations, id) && messagesError.Some? ==>
                r == Err("Failed to fetch messages: " + messagesError.value)
      ensures r.Ok? ==> r.value.conversation in conversations && r.value.conversation.id == id
      ensures r.Ok? ==> NonDecreasing(r.value.messages, CreatedAt)
      ensures r.Ok? ==> forall m :: multiset(r.value.messages)[m] ==
                          if m.conversationId == id then multiset(messages)[m] else 0
    {
      if conversationError.Some? then Err("Failed to fetch conversation: " + conversationError.value)
      else
        match FindConversation(conversations, id)
        case None => Err("Failed to fetch conversation: " + NoRowDetail)
        case Some(c) =>
          if messagesError.Some? then Err("Failed to fetch messages: " + messagesError.value)
          else Ok(ConversationWithMessages(c, Chronological(MessagesOf(messages, id))))
    }

    /** `getConversationHistory(conversationId, limit = 10)`: the role and
        content of the latest `limit` messages, oldest first. */
    function GetConversationHistory(conversationId: Id, backendError: Option<string>, limit: nat := 10)
      : (r: Result<seq<Turn>, string>)
      reads this
      ensures r.Err? <==> backendError.Some?
      ensures r.Err? ==> r.error == "Failed to fetch conversation history: " + backendError.value
      ensures r.Ok? ==> |r.value| <= limit
      ensures r.Ok? ==> var latest := LatestMessages(messages, conversationId, limit);
                |r.value| == |latest| &&
                forall i :: 0 <= i < |latest| ==> r.value[i] == Turn(RoleName(latest[i].role), latest[i].content)
    {
      match backendError
      case Some(e) => Err("Failed to fetch conversation history: " + e)
      case None =>
        var latest := LatestMessages(messages, conversationId, limit);
        Ok(seq(|latest|, i requires 0 <= i < |latest| => Turn(RoleName(latest[i].role), latest[i].content)))
    }

    /** `createConversation(title, userId?)`: refused without a user id;
        otherwise one new row owned by that user, nothing else touched. */
    method CreateConversation(title: string, userId: Option<string>, now: nat, backendError: Option<string>)
      returns (r: Result<Conversation, string>)
      requires Valid()
      modifies this
      ensures Valid()
      ensures r.Ok? <==> Truthy(userId) && backendError.None?
      ensures !Truthy(userId) ==> r == Err(UserIdRequiredForConversation)
      ensures Truthy(userId) && backendError.Some? ==>
                r == Err("Failed to create conversation: " + backendError.value)
      ensures r.Err? ==> conversations == old(conversations) && messages == old(messages) && nextId == old(nextId)
      ensures r.Ok? ==> r.value.title == title && r.value.userId == userId.value
      ensures r.Ok? ==> r.value.createdAt == now && r.value.updatedAt == now
      ensures r.Ok? ==> !HasConversation(old(conversations), r.value.id)
      ensures r.Ok? ==> r.value.id == old(nextId) && nextId == old(nextId) + 1
      ensures r.Ok? ==> conversations == old(conversations) + [r.value] && messages == old(messages)
    {
      if !Truthy(userId) {
        return Err(UserIdRequiredForConversation);
      }
      if backendError.Some? {
        return Err("Failed to create conversation: " + backendError.value);
      }
      var row := Conversation(nextId, title, userId.value, now, now);
      conversations := conversations + [row];
      nextId := nextId + 1;
      r := Ok(row);
      assert forall i :: 0 <= i < |messages| ==> HasConversation(conversations, messages[i].conversationId) by {
        forall i | 0 <= i < |messages| ensures HasConversation(conversations, messages[i].conversationId) {
          assert HasConversation(old(conversations), messages[i].conversationId);
          var j :| 0 <= j < |old(conversations)| && old(conversations)[j].id == messages[i].conversationId;
          assert conversations[j] == old(conversations)[j];
        }
      }
    }

    /** `addMessage(conversationId, role, content, userId?)`: refused without a
        user id; otherwise one new message, nothing else touched. */
    method AddMessage(conversationId: Id, role: Role, content: string, userId: Option<string>, now: nat,
                      backendError: Option<string>)
      returns (r: Result<StoredMessage, string>)
      requires Valid()
      modifies this
      ensures Valid()
      ensures r.Ok? <==> Truthy(userId) && backendError.None? && HasConversation(conversations, conversationId)
      ensures !Truthy(userId) ==> r == Err(UserIdRequiredForMessage)
      ensures Truthy(userId) && backendError.Some? ==> r == Err("Failed to add message: " + backendError.value)
      ensures Truthy(userId) && backendError.None? && !HasConversation(conversations, conversationId) ==>
                r == Err("Failed to add message: " + MissingParentDetail)
      ensures conversations == old(conversations)
      ensures r.Err? ==> messages == old(messages) && nextId == old(nextId)
      ensures r.Ok? ==> r.value == StoredMessage(old(nextId), conversationId, role, content, now)
      ensures r.Ok? ==> forall m :: m in old(messages) ==> m.id != r.value.id
      ensures r.Ok? ==> messages == old(messages) + [r.value] && nextId == old(nextId) + 1
    {
      if !Truthy(userId) {
        return Err(UserIdRequiredForMessage);
      }
      if backendError.Some? {
        return Err("Failed to add message: " + backendError.value);
      }
      if !HasConversation(conversations, conversationId) {
        return Err("Failed to add message: " + MissingParentDetail);
      }
      var row := StoredMessage(nextId, conversationId, role, content, now);
      messages := messages + [row];
      nextId := nextId + 1;
      r := Ok(row);
    }

    /** `deleteConversation(id)`: the row goes, and with it (by the backend's
        cascade) its messages; a missing id is not an error. */
    method DeleteConversation(id: Id, backendError: Option<string>) returns (r: Result<(), string>)
      requires Valid()
      modifies this
      ensures Valid()
      ensures r.Err? <==> backendError.Some?
      ensures r.Err? ==> r.error == "Failed to delete conversation: " + backendError.value
      ensures r.Err? ==> conversations == old(conversations) && messages == old(messages)
      ensures r.Ok? ==> conversations == WithoutConversation(old(conversations), id)
      ensures r.Ok? ==> messages == WithoutMessagesOf(old(messages), id)
      ensures nextId == old(nextId)
    {
      if backendError.Some? {
        return Err("Failed to delete conversation: " + backendError.value);
      }
      var cs := WithoutConversation(conversations, id);
      var ms := WithoutMessagesOf(messages, id);
      FilterKeepsDistinctKeys(conversations, NotWithId(id), ConversationKey);
      FilterKeepsDistinctKeys(messages, NotBelongingTo(id), MessageKey);
      forall i | 0 <= i < |cs| ensures cs[i].id < nextId {
        assert cs[i] in cs;
        FilterMembership(conversations, NotWithId(id), cs[i]);
      }
      forall i | 0 <= i < |ms| ensures ms[i].id < nextId && HasConversation(cs, ms[i].conversationId) {
        var m := ms[i];
        assert m in ms;
        FilterMembership(messages, NotBelongingTo(id), m);
        var k :| 0 <= k < |messages| && messages[k] == m;
        var j :| 0 <= j < |conversations| && conversations[j].id == m.conversationId;
        FilterMembership(conversations, NotWithId(id), conversations[j]);
        var j' :| 0 <= j' < |cs| && cs[j'] == conversations[j];
      }
      conversations, messages := cs, ms;
      r := Ok(());
    }

    /** `updateConversationTitle(id, title)`: that row's title changes and
        nothing else; a missing row is an error. */
    method UpdateConversationTitle(id: Id, title: string, backendError: Option<string>)
      returns (r: Result<Conversation, string>)
      requires Valid()
      modifies this
      ensures Valid()
      ensures r.Ok? <==> backendError.None? && HasConversation(old(conversations), id)
      ensures backendError.Some? ==> r == Err("Failed to update conversation: " + backendError.value)
      ensures backendError.None? && !HasConversation(old(conversations), id) ==>
                r == Err("Failed to update conversation: " + NoRowDetail)
      ensures r.Err? ==> conversations == old(conversations)
      ensures r.Ok? ==> conversations == Retitled(old(conversations), id, title)
      ensures r.Ok? ==> r.value.id == id && r.value.title == title && r.value in conversations
      ensures messages == old(messages) && nextId == old(nextId)
    {
      if backendError.Some? {
        return Err("Failed to update conversation: " + backendError.value);
      }
      var found := FindConversation(conversations, id);
      if found.None? {
        return Err("Failed to update conversation: " + NoRowDetail);
      }
      var cs := Retitled(conversations, id, title);
      var i :| 0 <= i < |conversations| && conversations[i] == found.value;
      assert cs[i] == found.value.(title := title);
      forall k | 0 <= k < |messages| ensures HasConversation(cs, messages[k].conversationId) {
        var j :| 0 <= j < |conversations| && conversations[j].id == messages[k].conversationId;
        assert cs[j].id == conversations[j].id;
      }
      conversations := cs;
      r := Ok(found.value.(title := title));
    }
  }

  /** Updating a title leaves every other row as it was and keeps the order. */
  lemma RetitledChangesOnlyThatRow(cs: seq<Conversation>, id: Id, title: string)
    ensures var r := Retitled(cs, id, title);
      forall i :: 0 <= i < |cs| ==>
        (cs[i].id != id ==> r[i] == cs[i]) &&
        (cs[i].id == id ==> r[i] == cs[i].(title := title))
  {
  }
}
