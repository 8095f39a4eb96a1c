/**
 * The HTTP views of the chat that touch the core: the read-receipt endpoint,
 * find-or-create of a two-person conversation, and the conversation list.
 * The requester is the already-authenticated user.
 */
module Views {
  import opened Wrappers
  import opened Text
  import opened Models
  import opened Protocol
  import opened Layer
  import opened Database
  import opened Consumers

  // ---------------------------------------------------------------------------
  // mark_messages_as_read

  /**
   * The request body: `BadJson` when it does not parse; otherwise the two keys,
   * with `message_ids` already defaulted to the empty list when absent.
   */
  datatype ReadBody = BadJson | ReadBody(conversationId: Option<nat>, messageIds: seq<nat>)

  /** The JSON response: `{status: success, updated_count}` or `{error}` with its HTTP status. */
  datatype ReadResponse = ReadOk(updatedCount: nat) | ReadError(status: nat, error: string)

  /** `not conversation_id or not message_ids`: absent, zero, or an empty list. */
  predicate MissingData(conversationId: Option<nat>, messageIds: seq<nat>): (missing: bool)
    ensures conversationId == Some(0) ==> missing
    ensures !missing ==> conversationId.Some? && 0 < conversationId.value && 0 < |messageIds|
  {
    conversationId.None? || conversationId.value == 0 || |messageIds| == 0
  }

  /**
   * `mark_messages_as_read`: on a well-formed POST the selected messages are
   * flagged, the count of flipped flags is returned, and a `messages_read`
   * event with all requested ids goes to the conversation's group exactly
   * when that count is positive. Every other request changes nothing.
   */
  method MarkMessagesAsRead(store: ChatStore, layer: ChannelLayer, requester: User, httpMethod: string, body: ReadBody)
    returns (response: ReadResponse)
    requires store.Valid()
    modifies store, layer
    ensures store.Valid()
    ensures store.users == old(store.users) && store.conversations == old(store.conversations) && store.clock == old(store.clock)
    ensures store.nextMessageId == old(store.nextMessageId) && store.nextConversationId == old(store.nextConversationId)
    ensures layer.groups == old(layer.groups)
    ensures httpMethod != "POST" ==>
      response == ReadError(405, "Invalid request method") && store.messages == old(store.messages) && layer.outbox == old(layer.outbox)
    ensures httpMethod == "POST" && body.BadJson? ==>
      response == ReadError(400, "Invalid JSON") && store.messages == old(store.messages) && layer.outbox == old(layer.outbox)
    ensures httpMethod == "POST" && body.ReadBody? && MissingData(body.conversationId, body.messageIds) ==>
      response == ReadError(400, "Missing data") && store.messages == old(store.messages) && layer.outbox == old(layer.outbox)
    ensures httpMethod == "POST" && body.ReadBody? && !MissingData(body.conversationId, body.messageIds) ==>
      var conv, ids := body.conversationId.value, body.messageIds;
      var n := CountSelected(old(store.messages), ids, conv, requester.id);
      && response == ReadOk(n)
      && store.messages == MarkRead(old(store.messages), ids, conv, requester.id)
      && n == CountFlipped(old(store.messages), store.messages)
      && layer.outbox == if n > 0
           then Fanout(old(layer.outbox), MembersOf(old(layer.groups), GroupName(conv)),
                       Handle(MessagesReadEvent(ids, requester.username)))
           else old(layer.outbox)
  {
    if httpMethod != "POST" {
      return ReadError(405, "Invalid request method");
    }
    if body.BadJson? {
      return ReadError(400, "Invalid JSON");
    }
    if MissingData(body.conversationId, body.messageIds) {
      return ReadError(400, "Missing data");
    }
    var conv, ids := body.conversationId.value, body.messageIds;
    CountIsFlipped(store.messages, ids, conv, requester.id);
    var updated := store.UpdateReadFlags(ids, conv, requester.id);
    if updated > 0 {
      layer.GroupSend(GroupName(conv), Handle(MessagesReadEvent(ids, requester.username)));
    }
    response := ReadOk(updated);
  }

  // ---------------------------------------------------------------------------
  // start_conversation

  datatype StartResponse = RedirectToChat(conversationId: nat) | RedirectToChatList | NotFound

  /** The conversations both users take part in. */
  function SharedConversations(conversations: map<nat, Conversation>, a: UserId, b: UserId): (s: set<nat>)
    ensures forall k :: k in s <==> k in conversations && IsParticipant(conversations[k], a) && IsParticipant(conversations[k], b)
  {
    set k | k in conversations && IsParticipant(conversations[k], a) && IsParticipant(conversations[k], b)
  }

  /** `k` is first among `s` under the default ordering `-updated_at`. */
  predicate MostRecent(conversations: map<nat, Conversation>, s: set<nat>, k: nat): (first: bool)
    ensures first ==> k in s && k in conversations
  {
    k in s && k in conversations &&
    forall j :: j in s && j in conversations ==> conversations[j].updatedAt <= conversations[k].updatedAt
  }

  /** Two conversations that could both come first differ at most by the tie: same `updated_at`. */
  lemma MostRecentTied(conversations: map<nat, Conversation>, s: set<nat>, k: nat, l: nat)
    requires MostRecent(conversations, s, k) && MostRecent(conversations, s, l)
    ensures conversations[k].updatedAt == conversations[l].updatedAt
  {
  }

  /** Every non-empty set of conversations has a most recently updated one, so `.first()` finds a row. */
  lemma {:induction false} MostRecentExists(conversations: map<nat, Conversation>, s: set<nat>)
    requires s != {} && s <= conversations.Keys
    ensures exists k :: MostRecent(conversations, s, k)
    decreases s
  {
    var x :| x in s;
    if s == {x} {
      assert MostRecent(conversations, s, x);
    } else {
      MostRecentExists(conversations, s - {x});
      var k :| MostRecent(conversations, s - {x}, k);
      if conversations[x].updatedAt <= conversations[k].updatedAt {
        assert MostRecent(conversations, s, k);
      } else {
        assert MostRecent(conversations, s, x);
      }
    }
  }

  /** `participants.add(request.user, other_user)`: a set, so one entry when both are the same user. */
  function NewParticipants(requester: User, other: User): (ps: seq<User>)
    ensures |ps| == if requester.id == other.id then 1 else 2
    ensures forall i :: 0 <= i < |ps| ==> ps[i] == requester || ps[i] == other
  {
    if requester.id == other.id then [requester] else [requester, other]
  }

  /** A conversation created for two users without one is then the only one they share. */
  lemma CreatedIsOnlyShared(conversations: map<nat, Conversation>, requester: User, other: User, k: nat, t: nat)
    requires SharedConversations(conversations, requester.id, other.id) == {} && k !in conversations
    ensures SharedConversations(conversations[k := Conversation(k, NewParticipants(requester, other), t)], requester.id, other.id) == {k}
  {
    var c := Conversation(k, NewParticipants(requester, other), t);
    var after := conversations[k := c];
    assert IsParticipant(c, requester.id) by {
      assert c.participants[0].id == requester.id;
    }
    assert IsParticipant(c, other.id) by {
      assert c.participants[|c.participants| - 1].id == other.id;
    }
  }

  /** Some username is registered under `uid`: `get_object_or_404(User, id=user_id)` succeeds. */
  predicate UserExists(users: map<string, UserId>, uid: Option<nat>): (found: bool)
    ensures found <==> uid.Some? && uid.value in users.Values
  {
    uid.Some? && exists name :: name in users && users[name] == uid.value
  }

  /**
   * `start_conversation`: on POST, redirect to a shared conversation with the
   * other user if there is one (the most recently updated), otherwise create
   * exactly one conversation with the two of them.
   */
  method StartConversation(store: ChatStore, requester: User, httpMethod: string, userId: Option<nat>)
    returns (response: StartResponse)
    requires store.Valid()
    modifies store
    ensures store.Valid()
    ensures store.users == old(store.users) && store.messages == old(store.messages) && store.clock == old(store.clock)
    ensures store.nextMessageId == old(store.nextMessageId)
    ensures store.nextConversationId
         == old(store.nextConversationId) + if store.conversations == old(store.conversations) then 0 else 1
    ensures httpMethod != "POST" ==> response == RedirectToChatList && store.conversations == old(store.conversations)
    ensures httpMethod == "POST" && !UserExists(old(store.users), userId) ==>
      response == NotFound && store.conversations == old(store.conversations)
    ensures httpMethod == "POST" && UserExists(old(store.users), userId)
            && SharedConversations(old(store.conversations), requester.id, userId.value) != {} ==>
      && response.RedirectToChat?
      && MostRecent(old(store.conversations), SharedConversations(old(store.conversations), requester.id, userId.value), response.conversationId)
      && store.conversations == old(store.conversations)
    ensures httpMethod == "POST" && UserExists(old(store.users), userId)
            && SharedConversations(old(store.conversations), requester.id, userId.value) == {} ==>
      var id := old(store.nextConversationId);
      && response == RedirectToChat(id)
      && id !in old(store.conversations)
      && exists name :: name in old(store.users) && old(store.users)[name] == userId.value
           && store.conversations
              == old(store.conversations)[id := Conversation(id, NewParticipants(requester, User(userId.value, name)), old(store.clock))]
  {
    if httpMethod != "POST" {
      return RedirectToChatList;
    }
    if !UserExists(store.users, userId) {
      return NotFound;
    }
    var name :| name in store.users && store.users[name] == userId.value;
    var other := User(userId.value, name);
    var shared := SharedConversations(store.conversations, requester.id, other.id);
    if shared != {} {
      MostRecentExists(store.conversations, shared);
      var existing :| MostRecent(store.conversations, shared, existing);
      return RedirectToChat(existing);
    }
    var id := store.CreateConversation(NewParticipants(requester, other));
    response := RedirectToChat(id);
  }

  // ---------------------------------------------------------------------------
  // get_conversations

  /** One entry of the conversation list. `lastMessageTime` is `None` where the JSON has ''. */
  datatype Summary = Summary(
    id: nat,
    name: string,
    avatarInitial: string,
    lastMessage: string,
    lastMessageTime: Option<nat>,
    participants: seq<string>)

  /** `display_name[0].upper() if display_name else '?'`. */
  function AvatarInitial(name: string): (s: string)
    ensures |s| == 1 && !IsLowerAscii(s[0])
    ensures name == "" ==> s == "?"
    ensures name != "" && !IsLowerAscii(name[0]) ==> s == name[..1]
    ensures name != "" && IsLowerAscii(name[0]) ==> s[0] as int == name[0] as int - 32
  {
    if name == "" then "?" else [UpperChar(name[0])]
  }

  /**
   * The positions of the participants other than `viewer`, in increasing
   * order: the filter of the comprehension in `get_conversations`.
   */
  function OtherIndices(ps: seq<User>, viewer: User): (f: seq<nat>)
    ensures |f| <= |ps|
    ensures forall i :: 0 <= i < |f| ==> f[i] < |ps| && ps[f[i]].id != viewer.id
    ensures forall i, j :: 0 <= i < j < |f| ==> f[i] < f[j]
    ensures forall k :: 0 <= k < |ps| && ps[k].id != viewer.id ==> k in f
  {
    if |ps| == 0 then []
    else
      var init := OtherIndices(ps[..|ps| - 1], viewer);
      assert forall k :: 0 <= k < |ps| - 1 ==> ps[..|ps| - 1][k] == ps[k];
      if ps[|ps| - 1].id != viewer.id then init + [|ps| - 1] else init
  }

  /**
   * `[p.username for p in participants if p != viewer]`: one entry per
   * participant other than the viewer, in participant order.
   */
  function OtherUsernames(ps: seq<User>, viewer: User): (r: seq<string>)
    ensures |r| == |OtherIndices(ps, viewer)|
    ensures forall i :: 0 <= i < |r| ==> r[i] == ps[OtherIndices(ps, viewer)[i]].username
    ensures forall n :: n in r <==> exists i :: 0 <= i < |ps| && ps[i].id != viewer.id && ps[i].username == n
  {
    var f := OtherIndices(ps, viewer);
    var r := seq(|f|, i requires 0 <= i < |f| => ps[f[i]].username);
    assert forall k :: 0 <= k < |ps| && ps[k].id != viewer.id ==> ps[k].username in r by {
      forall k | 0 <= k < |ps| && ps[k].id != viewer.id
        ensures ps[k].username in r
      {
        var i :| 0 <= i < |f| && f[i] == k;
        assert r[i] == ps[k].username;
      }
    }
    r
  }

  /** In a two-person conversation the list shows exactly the other person. */
  lemma OtherUsernamesOfPair(a: User, b: User)
    requires a.id != b.id
    ensures OtherUsernames([a, b], a) == [b.username]
    ensures OtherUsernames([a, b], b) == [a.username]
  {
    assert [a, b][..1] == [a] && [a][..0] == [];
    assert OtherIndices([a, b], a) == [1];
    assert OtherIndices([a, b], b) == [0];
  }

  /** The list entry built for one conversation. */
  function Summarize(c: Conversation, ms: seq<Message>, viewer: User): (s: Summary)
    ensures s.id == c.id && s.name == DisplayName(c.participants, viewer) && s.avatarInitial == AvatarInitial(s.name)
    ensures s.lastMessageTime.None? <==> forall m :: m in ms ==> m.conversation != c.id
    ensures s.lastMessageTime.None? ==> s.lastMessage == ""
    ensures s.lastMessageTime.Some? ==>
      exists m :: m in ms && m.conversation == c.id && m.content == s.lastMessage && m.timestamp == s.lastMessageTime.value
        && forall m' :: m' in ms && m'.conversation == c.id ==> m'.timestamp <= m.timestamp
    ensures s.participants == OtherUsernames(c.participants, viewer)
  {
    var last := LastMessage(ms, c.id);
    var name := DisplayName(c.participants, viewer);
    Summary(
      c.id,
      name,
      AvatarInitial(name),
      if last.Some? then last.value.content else "",
      if last.Some? then Some(last.value.timestamp) else None,
      OtherUsernames(c.participants, viewer))
  }

  /** The conversations `viewer` takes part in. */
  function ConversationsOf(conversations: map<nat, Conversation>, viewer: UserId): (s: set<nat>)
    ensures forall k :: k in s <==> k in conversations && IsParticipant(conversations[k], viewer)
  {
    set k | k in conversations && IsParticipant(conversations[k], viewer)
  }

  /**
   * `.filter(participants=viewer).order_by('-updated_at')`: the given
   * conversations, each once, most recently updated first.
   */
  method OrderByRecency(conversations: map<nat, Conversation>, keys: set<nat>) returns (order: seq<nat>)
    requires keys <= conversations.Keys
    ensures forall k :: k in order <==> k in keys
    ensures forall i, j :: 0 <= i < j < |order| ==>
      order[i] != order[j] && conversations[order[j]].updatedAt <= conversations[order[i]].updatedAt
  {
    var remaining := keys;
    order := [];
    while remaining != {}
      invariant remaining <= keys
      invariant forall k :: k in order ==> k in keys && k !in remaining
      invariant forall k :: k in keys ==> k in remaining || k in order
      invariant forall i, j :: 0 <= i < j < |order| ==>
        order[i] != order[j] && conversations[order[j]].updatedAt <= conversations[order[i]].updatedAt
      invariant forall i, k :: 0 <= i < |order| && k in remaining ==>
        conversations[k].updatedAt <= conversations[order[i]].updatedAt
      decreases remaining
    {
      MostRecentExists(conversations, remaining);
      var k :| MostRecent(conversations, remaining, k);
      order := order + [k];
      remaining := remaining - {k};
    }
  }

  /**
   * `get_conversations`: one summary per conversation of the viewer, each
   * once, most recently updated first.
   */
  method GetConversations(store: ChatStore, viewer: User) returns (data: seq<Summary>)
    requires store.Valid()
    ensures forall i :: 0 <= i < |data| ==>
      && data[i].id in ConversationsOf(store.conversations, viewer.id)
      && data[i] == Summarize(store.conversations[data[i].id], store.messages, viewer)
    ensures forall k :: k in ConversationsOf(store.conversations, viewer.id) ==> exists i :: 0 <= i < |data| && data[i].id == k
    ensures forall i, j :: 0 <= i < j < |data| ==>
      && data[i].id != data[j].id
      && store.conversations[data[j].id].updatedAt <= store.conversations[data[i].id].updatedAt
  {
    var conversations := store.conversations;
    var order := OrderByRecency(conversations, ConversationsOf(conversations, viewer.id));
    data := [];
    for i := 0 to |order|
      invariant |data| == i
      invariant forall j :: 0 <= j < i ==>
        data[j].id == order[j] && data[j] == Summarize(conversations[order[j]], store.messages, viewer)
    {
      data := data + [Summarize(conversations[order[i]], store.messages, viewer)];
    }
    forall k | k in ConversationsOf(conversations, viewer.id)
      ensures exists i :: 0 <= i < |data| && data[i].id == k
    {
      var i :| 0 <= i < |order| && order[i] == k;
      assert data[i].id == k;
    }
  }
}
