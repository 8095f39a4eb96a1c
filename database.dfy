/**
 * The database behind the chat: the user table (username to id), the
 * conversation table, the message table in insertion order, and a clock
 * standing in for `timezone.now()`. The ORM queries the core issues are the
 * pure functions of this module.
 */
module Database {
  import opened Wrappers
  import opened Models

  /** The size of the backfill window sent on connect. */
  const BackfillLimit := 50

  /** `conversation.messages`: the messages of `conv`, in table order. */
  function MessagesOf(ms: seq<Message>, conv: nat): (r: seq<Message>)
    ensures |r| <= |ms|
    ensures forall m :: m in r <==> m in ms && m.conversation == conv
  {
    if |ms| == 0 then []
    else (if ms[0].conversation == conv then [ms[0]] else []) + MessagesOf(ms[1..], conv)
  }

  predicate SortedByTimestamp(ms: seq<Message>) {
    forall i, j :: 0 <= i < j < |ms| ==> ms[i].timestamp <= ms[j].timestamp
  }

  predicate IdsIncreasing(ms: seq<Message>) {
    forall i, j :: 0 <= i < j < |ms| ==> ms[i].id < ms[j].id
  }

  /** Selecting one conversation's messages keeps the table's timestamp order. */
  lemma {:induction false} MessagesOfSorted(ms: seq<Message>, conv: nat)
    requires SortedByTimestamp(ms)
    ensures SortedByTimestamp(MessagesOf(ms, conv))
  {
    if |ms| > 0 {
      var rest := MessagesOf(ms[1..], conv);
      MessagesOfSorted(ms[1..], conv);
      forall m | m in rest
        ensures ms[0].timestamp <= m.timestamp
      {
        var j :| 0 <= j < |ms[1..]| && ms[1..][j] == m;
        assert ms[j + 1] == m;
      }
    }
  }

  /**
   * Selecting one conversation's messages keeps the ids strictly increasing:
   * each row of the conversation appears once, in table order.
   */
  lemma {:induction false} MessagesOfIdsIncreasing(ms: seq<Message>, conv: nat)
    requires IdsIncreasing(ms)
    ensures IdsIncreasing(MessagesOf(ms, conv))
  {
    if |ms| > 0 {
      var rest := MessagesOf(ms[1..], conv);
      MessagesOfIdsIncreasing(ms[1..], conv);
      forall m | m in rest
        ensures ms[0].id < m.id
      {
        var j :| 0 <= j < |ms[1..]| && ms[1..][j] == m;
        assert ms[j + 1] == m;
      }
    }
  }

  /**
   * `conversation.messages.order_by('-timestamp')[:50]`, reversed back to
   * oldest first. With the table in timestamp order this is the tail of the
   * conversation's messages.
   */
  function Recent(ms: seq<Message>, conv: nat): (r: seq<Message>)
    ensures |r| <= BackfillLimit
    ensures |r| == if |MessagesOf(ms, conv)| < BackfillLimit then |MessagesOf(ms, conv)| else BackfillLimit
    ensures forall m :: m in r ==> m in ms && m.conversation == conv
  {
    var all := MessagesOf(ms, conv);
    if |all| <= BackfillLimit then all else all[|all| - BackfillLimit..]
  }

  /** A row of a sequence that is not in its tail `s[k..]` sits before position `k`. */
  lemma LeftOutComesFirst(s: seq<Message>, k: nat, m: Message) returns (i: nat)
    requires k <= |s| && m in s && m !in s[k..]
    ensures i < k && s[i] == m
  {
    i :| 0 <= i < |s| && s[i] == m;
    assert i < k by {
      assert forall t :: k <= t < |s| ==> s[t] == s[k..][t - k];
    }
  }

  /** A tail of a sequence in timestamp order is in timestamp order. */
  lemma TailSorted(s: seq<Message>, k: nat)
    requires k <= |s| && SortedByTimestamp(s)
    ensures SortedByTimestamp(s[k..])
  {
    forall i, j | 0 <= i < j < |s[k..]|
      ensures s[k..][i].timestamp <= s[k..][j].timestamp
    {
      assert s[k..][i] == s[k + i] && s[k..][j] == s[k + j];
    }
  }

  /** A tail of a sequence with increasing ids has increasing ids. */
  lemma TailIdsIncreasing(s: seq<Message>, k: nat)
    requires k <= |s| && IdsIncreasing(s)
    ensures IdsIncreasing(s[k..])
  {
    forall i, j | 0 <= i < j < |s[k..]|
      ensures s[k..][i].id < s[k..][j].id
    {
      assert s[k..][i] == s[k + i] && s[k..][j] == s[k + j];
    }
  }

  /**
   * On a table with increasing ids the backfill repeats no row: it lists
   * distinct rows of the conversation in table order.
   */
  lemma RecentIdsIncreasing(ms: seq<Message>, conv: nat)
    requires IdsIncreasing(ms)
    ensures IdsIncreasing(Recent(ms, conv))
  {
    var all := MessagesOf(ms, conv);
    MessagesOfIdsIncreasing(ms, conv);
    if BackfillLimit < |all| {
      TailIdsIncreasing(all, |all| - BackfillLimit);
    }
  }

  /** On a table in timestamp order the backfill is oldest first. */
  lemma RecentSorted(ms: seq<Message>, conv: nat)
    requires SortedByTimestamp(ms)
    ensures SortedByTimestamp(Recent(ms, conv))
  {
    var all := MessagesOf(ms, conv);
    MessagesOfSorted(ms, conv);
    if BackfillLimit < |all| {
      TailSorted(all, |all| - BackfillLimit);
    }
  }

  /**
   * On a table in timestamp order every message of the conversation left out
   * of the backfill is no later than each one in it.
   */
  lemma RecentAreLatest(ms: seq<Message>, conv: nat)
    requires SortedByTimestamp(ms)
    ensures forall m, j :: m in ms && m.conversation == conv && m !in Recent(ms, conv) && 0 <= j < |Recent(ms, conv)|
              ==> m.timestamp <= Recent(ms, conv)[j].timestamp
  {
    var all, r := MessagesOf(ms, conv), Recent(ms, conv);
    MessagesOfSorted(ms, conv);
    var k := |all| - |r|;
    assert r == all[k..];
    forall m, j | m in ms && m.conversation == conv && m !in r && 0 <= j < |r|
      ensures m.timestamp <= r[j].timestamp
    {
      var i := LeftOutComesFirst(all, k, m);
      assert r[j] == all[k + j];
    }
  }

  /** `get_recent_messages` as sent on connect; empty when the conversation does not exist. */
  function Backfill(conversations: map<nat, Conversation>, ms: seq<Message>, conv: nat): (vs: seq<MessageView>)
    ensures conv !in conversations ==> vs == []
    ensures conv in conversations ==> vs == Views(Recent(ms, conv))
  {
    if conv in conversations then Views(Recent(ms, conv)) else []
  }

  /**
   * The filter of the read-receipt update: the id was requested, the message
   * belongs to the conversation, it is unread, and someone else sent it.
   */
  predicate Selected(m: Message, ids: seq<nat>, conv: nat, requester: UserId): (ok: bool)
    ensures m.sender.id == requester || m.isRead || m.conversation != conv || m.id !in ids ==> !ok
  {
    m.id in ids && m.conversation == conv && !m.isRead && m.sender.id != requester
  }

  /** `Message.objects.filter(...).exclude(sender=...).update(is_read=True)` on the whole table. */
  function MarkRead(ms: seq<Message>, ids: seq<nat>, conv: nat, requester: UserId): (r: seq<Message>)
    ensures |r| == |ms|
  {
    if |ms| == 0 then []
    else [if Selected(ms[0], ids, conv, requester) then ms[0].(isRead := true) else ms[0]]
         + MarkRead(ms[1..], ids, conv, requester)
  }

  /** The row count `update` returns: how many rows the filter selects. */
  function CountSelected(ms: seq<Message>, ids: seq<nat>, conv: nat, requester: UserId): (n: nat)
    ensures n <= |ms|
    ensures n == 0 <==> forall i :: 0 <= i < |ms| ==> !Selected(ms[i], ids, conv, requester)
  {
    if |ms| == 0 then 0
    else (if Selected(ms[0], ids, conv, requester) then 1 else 0) + CountSelected(ms[1..], ids, conv, requester)
  }

  /** How many rows go from unread to read between two versions of the table. */
  function CountFlipped(before: seq<Message>, after: seq<Message>): (n: nat)
    requires |before| == |after|
    ensures n <= |before|
  {
    if |before| == 0 then 0
    else (if !before[0].isRead && after[0].isRead then 1 else 0) + CountFlipped(before[1..], after[1..])
  }

  /** The update sets the flag on exactly the selected rows and changes nothing else. */
  lemma {:induction false} MarkReadExact(ms: seq<Message>, ids: seq<nat>, conv: nat, requester: UserId)
    ensures forall i :: 0 <= i < |ms| ==>
      var r := MarkRead(ms, ids, conv, requester)[i];
      && r.id == ms[i].id && r.conversation == ms[i].conversation && r.sender == ms[i].sender
      && r.content == ms[i].content && r.timestamp == ms[i].timestamp
      && r.isRead == (ms[i].isRead || Selected(ms[i], ids, conv, requester))
  {
    if |ms| > 0 {
      MarkReadExact(ms[1..], ids, conv, requester);
      var r := MarkRead(ms, ids, conv, requester);
      assert forall i :: 1 <= i < |ms| ==> r[i] == MarkRead(ms[1..], ids, conv, requester)[i - 1];
    }
  }

  /** The requester's own messages keep their flag, whatever ids are asked for. */
  lemma {:induction false} SparesOwnMessages(ms: seq<Message>, ids: seq<nat>, conv: nat, requester: UserId)
    ensures forall i :: 0 <= i < |ms| && ms[i].sender.id == requester ==>
      MarkRead(ms, ids, conv, requester)[i].isRead == ms[i].isRead
  {
    MarkReadExact(ms, ids, conv, requester);
  }

  /** The count reported is the number of rows whose flag went from false to true. */
  lemma {:induction false} CountIsFlipped(ms: seq<Message>, ids: seq<nat>, conv: nat, requester: UserId)
    ensures CountSelected(ms, ids, conv, requester) == CountFlipped(ms, MarkRead(ms, ids, conv, requester))
  {
    if |ms| > 0 {
      var r := MarkRead(ms, ids, conv, requester);
      assert r[1..] == MarkRead(ms[1..], ids, conv, requester);
      CountIsFlipped(ms[1..], ids, conv, requester);
    }
  }

  /** A zero count means the table is untouched. */
  lemma {:induction false} NoneSelectedNoChange(ms: seq<Message>, ids: seq<nat>, conv: nat, requester: UserId)
    requires CountSelected(ms, ids, conv, requester) == 0
    ensures MarkRead(ms, ids, conv, requester) == ms
  {
    if |ms| > 0 {
      NoneSelectedNoChange(ms[1..], ids, conv, requester);
      assert ms == [ms[0]] + ms[1..];
    }
  }

  /** Repeating the same update selects nothing and changes nothing. */
  lemma {:induction false} MarkReadIdempotent(ms: seq<Message>, ids: seq<nat>, conv: nat, requester: UserId)
    ensures CountSelected(MarkRead(ms, ids, conv, requester), ids, conv, requester) == 0
    ensures MarkRead(MarkRead(ms, ids, conv, requester), ids, conv, requester) == MarkRead(ms, ids, conv, requester)
  {
    var r := MarkRead(ms, ids, conv, requester);
    if |ms| > 0 {
      MarkReadIdempotent(ms[1..], ids, conv, requester);
      assert r[1..] == MarkRead(ms[1..], ids, conv, requester);
      assert !Selected(r[0], ids, conv, requester);
    }
    NoneSelectedNoChange(r, ids, conv, requester);
  }

  /** `v` is the `to_dict` of a stored message of conversation `conv`. */
  predicate IsViewOfStored(v: MessageView, ms: seq<Message>, conv: nat) {
    exists m :: m in ms && m.conversation == conv && v == ToView(m)
  }

  /**
   * The serialised backfill of an existing conversation: at most fifty views,
   * each of a distinct stored message of the conversation, ids increasing and
   * timestamps non-decreasing, and every message of the conversation left
   * out no later than any message in it.
   */
  lemma BackfillIsLatestWindow(conversations: map<nat, Conversation>, ms: seq<Message>, conv: nat)
    requires SortedByTimestamp(ms) && IdsIncreasing(ms)
    ensures var vs := Backfill(conversations, ms, conv);
      && |vs| <= BackfillLimit
      && (forall i :: 0 <= i < |vs| ==> IsViewOfStored(vs[i], ms, conv))
      && (forall i, j :: 0 <= i < j < |vs| ==> vs[i].timestamp <= vs[j].timestamp && vs[i].id < vs[j].id)
      && (forall m, j :: m in ms && m.conversation == conv && ToView(m) !in vs && 0 <= j < |vs| ==>
            m.timestamp <= vs[j].timestamp)
  {
    if conv in conversations {
      var rows := Recent(ms, conv);
      RecentSorted(ms, conv);
      RecentIdsIncreasing(ms, conv);
      RecentAreLatest(ms, conv);
      var vs := Views(rows);
      forall i | 0 <= i < |vs|
        ensures IsViewOfStored(vs[i], ms, conv)
      {
        assert rows[i] in rows;
      }
    }
  }

  /** No two usernames share a user id: the primary key of the user table. */
  predicate UniqueUserIds(users: map<string, UserId>) {
    forall a, b :: a in users && b in users && users[a] == users[b] ==> a == b
  }

  /** Every message in the table was sent by a participant of an existing conversation. */
  ghost predicate SendersParticipate(conversations: map<nat, Conversation>, ms: seq<Message>) {
    forall i :: 0 <= i < |ms| ==>
      ms[i].conversation in conversations && IsParticipant(conversations[ms[i].conversation], ms[i].sender.id)
  }

  class ChatStore {
    var users: map<string, UserId>
    var conversations: map<nat, Conversation>
    var messages: seq<Message>
    var clock: nat
    var nextMessageId: nat
    var nextConversationId: nat

    ghost predicate Valid()
      reads this
    {
      && UniqueUserIds(users)
      && SortedByTimestamp(messages)
      && IdsIncreasing(messages)
      && 0 < nextConversationId
      && SendersParticipate(conversations, messages)
      && (forall i :: 0 <= i < |messages| ==> messages[i].id < nextMessageId && messages[i].timestamp <= clock)
      && (forall k :: k in conversations ==>
            conversations[k].id == k && 0 < k < nextConversationId && conversations[k].updatedAt <= clock)
    }

    /** An empty chat over an existing user table; auto-increment ids start at 1. */
    constructor (users: map<string, UserId>)
      requires UniqueUserIds(users)
      ensures Valid()
      ensures this.users == users && conversations == map[] && messages == [] && clock == 0
    {
      this.users := users;
      conversations := map[];
      messages := [];
      clock := 0;
      nextMessageId := 1;
      nextConversationId := 1;
    }

    /** Time passes; the clock never goes back. */
    method AdvanceClock(now: nat)
      requires Valid() && clock <= now
      modifies this
      ensures Valid() && clock == now
      ensures users == old(users) && conversations == old(conversations) && messages == old(messages)
      ensures nextMessageId == old(nextMessageId) && nextConversationId == old(nextConversationId)
    {
      clock := now;
    }

    /** `Message.objects.create(...)`: a fresh id, the current time, unread. */
    method CreateMessage(conv: nat, sender: User, content: string) returns (m: Message)
      requires Valid()
      requires conv in conversations && IsParticipant(conversations[conv], sender.id)
      modifies this
      ensures Valid()
      ensures m == Message(old(nextMessageId), conv, sender, content, clock, false)
      ensures messages == old(messages) + [m]
      ensures forall i :: 0 <= i < |old(messages)| ==> old(messages)[i].id < m.id
      ensures users == old(users) && conversations == old(conversations) && clock == old(clock)
      ensures nextMessageId == old(nextMessageId) + 1 && nextConversationId == old(nextConversationId)
    {
      m := Message(nextMessageId, conv, sender, content, clock, false);
      messages := messages + [m];
      nextMessageId := nextMessageId + 1;
    }

    /** `conversation.save()`: `updated_at` is an auto-now field and takes the current time. */
    method SaveConversation(conv: nat)
      requires Valid() && conv in conversations
      modifies this
      ensures Valid()
      ensures conversations == old(conversations)[conv := old(conversations)[conv].(updatedAt := clock)]
      ensures users == old(users) && messages == old(messages) && clock == old(clock)
      ensures nextMessageId == old(nextMessageId) && nextConversationId == old(nextConversationId)
    {
      conversations := conversations[conv := conversations[conv].(updatedAt := clock)];
      assert forall i :: 0 <= i < |messages| ==> messages[i].conversation in old(conversations);
    }

    /** The read-receipt update: flags the selected rows and returns how many there were. */
    method UpdateReadFlags(ids: seq<nat>, conv: nat, requester: UserId) returns (count: nat)
      requires Valid()
      modifies this
      ensures Valid()
      ensures messages == MarkRead(old(messages), ids, conv, requester)
      ensures count == CountSelected(old(messages), ids, conv, requester)
      ensures users == old(users) && conversations == old(conversations) && clock == old(clock)
      ensures nextMessageId == old(nextMessageId) && nextConversationId == old(nextConversationId)
    {
      count := CountSelected(messages, ids, conv, requester);
      MarkReadExact(messages, ids, conv, requester);
      messages := MarkRead(messages, ids, conv, requester);
    }

    /** `Conversation.objects.create()` followed by `participants.add(...)`. */
    method CreateConversation(participants: seq<User>) returns (id: nat)
      requires Valid()
      modifies this
      ensures Valid()
      ensures id == old(nextConversationId) && id !in old(conversations)
      ensures conversations == old(conversations)[id := Conversation(id, participants, clock)]
      ensures users == old(users) && messages == old(messages) && clock == old(clock)
      ensures nextMessageId == old(nextMessageId) && nextConversationId == old(nextConversationId) + 1
    {
      id := nextConversationId;
      conversations := conversations[id := Conversation(id, participants, clock)];
      nextConversationId := nextConversationId + 1;
      assert forall i :: 0 <= i < |messages| ==> messages[i].conversation in old(conversations);
    }
  }
}
