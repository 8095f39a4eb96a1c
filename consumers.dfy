/**
 * The chat WebSocket consumer. One consumer serves one connection: it
 * remembers the conversation named in its URL, joins that conversation's
 * group, answers inbound frames, and writes to its own channel.
 */
module Consumers {
  import opened Wrappers
  import opened Text
  import opened Models
  import opened Protocol
  import opened Layer
  import opened Database

  /** The group key `chat_<conversation_id>`. */
  function GroupName(conversationId: nat): (g: string)
    ensures 5 < |g| && g[..5] == "chat_"
  {
    "chat_" + NatToString(conversationId)
  }

  /** Different conversations never share a group. */
  lemma GroupNamesDistinct(a: nat, b: nat)
    requires a != b
    ensures GroupName(a) != GroupName(b)
  {
    if GroupName(a) == GroupName(b) {
      assert NatToString(a) == GroupName(a)[5..] == GroupName(b)[5..] == NatToString(b);
      NatToStringInjective(a, b);
    }
  }

  /**
   * The three checks of `save_message`: the username exists, the
   * conversation exists, and the user takes part in it.
   */
  predicate CanSave(users: map<string, UserId>, conversations: map<nat, Conversation>, conv: nat, username: string): (ok: bool)
    ensures ok <==>
      && username in users && conv in conversations
      && exists p :: p in conversations[conv].participants && p.id == users[username]
  {
    username in users && conv in conversations && IsParticipant(conversations[conv], users[username])
  }

  class ChatConsumer {
    const channelName: string
    const store: ChatStore
    const layer: ChannelLayer
    var conversationId: nat
    var groupName: string
    /** Whether `connect` has run, so that the two fields above are set. */
    var connected: bool

    constructor (channelName: string, store: ChatStore, layer: ChannelLayer)
      ensures this.channelName == channelName && this.store == store && this.layer == layer
      ensures !connected
    {
      this.channelName := channelName;
      this.store := store;
      this.layer := layer;
      conversationId := 0;
      groupName := "";
      connected := false;
    }

    /** `connect` has run, and the group key is the one of the recorded conversation. */
    predicate Joined(): (ok: bool)
      reads this
      ensures ok ==> connected && |groupName| > 5 && groupName[..5] == "chat_"
    {
      connected && groupName == GroupName(conversationId)
    }

    /**
     * The row `save_message` writes for `username`, given the current state of
     * the store: appended to a valid table it keeps ids and timestamps in order.
     */
    function NextRow(username: string, content: string): (m: Message)
      reads this, store
      requires username in store.users
      ensures store.Valid() ==> IdsIncreasing(store.messages + [m]) && SortedByTimestamp(store.messages + [m])
    {
      Message(store.nextMessageId, conversationId, User(store.users[username], username), content, store.clock, false)
    }

    /**
     * `connect`: no participation check. The channel joins `chat_<id>` and
     * receives exactly one `recent_messages` frame with the backfill.
     */
    method Connect(conversationId: nat)
      requires store.Valid()
      modifies this, layer
      ensures Joined() && this.conversationId == conversationId
      ensures layer.groups == old(layer.groups)[groupName := MembersOf(old(layer.groups), groupName) + {channelName}]
      ensures layer.outbox
           == Fanout(old(layer.outbox), {channelName}, RecentMessages(Backfill(store.conversations, store.messages, conversationId)))
    {
      this.conversationId := conversationId;
      groupName := GroupName(conversationId);
      connected := true;
      layer.GroupAdd(groupName, channelName);
      var messages := GetRecentMessages();
      layer.Send(channelName, RecentMessages(messages));
    }

    /** `disconnect`: the channel leaves its group; other channels and groups stay as they were. */
    method Disconnect()
      requires Joined()
      modifies layer
      ensures forall g :: MembersOf(layer.groups, g)
                       == if g == GroupName(conversationId)
                          then MembersOf(old(layer.groups), g) - {channelName}
                          else MembersOf(old(layer.groups), g)
      ensures layer.outbox == old(layer.outbox)
    {
      layer.GroupDiscard(groupName, channelName);
    }

    /**
     * `get_recent_messages`: the serialised backfill, at most fifty of the
     * conversation's messages, oldest first; nothing for an unknown conversation.
     */
    method GetRecentMessages() returns (messages: seq<MessageView>)
      requires store.Valid()
      ensures messages == Backfill(store.conversations, store.messages, conversationId)
      ensures |messages| <= BackfillLimit
      ensures forall i :: 0 <= i < |messages| ==> IsViewOfStored(messages[i], store.messages, conversationId)
      ensures forall i, j :: 0 <= i < j < |messages| ==>
        messages[i].timestamp <= messages[j].timestamp && messages[i].id < messages[j].id
      ensures forall m, j ::
        m in store.messages && m.conversation == conversationId && ToView(m) !in messages && 0 <= j < |messages| ==>
          m.timestamp <= messages[j].timestamp
    {
      messages := Backfill(store.conversations, store.messages, conversationId);
      BackfillIsLatestWindow(store.conversations, store.messages, conversationId);
    }

    /**
     * `save_message`: `None` and no change when the user or the conversation
     * is unknown or the user is not a participant; otherwise one new unread
     * row, a fresh `updated_at`, and the row's `to_dict`.
     */
    method SaveMessage(username: string, content: string) returns (saved: Option<MessageView>)
      requires store.Valid()
      modifies store
      ensures store.Valid()
      ensures store.users == old(store.users) && store.clock == old(store.clock)
      ensures store.nextConversationId == old(store.nextConversationId)
      ensures store.nextMessageId == old(store.nextMessageId) + (if saved.Some? then 1 else 0)
      ensures !CanSave(old(store.users), old(store.conversations), conversationId, username) ==>
        saved.None? && store.messages == old(store.messages) && store.conversations == old(store.conversations)
      ensures CanSave(old(store.users), old(store.conversations), conversationId, username) ==>
        var m := old(NextRow(username, content));
        && saved == Some(ToView(m))
        && !m.isRead && m.conversation == conversationId && m.sender.username == username && m.content == content
        && store.messages == old(store.messages) + [m]
        && store.conversations
           == old(store.conversations)[conversationId := old(store.conversations)[conversationId].(updatedAt := old(store.clock))]
    {
      if username !in store.users {
        return None;
      }
      var user := User(store.users[username], username);
      if conversationId !in store.conversations {
        return None;
      }
      var conversation := store.conversations[conversationId];
      if !IsParticipant(conversation, user.id) {
        return None;
      }
      var row := store.CreateMessage(conversationId, user, content);
      store.SaveConversation(conversationId);
      saved := Some(ToView(row));
    }

    /**
     * `receive`: a chat message is broadcast to the group exactly when it was
     * saved; a typing signal is broadcast and never stored; a frame that does
     * not decode or lacks a key earns one error frame on this channel alone;
     * any other type does nothing.
     */
    method Receive(frame: Inbound)
      requires Joined() && store.Valid()
      modifies store, layer
      ensures store.Valid()
      ensures store.users == old(store.users) && store.clock == old(store.clock)
      ensures store.nextConversationId == old(store.nextConversationId)
      ensures var cmd := Decode(frame);
        store.nextMessageId == old(store.nextMessageId)
          + if cmd.SendChat? && CanSave(old(store.users), old(store.conversations), conversationId, cmd.username) then 1 else 0
      ensures layer.groups == old(layer.groups)
      ensures var cmd := Decode(frame);
        cmd.SendChat? && CanSave(old(store.users), old(store.conversations), conversationId, cmd.username) ==>
          var m := old(NextRow(cmd.username, cmd.content));
          && store.messages == old(store.messages) + [m]
          && store.conversations
             == old(store.conversations)[conversationId := old(store.conversations)[conversationId].(updatedAt := old(store.clock))]
          && layer.outbox == Fanout(old(layer.outbox), MembersOf(old(layer.groups), GroupName(conversationId)), Handle(ChatMessageEvent(ToView(m))))
      ensures var cmd := Decode(frame);
        !(cmd.SendChat? && CanSave(old(store.users), old(store.conversations), conversationId, cmd.username)) ==>
          store.messages == old(store.messages) && store.conversations == old(store.conversations)
      ensures var cmd := Decode(frame);
        && (cmd.SendChat? && !CanSave(old(store.users), old(store.conversations), conversationId, cmd.username) ==>
              layer.outbox == old(layer.outbox))
        && (cmd.SendTyping? ==>
              layer.outbox == Fanout(old(layer.outbox), MembersOf(old(layer.groups), GroupName(conversationId)), Handle(TypingStatusEvent(cmd.username, cmd.isTyping))))
        && (cmd.Reject? ==>
              layer.outbox == Fanout(old(layer.outbox), {channelName}, Error(ErrorText(cmd.detail))))
        && (cmd.Ignore? ==> layer.outbox == old(layer.outbox))
    {
      match Decode(frame)
      case Reject(detail) =>
        layer.Send(channelName, Error(ErrorText(detail)));
      case Ignore =>
      case SendTyping(username, isTyping) =>
        layer.GroupSend(groupName, Handle(TypingStatusEvent(username, isTyping)));
      case SendChat(username, content) =>
        var saved := SaveMessage(username, content);
        if saved.Some? {
          layer.GroupSend(groupName, Handle(ChatMessageEvent(saved.value)));
        }
    }
  }
}
