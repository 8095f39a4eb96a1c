# Chat core of a WhatsApp-style Django/Channels app, modelled in Dafny

This project models the real-time part of a small chat application:

- the WebSocket consumer that serves one connection to one conversation;
- the database tables it reads and writes;
- the channel layer's groups, through which messages fan out;
- the HTTP views that mark messages as read, find or create a two-person conversation, and list a user's conversations;
- the display and serialisation helpers on the models.

## Modules

| file | module | what it holds |
|---|---|---|
| `wrappers.dfy` | `Wrappers` | `Option`, for "row or nothing" lookups |
| `text.dfy` | `Text` | `str(int)` as decimal digits (proved injective) and ASCII `upper()` |
| `models.dfy` | `Models` | users, conversations, messages, `to_dict`, `__str__`, `get_display_name`, `get_last_message` |
| `protocol.dfy` | `Protocol` | inbound frames, the decoding done by `receive`, channel-layer events, outbound frames, the three event handlers |
| `layer.dfy` | `Layer` | class `ChannelLayer`: group membership and a per-channel log of frames sent |
| `database.dfy` | `Database` | class `ChatStore` (users, conversations, messages, clock, auto-increment ids) and the ORM queries as pure functions |
| `consumers.dfy` | `Consumers` | class `ChatConsumer`: `connect`, `disconnect`, `receive`, `save_message`, `get_recent_messages` |
| `views.dfy` | `Views` | `mark_messages_as_read`, `start_conversation`, `get_conversations` |

## State

The state is kept in three kinds of object:

- `ChatStore` is the database.
  - `users` maps each username to a user id.
  - `conversations` maps each id to its participants (in the order the many-to-many relation returns them) and its `updated_at`.
  - `messages` is the message table in insertion order.
  - `clock` stands in for `timezone.now()`. It only moves forward (`AdvanceClock`).
  - `nextMessageId` and `nextConversationId` are the auto-increment counters of the two tables.
  - `ChatStore.Valid()` holds after every operation. It says:
    - no two usernames share a user id;
    - the table is in timestamp order;
    - message ids increase;
    - every message was sent by a participant of an existing conversation;
    - every timestamp and `updated_at` is at most `clock`.
- `ChannelLayer` holds the group registry and an outbox.
  - The group registry maps a group key to a set of channel names.
  - The outbox maps each channel to the frames its consumer has written to the socket, oldest first.
  - `group_send` is modelled as appending the handled frame to every current member's log (`Fanout`).
- `ChatConsumer` is one connection. It has the fields `connect` sets: `conversationId` and `groupName`. `Joined()` says `connect` has run and `groupName` is `GroupName(conversationId)`.

## Behaviour of the code worth knowing

The model follows the code in each case:

- `connect` does not check that the user takes part in the conversation. It joins `chat_<id>` and sends the backfill to anyone (consumers.py:9-26).
- When `save_message` returns `None`, the consumer sends nothing at all, not an error frame (consumers.py:47-55).
- An inbound `type` other than `chat_message` or `typing` produces no output (consumers.py:40-68 has no `else`).
- The `username` field of an inbound frame is trusted as the sender (consumers.py:42, 103).
- `not conversation_id` is also true for the id `0`, so `0` is answered with "Missing data" (views.py:99).

## Model

| member | source | states |
|---|---|---|
| `Models.ToView` | chat/models.py:49-56 | `to_dict` has exactly the keys id, sender, content, timestamp, is_read. Each copies the stored value; the sender is given by username. |
| `Models.Views` | chat/consumers.py:128 | Serialising a list of messages keeps its length and order, element by element. |
| `Models.MessageStr` | chat/models.py:46-47 | A message prints as its sender's name, then ": ", then the first min(50, length) characters of its content, then "...". |
| `Models.ConversationStr` | chat/models.py:14-20 | With two or more participants, `__str__` is the first username, " & ", then the second. With one participant it is that participant's username. With none it is "Conversation " followed by the decimal id. |
| `Models.StrOfEmptyConversationsDistinct` | chat/models.py:20 | With no participants, the text is "Conversation <id>". Two such conversations with different ids print differently. |
| `Models.FirstOther` | chat/models.py:24-28 | The search of `get_display_name` finds the first participant whose id differs from the current user's. If there is none, every participant is the current user. |
| `Models.DisplayName` | chat/models.py:22-30 | If some participant is another user, the display name is the username of the first such participant. Otherwise it is the user's own name, or "Unknown" when there are no participants. |
| `Models.DisplayNameIsFirstOther` | chat/models.py:22-28 | Given the index of the first participant who is not the current user, the display name is that participant's username. |
| `Models.DisplayNameOfPair` | chat/tests.py:19-29 | In a two-person conversation, each side sees the other's username. |
| `Models.LastMessage` | chat/models.py:32-33 | `get_last_message` returns a message of the conversation with the greatest timestamp. It returns none exactly when the conversation has no messages. |
| `Protocol.Decode` | chat/consumers.py:36-68 | A missing `type` means chat message. A chat message needs `message` and `username`; typing needs `username` and `is_typing`. A missing key or undecodable JSON is a rejection. Any other type is ignored. Each of the four outcomes is stated as if-and-only-if. A rejection names the first missing key in the order the handler reads them (`message` before `username`, `username` before `is_typing`), or carries the decoder's text. |
| `Protocol.ErrorText` | chat/consumers.py:69-73 | The error frame's text is "Error processing message: " followed by the exception's text. |
| `Protocol.Handle` | chat/consumers.py:75-98 | Each handler forwards its event as the frame of the same type with the same fields. It never produces `recent_messages` or `error`. |
| `Layer.Fanout` | chat/consumers.py:49-55 | Broadcasting appends the frame exactly once to each member's log and leaves every other channel's log unchanged. |
| `Layer.ChannelLayer.GroupAdd` | chat/consumers.py:14-17 | Joining adds the channel to the group and changes no outbox. |
| `Layer.ChannelLayer.GroupDiscard` | chat/consumers.py:30-33 | Leaving removes the channel from that group only. It is a no-op when the channel is absent. |
| `Layer.ChannelLayer.GroupSend` | chat/consumers.py:61-68 | Every member at the time of the call receives the frame; membership is unchanged. |
| `Layer.ChannelLayer.Send` | chat/consumers.py:70-73 | A direct send reaches the consumer's own channel only. |
| `Database.MessagesOf` | chat/consumers.py:127 | A conversation's messages are exactly the table rows of that conversation. |
| `Database.MessagesOfIdsIncreasing` | chat/consumers.py:127 | On a table whose ids increase, the conversation's messages have increasing ids: each row appears once, in table order. |
| `Database.Recent` | chat/consumers.py:127-128 | The backfill holds at most 50 messages, all from the conversation. Its size is the smaller of 50 and the length of `MessagesOf`. |
| `Database.RecentIdsIncreasing` | chat/consumers.py:127-128 | On a table whose ids increase, the backfill repeats no row: its ids increase. |
| `Database.RecentSorted` | chat/consumers.py:127-128 | On the timestamp-ordered table, the backfill is oldest-first. |
| `Database.RecentAreLatest` | chat/consumers.py:127-128 | On the timestamp-ordered table, every message of the conversation left out of the backfill is no later than every message in it. |
| `Database.BackfillIsLatestWindow` | chat/consumers.py:127-128 | The serialised backfill has at most 50 entries. Each is the `to_dict` of a stored message of the conversation. Ids strictly increase and timestamps do not decrease. Every message of the conversation whose `to_dict` is not in it is no later than every entry. |
| `Database.Backfill` | chat/consumers.py:124-130 | For a nonexistent conversation the backfill is empty. Otherwise it is the serialised recent window. |
| `Database.Selected` | chat/views.py:103-107 | The update's filter never selects a message the requester sent, one already read, one of another conversation, or one whose id was not requested. |
| `Database.MarkRead` | chat/views.py:103-109 | The bulk update keeps the number of rows. Its effect on each row is stated by `MarkReadExact`. |
| `Database.CountSelected` | chat/views.py:103-109 | The count `update` returns is at most the number of rows. It is zero exactly when no row passes the filter. |
| `Database.MarkReadExact` | chat/views.py:103-109 | The update sets `is_read` exactly on rows whose id was requested, that belong to the conversation, were unread, and were sent by someone else. Every other field of every row is unchanged. |
| `Database.SparesOwnMessages` | chat/views.py:107 | The requester's own messages keep their flag, whatever ids are requested. |
| `Database.CountIsFlipped` | chat/views.py:109 | The returned count equals the number of rows whose flag went from false to true. |
| `Database.NoneSelectedNoChange` | chat/views.py:109-112 | A count of zero means the table is unchanged. |
| `Database.MarkReadIdempotent` | chat/views.py:103-106 | Repeating the update selects nothing and leaves the table as the first call left it. |
| `Database.ChatStore.CreateMessage` | chat/models.py:36-41 | A new row gets the next id, the current time and `is_read = false`. It is appended, and the invariant is kept. |
| `Database.ChatStore.SaveConversation` | chat/models.py:9 | Saving a conversation sets its `updated_at` to the current time and changes nothing else. |
| `Database.ChatStore.UpdateReadFlags` | chat/views.py:103-109 | The bulk update leaves the table equal to `MarkRead` of the old table and returns the selected count. The invariant is kept. |
| `Database.ChatStore.CreateConversation` | chat/views.py:71-72 | Creation adds exactly one conversation, under a fresh id, with the given participants. |
| `Database.ChatStore.AdvanceClock` | chat/models.py:40 | The clock that stamps rows moves forward only. Nothing else changes. |
| `Consumers.GroupName` | chat/consumers.py:11 | The group key is "chat_" followed by the conversation id. |
| `Consumers.GroupNamesDistinct` | chat/consumers.py:11 | Different conversations never share a group key. |
| `Consumers.CanSave` | chat/consumers.py:102-108 | The guard of `save_message` holds exactly when the username exists, the conversation exists, and one of its participants has that user's id. `SaveMessage` and `Receive` state their outcome against it. |
| `Consumers.ChatConsumer.Connect` | chat/consumers.py:9-26 | The consumer records the conversation and its group. The channel joins `chat_<id>` without a participation check. Exactly one `recent_messages` frame with the backfill goes to that channel and to no other. |
| `Consumers.ChatConsumer.Joined` | chat/consumers.py:10-11 | After `connect`, the group key is "chat_" followed by the recorded conversation id, so it starts with "chat_" and is longer than that prefix. `Connect` establishes it; `Disconnect` and `Receive` rely on it. |
| `Consumers.ChatConsumer.NextRow` | chat/consumers.py:110-114 | The row `save_message` creates, appended to a valid table, keeps ids strictly increasing and timestamps in order. |
| `Consumers.ChatConsumer.Disconnect` | chat/consumers.py:28-33 | The channel is no longer in the group `chat_<id>` of its conversation. Other members, other groups and all outboxes are unchanged. |
| `Consumers.ChatConsumer.GetRecentMessages` | chat/consumers.py:123-130 | At most 50 views, each of a stored message of this conversation, with ids strictly increasing and timestamps non-decreasing. Every message of the conversation left out is no later than every entry. The list is empty for a missing conversation. |
| `Consumers.ChatConsumer.SaveMessage` | chat/consumers.py:100-121 | Returns `None` and changes nothing when the user is unknown, the conversation is missing, or the user does not take part; the id counters stay too. Otherwise it appends one unread row with the given conversation, sender and content, and bumps `updated_at`. It returns that row's `to_dict`. The message id counter advances by one exactly when a row is saved; the conversation counter never moves. |
| `Consumers.ChatConsumer.Receive` | chat/consumers.py:35-73 | A chat message is broadcast to the group iff it was saved, and carries the saved row. Typing is broadcast with the given username and flag, and never touches the store. A rejected frame sends one error frame to this channel only. An unknown type changes nothing. Group membership never changes. The message id counter advances by one exactly when a chat message is saved; the conversation counter never moves. |
| `Views.MarkMessagesAsRead` | chat/views.py:92-128 | A non-POST request gets 405, bad JSON gets 400, and missing data gets 400; none of them changes anything. No path moves either id counter. Otherwise the table becomes `MarkRead` of the old table and the response carries the count of flipped flags. A `messages_read` event with all requested ids and the requester's name goes to `chat_<id>` iff that count is positive. |
| `Views.MissingData` | chat/views.py:99 | The request is refused for an absent or zero conversation id or an empty id list. When it passes, the id is positive and the list is non-empty. |
| `Views.UserExists` | chat/views.py:60 | The lookup of the other user succeeds exactly when an id was given and some username is registered under it. |
| `Views.MostRecent` | chat/views.py:63-65 | `.first()` under `-updated_at` picks a stored conversation of the set. |
| `Views.MostRecentTied` | chat/views.py:63-65 | Any two conversations `.first()` could pick have the same `updated_at`: the choice is free only among ties. |
| `Views.SharedConversations` | chat/views.py:63-65 | The lookup finds exactly the conversations both users take part in. |
| `Views.MostRecentExists` | chat/views.py:63-65 | A non-empty set of conversations has a most recently updated one, so `.first()` under `-updated_at` finds a row. |
| `Views.NewParticipants` | chat/views.py:72 | `participants.add(a, b)` yields two participants, or one when both are the same user. |
| `Views.CreatedIsOnlyShared` | chat/views.py:67-74 | After creation, the new conversation is the only one the two users share, so a second call returns it. |
| `Views.StartConversation` | chat/views.py:57-76 | A non-POST request redirects to the list; an unknown user gets 404. If a shared conversation exists, the most recently updated one is returned and nothing is created. Otherwise exactly one conversation with the two users is created and returned. The conversation counter advances by one exactly when a conversation is created; the message counter never moves. |
| `Views.AvatarInitial` | chat/views.py:141 | The avatar initial is one character and never a lower-case ASCII letter. It is "?" for an empty name. Otherwise it is the first character, upper-cased if it is an ASCII letter. |
| `Views.OtherIndices` | chat/views.py:139 | The filter keeps exactly the positions of participants who are not the viewer, each once, in increasing order. |
| `Views.OtherUsernames` | chat/views.py:139 | One name per participant who is not the viewer, in participant order: entry `i` is the username at the `i`-th kept position. The set of names is exactly the usernames of those participants. |
| `Views.OtherUsernamesOfPair` | chat/views.py:139 | In a two-person conversation each side's list is exactly the other's username. |
| `Views.Summarize` | chat/views.py:136-149 | An entry carries the display name and its avatar initial. `last_message_time` is empty exactly when the conversation has no messages, and then `last_message` is ''. Otherwise both come from a latest message of the conversation. `participants` lists the other participants' usernames. |
| `Views.ConversationsOf` | chat/views.py:133 | The filter selects exactly the conversations the viewer takes part in. |
| `Views.OrderByRecency` | chat/views.py:133 | Ordering yields each selected conversation exactly once, in non-increasing `updated_at`. |
| `Views.GetConversations` | chat/views.py:132-151 | There is one summary per conversation of the viewer, each once, most recently updated first. |

## Left out

- The channel layer as infrastructure is not modelled: the broker, asynchronous scheduling, `database_sync_to_async`, `async_to_sync`, delivery races. Each operation is one sequential step.
- JSON encoding and decoding is not modelled. Inbound frames arrive already decoded as `Protocol.Inbound`, with each key present or absent. JSON values of the wrong type (a non-string `message`, a non-boolean `is_typing`, a non-list `message_ids`, a non-object body) are not modelled.
- `Views.MarkMessagesAsRead`: ids in the request body are naturals. A negative `conversation_id` or message id, which JSON allows, is not modelled; in the source it passes the "Missing data" check, matches no row, and a negative message id is echoed in the `messages_read` broadcast only when some other id flipped a flag.
- Real time and ISO-8601 formatting are not modelled. Timestamps are naturals from a clock that never goes back.
- `Consumers.ChatConsumer.SaveMessage`: database errors other than "user or conversation does not exist" are not modelled. In the source they reach the catch-all in `receive` and produce an error frame.
- `Consumers.ChatConsumer.Receive`: the text of a JSON decoder error is taken as given (`Unparsable(detail)`), not computed.
- `Database.RecentAreLatest`: ties in timestamp are resolved by table order. The database may return tied rows in another order.
- `Models.LastMessage`: ties in timestamp are resolved by table order, as above.
- `Views.StartConversation`: among shared conversations with equal `updated_at`, any one may be returned. Non-numeric `user_id` values, which raise in the source, are not modelled.
- The order of `participants.all()` is taken to be the order in which the participants were added.
- `Views.AvatarInitial`, `Text.UpperChar`: only ASCII letters are upper-cased. Python's `str.upper()` also maps other letters ('é' to 'É') and can return two characters ('ß' to 'SS'); that Unicode case mapping is not modelled.
- Authentication, sessions, `login_view`, `logout_view`, `register_view` and `@login_required` are not modelled. The requester arrives authenticated.
- The HTML views `chat_list`, `chat_room` and `chat_room_content` are not modelled; they only render templates.
- `setup.py`, `whatsapp_clone/asgi.py`, `chat/urls.py` and `chat/admin.py` hold no chat logic. `chat/routing.py` is not part of this model. The URL parameter `conversation_id` is taken to be the decimal id.
- `created_at` of a conversation is never read by the core and is not modelled.
