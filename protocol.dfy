/**
 * The WebSocket protocol of the chat consumer: inbound frames as they come
 * out of the JSON decoder, the events sent through the channel layer, the
 * outbound frames, and the consumer's three event handlers.
 */
module Protocol {
  import opened Wrappers
  import opened Models

  /**
   * An inbound text frame. `Unparsable` is a frame the JSON decoder rejects,
   * carrying the decoder's message; an `Envelope` holds each of the keys the
   * consumer reads, `None` where the key is absent.
   */
  datatype Inbound =
    | Unparsable(detail: string)
    | Envelope(kind: Option<string>, message: Option<string>, username: Option<string>, isTyping: Option<bool>)

  /** What `receive` makes of an inbound frame. */
  datatype Command =
    | SendChat(username: string, content: string)
    | SendTyping(username: string, isTyping: bool)
    | Ignore
    | Reject(detail: string)

  /** A message handed to `group_send`; its type names the handler that runs on each member. */
  datatype Event =
    | ChatMessageEvent(message: MessageView)
    | MessagesReadEvent(messageIds: seq<nat>, senderUsername: string)
    | TypingStatusEvent(username: string, isTyping: bool)

  /** An outbound text frame, one per `type` the client understands. */
  datatype Frame =
    | RecentMessages(messages: seq<MessageView>)
    | ChatMessage(message: MessageView)
    | MessagesRead(messageIds: seq<nat>, senderUsername: string)
    | TypingStatus(username: string, isTyping: bool)
    | Error(text: string)

  /** The text `str(KeyError(key))`: the key in single quotes. */
  function MissingKey(key: string): (s: string)
    ensures |s| == |key| + 2 && s[0] == '\'' && s[|s| - 1] == '\'' && s[1..|s| - 1] == key
  {
    "'" + key + "'"
  }

  /** The text of the error frame sent back for an exception with text `detail`. */
  function ErrorText(detail: string): (s: string)
    ensures |s| == 26 + |detail| && s[..26] == "Error processing message: " && s[26..] == detail
  {
    "Error processing message: " + detail
  }

  const ChatType := "chat_message"
  const TypingType := "typing"

  /**
   * The decoding half of `receive`: `type` defaults to "chat_message", a
   * missing key raises, and any other type is dropped.
   */
  function Decode(frame: Inbound): (c: Command)
    ensures c.Reject? <==>
      frame.Unparsable? ||
      (frame.kind.GetOr(ChatType) == ChatType && (frame.message.None? || frame.username.None?)) ||
      (frame.kind.GetOr(ChatType) == TypingType && (frame.username.None? || frame.isTyping.None?))
    ensures c.SendChat? <==>
      frame.Envelope? && frame.kind.GetOr(ChatType) == ChatType && frame.message.Some? && frame.username.Some?
    ensures c.SendChat? ==> c.username == frame.username.value && c.content == frame.message.value
    ensures c.SendTyping? <==>
      frame.Envelope? && frame.kind.GetOr(ChatType) == TypingType && frame.username.Some? && frame.isTyping.Some?
    ensures c.SendTyping? ==> c.username == frame.username.value && c.isTyping == frame.isTyping.value
    ensures c.Ignore? <==> frame.Envelope? && frame.kind.GetOr(ChatType) != ChatType && frame.kind.GetOr(ChatType) != TypingType
    ensures frame.Unparsable? ==> c == Reject(frame.detail)
    ensures frame.Envelope? && frame.kind.GetOr(ChatType) == ChatType ==>
      && (frame.message.None? ==> c == Reject(MissingKey("message")))
      && (frame.message.Some? && frame.username.None? ==> c == Reject(MissingKey("username")))
    ensures frame.Envelope? && frame.kind.GetOr(ChatType) == TypingType ==>
      && (frame.username.None? ==> c == Reject(MissingKey("username")))
      && (frame.username.Some? && frame.isTyping.None? ==> c == Reject(MissingKey("is_typing")))
  {
    match frame
    case Unparsable(detail) => Reject(detail)
    case Envelope(kind, message, username, isTyping) =>
      var t := kind.GetOr(ChatType);
      if t == ChatType then
        if message.None? then Reject(MissingKey("message"))
        else if username.None? then Reject(MissingKey("username"))
        else SendChat(username.value, message.value)
      else if t == TypingType then
        if username.None? then Reject(MissingKey("username"))
        else if isTyping.None? then Reject(MissingKey("is_typing"))
        else SendTyping(username.value, isTyping.value)
      else Ignore
  }

  /**
   * The handlers `chat_message`, `messages_read` and `typing_status`: each
   * forwards its event to the member's socket as the frame of the same type.
   */
  function Handle(e: Event): (f: Frame)
    ensures !f.RecentMessages? && !f.Error?
    ensures e.ChatMessageEvent? <==> f.ChatMessage?
    ensures e.ChatMessageEvent? ==> f.message == e.message
    ensures e.MessagesReadEvent? <==> f.MessagesRead?
    ensures e.MessagesReadEvent? ==> f.messageIds == e.messageIds && f.senderUsername == e.senderUsername
    ensures e.TypingStatusEvent? <==> f.TypingStatus?
    ensures e.TypingStatusEvent? ==> f.username == e.username && f.isTyping == e.isTyping
  {
    match e
    case ChatMessageEvent(m) => ChatMessage(m)
    case MessagesReadEvent(ids, who) => MessagesRead(ids, who)
    case TypingStatusEvent(who, typing) => TypingStatus(who, typing)
  }
}
