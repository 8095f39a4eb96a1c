/**
 * The chat models: users, conversations and messages as values, and the
 * read-only helpers defined on them (display names, last message, the
 * serialised form of a message).
 */
module Models {
  import opened Wrappers
  import opened Text

  type UserId = nat

  /** An authenticated user; two users are the same user when their ids agree. */
  datatype User = User(id: UserId, username: string)

  /**
   * A conversation row. `participants` lists the members in the order the
   * many-to-many relation returns them; `updatedAt` is refreshed on every save.
   */
  datatype Conversation = Conversation(id: nat, participants: seq<User>, updatedAt: nat)

  /** A message row; `isRead` is the only field that changes after creation. */
  datatype Message = Message(
    id: nat,
    conversation: nat,
    sender: User,
    content: string,
    timestamp: nat,
    isRead: bool)

  /** The dictionary built by `Message.to_dict`: exactly these five keys. */
  datatype MessageView = MessageView(
    id: nat,
    sender: string,
    content: string,
    timestamp: nat,
    isRead: bool)

  predicate IsParticipant(c: Conversation, uid: UserId) {
    exists i :: 0 <= i < |c.participants| && c.participants[i].id == uid
  }

  /** `Message.to_dict`: the stored values, with the sender given by username. */
  function ToView(m: Message): (v: MessageView)
    ensures v.id == m.id && v.sender == m.sender.username && v.content == m.content
    ensures v.timestamp == m.timestamp && v.isRead == m.isRead
  {
    MessageView(m.id, m.sender.username, m.content, m.timestamp, m.isRead)
  }

  /** `[msg.to_dict() for msg in ms]`, keeping the order of `ms`. */
  function Views(ms: seq<Message>): (vs: seq<MessageView>)
    ensures |vs| == |ms|
    ensures forall i :: 0 <= i < |ms| ==> vs[i] == ToView(ms[i])
  {
    seq(|ms|, i requires 0 <= i < |ms| => ToView(ms[i]))
  }

  /** `Message.__str__`: the sender, then at most the first fifty characters of the content, then "...". */
  function MessageStr(m: Message): (s: string)
    ensures |s| == |m.sender.username| + 2 + (if |m.content| < 50 then |m.content| else 50) + 3
    ensures s[..|m.sender.username|] == m.sender.username && s[|s| - 3..] == "..."
    ensures var u, n := |m.sender.username|, if |m.content| < 50 then |m.content| else 50;
      s[u..u + 2] == ": " && s[u + 2..|s| - 3] == m.content[..n]
  {
    var preview := if |m.content| < 50 then m.content else m.content[..50];
    m.sender.username + ": " + preview + "..."
  }

  /**
   * `Conversation.__str__`: the first two usernames around " & ", the sole
   * username, or "Conversation <id>" when nobody takes part.
   */
  function ConversationStr(c: Conversation): (s: string)
    ensures |c.participants| == 1 ==> s == c.participants[0].username
    ensures |c.participants| >= 2 ==>
      var a, b := c.participants[0].username, c.participants[1].username;
      |s| == |a| + 3 + |b| && s[..|a|] == a && s[|a|..|a| + 3] == " & " && s[|a| + 3..] == b
    ensures |c.participants| == 0 ==> |s| > 13 && s[..13] == "Conversation " && s[13..] == NatToString(c.id)
  {
    var ps := c.participants;
    if |ps| >= 2 then ps[0].username + " & " + ps[1].username
    else if |ps| == 1 then ps[0].username
    else "Conversation " + NatToString(c.id)
  }

  /** Conversations without participants print as "Conversation <id>", distinct per id. */
  lemma StrOfEmptyConversationsDistinct(c: Conversation, d: Conversation)
    requires |c.participants| == 0 && |d.participants| == 0 && c.id != d.id
    ensures ConversationStr(c) != ConversationStr(d)
    ensures ConversationStr(c)[..13] == "Conversation "
  {
    var p := "Conversation ";
    if ConversationStr(c) == ConversationStr(d) {
      assert NatToString(c.id) == ConversationStr(c)[|p|..] == ConversationStr(d)[|p|..] == NatToString(d.id);
      NatToStringInjective(c.id, d.id);
    }
  }

  /** The index of the first participant who is not `current`: the loop of `get_display_name`. */
  function FirstOther(ps: seq<User>, current: User): (r: Option<nat>)
    ensures r.Some? ==> r.value < |ps| && ps[r.value].id != current.id
    ensures r.Some? ==> forall j :: 0 <= j < r.value ==> ps[j].id == current.id
    ensures r.None? ==> forall j :: 0 <= j < |ps| ==> ps[j].id == current.id
  {
    if |ps| == 0 then None
    else if ps[0].id != current.id then Some(0)
    else match FirstOther(ps[1..], current)
      case None => None
      case Some(i) => Some(i + 1)
  }

  /**
   * `Conversation.get_display_name(current_user)`: the username of the first
   * participant who is not `current`; without one, the user's own name, or
   * "Unknown" when nobody takes part.
   */
  function DisplayName(ps: seq<User>, current: User): (n: string)
    ensures (exists k :: 0 <= k < |ps| && ps[k].id != current.id) ==>
      exists k :: 0 <= k < |ps| && ps[k].id != current.id && n == ps[k].username
        && forall j :: 0 <= j < k ==> ps[j].id == current.id
    ensures (forall j :: 0 <= j < |ps| ==> ps[j].id == current.id) ==>
      n == if |ps| > 0 then current.username else "Unknown"
  {
    match FirstOther(ps, current)
    case Some(i) => ps[i].username
    case None => if |ps| > 0 then current.username else "Unknown"
  }

  /** The display name is the first other participant's username, if there is one. */
  lemma DisplayNameIsFirstOther(ps: seq<User>, current: User, k: nat)
    requires k < |ps| && ps[k].id != current.id
    requires forall j :: 0 <= j < k ==> ps[j].id == current.id
    ensures DisplayName(ps, current) == ps[k].username
  {
  }

  /** In a two-person conversation each side sees the other's name. */
  lemma DisplayNameOfPair(a: User, b: User)
    requires a.id != b.id
    ensures DisplayName([a, b], a) == b.username
    ensures DisplayName([a, b], b) == a.username
  {
    DisplayNameIsFirstOther([a, b], a, 1);
    DisplayNameIsFirstOther([a, b], b, 0);
  }

  /**
   * `get_last_message`: a message of conversation `conv` with the greatest
   * timestamp; among equal timestamps the one stored last.
   */
  function LastMessage(ms: seq<Message>, conv: nat): (r: Option<Message>)
    ensures r.Some? ==> r.value in ms && r.value.conversation == conv
    ensures r.Some? ==> forall m :: m in ms && m.conversation == conv ==> m.timestamp <= r.value.timestamp
    ensures r.None? <==> forall m :: m in ms ==> m.conversation != conv
  {
    if |ms| == 0 then None
    else
      var prev, m := LastMessage(ms[..|ms| - 1], conv), ms[|ms| - 1];
      assert ms == ms[..|ms| - 1] + [m];
      if m.conversation == conv && (prev.None? || prev.value.timestamp <= m.timestamp) then Some(m)
      else prev
  }
}
