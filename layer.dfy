/**
 * The channel layer as seen by the chat: groups of channel names, and for
 * every channel the frames its consumer has written to its socket, oldest
 * first. Delivery through a group is modelled as appending the handled
 * frame to each member's log.
 */
module Layer {
  import opened Protocol

  type Groups = map<string, set<string>>
  type Outbox = map<string, seq<Frame>>

  /** The channels currently in group `g`; a group nobody joined is empty. */
  function MembersOf(groups: Groups, g: string): (s: set<string>)
    ensures g !in groups ==> s == {}
  {
    if g in groups then groups[g] else {}
  }

  /** The frames delivered so far to channel `c`. */
  function SentTo(outbox: Outbox, c: string): (s: seq<Frame>)
    ensures c !in outbox ==> s == []
  {
    if c in outbox then outbox[c] else []
  }

  /** Deliver `f` to every channel in `members`: one frame more for each of them, nothing for anyone else. */
  function Fanout(outbox: Outbox, members: set<string>, f: Frame): (r: Outbox)
    ensures forall c :: SentTo(r, c) == if c in members then SentTo(outbox, c) + [f] else SentTo(outbox, c)
  {
    map c | c in outbox.Keys + members :: if c in members then SentTo(outbox, c) + [f] else outbox[c]
  }

  class ChannelLayer {
    var groups: Groups
    var outbox: Outbox

    constructor ()
      ensures groups == map[] && outbox == map[]
    {
      groups := map[];
      outbox := map[];
    }

    /** `group_add`: idempotent insertion of `channel` into group `g`. */
    method GroupAdd(g: string, channel: string)
      modifies this
      ensures groups == old(groups)[g := MembersOf(old(groups), g) + {channel}]
      ensures outbox == old(outbox)
    {
      groups := groups[g := MembersOf(groups, g) + {channel}];
    }

    /** `group_discard`: removes `channel` from group `g`; a no-op when it is absent. */
    method GroupDiscard(g: string, channel: string)
      modifies this
      ensures forall h :: MembersOf(groups, h) == if h == g then MembersOf(old(groups), h) - {channel} else MembersOf(old(groups), h)
      ensures outbox == old(outbox)
    {
      if g in groups {
        groups := groups[g := groups[g] - {channel}];
      }
    }

    /** `group_send`: every channel in group `g` at the time of the call receives `f`. */
    method GroupSend(g: string, f: Frame)
      modifies this
      ensures outbox == Fanout(old(outbox), MembersOf(old(groups), g), f)
      ensures groups == old(groups)
    {
      outbox := Fanout(outbox, MembersOf(groups, g), f);
    }

    /** `send` on one consumer: the frame goes to that channel only. */
    method Send(channel: string, f: Frame)
      modifies this
      ensures outbox == Fanout(old(outbox), {channel}, f)
      ensures groups == old(groups)
    {
      outbox := Fanout(outbox, {channel}, f);
    }
  }
}
