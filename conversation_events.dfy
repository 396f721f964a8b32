/** The conversation event handler (DefaultConversationEventHandler.java):
    each engine callback becomes one push toward the host, with a fixed
    method name and payload, when the handler has a listener. */
module ConversationEvents {
  import opened Values
  import opened Common
  import opened Plugin

  /** What the handler reads from the engine's conversation object. */
  datatype ConversationView = ConversationView(
    conversationId: string,
    members: Option<seq<string>>,
    unreadCount: int,
    mentioned: bool,
    lastMessage: Option<Dict>,
    lastDeliveredAt: int,
    lastReadAt: int,
    dump: Dict)

  /** The six kinds of membership change. */
  datatype Change = Joined | Left | Muted | Unmuted | Blocked | Unblocked

  /** A membership event about the current client, or about other members. */
  datatype MemberEvent =
    | OwnEvent(change: Change, operator: Option<string>)
    | OthersEvent(change: Change, members: Option<seq<string>>, operator: Option<string>)

  function ChangeName(c: Change): (r: string)
    ensures |r| <= 9
  {
    match c
    case Joined => "joined"
    case Left => "left"
    case Muted => "muted"
    case Unmuted => "unmuted"
    case Blocked => "blocked"
    case Unblocked => "unblocked"
  }

  const OthersPrefix := "members-"

  /** The "op" of a membership push: the bare name for the client's own
      event, the name behind "members-" for other members'. */
  function OpName(e: MemberEvent): (r: string)
    ensures e.OwnEvent? ==> r == ChangeName(e.change)
    ensures e.OthersEvent? ==> r == OthersPrefix + ChangeName(e.change)
  {
    if e.OwnEvent? then ChangeName(e.change) else OthersPrefix + ChangeName(e.change)
  }

  lemma ChangeNameInjective(a: Change, b: Change)
    requires ChangeName(a) == ChangeName(b)
    ensures a == b
  {
    var na, nb := ChangeName(a), ChangeName(b);
    assert |na| == |nb| && na[0] == nb[0] && na[|na| - 1] == nb[|nb| - 1];
  }

  /** The twelve op names are pairwise different: the op alone tells the host
      whose event it is and which change happened. */
  lemma OpNameDistinguishes(a: MemberEvent, b: MemberEvent)
    requires OpName(a) == OpName(b)
    ensures a.OwnEvent? == b.OwnEvent? && a.change == b.change
  {
    if a.OwnEvent? && b.OwnEvent? {
      ChangeNameInjective(a.change, b.change);
    } else if a.OthersEvent? && b.OthersEvent? {
      assert OpName(a)[|OthersPrefix|..] == ChangeName(a.change);
      assert OpName(b)[|OthersPrefix|..] == ChangeName(b.change);
      ChangeNameInjective(a.change, b.change);
    }
  }

  /** The "m" entry of a membership push: the affected members for others'
      events, the client itself when it was invited or kicked, and none for
      its own mute and block changes. */
  function ChangedMembers(e: MemberEvent, clientId: string): (r: Option<Value>)
    ensures r.Some? <==> e.OthersEvent? || e.change == Joined || e.change == Left
    ensures e.OwnEvent? && r.Some? ==> r.value == VList([VStr(clientId)])
  {
    match e
    case OthersEvent(_, members, _) => Some(if members.Some? then VList(StrList(members.value)) else VNull)
    case OwnEvent(change, _) => if change == Joined || change == Left then Some(VList([VStr(clientId)])) else None
  }

  /** The payload of "onConversationMembersUpdate". */
  function MemberPayload(client: Client, conv: ConversationView, e: MemberEvent, now: string): (r: Dict)
    ensures r.Keys == {ClientIdKey, ConvIdKey, OperationKey, MembersKey, OperatorKey, UpdateTimeKey}
                      + (if ChangedMembers(e, client.clientId).Some? then {ConvMembersKey} else {})
    ensures r[ClientIdKey] == VStr(client.clientId) && r[ConvIdKey] == VStr(conv.conversationId)
    ensures r[OperationKey] == VStr(OpName(e)) && r[OperatorKey] == StrOrNull(e.operator) && r[UpdateTimeKey] == VStr(now)
    ensures r[MembersKey] == (if conv.members.Some? then VList(StrList(conv.members.value)) else VNull)
    ensures ChangedMembers(e, client.clientId).Some? ==> r[ConvMembersKey] == ChangedMembers(e, client.clientId).value
  {
    var param := map[ClientIdKey := VStr(client.clientId), ConvIdKey := VStr(conv.conversationId),
                     OperationKey := VStr(OpName(e))];
    var param' := match ChangedMembers(e, client.clientId)
                  case Some(m) => param[ConvMembersKey := m]
                  case None => param;
    param'[MembersKey := if conv.members.Some? then VList(StrList(conv.members.value)) else VNull]
          [OperatorKey := StrOrNull(e.operator)]
          [UpdateTimeKey := VStr(now)]
  }

  /** Kicked and invited pushes name the client itself as the changed member;
      the own mute and block pushes carry no "m" at all. */
  lemma OwnEventMembers(client: Client, conv: ConversationView, c: Change, operator: Option<string>, now: string)
    ensures c == Joined || c == Left ==>
      MemberPayload(client, conv, OwnEvent(c, operator), now)[ConvMembersKey] == VList([VStr(client.clientId)])
    ensures c != Joined && c != Left ==> ConvMembersKey !in MemberPayload(client, conv, OwnEvent(c, operator), now)
  {
  }

  /** The payload of "onUnreadMessageCountUpdate": the count and the mention
      flag always, the last message only when there are unread messages and
      a last message exists. */
  function UnreadPayload(client: Client, conv: ConversationView): (r: Dict)
    ensures r.Keys == {ClientIdKey, ConvIdKey, CountKey, MentionKey}
                      + (if conv.unreadCount > 0 && conv.lastMessage.Some? then {MessageKey} else {})
    ensures r[CountKey] == VInt(conv.unreadCount) && r[MentionKey] == VBool(conv.mentioned)
    ensures MessageKey in r ==> r[MessageKey] == VMap(WrapMessage(conv.lastMessage))
  {
    var param := map[ClientIdKey := VStr(client.clientId), ConvIdKey := VStr(conv.conversationId),
                     CountKey := VInt(conv.unreadCount), MentionKey := VBool(conv.mentioned)];
    if conv.unreadCount > 0 && conv.lastMessage.Some? then param[MessageKey := VMap(WrapMessage(conv.lastMessage))]
    else param
  }

  /** The payload of "onLastReceiptTimestampUpdate": the delivered watermark
      under "maxAckTimestamp", or the read watermark under "maxReadTimestamp". */
  function WatermarkPayload(client: Client, conv: ConversationView, read: bool): (r: Dict)
    ensures r.Keys == {ConvIdKey, ClientIdKey, if read then MaxReadTimestampKey else MaxAckTimestampKey}
    ensures read ==> r[MaxReadTimestampKey] == VLong(conv.lastReadAt)
    ensures !read ==> r[MaxAckTimestampKey] == VLong(conv.lastDeliveredAt)
  {
    map[ConvIdKey := VStr(conv.conversationId), ClientIdKey := VStr(client.clientId),
        (if read then MaxReadTimestampKey else MaxAckTimestampKey) := VLong(if read then conv.lastReadAt else conv.lastDeliveredAt)]
  }

  /** The two watermark pushes agree on everything but the timestamp key. */
  lemma WatermarksDifferOnlyInKey(client: Client, conv: ConversationView)
    ensures var delivered := WatermarkPayload(client, conv, false);
      var read := WatermarkPayload(client, conv, true);
      && MaxAckTimestampKey in delivered && MaxAckTimestampKey !in read
      && MaxReadTimestampKey in read && MaxReadTimestampKey !in delivered
      && delivered - {MaxAckTimestampKey} == read - {MaxReadTimestampKey}
  {
    var delivered := WatermarkPayload(client, conv, false);
    var read := WatermarkPayload(client, conv, true);
    assert MaxAckTimestampKey != MaxReadTimestampKey;
    assert MaxAckTimestampKey != ConvIdKey && MaxAckTimestampKey != ClientIdKey;
    assert MaxReadTimestampKey != ConvIdKey && MaxReadTimestampKey != ClientIdKey;
    assert (delivered - {MaxAckTimestampKey}).Keys == {ConvIdKey, ClientIdKey};
    assert (read - {MaxReadTimestampKey}).Keys == {ConvIdKey, ClientIdKey};
  }

  /** The payload of "onMessagePatch": the message, and recall=true for a recall. */
  function PatchPayload(client: Client, conv: ConversationView, message: Option<Dict>, recall: bool): (r: Dict)
    ensures r.Keys == {ClientIdKey, ConvIdKey, MessageKey} + (if recall then {RecallKey} else {})
    ensures r[MessageKey] == VMap(WrapMessage(message))
    ensures recall ==> r[RecallKey] == VBool(true)
  {
    var param := map[ClientIdKey := VStr(client.clientId), ConvIdKey := VStr(conv.conversationId),
                     MessageKey := VMap(WrapMessage(message))];
    if recall then param[RecallKey := VBool(true)] else param
  }

  /** A recall push is the update push plus recall=true, and nothing else. */
  lemma RecallAddsFlagOnly(client: Client, conv: ConversationView, message: Option<Dict>)
    ensures PatchPayload(client, conv, message, true) == PatchPayload(client, conv, message, false)[RecallKey := VBool(true)]
    ensures RecallKey !in PatchPayload(client, conv, message, false)
  {
  }

  /** The payload of "onConversationDataUpdate": the operator, the changed
      attributes, the wrapped conversation and the time. */
  function InfoPayload(client: Client, conv: ConversationView, attr: Dict, operator: Option<string>, now: string): (r: Dict)
    requires WellTypedDump(conv.dump)
    ensures r.Keys == {ClientIdKey, ConvIdKey, OperatorKey, ConvAttributesKey, RawDataKey, UpdateTimeKey}
    ensures r[OperatorKey] == StrOrNull(operator) && r[ConvAttributesKey] == VMap(attr) && r[UpdateTimeKey] == VStr(now)
    ensures r[RawDataKey] == VMap(WrapConversation(Some(conv.dump)))
  {
    map[ClientIdKey := VStr(client.clientId), ConvIdKey := VStr(conv.conversationId),
        OperatorKey := StrOrNull(operator), ConvAttributesKey := VMap(attr),
        RawDataKey := VMap(WrapConversation(Some(conv.dump))), UpdateTimeKey := VStr(now)]
  }

  /** The handler with its (possibly null) listener; every callback pushes
      through the listener and sends nothing without one. */
  class DefaultConversationEventHandler {
    const listener: LeancloudPlugin?

    constructor (listener: LeancloudPlugin?)
      ensures this.listener == listener
    {
      this.listener := listener;
    }

    /** What a callback may change: the listener's channel, or nothing. */
    function Outbox(): set<object>
    {
      if listener == null then {} else {listener.channel}
    }

    method NotifyMembers(client: Client, conv: ConversationView, e: MemberEvent, now: string)
      modifies Outbox()
      ensures listener != null ==>
        listener.channel.sent == old(listener.channel.sent) + [Push(ConvMemberUpdated, VMap(MemberPayload(client, conv, e, now)))]
    {
      if listener != null {
        listener.Notify(ConvMemberUpdated, MemberPayload(client, conv, e, now));
      }
    }

    method OnMemberLeft(client: Client, conv: ConversationView, members: Option<seq<string>>, kickedBy: Option<string>, now: string)
      modifies Outbox()
      ensures listener != null ==>
        listener.channel.sent == old(listener.channel.sent) + [Push(ConvMemberUpdated, VMap(MemberPayload(client, conv, OthersEvent(Left, members, kickedBy), now)))]
    {
      NotifyMembers(client, conv, OthersEvent(Left, members, kickedBy), now);
    }

    method OnMemberJoined(client: Client, conv: ConversationView, members: Option<seq<string>>, invitedBy: Option<string>, now: string)
      modifies Outbox()
      ensures listener != null ==>
        listener.channel.sent == old(listener.channel.sent) + [Push(ConvMemberUpdated, VMap(MemberPayload(client, conv, OthersEvent(Joined, members, invitedBy), now)))]
    {
      NotifyMembers(client, conv, OthersEvent(Joined, members, invitedBy), now);
    }

    method OnKicked(client: Client, conv: ConversationView, kickedBy: Option<string>, now: string)
      modifies Outbox()
      ensures listener != null ==>
        listener.channel.sent == old(listener.channel.sent) + [Push(ConvMemberUpdated, VMap(MemberPayload(client, conv, OwnEvent(Left, kickedBy), now)))]
    {
      NotifyMembers(client, conv, OwnEvent(Left, kickedBy), now);
    }

    method OnInvited(client: Client, conv: ConversationView, operator: Option<string>, now: string)
      modifies Outbox()
      ensures listener != null ==>
        listener.channel.sent == old(listener.channel.sent) + [Push(ConvMemberUpdated, VMap(MemberPayload(client, conv, OwnEvent(Joined, operator), now)))]
    {
      NotifyMembers(client, conv, OwnEvent(Joined, operator), now);
    }

    method OnMuted(client: Client, conv: ConversationView, operator: Option<string>, now: string)
      modifies Outbox()
      ensures listener != null ==>
        listener.channel.sent == old(listener.channel.sent) + [Push(ConvMemberUpdated, VMap(MemberPayload(client, conv, OwnEvent(Muted, operator), now)))]
    {
      NotifyMembers(client, conv, OwnEvent(Muted, operator), now);
    }

    method OnUnmuted(client: Client, conv: ConversationView, operator: Option<string>, now: string)
      modifies Outbox()
      ensures listener != null ==>
        listener.channel.sent == old(listener.channel.sent) + [Push(ConvMemberUpdated, VMap(MemberPayload(client, conv, OwnEvent(Unmuted, operator), now)))]
    {
      NotifyMembers(client, conv, OwnEvent(Unmuted, operator), now);
    }

    method OnMemberMuted(client: Client, conv: ConversationView, members: Option<seq<string>>, operator: Option<string>, now: string)
      modifies Outbox()
      ensures listener != null ==>
        listener.channel.sent == old(listener.channel.sent) + [Push(ConvMemberUpdated, VMap(MemberPayload(client, conv, OthersEvent(Muted, members, operator), now)))]
    {
      NotifyMembers(client, conv, OthersEvent(Muted, members, operator), now);
    }

    method OnMemberUnmuted(client: Client, conv: ConversationView, members: Option<seq<string>>, operator: Option<string>, now: string)
      modifies Outbox()
      ensures listener != null ==>
        listener.channel.sent == old(listener.channel.sent) + [Push(ConvMemberUpdated, VMap(MemberPayload(client, conv, OthersEvent(Unmuted, members, operator), now)))]
    {
      NotifyMembers(client, conv, OthersEvent(Unmuted, members, operator), now);
    }

    method OnBlocked(client: Client, conv: ConversationView, operator: Option<string>, now: string)
      modifies Outbox()
      ensures listener != null ==>
        listener.channel.sent == old(listener.channel.sent) + [Push(ConvMemberUpdated, VMap(MemberPayload(client, conv, OwnEvent(Blocked, operator), now)))]
    {
      NotifyMembers(client, conv, OwnEvent(Blocked, operator), now);
    }

    method OnUnblocked(client: Client, conv: ConversationView, operator: Option<string>, now: string)
      modifies Outbox()
      ensures listener != null ==>
        listener.channel.sent == old(listener.channel.sent) + [Push(ConvMemberUpdated, VMap(MemberPayload(client, conv, OwnEvent(Unblocked, operator), now)))]
    {
      NotifyMembers(client, conv, OwnEvent(Unblocked, operator), now);
    }

    method OnMemberBlocked(client: Client, conv: ConversationView, members: Option<seq<string>>, operator: Option<string>, now: string)
      modifies Outbox()
      ensures listener != null ==>
        listener.channel.sent == old(listener.channel.sent) + [Push(ConvMemberUpdated, VMap(MemberPayload(client, conv, OthersEvent(Blocked, members, operator), now)))]
    {
      NotifyMembers(client, conv, OthersEvent(Blocked, members, operator), now);
    }

    method OnMemberUnblocked(client: Client, conv: ConversationView, members: Option<seq<string>>, operator: Option<string>, now: string)
      modifies Outbox()
      ensures listener != null ==>
        listener.channel.sent == old(listener.channel.sent) + [Push(ConvMemberUpdated, VMap(MemberPayload(client, conv, OthersEvent(Unblocked, members, operator), now)))]
    {
      NotifyMembers(client, conv, OthersEvent(Unblocked, members, operator), now);
    }

    method OnUnreadMessagesCountUpdated(client: Client, conv: ConversationView)
      modifies Outbox()
      ensures listener != null ==>
        listener.channel.sent == old(listener.channel.sent) + [Push(ConvUnreadCountUpdated, VMap(UnreadPayload(client, conv)))]
    {
      if listener != null {
        listener.Notify(ConvUnreadCountUpdated, UnreadPayload(client, conv));
      }
    }

    method OnLastDeliveredAtUpdated(client: Client, conv: ConversationView)
      modifies Outbox()
      ensures listener != null ==>
        listener.channel.sent == old(listener.channel.sent) + [Push(ConvLastReceiptUpdated, VMap(WatermarkPayload(client, conv, false)))]
    {
      if listener != null {
        listener.Notify(ConvLastReceiptUpdated, WatermarkPayload(client, conv, false));
      }
    }

    method OnLastReadAtUpdated(client: Client, conv: ConversationView)
      modifies Outbox()
      ensures listener != null ==>
        listener.channel.sent == old(listener.channel.sent) + [Push(ConvLastReceiptUpdated, VMap(WatermarkPayload(client, conv, true)))]
    {
      if listener != null {
        listener.Notify(ConvLastReceiptUpdated, WatermarkPayload(client, conv, true));
      }
    }

    /** The message id is logged before the listener is looked at, so a null
        message raises and nothing is pushed. */
    method OnMessageUpdated(client: Client, conv: ConversationView, message: Option<Dict>) returns (raised: bool)
      modifies Outbox()
      ensures raised <==> message.None?
      ensures listener != null && message.Some? ==>
        listener.channel.sent == old(listener.channel.sent) + [Push(MessageUpdated, VMap(PatchPayload(client, conv, message, false)))]
      ensures listener != null && message.None? ==> listener.channel.sent == old(listener.channel.sent)
    {
      if message.None? {
        return true;
      }
      raised := false;
      if listener != null {
        listener.Notify(MessageUpdated, PatchPayload(client, conv, message, false));
      }
    }

    method OnMessageRecalled(client: Client, conv: ConversationView, message: Option<Dict>) returns (raised: bool)
      modifies Outbox()
      ensures raised <==> message.None?
      ensures listener != null && message.Some? ==>
        listener.channel.sent == old(listener.channel.sent) + [Push(MessageUpdated, VMap(PatchPayload(client, conv, message, true)))]
      ensures listener != null && message.None? ==> listener.channel.sent == old(listener.channel.sent)
    {
      if message.None? {
        return true;
      }
      raised := false;
      if listener != null {
        listener.Notify(MessageUpdated, PatchPayload(client, conv, message, true));
      }
    }

    /** onMemberInfoUpdated only logs: nothing is pushed, even with a listener. */
    method OnMemberInfoUpdated(client: Client, conv: ConversationView, operator: Option<string>)
      ensures listener != null ==> listener.channel.sent == old(listener.channel.sent)
    {
    }

    method OnInfoChanged(client: Client, conv: ConversationView, attr: Dict, operator: Option<string>, now: string)
      requires WellTypedDump(conv.dump)
      modifies Outbox()
      ensures listener != null ==>
        listener.channel.sent == old(listener.channel.sent) + [Push(ConvUpdated, VMap(InfoPayload(client, conv, attr, operator, now)))]
    {
      if listener != null {
        listener.Notify(ConvUpdated, InfoPayload(client, conv, attr, operator, now));
      }
    }
  }
}
