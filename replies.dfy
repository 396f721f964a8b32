/** The replies the Android plugin sends when the engine completes a call
    (the callbacks inside onMethodCall, LeancloudPlugin.java). Every
    completion is answered with result.success: the error envelope when the
    engine reports an exception, and a {"success": ...} envelope otherwise. */
module Replies {
  import opened Values
  import opened Common
  import Numerals

  /** What the engine hands a callback: an exception, or its result. */
  datatype Completion<T> = Failed(error: LCException) | Done(value: T)

  /** The reply for a completion whose result has already been shaped. */
  function Answer(c: Completion<Dict>): (r: Dict)
    ensures c.Failed? ==> r == WrapException(Some(c.error)) && r.Keys == {ErrorKey}
    ensures c.Done? ==> r == c.value
  {
    match c
    case Failed(e) => WrapException(Some(e))
    case Done(d) => d
  }

  /** A successful answer never looks like a failed one: the host tells them
      apart by the top-level key alone. */
  lemma SuccessAndErrorDistinct(e: LCException, result: Dict)
    ensures "success" !in Answer(Failed(e))
    ensures ErrorKey !in WrapSuccessMap(Some(result))
    ensures Answer(Failed(e)) != WrapSuccessMap(Some(result))
  {
    assert "success" != ErrorKey;
  }

  // ---------------------------------------------------------------------
  // Clients.

  /** openClient and closeClient: {"success": {"clientId": id}}. */
  function ClientReply(c: Completion<Client>): (r: Dict)
    ensures c.Failed? ==> r == WrapException(Some(c.error))
    ensures c.Done? ==> r.Keys == {"success"} && r["success"] == VMap(map[ClientIdKey := VStr(c.value.clientId)])
  {
    match c
    case Failed(e) => WrapException(Some(e))
    case Done(client) => WrapSuccessMap(Some(WrapClient(Some(client))))
  }

  // ---------------------------------------------------------------------
  // Conversations.

  /** createConversation: the wrapped conversation, with "ttl" replaced by
      the requested ttl for a temporary conversation with a positive ttl (the
      engine reports an absolute expiry there). */
  function CreatedConversation(raw: Dict, convType: int, ttl: int): (r: Dict)
    requires WellTypedDump(raw)
  {
    var conv := WrapConversation(Some(raw));
    if ttl > 0 && convType == ConvTypeTemporary then conv[ConvTtlKey := VInt(ttl)] else conv
  }

  function CreatedConversationReply(c: Completion<Dict>, convType: int, ttl: int): (r: Dict)
    requires c.Done? ==> WellTypedDump(c.value)
  {
    match c
    case Failed(e) => WrapException(Some(e))
    case Done(raw) => WrapSuccessMap(Some(CreatedConversation(raw, convType, ttl)))
  }

  /** The reported ttl is the requested one exactly for a temporary
      conversation created with a positive ttl; otherwise the engine's dump is
      passed on as wrapConversation leaves it. */
  lemma CreatedConversationTtl(raw: Dict, convType: int, ttl: int)
    requires WellTypedDump(raw)
    ensures var r := CreatedConversationReply(Done(raw), convType, ttl);
      && r.Keys == {"success"} && r["success"].VMap?
      && (ttl > 0 && convType == ConvTypeTemporary ==>
            && r["success"].entries[ConvTtlKey] == VInt(ttl)
            && r["success"].entries.Keys == WrapConversation(Some(raw)).Keys + {ConvTtlKey}
            && forall k :: k in raw && k != ConvTtlKey ==> r["success"].entries[k] == raw[k])
      && (!(ttl > 0 && convType == ConvTypeTemporary) ==> r["success"] == VMap(WrapConversation(Some(raw))))
  {
  }

  /** queryConversation: each conversation wrapped, in the engine's order. */
  method WrapConversations(conversations: seq<Dict>) returns (r: seq<Dict>)
    requires forall i :: 0 <= i < |conversations| ==> WellTypedDump(conversations[i])
    ensures |r| == |conversations|
    ensures forall i :: 0 <= i < |r| ==> r[i] == WrapConversation(Some(conversations[i]))
  {
    r := [];
    for n := 0 to |conversations|
      invariant |r| == n
      invariant forall i :: 0 <= i < n ==> r[i] == WrapConversation(Some(conversations[i]))
    {
      r := r + [WrapConversation(Some(conversations[n]))];
    }
  }

  /** The query reply lists every conversation the engine found, each
      wrapped, in order. */
  method ConversationListReply(c: Completion<seq<Dict>>) returns (r: Dict)
    requires c.Done? ==> forall i :: 0 <= i < |c.value| ==> WellTypedDump(c.value[i])
    ensures c.Failed? ==> r == WrapException(Some(c.error))
    ensures c.Done? ==>
      && r.Keys == {"success"} && r["success"].VList? && |r["success"].items| == |c.value|
      && forall i :: 0 <= i < |c.value| ==> r["success"].items[i] == VMap(WrapConversation(Some(c.value[i])))
  {
    if c.Failed? {
      return WrapException(Some(c.error));
    }
    var wrapped := WrapConversations(c.value);
    r := WrapSuccessList(Some(wrapped));
  }

  /** muteToggle: "udate" is the conversation's update time; "mu" lists the
      client after a mute, is empty after an unmute, and is absent otherwise. */
  function MuteReply(c: Completion<string>, operation: Option<string>, clientId: string): (r: Dict)
    ensures c.Failed? ==> r == WrapException(Some(c.error))
    ensures c.Done? ==> r.Keys == {"success"} && r["success"].VMap?
    ensures c.Done? ==>
      var body := r["success"].entries;
      && UpdateTimeKey in body && body[UpdateTimeKey] == VStr(c.value)
      && ("mu" in body <==> EqualsIgnoreCase(OpMute, operation) || EqualsIgnoreCase(OpUnmute, operation))
      && (EqualsIgnoreCase(OpMute, operation) ==> body["mu"] == VList([VStr(clientId)]))
      && (EqualsIgnoreCase(OpUnmute, operation) ==> body["mu"] == VList([]))
      && body.Keys <= {UpdateTimeKey, "mu"}
  {
    match c
    case Failed(e) => WrapException(Some(e))
    case Done(updatedAt) =>
      assert !(EqualsIgnoreCase(OpMute, operation) && EqualsIgnoreCase(OpUnmute, operation)) by {
        if EqualsIgnoreCase(OpMute, operation) {
          assert |operation.value| == |OpMute| != |OpUnmute|;
        }
      }
      var result := map[UpdateTimeKey := VStr(updatedAt)];
      var result' :=
        if EqualsIgnoreCase(OpMute, operation) then result["mu" := VList([VStr(clientId)])]
        else if EqualsIgnoreCase(OpUnmute, operation) then result["mu" := VList([])]
        else result;
      WrapSuccessMap(Some(result'))
  }

  /** updateData: the conversation as wrapped after the update. */
  function UpdatedConversationReply(c: Completion<Dict>): (r: Dict)
    requires c.Done? ==> WellTypedDump(c.value)
    ensures c.Failed? ==> r == WrapException(Some(c.error))
    ensures c.Done? ==> r.Keys == {"success"} && r["success"] == VMap(WrapConversation(Some(c.value)))
  {
    match c
    case Failed(e) => WrapException(Some(e))
    case Done(raw) => WrapSuccessMap(Some(WrapConversation(Some(raw))))
  }

  // ---------------------------------------------------------------------
  // Member updates that may partly succeed.

  /** LCIMOperationFailure: the members an operation failed for, with the
      server's code and reason. */
  datatype OperationFailure = OperationFailure(memberIds: Option<seq<string>>, code: int, reason: Option<string>)

  /** One "failedPids" entry: {"pids": ids, "error": {"code": text, "message": reason}}. */
  function FailureEntry(f: OperationFailure): Value {
    VMap(map["pids" := if f.memberIds.Some? then VList(StrList(f.memberIds.value)) else VNull,
             ErrorKey := VMap(map[CodeKey := VStr(Numerals.DecimalText(f.code)), "message" := StrOrNull(f.reason)])])
  }

  /** A failure entry names the failed members and carries the code as
      decimal text that reads back as the code, and the reason. */
  lemma FailureEntryReadsBack(f: OperationFailure)
    ensures var e := FailureEntry(f).entries;
      && e.Keys == {"pids", ErrorKey}
      && (f.memberIds.Some? ==> e["pids"].VList? && |e["pids"].items| == |f.memberIds.value|)
      && e[ErrorKey].entries.Keys == {CodeKey, "message"}
      && Numerals.ParseInt(e[ErrorKey].entries[CodeKey].s, 10) == Some(f.code)
      && e[ErrorKey].entries["message"] == StrOrNull(f.reason)
  {
    Numerals.IntTextRoundTrip(f.code, 10);
  }

  /** The loop that turns the failures into "failedPids" entries, in order. */
  method FailedList(failures: seq<OperationFailure>) returns (r: seq<Value>)
    ensures |r| == |failures|
    ensures forall i :: 0 <= i < |r| ==> r[i] == FailureEntry(failures[i])
  {
    r := [];
    var k := 0;
    while k < |failures|
      invariant 0 <= k <= |failures|
      invariant |r| == k
      invariant forall i :: 0 <= i < k ==> r[i] == FailureEntry(failures[i])
    {
      r := r + [FailureEntry(failures[k])];
      k := k + 1;
    }
  }

  /** updateMembers, updateBlockMembers, updateMuteMembers: the allowed
      members, the failures when the engine reports a failure list, the
      conversation's members after the operation, and the current time. */
  method PartialSuccessReply(c: Completion<(Option<seq<string>>, Option<seq<OperationFailure>>)>,
                             members: Option<seq<string>>, now: string) returns (r: Dict)
    ensures c.Failed? ==> r == WrapException(Some(c.error))
    ensures c.Done? ==>
      var (allowed, failures) := c.value;
      && r.Keys == {"success"} && r["success"].VMap?
      && var body := r["success"].entries;
      && body.Keys == {"allowedPids", ConvMembersKey, UpdateTimeKey} + (if failures.Some? then {"failedPids"} else {})
      && body["allowedPids"] == (if allowed.Some? then VList(StrList(allowed.value)) else VNull)
      && body[ConvMembersKey] == (if members.Some? then VList(StrList(members.value)) else VNull)
      && body[UpdateTimeKey] == VStr(now)
      && (failures.Some? ==>
            && body["failedPids"].VList? && |body["failedPids"].items| == |failures.value|
            && forall i :: 0 <= i < |failures.value| ==> body["failedPids"].items[i] == FailureEntry(failures.value[i]))
  {
    if c.Failed? {
      return WrapException(Some(c.error));
    }
    var (allowed, failures) := c.value;
    var body: Dict := map["allowedPids" := if allowed.Some? then VList(StrList(allowed.value)) else VNull];
    if failures.Some? {
      var failedList := FailedList(failures.value);
      body := body["failedPids" := VList(failedList)];
    }
    body := body[ConvMembersKey := if members.Some? then VList(StrList(members.value)) else VNull];
    body := body[UpdateTimeKey := VStr(now)];
    r := WrapSuccessMap(Some(body));
  }

  // ---------------------------------------------------------------------
  // Queries on one conversation.

  /** queryBlockedMembers, queryMutedMembers: a page of client ids and the
      cursor of the next page. */
  function MemberPageReply(c: Completion<(Option<seq<string>>, Option<string>)>): (r: Dict)
    ensures c.Failed? ==> r == WrapException(Some(c.error))
    ensures c.Done? ==>
      && r.Keys == {"success"} && r["success"].VMap?
      && r["success"].entries.Keys == {"client_ids", NextKey}
      && r["success"].entries[NextKey] == StrOrNull(c.value.1)
      && (c.value.0.Some? ==> r["success"].entries["client_ids"] == VList(StrList(c.value.0.value)))
      && (c.value.0.None? ==> r["success"].entries["client_ids"] == VNull)
  {
    match c
    case Failed(e) => WrapException(Some(e))
    case Done((ids, next)) =>
      WrapSuccessMap(Some(map["client_ids" := if ids.Some? then VList(StrList(ids.value)) else VNull,
                              NextKey := StrOrNull(next)]))
  }

  /** fetchReceiptTimestamp: the conversation's read and delivered watermarks
      (longs) after the fetch. */
  function ReceiptReply(c: Completion<(int, int)>): (r: Dict)
    ensures c.Failed? ==> r == WrapException(Some(c.error))
    ensures c.Done? ==>
      && r.Keys == {"success"}
      && r["success"] == VMap(map[MaxReadTimestampKey := VLong(c.value.0), "maxDeliveredTimestamp" := VLong(c.value.1)])
  {
    match c
    case Failed(e) => WrapException(Some(e))
    case Done((lastReadAt, lastDeliveredAt)) =>
      WrapSuccessMap(Some(map[MaxReadTimestampKey := VLong(lastReadAt), "maxDeliveredTimestamp" := VLong(lastDeliveredAt)]))
  }

  /** The two watermarks are reported under different keys, so neither hides the other. */
  lemma ReceiptKeysDistinct(lastReadAt: int, lastDeliveredAt: int)
    ensures var body := ReceiptReply(Done((lastReadAt, lastDeliveredAt)))["success"].entries;
      |body.Keys| == 2 && body[MaxReadTimestampKey].l == lastReadAt && body["maxDeliveredTimestamp"].l == lastDeliveredAt
  {
    var body := ReceiptReply(Done((lastReadAt, lastDeliveredAt)))["success"].entries;
    assert MaxReadTimestampKey != "maxDeliveredTimestamp";
    assert body.Keys == {MaxReadTimestampKey} + {"maxDeliveredTimestamp"};
  }

  /** countMembers: the count as an int; a null Integer count raises when it
      is unboxed for wrapSuccessResponse(int). */
  function MemberCountReply(c: Completion<Option<int>>): (r: Checked<Dict>)
    ensures c.Failed? ==> r == Ok(WrapException(Some(c.error)))
    ensures c.Done? && c.value.None? ==> r.Thrown?
    ensures c.Done? && c.value.Some? ==> r.Ok? && r.value.Keys == {"success"} && r.value["success"] == VInt(c.value.value)
  {
    match c
    case Failed(e) => Ok(WrapException(Some(e)))
    case Done(count) => if count.None? then Thrown else Ok(WrapSuccessInt(count.value))
  }

  // ---------------------------------------------------------------------
  // Messages.

  /** queryMessage: the loop that wraps every returned message, in order. */
  method WrapMessages(messages: seq<Dict>) returns (r: seq<Dict>)
    ensures |r| == |messages|
    ensures forall i :: 0 <= i < |r| ==> r[i] == WrapMessage(Some(messages[i]))
  {
    r := [];
    for n := 0 to |messages|
      invariant |r| == n
      invariant forall i :: 0 <= i < n ==> r[i] == WrapMessage(Some(messages[i]))
    {
      r := r + [WrapMessage(Some(messages[n]))];
    }
  }

  /** The query reply lists exactly the messages the engine returned. */
  method MessageListReply(c: Completion<seq<Dict>>) returns (r: Dict)
    ensures c.Failed? ==> r == WrapException(Some(c.error))
    ensures c.Done? ==>
      && r.Keys == {"success"} && r["success"].VList?
      && |r["success"].items| == |c.value|
      && forall i :: 0 <= i < |c.value| ==> r["success"].items[i] == VMap(c.value[i])
  {
    if c.Failed? {
      return WrapException(Some(c.error));
    }
    var wrapped := WrapMessages(c.value);
    r := WrapSuccessList(Some(wrapped));
  }

  /** sendMessage, and patchMessage for both recall and update: the message
      the engine returns (the sent, recalled or updated one), or an empty map
      for a null one. */
  function MessageReply(c: Completion<Option<Dict>>): (r: Dict)
    ensures c.Failed? ==> r == WrapException(Some(c.error))
    ensures c.Done? && c.value.Some? ==> r.Keys == {"success"} && r["success"] == VMap(c.value.value)
    ensures c.Done? && c.value.None? ==> r.Keys == {"success"} && r["success"] == VMap(map[])
  {
    match c
    case Failed(e) => WrapException(Some(e))
    case Done(message) => WrapSuccessMap(Some(WrapMessage(message)))
  }
}
