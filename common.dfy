/** The shared helpers of the Android plugin (Common.java): the method and
    argument names of the channel, typed argument lookups with their
    defaults, the error and success envelopes, and the wrapping of engine
    objects into reply maps. */
module Common {
  import opened Values
  import Numerals

  // Method names the host calls.
  const OpenClient := "openClient"
  const CloseClient := "closeClient"
  const CreateConversation := "createConversation"
  const FetchConversation := "getConversation"
  const QueryConversation := "queryConversation"
  const SendMessage := "sendMessage"
  const ReadMessage := "readMessage"
  const PatchMessage := "patchMessage"
  const GetMessageReceipt := "fetchReceiptTimestamp"
  const QueryMessage := "queryMessage"
  const QueryBlockMembers := "queryBlockedMembers"
  const QueryMuteMembers := "queryMutedMembers"
  const UpdateMembers := "updateMembers"
  const UpdateBlockMembers := "updateBlockMembers"
  const UpdateMuteMembers := "updateMuteMembers"
  const MuteConversation := "muteToggle"
  const UpdateConversation := "updateData"
  const QueryMemberCount := "countMembers"

  // Method names the plugin pushes to the host.
  const ClientOffline := "onSessionClose"
  const ClientDisconnected := "onSessionDisconnect"
  const ClientResumed := "onSessionResume"
  const MessageReceived := "onMessageReceive"
  const MessageReceipted := "onMessageReceipt"
  const MessageUpdated := "onMessagePatch"
  const ConvMemberUpdated := "onConversationMembersUpdate"
  const ConvUpdated := "onConversationDataUpdate"
  const ConvUnreadCountUpdated := "onUnreadMessageCountUpdate"
  const ConvLastReceiptUpdated := "onLastReceiptTimestampUpdate"
  const SignSessionOpen := "onSignSessionOpen"
  const SignConversation := "onSignConversation"

  // Argument and payload keys.
  const ClientIdKey := "clientId"
  const ReOpenKey := "r"
  const ClientTagKey := "tag"
  const SignatureKey := "signRegistry"
  const SignSessionOpenKey := "sessionOpen"
  const SignConversationKey := "conversation"
  const ConvTypeKey := "conv_type"
  const ConvMembersKey := "m"
  const ConvNameKey := "name"
  const ConvAttributesKey := "attr"
  const ConvTtlKey := "ttl"
  const ConvIdKey := "conversationId"
  const MaxAckTimestampKey := "maxAckTimestamp"
  const MaxReadTimestampKey := "maxReadTimestamp"
  const OperationKey := "op"
  const DataKey := "data"
  const RawDataKey := "rawData"
  const CountKey := "count"
  const MentionKey := "mention"
  const MembersKey := "members"
  const OperatorKey := "initBy"
  const UpdateTimeKey := "udate"
  const WhereKey := "where"
  const SortKey := "sort"
  const LimitKey := "limit"
  const SkipKey := "skip"
  const FlagKey := "flag"
  const TempConvIdsKey := "tempConvIds"
  const StartKey := "start"
  const EndKey := "end"
  const DirectionKey := "direction"
  const MsgTypeKey := "type"
  const NextKey := "next"
  const OldMessageKey := "oldMessage"
  const NewMessageKey := "newMessage"
  const MessageKey := "message"
  const OptionsKey := "options"
  const FileKey := "file"
  const RecallKey := "recall"
  const TransientKey := "transient"
  const FilePathKey := "path"
  const FileDataKey := "data"
  const FileUrlKey := "url"
  const FileFormatKey := "format"
  const FileNameKey := "name"
  const TargetIdsKey := "targetIds"
  const ActionKey := "action"
  const CodeKey := "code"
  const ErrorKey := "error"

  // Conversation kinds selected by "conv_type".
  const ConvTypeUnique := 0
  const ConvTypeCommon := 1
  const ConvTypeTransient := 2
  const ConvTypeTemporary := 4

  // Operations named by "op".
  const OpMute := "mute"
  const OpUnmute := "unmute"
  const OpAdd := "add"
  const OpRemove := "remove"
  const OpBlock := "block"
  const OpUnblock := "unblock"

  /** Exception.ErrorCode_Invalid_Parameter, taken from AVException in the
      engine SDK, which defines its value. */
  const InvalidParameter: int
  /** LCException.INVALID_PARAMETER, used directly by some handlers; also
      defined by the engine SDK. */
  const SdkInvalidParameter: int
  const InvalidClientIdMessage := "Client id is null or invalid."
  const InvalidConversationIdMessage := "Conversation id is null or invalid."

  // ---------------------------------------------------------------------
  // Java casts on decoded values.

  /** A cast to String: null passes, anything else but a string raises. */
  function AsString(v: Value): (r: Checked<Option<string>>)
    ensures r.Ok? <==> v.VNull? || v.VStr?
    ensures r.Ok? && v.VStr? ==> r.value == Some(v.s)
  {
    match v
    case VNull => Ok(None)
    case VStr(s) => Ok(Some(s))
    case _ => Thrown
  }

  /** A cast to Map. */
  function AsMap(v: Value): (r: Checked<Option<Dict>>)
    ensures r.Ok? <==> v.VNull? || v.VMap?
    ensures r.Ok? && v.VMap? ==> r.value == Some(v.entries)
  {
    match v
    case VNull => Ok(None)
    case VMap(m) => Ok(Some(m))
    case _ => Thrown
  }

  /** A cast to List. */
  function AsList(v: Value): (r: Checked<Option<seq<Value>>>)
    ensures r.Ok? <==> v.VNull? || v.VList?
    ensures r.Ok? && v.VList? ==> r.value == Some(v.items)
  {
    match v
    case VNull => Ok(None)
    case VList(xs) => Ok(Some(xs))
    case _ => Thrown
  }

  /** A cast to byte[]. */
  function AsBytes(v: Value): (r: Checked<Option<seq<Byte>>>)
    ensures r.Ok? <==> v.VNull? || v.VBytes?
    ensures r.Ok? && v.VBytes? ==> r.value == Some(v.bytes)
  {
    match v
    case VNull => Ok(None)
    case VBytes(b) => Ok(Some(b))
    case _ => Thrown
  }

  /** Unboxing to boolean: null and non-Booleans raise. */
  function UnboxBoolean(v: Value): (r: Checked<bool>)
    ensures r.Ok? <==> v.VBool?
    ensures r.Ok? ==> r.value == v.b
  {
    if v.VBool? then Ok(v.b) else Thrown
  }

  /** Unboxing to int: only an Integer passes. */
  function UnboxInt(v: Value): (r: Checked<int>)
    ensures r.Ok? <==> v.VInt?
    ensures r.Ok? ==> r.value == v.i
  {
    if v.VInt? then Ok(v.i) else Thrown
  }

  /** Unboxing to long: only a Long passes; an Integer raises too. */
  function UnboxLong(v: Value): (r: Checked<int>)
    ensures r.Ok? <==> v.VLong?
    ensures r.Ok? ==> r.value == v.l
  {
    if v.VLong? then Ok(v.l) else Thrown
  }

  /** Map.get: null for an absent key. */
  function Get(d: Dict, key: string): Value {
    if key in d then d[key] else VNull
  }

  // ---------------------------------------------------------------------
  // Argument lookups with defaults.

  /** getMethodParam: the argument as it came, null when absent. */
  function GetMethodParam(args: Dict, key: string): (r: Value)
    ensures key !in args ==> r == VNull
    ensures key in args ==> r == args[key]
  {
    Get(args, key)
  }

  /** getParamBoolean: false when absent; a present value is unboxed. */
  function ParamBoolean(args: Dict, key: string): (r: Checked<bool>)
    ensures key !in args ==> r == Ok(false)
    ensures key in args ==> (r.Ok? <==> args[key].VBool?)
    ensures key in args && r.Ok? ==> r.value == args[key].b
  {
    if key in args then UnboxBoolean(args[key]) else Ok(false)
  }

  /** getParamInt: 0 when absent; a present value is unboxed. */
  function ParamInt(args: Dict, key: string): (r: Checked<int>)
    ensures key !in args ==> r == Ok(0)
    ensures key in args ==> (r.Ok? <==> args[key].VInt?)
    ensures key in args && r.Ok? ==> r.value == args[key].i
  {
    if key in args then UnboxInt(args[key]) else Ok(0)
  }

  /** getParamString: null when absent; a present value is cast to String. */
  function ParamString(args: Dict, key: string): (r: Checked<Option<string>>)
    ensures key !in args ==> r == Ok(None)
    ensures key in args ==> r == AsString(args[key])
  {
    if key in args then AsString(args[key]) else Ok(None)
  }

  // ---------------------------------------------------------------------
  // Error and success envelopes.

  /** The exception's cause, with its message (which may be null). */
  datatype Cause = Cause(message: Option<string>)

  /** LCException; IM marks an LCIMException, which reports its app code. */
  datatype ExceptionKind = Plain | IM(appCode: int)
  datatype LCException = LCException(kind: ExceptionKind, code: int, message: Option<string>, cause: Option<Cause>)

  /** The code an envelope reports for an exception. */
  function ReportedCode(ex: LCException): int {
    if ex.kind.IM? then ex.kind.appCode else ex.code
  }

  /** wrapException(LCException): {"error": {code, message, details?}}, and
      an empty map for a null exception. */
  function WrapException(ex: Option<LCException>): (r: Dict)
    ensures ex.None? ==> r == map[]
    ensures ex.Some? ==> r.Keys == {ErrorKey} && r[ErrorKey].VMap?
  {
    match ex
    case None => map[]
    case Some(e) =>
      var error := map[CodeKey := VStr(Numerals.DecimalText(ReportedCode(e))),
                       "message" := StrOrNull(e.message)];
      var error' := if e.cause.Some? then error["details" := StrOrNull(e.cause.value.message)] else error;
      map[ErrorKey := VMap(error')]
  }

  /** The error envelope carries the exception's code as decimal text that
      reads back as the code, its message, and details exactly when there is a cause. */
  lemma WrapExceptionEnvelope(e: LCException)
    ensures var r := WrapException(Some(e));
      var info := r[ErrorKey].entries;
      && info.Keys == {CodeKey, "message"} + (if e.cause.Some? then {"details"} else {})
      && info[CodeKey].VStr?
      && Numerals.ParseInt(info[CodeKey].s, 10) == Some(ReportedCode(e))
      && info["message"] == StrOrNull(e.message)
      && (e.cause.Some? ==> info["details"] == StrOrNull(e.cause.value.message))
  {
    Numerals.IntTextRoundTrip(ReportedCode(e), 10);
  }

  /** wrapException(int, String): an LCException with that code and message. */
  function WrapExceptionCode(code: int, message: string): (r: Dict)
    ensures r == WrapException(Some(LCException(Plain, code, Some(message), None)))
  {
    WrapException(Some(LCException(Plain, code, Some(message), None)))
  }

  /** A locally raised error reports the given code and message and no details. */
  lemma WrapExceptionCodeEnvelope(code: int, message: string)
    ensures var info := WrapExceptionCode(code, message)[ErrorKey].entries;
      && info.Keys == {CodeKey, "message"}
      && info[CodeKey].VStr?
      && Numerals.ParseInt(info[CodeKey].s, 10) == Some(code)
      && info["message"] == VStr(message)
  {
    WrapExceptionEnvelope(LCException(Plain, code, Some(message), None));
  }

  /** wrapSuccessResponse(Map): {"success": result}, empty for null. */
  function WrapSuccessMap(result: Option<Dict>): (r: Dict)
    ensures result.None? ==> r == map[]
    ensures result.Some? ==> r.Keys == {"success"} && r["success"] == VMap(result.value)
  {
    if result.Some? then map["success" := VMap(result.value)] else map[]
  }

  /** wrapSuccessResponse(List): {"success": list}, empty for null. */
  function WrapSuccessList(result: Option<seq<Dict>>): (r: Dict)
    ensures result.None? ==> r == map[]
    ensures result.Some? ==> r.Keys == {"success"} && r["success"].VList?
    ensures result.Some? ==> |r["success"].items| == |result.value|
    ensures result.Some? ==> forall i :: 0 <= i < |result.value| ==> r["success"].items[i] == VMap(result.value[i])
  {
    if result.Some? then map["success" := VList(seq(|result.value|, i requires 0 <= i < |result.value| => VMap(result.value[i])))]
    else map[]
  }

  /** wrapSuccessResponse(int): always carries "success". */
  function WrapSuccessInt(result: int): (r: Dict)
    ensures r.Keys == {"success"} && r["success"] == VInt(result)
  {
    map["success" := VInt(result)]
  }

  // ---------------------------------------------------------------------
  // Engine objects as reply maps.

  /** The engine's client handle. */
  datatype Client = Client(clientId: string)

  /** wrapClient: {"clientId": id}, empty for null. */
  function WrapClient(client: Option<Client>): (r: Dict)
    ensures client.None? ==> r == map[]
    ensures client.Some? ==> r.Keys == {ClientIdKey} && r[ClientIdKey] == VStr(client.value.clientId)
  {
    if client.Some? then map[ClientIdKey := VStr(client.value.clientId)] else map[]
  }

  /** wrapMessage: the engine's dump of the message, empty for null. */
  function WrapMessage(raw: Option<Dict>): (r: Dict)
    ensures raw.None? ==> r == map[]
    ensures raw.Some? ==> r == raw.value
  {
    if raw.Some? then raw.value else map[]
  }

  /** The casts wrapConversation makes succeed: when the dump has a type and
      a unique id but no "unique" flag, the type is an Integer, and for type 1
      the unique id is a String or null. No other dump is cast. */
  predicate WellTypedDump(raw: Dict) {
    ConvTypeKey in raw && "uniqueId" in raw && "unique" !in raw ==>
      && raw[ConvTypeKey].VInt?
      && (raw[ConvTypeKey].i == 1 ==> raw["uniqueId"].VStr? || raw["uniqueId"].VNull?)
  }

  /** The dump is flagged unique: a common conversation (type 1) with a
      non-empty unique id and no "unique" key of its own. */
  predicate GetsUniqueFlag(raw: Dict) {
    && ConvTypeKey in raw && "uniqueId" in raw && "unique" !in raw
    && raw[ConvTypeKey] == VInt(1)
    && raw["uniqueId"].VStr? && raw["uniqueId"].s != ""
  }

  /** wrapConversation: the engine's dump of the conversation, with
      "unique": true added when the dump has a unique id but no flag. */
  function WrapConversation(raw: Option<Dict>): (r: Dict)
    requires raw.Some? ==> WellTypedDump(raw.value)
    ensures raw.None? ==> r == map[]
    ensures raw.Some? ==> r.Keys == raw.value.Keys + (if GetsUniqueFlag(raw.value) then {"unique"} else {})
    ensures raw.Some? ==> forall k :: k in raw.value ==> r[k] == raw.value[k]
    ensures raw.Some? && "unique" in r ==> "unique" in raw.value || r["unique"] == VBool(true)
  {
    match raw
    case None => map[]
    case Some(d) =>
      if ConvTypeKey in d && "uniqueId" in d && "unique" !in d then
        if d[ConvTypeKey].i == 1 && !IsEmpty(AsString(d["uniqueId"]).value) then d["unique" := VBool(true)] else d
      else d
  }

  /** A dump without a type, without a unique id, or already flagged is
      never cast, whatever its values: it is admitted and returned as it is. */
  lemma UncastDumpsPassThrough(raw: Dict)
    requires !(ConvTypeKey in raw && "uniqueId" in raw && "unique" !in raw)
    ensures WellTypedDump(raw)
    ensures WrapConversation(Some(raw)) == raw
  {
  }

  // ---------------------------------------------------------------------
  // Message options and query bounds.

  /** LCIMMessageOption: a field is Some only when the host supplied it. The
      priority is kept as the integer given (the SDK maps it to its enum). */
  datatype MessageOption = MessageOption(
    will: Option<bool>,
    receipt: Option<bool>,
    priority: Option<int>,
    pushData: Option<Option<Dict>>,
    transient: Option<bool>)

  const EmptyOption := MessageOption(None, None, None, None, None)

  /** The present option keys hold values of the type their cast expects. */
  predicate OptionFieldsWellTyped(d: Dict) {
    && ("will" in d ==> d["will"].VBool?)
    && ("receipt" in d ==> d["receipt"].VBool?)
    && ("priority" in d ==> d["priority"].VInt?)
    && ("pushData" in d ==> d["pushData"].VMap? || d["pushData"].VNull?)
  }

  /** parseMessageOption: null for null or empty data; otherwise exactly the
      fields whose keys are present are set. */
  function ParseMessageOption(data: Option<Dict>): (r: Checked<Option<MessageOption>>)
    ensures (data.None? || data.value == map[]) ==> r == Ok(None)
    ensures data.Some? && data.value != map[] ==> (r.Ok? <==> OptionFieldsWellTyped(data.value))
    ensures r.Ok? && r.value.Some? ==>
      var d := data.value; var o := r.value.value;
      && (o.will.Some? <==> "will" in d) && (o.will.Some? ==> o.will.value == d["will"].b)
      && (o.receipt.Some? <==> "receipt" in d) && (o.receipt.Some? ==> o.receipt.value == d["receipt"].b)
      && (o.priority.Some? <==> "priority" in d) && (o.priority.Some? ==> o.priority.value == d["priority"].i)
      && (o.pushData.Some? <==> "pushData" in d)
      && (o.pushData.Some? ==>
            o.pushData.value == if d["pushData"].VMap? then Some(d["pushData"].entries) else None)
      && o.transient.None?
  {
    if data.None? || data.value == map[] then Ok(None)
    else
      var d := data.value;
      var will :- if "will" in d then (var b :- UnboxBoolean(d["will"]); Ok(Some(b))) else Ok(None);
      var receipt :- if "receipt" in d then (var b :- UnboxBoolean(d["receipt"]); Ok(Some(b))) else Ok(None);
      var priority :- if "priority" in d then (var p :- UnboxInt(d["priority"]); Ok(Some(p))) else Ok(None);
      var pushData :- if "pushData" in d then (var m :- AsMap(d["pushData"]); Ok(Some(m))) else Ok(None);
      Ok(Some(MessageOption(will, receipt, priority, pushData, None)))
  }

  /** A bound of a message query interval. */
  datatype Bound = Bound(messageId: Option<string>, timestamp: int, closed: bool)

  /** parseMessageIntervalBound: null for null; otherwise "id" is cast to
      String, "timestamp" unboxed to long and "close" to boolean, so an absent
      timestamp or close flag raises, and so does a timestamp sent as Integer. */
  function ParseMessageIntervalBound(data: Option<Dict>): (r: Checked<Option<Bound>>)
    ensures data.None? ==> r == Ok(None)
    ensures data.Some? ==>
      (r.Ok? <==> (Get(data.value, "id").VNull? || Get(data.value, "id").VStr?)
                  && Get(data.value, "timestamp").VLong? && Get(data.value, "close").VBool?)
    ensures data.Some? && r.Ok? ==>
      && r.value.Some?
      && r.value.value.messageId == (if Get(data.value, "id").VStr? then Some(Get(data.value, "id").s) else None)
      && r.value.value.timestamp == data.value["timestamp"].l
      && r.value.value.closed == data.value["close"].b
  {
    match data
    case None => Ok(None)
    case Some(d) =>
      var id :- AsString(Get(d, "id"));
      var timestamp :- UnboxLong(Get(d, "timestamp"));
      var closed :- UnboxBoolean(Get(d, "close"));
      Ok(Some(Bound(id, timestamp, closed)))
  }

  // ---------------------------------------------------------------------
  // Signatures.

  /** The three signature fields read from a host map. */
  datatype SignFields = SignFields(signature: Option<string>, timestamp: int, nonce: Option<string>)

  /** Reads "s" and "n" as Strings and "t" as a long from a signature map. */
  function ReadSignFields(m: Dict): (r: Checked<SignFields>)
    ensures r.Ok? <==> (Get(m, "s").VNull? || Get(m, "s").VStr?)
                       && Get(m, "t").VLong?
                       && (Get(m, "n").VNull? || Get(m, "n").VStr?)
    ensures r.Ok? ==> r.value.timestamp == m["t"].l
    ensures r.Ok? ==> r.value.signature == (if Get(m, "s").VStr? then Some(Get(m, "s").s) else None)
    ensures r.Ok? ==> r.value.nonce == (if Get(m, "n").VStr? then Some(Get(m, "n").s) else None)
  {
    var s :- AsString(Get(m, "s"));
    var t :- UnboxLong(Get(m, "t"));
    var n :- AsString(Get(m, "n"));
    Ok(SignFields(s, t, n))
  }

  /** cn.leancloud.im.Signature, filled through its setters. */
  class Signature {
    var signature: Option<string>
    var nonce: Option<string>
    var timestamp: int

    /** A new signature has no value, no nonce and timestamp 0. */
    constructor ()
      ensures signature == None && nonce == None && timestamp == 0
    {
      signature, nonce, timestamp := None, None, 0;
    }

    function Fields(): SignFields
      reads this
    {
      SignFields(signature, timestamp, nonce)
    }

    method SetAll(f: SignFields)
      modifies this
      ensures Fields() == f
    {
      signature, timestamp, nonce := f.signature, f.timestamp, f.nonce;
    }
  }

  /** getMethodSignature: null when the argument is absent or null; otherwise
      a new Signature holding the map's "s", "n" and "t". */
  method GetMethodSignature(args: Dict, key: string) returns (r: Checked<Signature?>)
    ensures AsMap(GetMethodParam(args, key)).Thrown? ==> r.Thrown?
    ensures AsMap(GetMethodParam(args, key)) == Ok(None) ==> r == Ok(null)
    ensures AsMap(GetMethodParam(args, key)).Ok? && AsMap(GetMethodParam(args, key)).value.Some? ==>
      var fields := ReadSignFields(AsMap(GetMethodParam(args, key)).value.value);
      && (r.Thrown? <==> fields.Thrown?)
      && (r.Ok? ==> r.value != null && fresh(r.value) && r.value.Fields() == fields.value)
  {
    var param := AsMap(GetMethodParam(args, key));
    if param.Thrown? {
      return Thrown;
    }
    if param.value.None? {
      return Ok(null);
    }
    var fields := ReadSignFields(param.value.value);
    if fields.Thrown? {
      return Thrown;
    }
    var sig := new Signature();
    sig.SetAll(fields.value);
    return Ok(sig);
  }
}
