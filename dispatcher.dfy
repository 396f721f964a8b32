/** The request dispatcher of the Android plugin (LeancloudPlugin.onMethodCall):
    validation of the client and the conversation, and the choice of the
    engine operation and its arguments for each method. The engine calls
    themselves are recorded as actions; what the engine answers is shaped by
    the Replies module. */
module Dispatcher {
  import opened Values
  import opened Common

  /** What routing learns from the engine SDK and the platform: the OS
      release, the conversation a client resolves an id to (as the dump the
      engine gives of it), whether the engine parses a message map into a
      file message, and the random file name the SDK would draw. */
  datatype Env = Env(
    osRelease: string,
    conversation: (string, Option<string>) -> Option<Dict>,
    isFileMessage: Dict -> bool,
    randomName: string)

  /** The engine's conversation dumps are well typed (see WellTypedDump). */
  ghost predicate ValidEnv(env: Env) {
    forall c, id :: env.conversation(c, id).Some? ==> WellTypedDump(env.conversation(c, id).value)
  }

  datatype MemberOp = AddMembers | KickMembers | BlockMembers | UnblockMembers | MuteMembers | UnmuteMembers

  datatype Direction = NewToOld | OldToNew

  /** Where an attached file comes from. */
  datatype FileSource = FromBytes(bytes: seq<Byte>) | FromPath(path: string) | FromUrl(url: string)

  /** The LCFile attached to a file message: its name, its source, whether
      the name is kept, and the format to record in its metadata, if any. */
  datatype Attachment = Attachment(name: string, source: FileSource, keepFileName: bool, format: Option<string>)

  /** Operations on the client. For createConversation, isUnique is None
      when the overload without that argument is called. */
  datatype ClientAction =
    | Open(tag: Option<string>, reconnect: bool, sessionSign: bool, conversationSign: bool)
    | Close
    | Create(members: Option<seq<Value>>, name: Option<string>, attr: Option<Dict>,
             isTransient: bool, isUnique: Option<bool>)
    | CreateTemporary(members: Option<seq<Value>>, ttl: int)
    | DirectFind(where: Option<string>, sort: Option<string>, skip: int, limit: int, flag: int)
    | FindTemporaryConversations(ids: seq<Value>)

  /** Operations on a resolved conversation. */
  datatype ConversationAction =
    | Mute
    | Unmute
    | UpdateInfo(edits: map<string, AttributeEdit>)
    | ChangeMembers(op: MemberOp, members: seq<Value>)
    | QueryBlockedMembers(limit: int, next: Option<string>)
    | QueryMutedMembers(limit: int, next: Option<string>)
    | FetchReceiptTimestamps
    | CountMembers
    | QueryMessagesByType(msgType: int, messageId: Option<string>, timestamp: int, limit: int)
    | QueryMessages(start: Option<Bound>, end: Option<Bound>, direction: Direction, limit: int)
    | MarkRead
    | Send(message: Dict, attachment: Option<Attachment>, option: Option<MessageOption>)
    | RecallMessage(oldMessage: Option<Dict>)
    | UpdateMessage(oldMessage: Option<Dict>, newMessage: Option<Dict>, attachment: Option<Attachment>)

  datatype EngineCall =
    | OnClient(clientId: string, clientAction: ClientAction)
    | OnConversation(clientId: string, conversationId: Option<string>, conversationAction: ConversationAction)

  /** What a method call leads to: an immediate reply, an engine call whose
      completion replies later, both, or notImplemented. */
  datatype Outcome =
    | Respond(reply: Value)
    | Invoke(call: EngineCall)
    | InvokeAndRespond(call: EngineCall, reply: Value)
    | NotImplemented

  predicate CallsEngine(o: Outcome) {
    o.Invoke? || o.InvokeAndRespond?
  }

  const PlatformVersionMethod := "getPlatformVersion"
  const DefaultPageLimit := 50
  const EmptyAttributesMessage := "update attributes is empty."
  const EmptyMemberListMessage := "member list is empty."

  function ClientIdError(): Value {
    VMap(WrapExceptionCode(InvalidParameter, InvalidClientIdMessage))
  }

  function ConversationIdError(): Value {
    VMap(WrapExceptionCode(InvalidParameter, InvalidConversationIdMessage))
  }

  /** The methods handled before the conversation is looked up. */
  predicate ClientScoped(methodName: string) {
    methodName in {PlatformVersionMethod, OpenClient, CloseClient, CreateConversation, QueryConversation}
  }

  /** Every method that needs a resolved conversation: all but the client
      scoped ones and getConversation, including names the plugin does not know. */
  predicate ConversationScoped(methodName: string) {
    !ClientScoped(methodName) && methodName != FetchConversation
  }

  // ---------------------------------------------------------------------
  // Routing.

  /** onMethodCall as the host calls it, with arguments of any kind.
      MethodCall.hasArgument finds no key in null arguments and raises for
      arguments that are not a map; getPlatformVersion reads no argument. */
  function Dispatch(methodName: string, arguments: Value, env: Env): (r: Checked<Outcome>)
    requires ValidEnv(env)
    ensures methodName == PlatformVersionMethod ==> r == Ok(Respond(VStr("Android " + env.osRelease)))
    ensures methodName != PlatformVersionMethod && arguments.VNull? ==> r == Ok(Respond(ClientIdError()))
    ensures methodName != PlatformVersionMethod && !arguments.VNull? && !arguments.VMap? ==> r == Thrown
    ensures arguments.VMap? ==> r == Route(methodName, arguments.entries, env)
  {
    if methodName == PlatformVersionMethod then Route(methodName, map[], env)
    else
      match arguments
      case VNull => Route(methodName, map[], env)
      case VMap(args) => Route(methodName, args, env)
      case _ => Thrown
  }

  /** onMethodCall: Thrown when the handler raises (a failed cast or a null
      unboxed) before it replies. */
  function Route(methodName: string, args: Dict, env: Env): (r: Checked<Outcome>)
    requires ValidEnv(env)
    ensures methodName == PlatformVersionMethod ==> r == Ok(Respond(VStr("Android " + env.osRelease)))
    ensures methodName != PlatformVersionMethod && r.Ok? && CallsEngine(r.value) ==>
      && ClientIdKey in args && args[ClientIdKey].VStr? && args[ClientIdKey].s != ""
      && r.value.call.clientId == args[ClientIdKey].s
  {
    if methodName == PlatformVersionMethod then Ok(Respond(VStr("Android " + env.osRelease)))
    else
      var clientId :- AsString(GetMethodParam(args, ClientIdKey));
      if IsEmpty(clientId) then Ok(Respond(ClientIdError()))
      else RouteForClient(methodName, args, clientId.value, env)
  }

  function RouteForClient(methodName: string, args: Dict, clientId: string, env: Env): (r: Checked<Outcome>)
    requires ValidEnv(env)
    ensures r.Ok? && CallsEngine(r.value) ==> r.value.call.clientId == clientId
  {
    if methodName == OpenClient then RouteOpen(args, clientId)
    else if methodName == CloseClient then Ok(Invoke(OnClient(clientId, Close)))
    else if methodName == CreateConversation then RouteCreate(args, clientId)
    else if methodName == QueryConversation then RouteQuery(args, clientId)
    else
      var conversationId :- AsString(GetMethodParam(args, ConvIdKey));
      var conversation := env.conversation(clientId, conversationId);
      if methodName == FetchConversation then Ok(Respond(VMap(WrapSuccessMap(Some(WrapConversation(conversation))))))
      else if conversation.None? then Ok(Respond(ConversationIdError()))
      else RouteForConversation(methodName, args, clientId, conversationId, env)
  }

  /** A signing flag of openClient: false unless the flag map holds the key,
      whose value is then unboxed. */
  function SignFlag(flags: Option<Dict>, key: string): (r: Checked<bool>)
    ensures flags.None? || key !in flags.value ==> r == Ok(false)
    ensures flags.Some? && key in flags.value ==> r == UnboxBoolean(flags.value[key])
  {
    if flags.Some? && key in flags.value then UnboxBoolean(flags.value[key]) else Ok(false)
  }

  function RouteOpen(args: Dict, clientId: string): Checked<Outcome> {
    var tag :- AsString(GetMethodParam(args, ClientTagKey));
    var reconnect :- ParamBoolean(args, ReOpenKey);
    var flags :- AsMap(GetMethodParam(args, SignatureKey));
    var sessionSign :- SignFlag(flags, SignSessionOpenKey);
    var conversationSign :- SignFlag(flags, SignConversationKey);
    Ok(Invoke(OnClient(clientId, Open(if IsEmpty(tag) then None else tag, reconnect, sessionSign, conversationSign))))
  }

  /** The creation call selected by "conv_type". */
  function CreationFor(convType: int, members: Option<seq<Value>>, name: Option<string>,
                       attr: Option<Dict>, ttl: int): ClientAction {
    if convType == ConvTypeUnique then Create(members, name, attr, false, Some(true))
    else if convType == ConvTypeTemporary then CreateTemporary(members, ttl)
    else if convType == ConvTypeTransient then Create(members, name, attr, true, None)
    else Create(members, name, attr, false, Some(false))
  }

  function RouteCreate(args: Dict, clientId: string): Checked<Outcome> {
    var convType :- ParamInt(args, ConvTypeKey);
    var members :- AsList(GetMethodParam(args, ConvMembersKey));
    var name :- AsString(GetMethodParam(args, ConvNameKey));
    var attr :- AsMap(GetMethodParam(args, ConvAttributesKey));
    var ttl :- ParamInt(args, ConvTtlKey);
    Ok(Invoke(OnClient(clientId, CreationFor(convType, members, name, attr, ttl))))
  }

  function RouteQuery(args: Dict, clientId: string): Checked<Outcome> {
    var where :- AsString(GetMethodParam(args, WhereKey));
    var sort :- AsString(GetMethodParam(args, SortKey));
    var limit :- ParamInt(args, LimitKey);
    var skip :- ParamInt(args, SkipKey);
    var flag :- ParamInt(args, FlagKey);
    var tempConvIds :- AsList(GetMethodParam(args, TempConvIdsKey));
    if tempConvIds.None? || |tempConvIds.value| == 0
    then Ok(Invoke(OnClient(clientId, DirectFind(where, sort, skip, limit, flag))))
    else Ok(Invoke(OnClient(clientId, FindTemporaryConversations(tempConvIds.value))))
  }

  /** A page limit of 0 stands for the default of 50. */
  function PageLimit(limit: int): (r: int)
    ensures r != 0
    ensures limit != 0 ==> r == limit
  {
    if limit == 0 then DefaultPageLimit else limit
  }

  function RouteForConversation(methodName: string, args: Dict, clientId: string, conversationId: Option<string>,
                                env: Env): Checked<Outcome>
  {
    var on := (a: ConversationAction) => OnConversation(clientId, conversationId, a);
    if methodName == MuteConversation then
      var operation :- AsString(GetMethodParam(args, OperationKey));
      if EqualsIgnoreCase(OpMute, operation) then Ok(Invoke(on(Mute)))
      else if EqualsIgnoreCase(OpUnmute, operation) then Ok(Invoke(on(Unmute)))
      else Ok(NotImplemented)
    else if methodName == UpdateConversation then
      var data :- AsMap(GetMethodParam(args, DataKey));
      if data.None? || data.value == map[] then Ok(Respond(VMap(WrapExceptionCode(SdkInvalidParameter, EmptyAttributesMessage))))
      else Ok(Invoke(on(UpdateInfo(AttributeEdits(data.value)))))
    else if methodName == UpdateMembers then RouteMembers(args, on, OpAdd, AddMembers, OpRemove, KickMembers)
    else if methodName == UpdateBlockMembers then RouteMembers(args, on, OpBlock, BlockMembers, OpUnblock, UnblockMembers)
    else if methodName == UpdateMuteMembers then RouteMembers(args, on, OpMute, MuteMembers, OpUnmute, UnmuteMembers)
    else if methodName == QueryBlockMembers then
      var limit :- ParamInt(args, LimitKey);
      var next :- ParamString(args, NextKey);
      Ok(Invoke(on(QueryBlockedMembers(PageLimit(limit), next))))
    else if methodName == QueryMuteMembers then
      var limit :- ParamInt(args, LimitKey);
      var next :- ParamString(args, NextKey);
      Ok(Invoke(on(QueryMutedMembers(PageLimit(limit), next))))
    else if methodName == GetMessageReceipt then Ok(Invoke(on(FetchReceiptTimestamps)))
    else if methodName == QueryMemberCount then Ok(Invoke(on(CountMembers)))
    else if methodName == QueryMessage then RouteQueryMessage(args, on)
    else if methodName == ReadMessage then Ok(InvokeAndRespond(on(MarkRead), VMap(WrapSuccessMap(Some(map[])))))
    else if methodName == SendMessage then RouteSend(args, on, env)
    else if methodName == PatchMessage then RoutePatch(args, on, env)
    else Ok(NotImplemented)
  }

  /** The three member-update methods: an empty list is refused, then the
      operation picks one of two engine calls, case-insensitively. */
  function RouteMembers(args: Dict, on: ConversationAction -> EngineCall,
                        firstName: string, first: MemberOp, secondName: string, second: MemberOp): Checked<Outcome>
  {
    var operation :- AsString(GetMethodParam(args, OperationKey));
    var members :- AsList(GetMethodParam(args, ConvMembersKey));
    if members.None? || |members.value| == 0 then Ok(Respond(VMap(WrapExceptionCode(SdkInvalidParameter, EmptyMemberListMessage))))
    else if EqualsIgnoreCase(firstName, operation) then Ok(Invoke(on(ChangeMembers(first, members.value))))
    else if EqualsIgnoreCase(secondName, operation) then Ok(Invoke(on(ChangeMembers(second, members.value))))
    else Ok(NotImplemented)
  }

  /** The message query: a non-zero type selects the query by type from the
      start bound (or from nothing); otherwise direction 2 reads old to new
      and every other direction new to old. */
  function MessageQueryFor(msgType: int, start: Option<Bound>, end: Option<Bound>, direction: int, limit: int): ConversationAction {
    if msgType != 0 then
      QueryMessagesByType(msgType, if start.Some? then start.value.messageId else None,
                          if start.Some? then start.value.timestamp else 0, PageLimit(limit))
    else QueryMessages(start, end, if direction == 2 then OldToNew else NewToOld, PageLimit(limit))
  }

  function RouteQueryMessage(args: Dict, on: ConversationAction -> EngineCall): Checked<Outcome> {
    var startData :- AsMap(GetMethodParam(args, StartKey));
    var endData :- AsMap(GetMethodParam(args, EndKey));
    var direction :- ParamInt(args, DirectionKey);
    var limit :- ParamInt(args, LimitKey);
    var msgType :- ParamInt(args, MsgTypeKey);
    var start :- ParseMessageIntervalBound(startData);
    var end :- ParseMessageIntervalBound(endData);
    Ok(Invoke(on(MessageQueryFor(msgType, start, end, direction, limit))))
  }

  /** The file description sent with a file message: "data", "path", "url",
      "format" and "name" are cast in that order; the first usable source of
      bytes, a non-empty path, a non-empty url is attached; an empty name is
      replaced by a random one that is not kept. */
  function ParseAttachment(fileData: Dict, randomName: string): Checked<Option<Attachment>> {
    var bytes :- AsBytes(Get(fileData, FileDataKey));
    var path :- AsString(Get(fileData, FilePathKey));
    var url :- AsString(Get(fileData, FileUrlKey));
    var format :- AsString(Get(fileData, FileFormatKey));
    var name :- AsString(Get(fileData, FileNameKey));
    var fileName := if IsEmpty(name) then randomName else name.value;
    var source :=
      if bytes.Some? then Some(FromBytes(bytes.value))
      else if !IsEmpty(path) then Some(FromPath(path.value))
      else if !IsEmpty(url) then Some(FromUrl(url.value))
      else None;
    if source.None? then Ok(None)
    else Ok(Some(Attachment(fileName, source.value, !IsEmpty(name), if IsEmpty(format) then None else format)))
  }

  /** The attachment of a message: only a file message with file data gets one. */
  function AttachmentFor(message: Option<Dict>, fileData: Option<Dict>, env: Env): Checked<Option<Attachment>> {
    if message.Some? && env.isFileMessage(message.value) && fileData.Some? then ParseAttachment(fileData.value, env.randomName)
    else Ok(None)
  }

  /** A "transient" key in the message map makes sure an option exists; its
      value is copied only when it is a boolean (any other value is caught
      and ignored). */
  function WithTransient(message: Dict, option: Option<MessageOption>): Option<MessageOption> {
    if TransientKey in message then
      var o := if option.None? then EmptyOption else option.value;
      if message[TransientKey].VBool? then Some(o.(transient := Some(message[TransientKey].b))) else Some(o)
    else option
  }

  function RouteSend(args: Dict, on: ConversationAction -> EngineCall, env: Env): Checked<Outcome> {
    var message :- AsMap(GetMethodParam(args, MessageKey));
    var optionData :- AsMap(GetMethodParam(args, OptionsKey));
    var fileData :- AsMap(GetMethodParam(args, FileKey));
    var attachment :- AttachmentFor(message, fileData, env);
    var option :- ParseMessageOption(optionData);
    if message.None? then Thrown
    else Ok(Invoke(on(Send(message.value, attachment, WithTransient(message.value, option)))))
  }

  function RoutePatch(args: Dict, on: ConversationAction -> EngineCall, env: Env): Checked<Outcome> {
    var oldMessage :- AsMap(GetMethodParam(args, OldMessageKey));
    var newMessage :- AsMap(GetMethodParam(args, NewMessageKey));
    var isRecall :- ParamBoolean(args, RecallKey);
    var fileData :- AsMap(GetMethodParam(args, FileKey));
    var attachment :- AttachmentFor(newMessage, fileData, env);
    if isRecall then Ok(Invoke(on(RecallMessage(oldMessage))))
    else Ok(Invoke(on(UpdateMessage(oldMessage, newMessage, attachment))))
  }

  // ---------------------------------------------------------------------
  // Attribute updates.

  /** isDeleteOperation: a map whose "__op" is the string "Delete" in any case. */
  predicate IsDeleteOperation(v: Value) {
    v.VMap? && "__op" in v.entries && v.entries["__op"].VStr? && EqualsIgnoreCase("Delete", Some(v.entries["__op"].s))
  }

  /** The delete marker is a map whose "__op" is "Delete" in any case; the
      bare string, a null "__op" or another key is not one. */
  lemma DeleteMarkerSpellings()
    ensures IsDeleteOperation(VMap(map["__op" := VStr("delete")]))
    ensures IsDeleteOperation(VMap(map["__op" := VStr("DELETE"), "key" := VStr("title")]))
    ensures !IsDeleteOperation(VStr("Delete"))
    ensures !IsDeleteOperation(VMap(map["__op" := VNull]))
    ensures !IsDeleteOperation(VMap(map["op" := VStr("Delete")]))
    ensures !IsDeleteOperation(VMap(map["__op" := VStr("Deleted")]))
  {
  }

  /** What updateData asks of the conversation for one key. */
  datatype AttributeEdit = RemoveAttribute | SetAttribute(value: Value)

  /** The edits updateData applies to the conversation before it saves it:
      one per key of the update map. */
  function AttributeEdits(data: Dict): (edits: map<string, AttributeEdit>)
    ensures edits.Keys == data.Keys
    ensures forall k :: k in data ==> (edits[k] == RemoveAttribute <==> IsDeleteOperation(data[k]))
    ensures forall k :: k in data && !IsDeleteOperation(data[k]) ==> edits[k] == SetAttribute(data[k])
  {
    map k | k in data :: if IsDeleteOperation(data[k]) then RemoveAttribute else SetAttribute(data[k])
  }

  /** The loop over the update map: a key whose value is a delete marker is
      removed, every other key is set to its value. */
  method CollectAttributeEdits(data: Dict) returns (edits: map<string, AttributeEdit>)
    ensures edits == AttributeEdits(data)
    ensures edits.Keys == data.Keys
    ensures forall k :: k in data ==> (edits[k] == RemoveAttribute <==> IsDeleteOperation(data[k]))
    ensures forall k :: k in data && !IsDeleteOperation(data[k]) ==> edits[k] == SetAttribute(data[k])
  {
    edits := map[];
    var remaining := data.Keys;
    while remaining != {}
      invariant remaining <= data.Keys
      invariant edits.Keys == data.Keys - remaining
      invariant forall k :: k in edits ==> (edits[k] == RemoveAttribute <==> IsDeleteOperation(data[k]))
      invariant forall k :: k in edits && !IsDeleteOperation(data[k]) ==> edits[k] == SetAttribute(data[k])
      decreases remaining
    {
      var key :| key in remaining;
      if IsDeleteOperation(data[key]) {
        edits := edits[key := RemoveAttribute];
      } else {
        edits := edits[key := SetAttribute(data[key])];
      }
      remaining := remaining - {key};
    }
  }

  // ---------------------------------------------------------------------
  // What routing guarantees.

  /** The call names a client: "clientId" is a non-empty string. */
  predicate HasClientId(args: Dict) {
    ClientIdKey in args && args[ClientIdKey].VStr? && args[ClientIdKey].s != ""
  }

  /** The conversation id argument is absent, null or a string. */
  predicate ConversationIdReadable(args: Dict) {
    AsString(GetMethodParam(args, ConvIdKey)).Ok?
  }

  /** The conversation the call refers to, as the engine resolves it. */
  function ResolvedConversation(args: Dict, env: Env): Option<Dict>
    requires HasClientId(args) && ConversationIdReadable(args)
  {
    env.conversation(args[ClientIdKey].s, AsString(GetMethodParam(args, ConvIdKey)).value)
  }

  /** Every method but getPlatformVersion first checks the client id: a
      missing, null or empty one is answered with INVALID_PARAMETER and
      "Client id is null or invalid.", and nothing is asked of the engine. */
  lemma MissingClientIdRefused(methodName: string, args: Dict, env: Env)
    requires ValidEnv(env)
    requires methodName != PlatformVersionMethod
    requires ClientIdKey !in args || args[ClientIdKey] == VNull || args[ClientIdKey] == VStr("")
    ensures Route(methodName, args, env) == Ok(Respond(ClientIdError()))
    ensures var info := ClientIdError().entries[ErrorKey].entries;
      && info.Keys == {CodeKey, "message"}
      && info[CodeKey].VStr? && Numerals.ParseInt(info[CodeKey].s, 10) == Some(InvalidParameter)
      && info["message"] == VStr(InvalidClientIdMessage)
  {
    WrapExceptionCodeEnvelope(InvalidParameter, InvalidClientIdMessage);
  }

  /** A client id that is neither null nor a string fails its String cast:
      every method but getPlatformVersion raises before replying. */
  lemma NonStringClientIdRaises(methodName: string, args: Dict, env: Env)
    requires ValidEnv(env)
    requires methodName != PlatformVersionMethod
    requires ClientIdKey in args && !args[ClientIdKey].VNull? && !args[ClientIdKey].VStr?
    ensures Route(methodName, args, env) == Thrown
  {
  }

  /** getPlatformVersion needs no client and always answers with the release. */
  lemma PlatformVersionNeedsNoClient(args: Dict, env: Env)
    requires ValidEnv(env)
    ensures Route(PlatformVersionMethod, args, env) == Ok(Respond(VStr("Android " + env.osRelease)))
  {
  }

  /** A signing flag is requested: the flag map holds the key with true. */
  predicate SignRequested(args: Dict, key: string) {
    SignatureKey in args && args[SignatureKey].VMap? && key in args[SignatureKey].entries
    && args[SignatureKey].entries[key] == VBool(true)
  }

  /** openClient: both signing flags are false unless requested in
      "signRegistry"; a tag is passed only when non-empty; "r" asks for a
      reconnect. */
  lemma OpenClientFlags(args: Dict, env: Env)
    requires ValidEnv(env) && HasClientId(args)
    requires Route(OpenClient, args, env).Ok?
    ensures var o := Route(OpenClient, args, env).value;
      && o.Invoke? && o.call == OnClient(args[ClientIdKey].s, o.call.clientAction) && o.call.clientAction.Open?
      && o.call.clientAction.sessionSign == SignRequested(args, SignSessionOpenKey)
      && o.call.clientAction.conversationSign == SignRequested(args, SignConversationKey)
      && o.call.clientAction.reconnect == (ReOpenKey in args && args[ReOpenKey] == VBool(true))
      && (o.call.clientAction.tag.Some? <==> ClientTagKey in args && args[ClientTagKey].VStr? && args[ClientTagKey].s != "")
      && (o.call.clientAction.tag.Some? ==> o.call.clientAction.tag.value == args[ClientTagKey].s)
  {
  }

  /** A sign flag of any type but boolean makes openClient raise before the
      registry is touched: the session flag is unboxed first, then the
      conversation flag. */
  lemma OpenClientBadFlagRaises(args: Dict, env: Env)
    requires ValidEnv(env) && HasClientId(args)
    requires AsString(GetMethodParam(args, ClientTagKey)).Ok? && ParamBoolean(args, ReOpenKey).Ok?
    requires SignatureKey in args && args[SignatureKey].VMap?
    ensures var flags := args[SignatureKey].entries;
      SignSessionOpenKey in flags && !flags[SignSessionOpenKey].VBool? ==> Route(OpenClient, args, env) == Thrown
    ensures var flags := args[SignatureKey].entries;
      ((SignSessionOpenKey !in flags || flags[SignSessionOpenKey].VBool?)
       && SignConversationKey in flags && !flags[SignConversationKey].VBool?)
      ==> Route(OpenClient, args, env) == Thrown
  {
  }

  /** createConversation by "conv_type": 0 unique, 4 temporary with the
      ttl, 2 transient, 1 and any other value a common conversation. */
  lemma CreateConversationRouting(args: Dict, env: Env)
    requires ValidEnv(env) && HasClientId(args)
    requires Route(CreateConversation, args, env).Ok?
    ensures var o := Route(CreateConversation, args, env).value;
      var convType := ParamInt(args, ConvTypeKey).value;
      var a := o.call.clientAction;
      && o.Invoke? && o.call.OnClient? && o.call.clientId == args[ClientIdKey].s
      && (a.Create? || a.CreateTemporary?)
      && (a.CreateTemporary? <==> convType == ConvTypeTemporary)
      && (a.CreateTemporary? ==> a.ttl == ParamInt(args, ConvTtlKey).value)
      && (a.Create? ==> a.name == AsString(GetMethodParam(args, ConvNameKey)).value
                        && a.attr == AsMap(GetMethodParam(args, ConvAttributesKey)).value)
      && (a.Create? ==> a.isTransient == (convType == ConvTypeTransient))
      && (a.Create? ==> a.isUnique == (if convType == ConvTypeTransient then None else Some(convType == ConvTypeUnique)))
      && a.members == AsList(GetMethodParam(args, ConvMembersKey)).value
  {
  }

  /** queryConversation: the temporary-conversation lookup is used exactly
      when "tempConvIds" is a non-empty list; otherwise the direct query with
      the given where, sort, skip, limit and flag (no limit default here). */
  lemma QueryConversationMode(args: Dict, env: Env)
    requires ValidEnv(env) && HasClientId(args)
    requires Route(QueryConversation, args, env).Ok?
    ensures var a := Route(QueryConversation, args, env).value.call.clientAction;
      && Route(QueryConversation, args, env).value.Invoke?
      && (a.FindTemporaryConversations? <==>
            TempConvIdsKey in args && args[TempConvIdsKey].VList? && |args[TempConvIdsKey].items| > 0)
      && (a.FindTemporaryConversations? ==> a.ids == args[TempConvIdsKey].items)
      && (a.DirectFind? || a.FindTemporaryConversations?)
      && (a.DirectFind? ==>
            && a.where == AsString(GetMethodParam(args, WhereKey)).value
            && a.sort == AsString(GetMethodParam(args, SortKey)).value
            && a.limit == ParamInt(args, LimitKey).value && a.skip == ParamInt(args, SkipKey).value
            && a.flag == ParamInt(args, FlagKey).value)
  {
  }

  /** getConversation always succeeds, with the wrapped conversation or, when
      it does not resolve, an empty map. */
  lemma GetConversationAlwaysSucceeds(args: Dict, env: Env)
    requires ValidEnv(env) && HasClientId(args) && ConversationIdReadable(args)
    ensures var r := Route(FetchConversation, args, env);
      && r.Ok? && r.value.Respond? && r.value.reply.VMap?
      && r.value.reply.entries.Keys == {"success"}
      && r.value.reply.entries["success"] == VMap(WrapConversation(ResolvedConversation(args, env)))
      && (ResolvedConversation(args, env).None? ==> r.value.reply.entries["success"] == VMap(map[]))
  {
  }

  /** Every conversation-scoped method, known or not, is refused with
      INVALID_PARAMETER and "Conversation id is null or invalid." when the
      conversation does not resolve. */
  lemma UnresolvedConversationRefused(methodName: string, args: Dict, env: Env)
    requires ValidEnv(env) && HasClientId(args) && ConversationIdReadable(args)
    requires ConversationScoped(methodName)
    requires ResolvedConversation(args, env).None?
    ensures Route(methodName, args, env) == Ok(Respond(ConversationIdError()))
  {
  }

  /** Conversation operations reach the engine only for a resolved
      conversation, and they act on the conversation id given. */
  lemma EngineCallsNeedConversation(methodName: string, args: Dict, env: Env)
    requires ValidEnv(env)
    requires ConversationScoped(methodName)
    requires Route(methodName, args, env).Ok? && CallsEngine(Route(methodName, args, env).value)
    ensures HasClientId(args) && ConversationIdReadable(args)
    ensures ResolvedConversation(args, env).Some?
    ensures Route(methodName, args, env).value.call ==
      OnConversation(args[ClientIdKey].s, AsString(GetMethodParam(args, ConvIdKey)).value,
                     Route(methodName, args, env).value.call.conversationAction)
  {
  }

  /** updateData: missing, null or empty data is refused; otherwise the data
      is handed to the conversation update. */
  lemma UpdateDataRule(args: Dict, env: Env)
    requires ValidEnv(env) && HasClientId(args) && ConversationIdReadable(args)
    requires ResolvedConversation(args, env).Some?
    ensures var r := Route(UpdateConversation, args, env);
      && (DataKey !in args || args[DataKey] == VNull || args[DataKey] == VMap(map[]) ==>
            r == Ok(Respond(VMap(WrapExceptionCode(SdkInvalidParameter, EmptyAttributesMessage)))))
      && (DataKey in args && args[DataKey].VMap? && args[DataKey].entries != map[] ==>
            r.Ok? && r.value.Invoke? && r.value.call.conversationAction == UpdateInfo(AttributeEdits(args[DataKey].entries)))
      && (DataKey in args && !args[DataKey].VMap? && !args[DataKey].VNull? ==> r == Thrown)
  {
  }

  /** The operation names and engine calls of the three member-update methods. */
  function MemberOpsOf(methodName: string): (string, MemberOp, string, MemberOp) {
    if methodName == UpdateMembers then (OpAdd, AddMembers, OpRemove, KickMembers)
    else if methodName == UpdateBlockMembers then (OpBlock, BlockMembers, OpUnblock, UnblockMembers)
    else (OpMute, MuteMembers, OpUnmute, UnmuteMembers)
  }

  /** Member updates: an empty or missing member list is refused before the
      operation is looked at; then the operation, matched ignoring case,
      selects the engine call, and any other operation is not implemented. */
  lemma MemberUpdateRouting(methodName: string, args: Dict, env: Env)
    requires ValidEnv(env) && HasClientId(args) && ConversationIdReadable(args)
    requires methodName in {UpdateMembers, UpdateBlockMembers, UpdateMuteMembers}
    requires ResolvedConversation(args, env).Some?
    requires Route(methodName, args, env).Ok?
    ensures var o := Route(methodName, args, env).value;
      var members := AsList(GetMethodParam(args, ConvMembersKey)).value;
      var operation := AsString(GetMethodParam(args, OperationKey)).value;
      var (firstName, first, secondName, second) := MemberOpsOf(methodName);
      && (members.None? || members.value == [] ==>
            o == Respond(VMap(WrapExceptionCode(SdkInvalidParameter, EmptyMemberListMessage))))
      && (members.Some? && members.value != [] ==>
            && (EqualsIgnoreCase(firstName, operation) ==> o.Invoke? && o.call.conversationAction == ChangeMembers(first, members.value))
            && (!EqualsIgnoreCase(firstName, operation) && EqualsIgnoreCase(secondName, operation) ==>
                  o.Invoke? && o.call.conversationAction == ChangeMembers(second, members.value))
            && (!EqualsIgnoreCase(firstName, operation) && !EqualsIgnoreCase(secondName, operation) ==> o == NotImplemented))
  {
  }

  /** muteToggle: "mute" and "unmute" in any case, anything else is not implemented. */
  lemma MuteToggleRouting(args: Dict, env: Env)
    requires ValidEnv(env) && HasClientId(args) && ConversationIdReadable(args)
    requires ResolvedConversation(args, env).Some?
    requires Route(MuteConversation, args, env).Ok?
    ensures var o := Route(MuteConversation, args, env).value;
      var operation := AsString(GetMethodParam(args, OperationKey)).value;
      && (EqualsIgnoreCase(OpMute, operation) ==> o.Invoke? && o.call.conversationAction == Mute)
      && (EqualsIgnoreCase(OpUnmute, operation) ==> o.Invoke? && o.call.conversationAction == Unmute)
      && (!EqualsIgnoreCase(OpMute, operation) && !EqualsIgnoreCase(OpUnmute, operation) ==> o == NotImplemented)
  {
  }

  /** The blocked- and muted-member queries pass the limit given, with 0
      (also an absent limit) replaced by 50, and the "next" cursor. */
  lemma MemberPageLimit(methodName: string, args: Dict, env: Env)
    requires ValidEnv(env) && HasClientId(args) && ConversationIdReadable(args)
    requires methodName in {QueryBlockMembers, QueryMuteMembers}
    requires ResolvedConversation(args, env).Some?
    requires Route(methodName, args, env).Ok?
    ensures var a := Route(methodName, args, env).value.call.conversationAction;
      var given := ParamInt(args, LimitKey).value;
      && (a.QueryBlockedMembers? || a.QueryMutedMembers?)
      && (a.QueryBlockedMembers? <==> methodName == QueryBlockMembers)
      && a.limit == (if given == 0 then 50 else given)
      && (LimitKey !in args ==> a.limit == 50)
      && a.next == ParamString(args, NextKey).value
  {
  }

  /** queryMessage: a non-zero type queries by type from the start bound's id
      and timestamp (null and 0 without a start), ignoring direction and end;
      type 0 queries the interval, old to new only for direction 2; the limit
      defaults to 50 either way. */
  lemma MessageQueryMode(args: Dict, env: Env)
    requires ValidEnv(env) && HasClientId(args) && ConversationIdReadable(args)
    requires ResolvedConversation(args, env).Some?
    requires Route(QueryMessage, args, env).Ok?
    ensures var a := Route(QueryMessage, args, env).value.call.conversationAction;
      var msgType := ParamInt(args, MsgTypeKey).value;
      var start := ParseMessageIntervalBound(AsMap(GetMethodParam(args, StartKey)).value).value;
      var given := ParamInt(args, LimitKey).value;
      && (a.QueryMessagesByType? <==> msgType != 0)
      && (a.QueryMessagesByType? ==>
            && a.msgType == msgType
            && a.messageId == (if start.Some? then start.value.messageId else None)
            && a.timestamp == (if start.Some? then start.value.timestamp else 0))
      && (a.QueryMessages? ==> (a.direction == OldToNew <==> ParamInt(args, DirectionKey).value == 2))
      && (a.QueryMessages? ==>
            && a.start == start
            && a.end == ParseMessageIntervalBound(AsMap(GetMethodParam(args, EndKey)).value).value)
      && a.limit == (if given == 0 then 50 else given)
  {
  }

  /** readMessage marks the conversation read and answers at once with an
      empty success. */
  lemma ReadMessageAnswersAtOnce(args: Dict, env: Env)
    requires ValidEnv(env) && HasClientId(args) && ConversationIdReadable(args)
    requires ResolvedConversation(args, env).Some?
    ensures var r := Route(ReadMessage, args, env);
      r.Ok? && r.value.InvokeAndRespond? && r.value.call.conversationAction == MarkRead
      && r.value.reply == VMap(map["success" := VMap(map[])])
  {
  }

  /** A source of the attachment: bytes win over a path, a path over a url;
      empty strings do not count. The name is kept exactly when one was given. */
  lemma FileSourcePrecedence(fileData: Dict, randomName: string)
    requires ParseAttachment(fileData, randomName).Ok?
    ensures var r := ParseAttachment(fileData, randomName).value;
      var bytes := Get(fileData, FileDataKey);
      var path := Get(fileData, FilePathKey);
      var url := Get(fileData, FileUrlKey);
      var name := Get(fileData, FileNameKey);
      && (r.None? <==> !bytes.VBytes? && !(path.VStr? && path.s != "") && !(url.VStr? && url.s != ""))
      && (r.Some? && bytes.VBytes? ==> r.value.source == FromBytes(bytes.bytes))
      && (r.Some? && !bytes.VBytes? && path.VStr? && path.s != "" ==> r.value.source == FromPath(path.s))
      && (r.Some? && !bytes.VBytes? && !(path.VStr? && path.s != "") ==> r.value.source == FromUrl(url.s))
      && (r.Some? ==> r.value.keepFileName == (name.VStr? && name.s != ""))
      && (r.Some? ==> r.value.name == if name.VStr? && name.s != "" then name.s else randomName)
  {
  }

  /** The "transient" key of the message: with it an option always exists,
      and its transient flag is set exactly when the value is a boolean; the
      other option fields are the parsed ones. Without it the option is as parsed. */
  lemma TransientOption(message: Dict, option: Option<MessageOption>)
    ensures TransientKey !in message ==> WithTransient(message, option) == option
    ensures TransientKey in message ==>
      var o := WithTransient(message, option);
      && o.Some?
      && (o.value.transient.Some? <==> message[TransientKey].VBool? || (option.Some? && option.value.transient.Some?))
      && (message[TransientKey].VBool? ==> o.value.transient == Some(message[TransientKey].b))
      && (option.Some? ==> o.value.(transient := option.value.transient) == option.value)
      && (option.None? ==> o.value.(transient := None) == EmptyOption)
  {
  }

  /** sendMessage without a message map raises; with one, the message goes
      out with the options parsed from "options" and the transient flag. */
  lemma SendMessageRouting(args: Dict, env: Env)
    requires ValidEnv(env) && HasClientId(args) && ConversationIdReadable(args)
    requires ResolvedConversation(args, env).Some?
    requires Route(SendMessage, args, env).Ok?
    ensures MessageKey in args && args[MessageKey].VMap?
    ensures var a := Route(SendMessage, args, env).value.call.conversationAction;
      var optionData := AsMap(GetMethodParam(args, OptionsKey)).value;
      && a.Send? && a.message == args[MessageKey].entries
      && a.option == WithTransient(a.message, ParseMessageOption(optionData).value)
      && (a.attachment.Some? ==> env.isFileMessage(a.message) && FileKey in args && args[FileKey].VMap?)
  {
  }

  /** patchMessage: "recall" selects the recall of the old message, anything
      else the update of the old message to the new one. */
  lemma PatchMessageRouting(args: Dict, env: Env)
    requires ValidEnv(env) && HasClientId(args) && ConversationIdReadable(args)
    requires ResolvedConversation(args, env).Some?
    requires Route(PatchMessage, args, env).Ok?
    ensures var a := Route(PatchMessage, args, env).value.call.conversationAction;
      var oldMessage := AsMap(GetMethodParam(args, OldMessageKey)).value;
      && (a.RecallMessage? <==> ParamBoolean(args, RecallKey).value)
      && (a.RecallMessage? ==> a.oldMessage == oldMessage)
      && (a.UpdateMessage? ==> a.oldMessage == oldMessage && a.newMessage == AsMap(GetMethodParam(args, NewMessageKey)).value)
  {
  }
}
