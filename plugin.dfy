/** The Android plugin object (LeancloudPlugin.java): the method channel it
    pushes on, the prompting signature factory it registers for clients that
    asked for signing, the call handler that routes a host call and updates
    the signing registry, and the client-status notifications. */
module Plugin {
  import opened Values
  import opened Common
  import opened SignatureRegistry
  import opened Dispatcher

  /** One call the plugin makes toward the host: a method name and its argument. */
  datatype Push = Push(methodName: string, payload: Value)

  /** The method channel toward the host, seen as the calls made on it. */
  class MethodChannel {
    var sent: seq<Push>

    constructor ()
      ensures sent == []
    {
      sent := [];
    }

    /** invokeMethod: one more call toward the host. */
    method InvokeMethod(methodName: string, payload: Value)
      modifies this
      ensures sent == old(sent) + [Push(methodName, payload)]
    {
      sent := sent + [Push(methodName, payload)];
    }
  }

  // ---------------------------------------------------------------------
  // The prompting signature factory.

  /** The factory generateSignatureFactory builds: it has no state of its
      own and asks the host for every signature. */
  datatype Prompter = Prompter

  /** How the host answered a prompt: success with a value, an error, not
      implemented, or no answer before the wait ended. */
  datatype HostReply =
    | Success(result: Value)
    | Error(errorCode: Option<string>, errorMessage: Option<string>, details: Value)
    | NotImplementedReply
    | NoReply

  /** A signature no setter has touched. */
  const Unfilled := SignFields(None, 0, None)

  /** The "sign" map of a host result: present when the result is a map
      whose "sign" value is a non-null map. */
  function SignData(result: Value): (r: Option<Dict>)
    ensures r.Some? <==> result.VMap? && "sign" in result.entries && result.entries["sign"].VMap?
    ensures r.Some? ==> r.value == result.entries["sign"].entries
  {
    if result.VMap? && "sign" in result.entries && result.entries["sign"].VMap?
    then Some(result.entries["sign"].entries)
    else None
  }

  /** fillResult2Signature: the fields it would set; None when it sets
      nothing, Thrown when one of its casts raises (before any setter runs). */
  function FillFields(result: Value): (r: Checked<Option<SignFields>>)
    ensures SignData(result).None? ==> r == Ok(None)
    ensures SignData(result).Some? ==> r.Ok? == ReadSignFields(SignData(result).value).Ok?
    ensures r.Ok? && r.value.Some? ==> SignData(result).Some? && r.value.value == ReadSignFields(SignData(result).value).value
  {
    match SignData(result)
    case None => Ok(None)
    case Some(signMap) =>
      var fields :- ReadSignFields(signMap);
      Ok(Some(fields))
  }

  /** fillResult2Signature on a signature: sets s, t and n from the "sign"
      map, or leaves the signature as it was. */
  method FillResult2Signature(result: Value, signature: Signature) returns (raised: bool)
    modifies signature
    ensures raised <==> FillFields(result).Thrown?
    ensures FillFields(result) == Ok(None) || raised ==> signature.Fields() == old(signature.Fields())
    ensures FillFields(result).Ok? && FillFields(result).value.Some? ==> signature.Fields() == FillFields(result).value.value
  {
    var signMap := SignData(result);
    if signMap.None? {
      return false;
    }
    var fields := ReadSignFields(signMap.value);
    if fields.Thrown? {
      return true;
    }
    signature.SetAll(fields.value);
    raised := false;
  }

  /** The fields of the signature a prompt returns: only a success reply
      whose fill does not raise sets them. A fill that raises ends the reply
      handler before the wait is released, so the signature is returned as
      created. */
  function PromptedFields(reply: HostReply): (r: SignFields)
    ensures !reply.Success? ==> r == Unfilled
  {
    if reply.Success? && FillFields(reply.result).Ok? && FillFields(reply.result).value.Some?
    then FillFields(reply.result).value.value
    else Unfilled
  }

  /** A prompt's signature carries fields only from a success reply holding a
      well-formed "sign" map, and then exactly the map's s, t and n. */
  lemma PromptedFieldsFromSignMap(reply: HostReply)
    ensures PromptedFields(reply) != Unfilled ==> reply.Success? && SignData(reply.result).Some?
    ensures reply.Success? && SignData(reply.result).Some? && ReadSignFields(SignData(reply.result).value).Ok? ==>
      var m := SignData(reply.result).value;
      && PromptedFields(reply) == ReadSignFields(m).value
      && PromptedFields(reply).signature == AsString(Get(m, "s")).value
      && PromptedFields(reply).timestamp == m["t"].l
      && PromptedFields(reply).nonce == AsString(Get(m, "n")).value
    ensures reply.Success? && SignData(reply.result).None? ==> PromptedFields(reply) == Unfilled
  {
  }

  /** A timestamp sent as an Integer, not a Long, makes the fill raise, and
      the returned signature stays unfilled. */
  lemma IntegerTimestampLeavesUnfilled(s: string, t: int, n: string)
    ensures var reply := Success(VMap(map["sign" := VMap(map["s" := VStr(s), "t" := VInt(t), "n" := VStr(n)])]));
      FillFields(reply.result).Thrown? && PromptedFields(reply) == Unfilled
  {
  }

  /** The argument of the session prompt: the client id only. */
  function SessionPromptParams(peerId: string): (r: Dict)
    ensures r.Keys == {ClientIdKey} && r[ClientIdKey] == VStr(peerId)
  {
    map[ClientIdKey := VStr(peerId)]
  }

  /** The argument of the conversation prompt: the client id, the target ids
      and the action, and the conversation id only when it is non-empty. */
  function ConversationPromptParams(conversationId: Option<string>, clientId: string,
                                    targetIds: seq<string>, action: string): (r: Dict)
    ensures r.Keys == {ClientIdKey, TargetIdsKey, ActionKey} + (if IsEmpty(conversationId) then {} else {ConvIdKey})
    ensures r[ClientIdKey] == VStr(clientId) && r[TargetIdsKey] == VList(StrList(targetIds)) && r[ActionKey] == VStr(action)
    ensures !IsEmpty(conversationId) ==> r[ConvIdKey] == VStr(conversationId.value)
  {
    var params := map[ClientIdKey := VStr(clientId)];
    var params' := if !IsEmpty(conversationId) then params[ConvIdKey := VStr(conversationId.value)] else params;
    params'[TargetIdsKey := VList(StrList(targetIds))][ActionKey := VStr(action)]
  }

  /** createSignature of the prompting factory: asks the host with
      "onSignSessionOpen" and returns a new signature filled from the reply. */
  method PromptSessionSignature(channel: MethodChannel, peerId: string, reply: HostReply) returns (signature: Signature)
    modifies channel
    ensures fresh(signature)
    ensures channel.sent == old(channel.sent) + [Push(SignSessionOpen, VMap(SessionPromptParams(peerId)))]
    ensures signature.Fields() == PromptedFields(reply)
  {
    signature := new Signature();
    channel.InvokeMethod(SignSessionOpen, VMap(SessionPromptParams(peerId)));
    if reply.Success? {
      var raised := FillResult2Signature(reply.result, signature);
    }
  }

  /** createConversationSignature of the prompting factory: asks the host
      with "onSignConversation". */
  method PromptConversationSignature(channel: MethodChannel, conversationId: Option<string>, clientId: string,
                                     targetIds: seq<string>, action: string, reply: HostReply) returns (signature: Signature)
    modifies channel
    ensures fresh(signature)
    ensures channel.sent == old(channel.sent) +
      [Push(SignConversation, VMap(ConversationPromptParams(conversationId, clientId, targetIds, action)))]
    ensures signature.Fields() == PromptedFields(reply)
  {
    signature := new Signature();
    channel.InvokeMethod(SignConversation, VMap(ConversationPromptParams(conversationId, clientId, targetIds, action)));
    if reply.Success? {
      var raised := FillResult2Signature(reply.result, signature);
    }
  }

  // ---------------------------------------------------------------------
  // The plugin.

  /** The outcome opens a client: the only routed call that touches the registry. */
  predicate OpensClient(r: Checked<Outcome>) {
    r.Ok? && r.value.Invoke? && r.value.call.OnClient? && r.value.call.clientAction.Open?
  }

  /** The factory openClient registers: a prompter when either flag is set. */
  function FactoryFor(sessionSign: bool, conversationSign: bool): (r: Option<Prompter>)
    ensures r.Some? <==> sessionSign || conversationSign
  {
    if sessionSign || conversationSign then Some(Prompter) else None
  }

  /** The status push onOffline makes: the wrapped client plus
      {"error": {"code": code}}, the code as an integer. */
  function OfflinePayload(client: Option<Client>, code: int): (r: Dict)
    ensures r.Keys == WrapClient(client).Keys + {ErrorKey}
    ensures r[ErrorKey] == VMap(map[CodeKey := VInt(code)])
    ensures client.Some? ==> r[ClientIdKey] == VStr(client.value.clientId)
  {
    WrapClient(client)[ErrorKey := VMap(map[CodeKey := VInt(code)])]
  }

  class LeancloudPlugin {
    const registry: DefaultSignatureFactory<Prompter>
    const channel: MethodChannel

    constructor (registry: DefaultSignatureFactory<Prompter>, channel: MethodChannel)
      ensures this.registry == registry && this.channel == channel
    {
      this.registry := registry;
      this.channel := channel;
    }

    /** onMethodCall: the outcome is the routing decision; an openClient that
        gets past its argument casts registers the client with its flags and
        a prompting factory when either flag is set, and nothing else touches
        the registry. */
    method OnMethodCall(methodName: string, arguments: Value, env: Env) returns (r: Checked<Outcome>)
      requires ValidEnv(env)
      modifies registry
      ensures r == Dispatch(methodName, arguments, env)
      ensures OpensClient(r) ==>
        var a := r.value.call.clientAction;
        registry.Contents() == Register(old(registry.Contents()), r.value.call.clientId,
                                        a.sessionSign, a.conversationSign, FactoryFor(a.sessionSign, a.conversationSign))
      ensures !OpensClient(r) ==> registry.Contents() == old(registry.Contents())
    {
      r := Dispatch(methodName, arguments, env);
      if OpensClient(r) {
        var a := r.value.call.clientAction;
        registry.RegisterSignedClient(r.value.call.clientId, a.sessionSign, a.conversationSign,
                                      FactoryFor(a.sessionSign, a.conversationSign));
      }
    }

    /** The engine asks for a session signature: null without a registration
        for the peer; otherwise the host is prompted and the new signature is
        filled from its reply. */
    method SessionSignatureFor(peerId: string, watchIds: seq<string>, reply: HostReply) returns (signature: Signature?)
      modifies channel
      ensures peerId !in registry.sessionSignSettings ==> signature == null && channel.sent == old(channel.sent)
      ensures peerId in registry.sessionSignSettings ==>
        && signature != null && fresh(signature) && signature.Fields() == PromptedFields(reply)
        && channel.sent == old(channel.sent) + [Push(SignSessionOpen, VMap(SessionPromptParams(peerId)))]
    {
      var outcome := registry.CreateSignature(peerId, watchIds);
      if outcome.NoSignature? {
        return null;
      }
      signature := PromptSessionSignature(channel, outcome.request.peerId, reply);
    }

    /** The engine asks for a conversation signature: looked up by client id. */
    method ConversationSignatureFor(conversationId: Option<string>, clientId: string, targetIds: seq<string>,
                                    action: string, reply: HostReply) returns (signature: Signature?)
      modifies channel
      ensures clientId !in registry.conversationSignSettings ==> signature == null && channel.sent == old(channel.sent)
      ensures clientId in registry.conversationSignSettings ==>
        && signature != null && fresh(signature) && signature.Fields() == PromptedFields(reply)
        && channel.sent == old(channel.sent) +
             [Push(SignConversation, VMap(ConversationPromptParams(conversationId, clientId, targetIds, action)))]
    {
      var outcome := registry.CreateConversationSignature(conversationId, clientId, targetIds, action);
      if outcome.NoSignature? {
        return null;
      }
      var request := outcome.request;
      signature := PromptConversationSignature(channel, request.conversationId, request.clientId,
                                               request.targetIds, request.action, reply);
    }

    /** notify: one push toward the host. */
    method Notify(methodName: string, payload: Dict)
      modifies channel
      ensures channel.sent == old(channel.sent) + [Push(methodName, VMap(payload))]
    {
      channel.InvokeMethod(methodName, VMap(payload));
    }

    /** onDisconnected: "onSessionDisconnect" with the wrapped client. */
    method OnDisconnected(client: Option<Client>)
      modifies channel
      ensures channel.sent == old(channel.sent) + [Push(ClientDisconnected, VMap(WrapClient(client)))]
    {
      channel.InvokeMethod(ClientDisconnected, VMap(WrapClient(client)));
    }

    /** onResumed: "onSessionResume" with the wrapped client. */
    method OnResumed(client: Option<Client>)
      modifies channel
      ensures channel.sent == old(channel.sent) + [Push(ClientResumed, VMap(WrapClient(client)))]
    {
      channel.InvokeMethod(ClientResumed, VMap(WrapClient(client)));
    }

    /** onOffline: "onSessionClose" with the wrapped client and the code. */
    method OnOffline(client: Option<Client>, code: int)
      modifies channel
      ensures channel.sent == old(channel.sent) + [Push(ClientOffline, VMap(OfflinePayload(client, code)))]
    {
      channel.InvokeMethod(ClientOffline, VMap(OfflinePayload(client, code)));
    }
  }

  /** A client that opened without asking for signing gets no signature
      prompts afterwards, whatever was registered for it before. */
  lemma UnsignedOpenStopsPrompts(reg: Registry<Prompter>, clientId: string, watchIds: seq<string>,
                                 conv: Option<string>, targets: seq<string>, action: string)
    ensures SessionSignature(Register(reg, clientId, false, false, FactoryFor(false, false)), clientId, watchIds) == NoSignature
    ensures ConversationSignature(Register(reg, clientId, false, false, FactoryFor(false, false)), conv, clientId, targets, action) == NoSignature
  {
    SessionSignatureAfterRegister(reg, clientId, false, false, FactoryFor(false, false), watchIds);
    ConversationSignatureAfterRegister(reg, clientId, false, false, FactoryFor(false, false), conv, targets, action);
  }

  /** Asking for session signing alone prompts for sessions and not for
      conversation operations. */
  lemma SessionOnlySigning(reg: Registry<Prompter>, clientId: string, watchIds: seq<string>,
                           conv: Option<string>, targets: seq<string>, action: string)
    ensures SessionSignature(Register(reg, clientId, true, false, FactoryFor(true, false)), clientId, watchIds)
            == Delegate(Prompter, SessionOpen(clientId, watchIds))
    ensures ConversationSignature(Register(reg, clientId, true, false, FactoryFor(true, false)), conv, clientId, targets, action)
            == NoSignature
  {
    SessionSignatureAfterRegister(reg, clientId, true, false, FactoryFor(true, false), watchIds);
    ConversationSignatureAfterRegister(reg, clientId, true, false, FactoryFor(true, false), conv, targets, action);
  }
}
