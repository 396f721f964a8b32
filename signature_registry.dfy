/** The signing-policy registry (DefaultSignatureFactory.java): the engine
    asks it for every signature, and it passes the request on to the factory
    registered for the client, or answers null. The registry's two maps are
    keyed by client id; the factory type F is left open (the plugin registers
    a factory that prompts the host). */
module SignatureRegistry {
  import opened Values

  /** A signature request as the engine makes it. */
  datatype SignRequest =
    | SessionOpen(peerId: string, watchIds: seq<string>)
    | ConversationAction(conversationId: Option<string>, clientId: string, targetIds: seq<string>, action: string)

  /** The registry's answer: null, or the answer of `factory` to `request`. */
  datatype SignOutcome<F> = NoSignature | Delegate(factory: F, request: SignRequest)

  /** The contents of the two maps. */
  datatype Registry<F> = Registry(session: map<string, F>, conversation: map<string, F>)

  /** The update registerSignedClient makes to one map: the client maps to
      the factory when signing is enabled and a factory is given, and is
      removed otherwise; no other key changes. */
  function Registered<F>(m: map<string, F>, clientId: string, enabled: bool, factory: Option<F>): (r: map<string, F>)
    ensures clientId in r <==> enabled && factory.Some?
    ensures clientId in r ==> r[clientId] == factory.value
    ensures forall k :: k != clientId ==> (k in r <==> k in m)
    ensures forall k :: k != clientId && k in m ==> r[k] == m[k]
  {
    if enabled && factory.Some? then m[clientId := factory.value] else m - {clientId}
  }

  /** registerSignedClient: each map is updated by its own flag. */
  function Register<F>(reg: Registry<F>, clientId: string, enableSessionSign: bool,
                       enableConversationSign: bool, factory: Option<F>): Registry<F>
  {
    Registry(Registered(reg.session, clientId, enableSessionSign, factory),
             Registered(reg.conversation, clientId, enableConversationSign, factory))
  }

  /** createSignature: delegated to the session factory of peerId, if any. */
  function SessionSignature<F>(reg: Registry<F>, peerId: string, watchIds: seq<string>): SignOutcome<F> {
    if peerId in reg.session then Delegate(reg.session[peerId], SessionOpen(peerId, watchIds))
    else NoSignature
  }

  /** createConversationSignature: looked up by the client id, not by the
      conversation id. */
  function ConversationSignature<F>(reg: Registry<F>, conversationId: Option<string>, clientId: string,
                                    targetIds: seq<string>, action: string): SignOutcome<F> {
    if clientId in reg.conversation
    then Delegate(reg.conversation[clientId], ConversationAction(conversationId, clientId, targetIds, action))
    else NoSignature
  }

  /** After registering a client, its session signatures go to the new
      factory exactly when session signing was enabled with a factory, and
      are null otherwise; the request is passed on unchanged. */
  lemma SessionSignatureAfterRegister<F>(reg: Registry<F>, c: string, s: bool, v: bool, f: Option<F>, watchIds: seq<string>)
    ensures SessionSignature(Register(reg, c, s, v, f), c, watchIds) ==
      if s && f.Some? then Delegate(f.value, SessionOpen(c, watchIds)) else NoSignature
  {
  }

  /** The conversation map follows the conversation flag alone, whatever the
      session flag. */
  lemma ConversationSignatureAfterRegister<F>(reg: Registry<F>, c: string, s: bool, v: bool, f: Option<F>,
                                              conv: Option<string>, targets: seq<string>, action: string)
    ensures ConversationSignature(Register(reg, c, s, v, f), conv, c, targets, action) ==
      if v && f.Some? then Delegate(f.value, ConversationAction(conv, c, targets, action)) else NoSignature
  {
  }

  /** Registering one client leaves every other client's lookups as they were. */
  lemma RegisterLeavesOthers<F>(reg: Registry<F>, c: string, s: bool, v: bool, f: Option<F>,
                                other: string, conv: Option<string>, ids: seq<string>, action: string)
    requires other != c
    ensures SessionSignature(Register(reg, c, s, v, f), other, ids) == SessionSignature(reg, other, ids)
    ensures ConversationSignature(Register(reg, c, s, v, f), conv, other, ids, action) ==
            ConversationSignature(reg, conv, other, ids, action)
  {
  }

  /** Registering the same client again overwrites the earlier registration:
      only the last one matters. */
  lemma ReRegisterOverwrites<F>(reg: Registry<F>, c: string, s1: bool, v1: bool, f1: Option<F>,
                                s2: bool, v2: bool, f2: Option<F>)
    ensures Register(Register(reg, c, s1, v1, f1), c, s2, v2, f2) == Register(reg, c, s2, v2, f2)
  {
    var once := Register(reg, c, s2, v2, f2);
    var twice := Register(Register(reg, c, s1, v1, f1), c, s2, v2, f2);
    assert twice.session == once.session;
    assert twice.conversation == once.conversation;
  }

  /** Which conversation is meant does not change whether, or to whom, the
      request is delegated. */
  lemma ConversationLookupByClient<F>(reg: Registry<F>, conv1: Option<string>, conv2: Option<string>,
                                      c: string, targets: seq<string>, action: string)
    ensures ConversationSignature(reg, conv1, c, targets, action).Delegate? <==>
            ConversationSignature(reg, conv2, c, targets, action).Delegate?
    ensures ConversationSignature(reg, conv1, c, targets, action).Delegate? ==>
            ConversationSignature(reg, conv1, c, targets, action).factory ==
            ConversationSignature(reg, conv2, c, targets, action).factory
  {
  }

  /** The process-wide registry object with its two maps. */
  class DefaultSignatureFactory<F> {
    var sessionSignSettings: map<string, F>
    var conversationSignSettings: map<string, F>

    constructor ()
      ensures sessionSignSettings == map[] && conversationSignSettings == map[]
    {
      sessionSignSettings := map[];
      conversationSignSettings := map[];
    }

    function Contents(): Registry<F>
      reads this
    {
      Registry(sessionSignSettings, conversationSignSettings)
    }

    /** registerSignedClient: puts or removes the client in each map. */
    method RegisterSignedClient(clientId: string, enableSessionSign: bool, enableConversationSign: bool,
                                signatureFactory: Option<F>)
      modifies this
      ensures Contents() == Register(old(Contents()), clientId, enableSessionSign, enableConversationSign, signatureFactory)
    {
      if enableSessionSign && signatureFactory.Some? {
        sessionSignSettings := sessionSignSettings[clientId := signatureFactory.value];
      } else {
        sessionSignSettings := sessionSignSettings - {clientId};
      }
      if enableConversationSign && signatureFactory.Some? {
        conversationSignSettings := conversationSignSettings[clientId := signatureFactory.value];
      } else {
        conversationSignSettings := conversationSignSettings - {clientId};
      }
    }

    /** createSignature: null without a session entry for peerId; otherwise
        the registered factory is asked with the same arguments. */
    method CreateSignature(peerId: string, watchIds: seq<string>) returns (r: SignOutcome<F>)
      ensures peerId !in sessionSignSettings ==> r == NoSignature
      ensures peerId in sessionSignSettings ==> r == Delegate(sessionSignSettings[peerId], SessionOpen(peerId, watchIds))
      ensures r == SessionSignature(Contents(), peerId, watchIds)
    {
      if peerId in sessionSignSettings {
        r := Delegate(sessionSignSettings[peerId], SessionOpen(peerId, watchIds));
      } else {
        r := NoSignature;
      }
    }

    /** createConversationSignature: looked up by clientId; null without an entry. */
    method CreateConversationSignature(conversationId: Option<string>, clientId: string,
                                       targetIds: seq<string>, action: string) returns (r: SignOutcome<F>)
      ensures clientId !in conversationSignSettings ==> r == NoSignature
      ensures clientId in conversationSignSettings ==>
        r == Delegate(conversationSignSettings[clientId], ConversationAction(conversationId, clientId, targetIds, action))
      ensures r == ConversationSignature(Contents(), conversationId, clientId, targetIds, action)
    {
      if clientId in conversationSignSettings {
        r := Delegate(conversationSignSettings[clientId], ConversationAction(conversationId, clientId, targetIds, action));
      } else {
        r := NoSignature;
      }
    }

    /** createBlacklistSignature: null whatever the registry holds. */
    method CreateBlacklistSignature(clientId: string, conversationId: Option<string>,
                                    memberIds: seq<string>, action: string) returns (r: SignOutcome<F>)
      ensures r.NoSignature?
    {
      r := NoSignature;
    }
  }
}
