/** The iOS plugin (SwiftLeancloudPlugin.swift): it answers openClient and
    closeClient only, keeps one client delegator per client id in a
    process-wide dictionary, and maps errors to {"error": {...}} replies.
    Opening and closing complete asynchronously: the call starts the
    operation, and a second step models its completion. */
module SwiftPlugin {
  import opened Values

  /** IMClientDelegator: the engine client made for an id and tag. */
  datatype Delegator = Delegator(clientId: string, tag: Option<string>)

  /** An error as the plugin sees it: an LCError with its code, reason,
      the text of its underlying error and its user info, or another Error
      with its description. */
  datatype SwiftError =
    | LCError(code: int, reason: Option<string>, underlyingDescription: string, userInfo: Option<Dict>)
    | OtherError(description: string)

  const ClientNotFoundCode := 9973
  const UnderlyingErrorCode := 9977
  const ClientNotFoundMessage := "client not found."

  /** error(code:message:details:): "code" always, "message" and "details"
      only when given. */
  function ErrorEnvelope(code: int, message: Option<string>, details: Option<Dict>): (r: Dict)
    ensures r.Keys == {"error"} && r["error"].VMap?
    ensures r["error"].entries.Keys == {"code"} + (if message.Some? then {"message"} else {}) + (if details.Some? then {"details"} else {})
    ensures r["error"].entries["code"] == VInt(code)
    ensures message.Some? ==> r["error"].entries["message"] == VStr(message.value)
    ensures details.Some? ==> r["error"].entries["details"] == VMap(details.value)
  {
    var error := map["code" := VInt(code)];
    var error' := if message.Some? then error["message" := VStr(message.value)] else error;
    var error'' := if details.Some? then error'["details" := VMap(details.value)] else error';
    map["error" := VMap(error'')]
  }

  /** clientNotFound. */
  function ClientNotFound(): (r: Dict)
    ensures r == map["error" := VMap(map["code" := VInt(ClientNotFoundCode), "message" := VStr(ClientNotFoundMessage)])]
  {
    ErrorEnvelope(ClientNotFoundCode, Some(ClientNotFoundMessage), None)
  }

  /** error(_:): an LCError keeps its code and user info, with the
      underlying error's text as message for code 9977 and its reason
      otherwise; any other error becomes code 9977 with its description. */
  function MapError(err: SwiftError): (r: Dict)
  {
    match err
    case LCError(code, reason, underlying, userInfo) =>
      if code == UnderlyingErrorCode then ErrorEnvelope(code, Some(underlying), userInfo)
      else ErrorEnvelope(code, reason, userInfo)
    case OtherError(description) => ErrorEnvelope(UnderlyingErrorCode, Some(description), None)
  }

  /** The code of a mapped error is the error's own code for an LCError and
      9977 for any other error; the message is the underlying error's text
      for code 9977, the reason for other LCError codes and the description
      of any other error; only an LCError can carry details, which are its
      user info. */
  lemma MapErrorCodes(err: SwiftError)
    ensures var info := MapError(err)["error"].entries;
      && info["code"] == VInt(if err.LCError? then err.code else UnderlyingErrorCode)
      && ("details" in info <==> err.LCError? && err.userInfo.Some?)
      && (err.OtherError? ==> info["message"] == VStr(err.description))
      && (err.LCError? && err.code == UnderlyingErrorCode ==> info["message"] == VStr(err.underlyingDescription))
      && (err.LCError? && err.code != UnderlyingErrorCode ==> ("message" in info <==> err.reason.Some?))
      && (err.LCError? && err.code != UnderlyingErrorCode && err.reason.Some? ==> info["message"] == VStr(err.reason.value))
      && ("details" in info ==> info["details"] == VMap(err.userInfo.value))
  {
  }

  /** An error reply never looks like the empty success reply. */
  lemma ErrorRepliesAreNotSuccess(err: SwiftError)
    ensures MapError(err) != map[] && ClientNotFound() != map[]
  {
    assert "error" in MapError(err);
    assert "error" in ClientNotFound();
  }

  /** "force" is read as a Bool and is true when absent or not a Bool. */
  function ForceFlag(arguments: Dict): (r: bool)
    ensures "force" !in arguments ==> r
    ensures "force" in arguments && arguments["force"].VBool? ==> r == arguments["force"].b
  {
    if "force" in arguments && arguments["force"].VBool? then arguments["force"].b else true
  }

  /** "tag" is read with a conditional cast: a non-string tag is no tag. */
  function TagOf(arguments: Dict): Option<string> {
    if "tag" in arguments && arguments["tag"].VStr? then Some(arguments["tag"].s) else None
  }

  /** The map after openClient for a client id: unchanged when a delegator
      exists or creation fails, the new delegator added otherwise. */
  function AfterOpen(m: map<string, Delegator>, clientId: string, tag: Option<string>,
                     creationFailure: Option<SwiftError>): (r: map<string, Delegator>)
    ensures clientId in m ==> r == m
    ensures clientId !in m && creationFailure.Some? ==> r == m
    ensures clientId !in m && creationFailure.None? ==> r == m[clientId := Delegator(clientId, tag)]
  {
    if clientId in m || creationFailure.Some? then m else m[clientId := Delegator(clientId, tag)]
  }

  /** The map after a close completes: the entry goes only on success. */
  function AfterClose(m: map<string, Delegator>, clientId: string, failure: Option<SwiftError>): (r: map<string, Delegator>)
    ensures failure.Some? ==> r == m
    ensures failure.None? ==> clientId !in r && forall k :: k != clientId ==> (k in r <==> k in m)
    ensures failure.None? ==> forall k :: k in r ==> k in m && r[k] == m[k]
  {
    if failure.None? then m - {clientId} else m
  }

  /** openClient never drops a delegator, and never replaces one. */
  lemma OpenKeepsDelegators(m: map<string, Delegator>, clientId: string, tag: Option<string>, failure: Option<SwiftError>)
    ensures forall k :: k in m ==> k in AfterOpen(m, clientId, tag, failure) && AfterOpen(m, clientId, tag, failure)[k] == m[k]
  {
  }

  /** Opening a new client and closing it successfully restores the map. */
  lemma OpenThenCloseRestores(m: map<string, Delegator>, clientId: string, tag: Option<string>)
    requires clientId !in m
    ensures AfterClose(AfterOpen(m, clientId, tag, None), clientId, None) == m
  {
    var r := AfterClose(AfterOpen(m, clientId, tag, None), clientId, None);
    assert r.Keys == m.Keys;
  }

  /** The reply when an open or a close completes: the empty map, or the
      mapped error. */
  function CompletionReply(failure: Option<SwiftError>): (r: Dict)
    ensures failure.None? ==> r == map[]
    ensures failure.Some? ==> r == MapError(failure.value) && "error" in r
  {
    if failure.None? then map[] else MapError(failure.value)
  }

  /** What handle does with a call: the process traps, a reply is sent at
      once, or an open or close is started on a stored delegator. */
  datatype Handled =
    | Fatal
    | Replied(reply: Dict)
    | Opening(delegator: Delegator, force: bool)
    | Closing(delegator: Delegator)

  class SwiftLeancloudPlugin {
    var delegatorMap: map<string, Delegator>

    constructor ()
      ensures delegatorMap == map[]
    {
      delegatorMap := map[];
    }

    /** handle: the arguments must be a map and the method openClient or
        closeClient; anything else traps. */
    method Handle(methodName: string, arguments: Value, creationFailure: Option<SwiftError>) returns (r: Handled)
      modifies this
      ensures !arguments.VMap? || (methodName != "openClient" && methodName != "closeClient") ==>
        r == Fatal && delegatorMap == old(delegatorMap)
      ensures arguments.VMap? && methodName == "openClient" ==>
        OpenClientOutcome(old(delegatorMap), arguments.entries, creationFailure, r, delegatorMap)
      ensures arguments.VMap? && methodName == "closeClient" ==>
        CloseClientOutcome(old(delegatorMap), arguments.entries, r) && delegatorMap == old(delegatorMap)
    {
      if !arguments.VMap? {
        return Fatal;
      }
      if methodName == "openClient" {
        r := OpenClient(arguments.entries, creationFailure);
      } else if methodName == "closeClient" {
        r := CloseClient(arguments.entries);
      } else {
        r := Fatal;
      }
    }

    /** openClient: a missing or non-string client id traps; an existing
        delegator is reused; otherwise one is created and stored, unless
        creation fails, which is answered with the error at once. */
    method OpenClient(arguments: Dict, creationFailure: Option<SwiftError>) returns (r: Handled)
      modifies this
      ensures OpenClientOutcome(old(delegatorMap), arguments, creationFailure, r, delegatorMap)
    {
      if !("clientId" in arguments && arguments["clientId"].VStr?) {
        return Fatal;
      }
      var clientId := arguments["clientId"].s;
      var delegator: Delegator;
      if clientId in delegatorMap {
        delegator := delegatorMap[clientId];
      } else {
        if creationFailure.Some? {
          return Replied(MapError(creationFailure.value));
        }
        delegator := Delegator(clientId, TagOf(arguments));
        delegatorMap := delegatorMap[clientId := delegator];
      }
      r := Opening(delegator, ForceFlag(arguments));
    }

    /** closeClient: a missing or non-string client id traps; an unknown id
        is answered with "client not found." at once; otherwise the close is
        started, and the map changes only when it completes. */
    method CloseClient(arguments: Dict) returns (r: Handled)
      ensures CloseClientOutcome(delegatorMap, arguments, r)
    {
      if !("clientId" in arguments && arguments["clientId"].VStr?) {
        return Fatal;
      }
      var clientId := arguments["clientId"].s;
      if clientId in delegatorMap {
        r := Closing(delegatorMap[clientId]);
      } else {
        r := Replied(ClientNotFound());
      }
    }

    /** The close of a stored client completes: the entry is removed and the
        empty map is sent on success; on failure the entry stays and the
        error is sent. */
    method CloseCompleted(clientId: string, failure: Option<SwiftError>) returns (reply: Dict)
      modifies this
      ensures delegatorMap == AfterClose(old(delegatorMap), clientId, failure)
      ensures reply == CompletionReply(failure)
    {
      if failure.None? {
        delegatorMap := delegatorMap - {clientId};
        reply := map[];
      } else {
        reply := MapError(failure.value);
      }
    }
  }

  /** The client id of a call, when it is a string. */
  function ClientIdOf(arguments: Dict): Option<string> {
    if "clientId" in arguments && arguments["clientId"].VStr? then Some(arguments["clientId"].s) else None
  }

  /** What openClient promises about its outcome and the new map. */
  predicate OpenClientOutcome(before: map<string, Delegator>, arguments: Dict, creationFailure: Option<SwiftError>,
                              r: Handled, after: map<string, Delegator>)
  {
    match ClientIdOf(arguments)
    case None => r == Fatal && after == before
    case Some(clientId) =>
      && after == AfterOpen(before, clientId, TagOf(arguments), creationFailure)
      && (clientId in before ==> r == Opening(before[clientId], ForceFlag(arguments)))
      && (clientId !in before && creationFailure.Some? ==> r == Replied(MapError(creationFailure.value)))
      && (clientId !in before && creationFailure.None? ==>
            r == Opening(Delegator(clientId, TagOf(arguments)), ForceFlag(arguments)))
  }

  /** What closeClient promises about its outcome. */
  predicate CloseClientOutcome(m: map<string, Delegator>, arguments: Dict, r: Handled) {
    match ClientIdOf(arguments)
    case None => r == Fatal
    case Some(clientId) =>
      && (clientId in m ==> r == Closing(m[clientId]))
      && (clientId !in m ==> r == Replied(ClientNotFound()))
  }
}
