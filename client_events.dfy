/** The client event handler (DefaultClientEventHandler.java): connection
    and session events are forwarded to the plugin's status callbacks. */
module ClientEvents {
  import opened Values
  import opened Common
  import opened Plugin

  class DefaultClientEventHandler {
    const listener: LeancloudPlugin?

    constructor (listener: LeancloudPlugin?)
      ensures this.listener == listener
    {
      this.listener := listener;
    }

    function Outbox(): set<object>
    {
      if listener == null then {} else {listener.channel}
    }

    /** A paused connection: "onSessionDisconnect" with the wrapped client. */
    method OnConnectionPaused(client: Client)
      modifies Outbox()
      ensures listener != null ==>
        listener.channel.sent == old(listener.channel.sent) + [Push(ClientDisconnected, VMap(WrapClient(Some(client))))]
    {
      if listener != null {
        listener.OnDisconnected(Some(client));
      }
    }

    /** A resumed connection: "onSessionResume" with the wrapped client. */
    method OnConnectionResume(client: Client)
      modifies Outbox()
      ensures listener != null ==>
        listener.channel.sent == old(listener.channel.sent) + [Push(ClientResumed, VMap(WrapClient(Some(client))))]
    {
      if listener != null {
        listener.OnResumed(Some(client));
      }
    }

    /** Logged out elsewhere: "onSessionClose" with the same code. */
    method OnClientOffline(client: Client, code: int)
      modifies Outbox()
      ensures listener != null ==>
        listener.channel.sent == old(listener.channel.sent) + [Push(ClientOffline, VMap(OfflinePayload(Some(client), code)))]
    {
      if listener != null {
        listener.OnOffline(Some(client), code);
      }
    }
  }

  /** The offline push carries the client and the code as an integer, unlike
      error envelopes, whose code is decimal text. */
  lemma OfflineCarriesCode(client: Client, code: int)
    ensures var p := OfflinePayload(Some(client), code);
      && p.Keys == {ClientIdKey, ErrorKey}
      && p[ClientIdKey] == VStr(client.clientId)
      && p[ErrorKey].entries[CodeKey] == VInt(code)
      && p[ErrorKey] != WrapExceptionCode(code, "")[ErrorKey]
  {
    WrapExceptionCodeEnvelope(code, "");
  }
}
