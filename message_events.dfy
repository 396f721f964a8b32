/** The message handler (DefaultMessageHandler.java): received messages and
    delivery receipts become pushes toward the host when there is a listener. */
module MessageEvents {
  import opened Values
  import opened Common
  import opened Plugin

  /** The conversation key of message pushes. */
  const ConversationKey := "cid"

  /** The payload of "onMessageReceive": exactly the client, the conversation
      and the wrapped message. */
  function ReceivedPayload(client: Client, conversationId: string, message: Option<Dict>): (r: Dict)
    ensures r.Keys == {ClientIdKey, ConversationKey, MessageKey}
    ensures r[ClientIdKey] == VStr(client.clientId) && r[ConversationKey] == VStr(conversationId)
    ensures r[MessageKey] == VMap(WrapMessage(message))
  {
    map[ClientIdKey := VStr(client.clientId), ConversationKey := VStr(conversationId),
        MessageKey := VMap(WrapMessage(message))]
  }

  /** The payload of "onMessageReceipt": the message id, its delivery time as
      "t", and read=false whatever the receipt. */
  function ReceiptPayload(client: Client, conversationId: string, messageId: Option<string>, deliveredAt: int): (r: Dict)
    ensures r.Keys == {ClientIdKey, ConversationKey, "id", "t", "read"}
    ensures r["id"] == StrOrNull(messageId) && r["t"] == VLong(deliveredAt)
    ensures r["read"] == VBool(false)
  {
    map[ClientIdKey := VStr(client.clientId), ConversationKey := VStr(conversationId),
        "id" := StrOrNull(messageId), "t" := VLong(deliveredAt), "read" := VBool(false)]
  }

  /** A receipt push never reports a read, and never carries the message body. */
  lemma ReceiptNeverRead(client: Client, conversationId: string, messageId: Option<string>, deliveredAt: int)
    ensures ReceiptPayload(client, conversationId, messageId, deliveredAt)["read"] != VBool(true)
    ensures MessageKey !in ReceiptPayload(client, conversationId, messageId, deliveredAt)
  {
    assert MessageKey != "read" && MessageKey != "id" && MessageKey != "t";
  }

  class DefaultMessageHandler {
    const listener: LeancloudPlugin?

    constructor (listener: LeancloudPlugin?)
      ensures this.listener == listener
    {
      this.listener := listener;
    }

    function Outbox(): set<object>
    {
      if listener == null then {} else {listener.channel}
    }

    method OnMessage(message: Option<Dict>, conversationId: string, client: Client)
      modifies Outbox()
      ensures listener != null ==>
        listener.channel.sent == old(listener.channel.sent) + [Push(MessageReceived, VMap(ReceivedPayload(client, conversationId, message)))]
    {
      if listener != null {
        listener.Notify(MessageReceived, ReceivedPayload(client, conversationId, message));
      }
    }

    method OnMessageReceipt(messageId: Option<string>, deliveredAt: int, conversationId: string, client: Client)
      modifies Outbox()
      ensures listener != null ==>
        listener.channel.sent == old(listener.channel.sent) + [Push(MessageReceipted, VMap(ReceiptPayload(client, conversationId, messageId, deliveredAt)))]
    {
      if listener != null {
        listener.Notify(MessageReceipted, ReceiptPayload(client, conversationId, messageId, deliveredAt));
      }
    }
  }
}
