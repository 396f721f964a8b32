# LeanCloud instant-messaging Flutter plugin, modelled in Dafny

The plugin connects a Flutter application to the LeanCloud real-time
messaging SDK through one method channel, `leancloud_plugin`.

On Android (`LeancloudPlugin` and its helpers) the plugin:

- reads each call from the host, with Java's casts and unboxing, and
  raises when the arguments have the wrong types;
- checks the client id and the conversation id;
- chooses the engine operation the call stands for;
- shapes the engine's answer into a `{"success": …}` or
  `{"error": {code, message, details}}` map;
- forwards engine events (client status, messages and receipts,
  conversation changes) to the host as pushes;
- keeps a registry of the signing policy each client asked for, and asks
  the host for signatures;
- encodes numbers with a codec of its own.

On iOS (`SwiftLeancloudPlugin`) the plugin answers only `openClient` and
`closeClient`. It keeps one client delegator per client id.

The model is written as values and functions where the source computes
values. Classes are used where the source keeps state:

- the signing registry;
- the method channel, whose pushes are a sequence that grows;
- the signature object filled by setters;
- the byte stream of the codec;
- the iOS delegator dictionary.

The model is split into these modules:

| module | file | models |
|---|---|---|
| `Values` | `values.dfy` | the values the channel carries |
| `Numerals` | `numerals.dfy` | the decimal and hexadecimal texts the plugin writes |
| `Common` | `common.dfy` | `Common.java` |
| `MessageCodec` | `codec.dfy` | `LeanCloudMessageCodec.java` |
| `SignatureRegistry` | `signature_registry.dfy` | `DefaultSignatureFactory.java` |
| `Dispatcher` | `dispatcher.dfy` | the routing of `onMethodCall` |
| `Replies` | `replies.dfy` | the completion callbacks of `onMethodCall` |
| `Plugin` | `plugin.dfy` | the plugin object, its prompting signature factory and its status callbacks |
| `ConversationEvents` | `conversation_events.dfy` | `DefaultConversationEventHandler.java` |
| `MessageEvents` | `message_events.dfy` | `DefaultMessageHandler.java` |
| `ClientEvents` | `client_events.dfy` | `DefaultClientEventHandler.java` |
| `SwiftPlugin` | `swift_plugin.dfy` | `SwiftLeancloudPlugin.swift` |

The routing of a call is a function, `Dispatcher.Dispatch` (on the raw
arguments) and `Dispatcher.Route` (on an argument map). Its result is one
of three things:

- `Thrown`: the handler raises before it replies;
- a reply given at once;
- the engine call the plugin makes.

When the engine completes, the reply is given by the functions and methods
of `Replies`. The engine itself is a parameter of the model (`Dispatcher.Env`): the
Android release string, the conversation lookup, whether the engine parses
a message map into a file message, and the random name it gives a file. Completions arrive as
`Completion` values.

Where the code and the plugin's documented behaviour differ, the model
follows the code:

- A call with an unknown method name goes through the conversation check
  first. When its conversation does not resolve, the reply is the
  invalid-conversation error and not "not implemented"
  (`Dispatcher.UnresolvedConversationRefused`).
- The "ttl" of a created conversation is reported as the requested ttl only
  for a temporary conversation (`Replies.CreatedConversationTtl`).
- The conversation query passes its limit through as given. Only the member
  and message queries replace a limit of 0 with 50
  (`Dispatcher.QueryConversationMode`, `Dispatcher.MemberPageLimit`).

## Model

Paths are relative to the repository root. Java paths are under
`android/src/main/java/cn/leancloud/plugin/`, written out in full in each row.

| member | source | states |
|---|---|---|
| Values.StrList | android/src/main/java/cn/leancloud/plugin/LeancloudPlugin.java:163-167 | a list of ids is carried as a list of strings of the same length, element by element |
| Numerals.NatText | android/src/main/java/cn/leancloud/plugin/Common.java:188-192 | the digit text of a natural number is never empty |
| Numerals.NatTextRoundTrip | android/src/main/java/cn/leancloud/plugin/LeanCloudMessageCodec.java:31-34 | parsing the digit text of n in its base gives n back (induction on n) |
| Numerals.NatTextDigits | android/src/main/java/cn/leancloud/plugin/LeanCloudMessageCodec.java:31-34 | every character of the text is a lower-case digit of the base |
| Numerals.NatTextNoLeadingZero | android/src/main/java/cn/leancloud/plugin/LeanCloudMessageCodec.java:31-34 | the text has no leading zero unless it is "0" |
| Numerals.IntTextRoundTrip | android/src/main/java/cn/leancloud/plugin/Common.java:183-200 | the signed text (String.valueOf, BigInteger.toString(16)) parses back to the integer |
| Numerals.IntTextInjective | android/src/main/java/cn/leancloud/plugin/Common.java:183-200 | different integers get different texts |
| Common.AsString | android/src/main/java/cn/leancloud/plugin/Common.java:138-143 | a String cast passes exactly null and strings, and keeps the string |
| Common.AsMap | android/src/main/java/cn/leancloud/plugin/Common.java:166-176 | a Map cast passes exactly null and maps, and keeps the map |
| Common.AsList | android/src/main/java/cn/leancloud/plugin/LeancloudPlugin.java:294-299 | a List cast passes exactly null and lists, and keeps the list |
| Common.AsBytes | android/src/main/java/cn/leancloud/plugin/LeancloudPlugin.java:671-717 | a byte[] cast passes exactly null and byte arrays, and keeps the bytes |
| Common.UnboxBoolean | android/src/main/java/cn/leancloud/plugin/Common.java:145-150 | unboxing to boolean succeeds exactly on a Boolean and gives its value; null raises |
| Common.UnboxInt | android/src/main/java/cn/leancloud/plugin/Common.java:152-157 | unboxing to int succeeds exactly on an Integer and gives its value |
| Common.UnboxLong | android/src/main/java/cn/leancloud/plugin/Common.java:271-279 | unboxing to long succeeds exactly on a Long; an Integer raises |
| Common.GetMethodParam | android/src/main/java/cn/leancloud/plugin/Common.java:138-143 | the argument as given, null when the key is absent |
| Common.ParamBoolean | android/src/main/java/cn/leancloud/plugin/Common.java:145-150 | false when absent; otherwise succeeds exactly for a Boolean, with its value |
| Common.ParamInt | android/src/main/java/cn/leancloud/plugin/Common.java:152-157 | 0 when absent; otherwise succeeds exactly for an Integer, with its value |
| Common.ParamString | android/src/main/java/cn/leancloud/plugin/Common.java:159-164 | null when absent; otherwise the String cast of the value |
| Common.WrapException | android/src/main/java/cn/leancloud/plugin/Common.java:183-200 | a null exception gives an empty map; otherwise the map has the single key "error" holding a map |
| Common.WrapExceptionEnvelope | android/src/main/java/cn/leancloud/plugin/Common.java:183-200 | the error map holds code and message, plus details exactly when there is a cause; the code is decimal text that parses back to the app code of an IM exception and to the code of any other exception |
| Common.WrapExceptionCode | android/src/main/java/cn/leancloud/plugin/Common.java:178-181 | a code and a message are wrapped as an exception with that code and message and no cause |
| Common.WrapExceptionCodeEnvelope | android/src/main/java/cn/leancloud/plugin/Common.java:178-181 | such an envelope has exactly code and message; the code text parses back to the code given |
| Common.WrapSuccessMap | android/src/main/java/cn/leancloud/plugin/Common.java:202-208 | null gives an empty map; a result gives exactly {"success": result} |
| Common.WrapSuccessList | android/src/main/java/cn/leancloud/plugin/Common.java:210-216 | null gives an empty map; a list gives {"success": list} with the same items in the same order |
| Common.WrapSuccessInt | android/src/main/java/cn/leancloud/plugin/Common.java:218-222 | always exactly {"success": n} |
| Common.WrapClient | android/src/main/java/cn/leancloud/plugin/Common.java:224-230 | null gives an empty map; a client gives exactly {"clientId": id} |
| Common.WrapMessage | android/src/main/java/cn/leancloud/plugin/Common.java:232-240 | null gives an empty map; a message gives its dump unchanged |
| Common.WrapConversation | android/src/main/java/cn/leancloud/plugin/Common.java:281-295 | null gives an empty map; otherwise every key of the dump is kept with its value, and "unique": true is added exactly when the type is 1, the unique id is non-empty and the dump has no "unique" key |
| Common.UncastDumpsPassThrough | android/src/main/java/cn/leancloud/plugin/Common.java:288-292 | a dump without a type, without a unique id, or already flagged unique is never cast: it is admitted whatever its values and returned unchanged |
| Common.ParseMessageOption | android/src/main/java/cn/leancloud/plugin/Common.java:250-269 | null for null or empty data; raises exactly when a present key has the wrong type; otherwise an option field is set exactly when its key is present, with its value (push data: the map, or none for null); transient is never set here |
| Common.ParseMessageIntervalBound | android/src/main/java/cn/leancloud/plugin/Common.java:271-279 | null for null; otherwise succeeds exactly when "id" is null or a string, "timestamp" a Long and "close" a Boolean, and the bound carries the id (none for null), the timestamp and the flag |
| Common.ReadSignFields | android/src/main/java/cn/leancloud/plugin/Common.java:166-176 | reading "s", "t", "n" succeeds exactly when s and n are null or strings and t is a Long; the fields are the Long's value and the strings, or none for null |
| Common.Signature.constructor | android/src/main/java/cn/leancloud/plugin/Common.java:166-176 | a new Signature has no value, no nonce and timestamp 0 |
| Common.Signature.SetAll | android/src/main/java/cn/leancloud/plugin/Common.java:166-176 | the setters leave exactly the given fields |
| Common.GetMethodSignature | android/src/main/java/cn/leancloud/plugin/Common.java:166-176 | raises when the argument is not a map or a field has the wrong type; null when absent or null; otherwise a fresh Signature holding the map's fields |
| MessageCodec.LittleEndian | android/src/main/java/cn/leancloud/plugin/LeanCloudMessageCodec.java:21-26 | a fixed-width write produces exactly width bytes |
| MessageCodec.IntBytes | android/src/main/java/cn/leancloud/plugin/LeanCloudMessageCodec.java:21-23 | writeInt produces four bytes |
| MessageCodec.LongBytes | android/src/main/java/cn/leancloud/plugin/LeanCloudMessageCodec.java:24-26 | writeLong produces eight bytes |
| MessageCodec.LittleEndianRoundTrip | android/src/main/java/cn/leancloud/plugin/LeanCloudMessageCodec.java:21-26 | reading the bytes back gives the value modulo 256^width |
| MessageCodec.SignedRoundTrip | android/src/main/java/cn/leancloud/plugin/LeanCloudMessageCodec.java:21-26 | a value in the signed range reads back as itself from its two's-complement bytes |
| MessageCodec.SizePrefixRoundTrip | android/src/main/java/cn/leancloud/plugin/LeanCloudMessageCodec.java:31-34 | the size prefix of writeBytes reads back as the size, followed by the bytes |
| MessageCodec.Padding | android/src/main/java/cn/leancloud/plugin/LeanCloudMessageCodec.java:27-30 | the alignment padding is fewer than 8 zero bytes and ends on a multiple of 8 |
| MessageCodec.AsciiBytes | android/src/main/java/cn/leancloud/plugin/LeanCloudMessageCodec.java:31-34 | UTF-8 of ASCII text is one byte per character, with the same code |
| MessageCodec.HexTextIsAscii | android/src/main/java/cn/leancloud/plugin/LeanCloudMessageCodec.java:31-34 | the hex text of a BigInteger is ASCII |
| MessageCodec.ByteStream.constructor | android/src/main/java/cn/leancloud/plugin/LeanCloudMessageCodec.java:19-20 | a new stream is empty |
| MessageCodec.ByteStream.Write | android/src/main/java/cn/leancloud/plugin/LeanCloudMessageCodec.java:19-46 | a write appends exactly the bytes given |
| MessageCodec.DatumOf | android/src/main/java/cn/leancloud/plugin/LeanCloudMessageCodec.java:19-46 | an Integer or a Long is always a Number, with tag 3 or 4 and its value; anything else goes to the standard codec unchanged |
| MessageCodec.ChannelIntegersUseNumberTags | android/src/main/java/cn/leancloud/plugin/LeanCloudMessageCodec.java:20-26 | an Integer is written as tag 3 and four bytes, a Long as tag 4 and eight, never by the standard codec, and the bytes read back as the value |
| MessageCodec.WriteValue | android/src/main/java/cn/leancloud/plugin/LeanCloudMessageCodec.java:19-46 | succeeds exactly for non-numbers (never an Integer or a Long) and the eight supported Number classes; then appends exactly the tagged encoding; an unsupported Number raises with the stream unchanged |
| MessageCodec.WriteNumber | android/src/main/java/cn/leancloud/plugin/LeanCloudMessageCodec.java:20-42 | succeeds exactly for the eight supported Number classes and appends the tag and its payload; any other Number raises with the stream unchanged |
| MessageCodec.TagDeterminedByKind | android/src/main/java/cn/leancloud/plugin/LeanCloudMessageCodec.java:13-16 | the tag byte depends on the Number class alone |
| MessageCodec.IntWidening | android/src/main/java/cn/leancloud/plugin/LeanCloudMessageCodec.java:21-23 | Short and Byte are written exactly as the Integer of the same value: tag 3 and four bytes that read back as the value |
| MessageCodec.LongRoundTrip | android/src/main/java/cn/leancloud/plugin/LeanCloudMessageCodec.java:24-26 | a Long is tag 4 and eight bytes that read back as the value |
| MessageCodec.BigIntegerRoundTrip | android/src/main/java/cn/leancloud/plugin/LeanCloudMessageCodec.java:31-34 | a BigInteger is tag 5, a size that reads back, and ASCII hex text that parses back to the number |
| MessageCodec.HexTextLowerCase | android/src/main/java/cn/leancloud/plugin/LeanCloudMessageCodec.java:31-34 | the hex text uses only '-', 0-9 and a-f |
| MessageCodec.DoubleAligned | android/src/main/java/cn/leancloud/plugin/LeanCloudMessageCodec.java:27-39 | Float, Double and BigDecimal are tag 6 and their eight bytes start on a multiple of 8 |
| SignatureRegistry.Registered | android/src/main/java/cn/leancloud/plugin/DefaultSignatureFactory.java:24-37 | the client is in the map exactly when its flag is set and a factory is given, mapped to that factory; every other client is untouched |
| SignatureRegistry.SessionSignatureAfterRegister | android/src/main/java/cn/leancloud/plugin/DefaultSignatureFactory.java:24-46 | after registering, the client's session signatures go to the new factory exactly when session signing was asked for with a factory |
| SignatureRegistry.ConversationSignatureAfterRegister | android/src/main/java/cn/leancloud/plugin/DefaultSignatureFactory.java:24-56 | the conversation lookup follows the conversation flag alone |
| SignatureRegistry.RegisterLeavesOthers | android/src/main/java/cn/leancloud/plugin/DefaultSignatureFactory.java:24-37 | registering one client changes no other client's lookups |
| SignatureRegistry.ReRegisterOverwrites | android/src/main/java/cn/leancloud/plugin/DefaultSignatureFactory.java:24-37 | a second registration of the same client replaces the first entirely |
| SignatureRegistry.ConversationLookupByClient | android/src/main/java/cn/leancloud/plugin/DefaultSignatureFactory.java:48-56 | the conversation id does not affect whether, or to which factory, the request is delegated |
| SignatureRegistry.DefaultSignatureFactory.constructor | android/src/main/java/cn/leancloud/plugin/DefaultSignatureFactory.java:18-19 | both maps start empty |
| SignatureRegistry.DefaultSignatureFactory.RegisterSignedClient | android/src/main/java/cn/leancloud/plugin/DefaultSignatureFactory.java:24-37 | the registry afterwards is the registration applied to the old registry |
| SignatureRegistry.DefaultSignatureFactory.CreateSignature | android/src/main/java/cn/leancloud/plugin/DefaultSignatureFactory.java:39-46 | null without a session entry for the peer; otherwise delegated to its factory with the peer and watch ids |
| SignatureRegistry.DefaultSignatureFactory.CreateConversationSignature | android/src/main/java/cn/leancloud/plugin/DefaultSignatureFactory.java:48-56 | null without a conversation entry for the client; otherwise delegated with all four arguments |
| SignatureRegistry.DefaultSignatureFactory.CreateBlacklistSignature | android/src/main/java/cn/leancloud/plugin/DefaultSignatureFactory.java:58-61 | always null |
| Dispatcher.Dispatch | android/src/main/java/cn/leancloud/plugin/LeancloudPlugin.java:222-235 | getPlatformVersion answers whatever the arguments; otherwise null arguments get the invalid-client error, arguments that are not a map raise, and a map is routed by Route |
| Dispatcher.Route | android/src/main/java/cn/leancloud/plugin/LeancloudPlugin.java:222-235 | getPlatformVersion answers "Android " plus the release; any engine call has a non-empty string client id and acts for that client |
| Dispatcher.RouteForClient | android/src/main/java/cn/leancloud/plugin/LeancloudPlugin.java:237-378 | every engine call it selects acts for the client id it was given |
| Dispatcher.SignFlag | android/src/main/java/cn/leancloud/plugin/LeancloudPlugin.java:240-254 | false unless the flag map holds the key; then the unboxed value |
| Dispatcher.PageLimit | android/src/main/java/cn/leancloud/plugin/LeancloudPlugin.java:568-570 | the limit is never 0, and a non-zero limit is kept |
| Dispatcher.AttributeEdits | android/src/main/java/cn/leancloud/plugin/LeancloudPlugin.java:407-431 | one edit per key of the data: a removal exactly for a map whose "__op" is "Delete" in any case, otherwise a set to the value |
| Dispatcher.DeleteMarkerSpellings | android/src/main/java/cn/leancloud/plugin/LeancloudPlugin.java:211-219 | IsDeleteOperation accepts a map whose "__op" is "Delete" in any case, and rejects a bare string, a null "__op", another key and another word |
| Dispatcher.CollectAttributeEdits | android/src/main/java/cn/leancloud/plugin/LeancloudPlugin.java:412-420 | the loop over the data builds exactly AttributeEdits of it |
| Dispatcher.MissingClientIdRefused | android/src/main/java/cn/leancloud/plugin/LeancloudPlugin.java:230-235 | except for getPlatformVersion, a missing, null or empty client id is answered with the invalid-client error |
| Dispatcher.NonStringClientIdRaises | android/src/main/java/cn/leancloud/plugin/LeancloudPlugin.java:230-231 | except for getPlatformVersion, a client id that is neither null nor a string raises |
| Dispatcher.PlatformVersionNeedsNoClient | android/src/main/java/cn/leancloud/plugin/LeancloudPlugin.java:225-228 | getPlatformVersion answers whatever the arguments |
| Dispatcher.OpenClientFlags | android/src/main/java/cn/leancloud/plugin/LeancloudPlugin.java:237-276 | openClient passes the tag only when non-empty, the reconnect flag, and each signing flag only when present in "signRegistry" |
| Dispatcher.OpenClientBadFlagRaises | android/src/main/java/cn/leancloud/plugin/LeancloudPlugin.java:240-256 | a non-boolean session flag raises; with the session flag absent or boolean, a non-boolean conversation flag raises; both before the registry is touched |
| Dispatcher.CreateConversationRouting | android/src/main/java/cn/leancloud/plugin/LeancloudPlugin.java:294-334 | always a create; conv_type 4 creates a temporary one with the ttl, 0 a unique one, 2 a transient one, any other value a common one; members, name and attributes are passed as given |
| Dispatcher.QueryConversationMode | android/src/main/java/cn/leancloud/plugin/LeancloudPlugin.java:336-365 | temporary conversations are looked up exactly when "tempConvIds" is a non-empty list; otherwise the direct query gets where, sort, skip, limit and flag as given |
| Dispatcher.GetConversationAlwaysSucceeds | android/src/main/java/cn/leancloud/plugin/LeancloudPlugin.java:367-372 | getConversation answers at once with success, the conversation wrapped or an empty map |
| Dispatcher.UnresolvedConversationRefused | android/src/main/java/cn/leancloud/plugin/LeancloudPlugin.java:374-378 | every conversation-scoped method, known or not, is refused with the invalid-conversation error when the conversation does not resolve |
| Dispatcher.EngineCallsNeedConversation | android/src/main/java/cn/leancloud/plugin/LeancloudPlugin.java:367-378 | a conversation operation reaches the engine only for a resolved conversation, with the id given |
| Dispatcher.UpdateDataRule | android/src/main/java/cn/leancloud/plugin/LeancloudPlugin.java:407-431 | missing, null or empty data is refused with the invalid-parameter error; otherwise the update applies the attribute edits of the data |
| Dispatcher.MemberUpdateRouting | android/src/main/java/cn/leancloud/plugin/LeancloudPlugin.java:432-551 | an empty member list is refused first; then the operation, ignoring case, picks add/remove, block/unblock or mute/unmute, and any other operation is not implemented |
| Dispatcher.MuteToggleRouting | android/src/main/java/cn/leancloud/plugin/LeancloudPlugin.java:380-406 | "mute" and "unmute" in any case select mute and unmute; anything else is not implemented |
| Dispatcher.MemberPageLimit | android/src/main/java/cn/leancloud/plugin/LeancloudPlugin.java:552-591 | the blocked and muted queries use the limit given, with 0 replaced by 50, and the "next" cursor |
| Dispatcher.MessageQueryMode | android/src/main/java/cn/leancloud/plugin/LeancloudPlugin.java:617-659 | a non-zero type queries by type from the start bound's id and timestamp; type 0 queries the interval between the parsed start and end bounds, old to new only for direction 2; the limit defaults to 50 |
| Dispatcher.ReadMessageAnswersAtOnce | android/src/main/java/cn/leancloud/plugin/LeancloudPlugin.java:660-662 | readMessage marks the conversation read and answers an empty success at once |
| Dispatcher.FileSourcePrecedence | android/src/main/java/cn/leancloud/plugin/LeancloudPlugin.java:671-717 | a file's bytes win over its path and the path over its url; empty strings do not count; a given name is kept |
| Dispatcher.TransientOption | android/src/main/java/cn/leancloud/plugin/LeancloudPlugin.java:718-730 | with a "transient" key an option always exists, transient set exactly for a boolean value; without it the parsed option is unchanged |
| Dispatcher.SendMessageRouting | android/src/main/java/cn/leancloud/plugin/LeancloudPlugin.java:663-743 | sendMessage without a message map raises; with one it sends with the parsed options |
| Dispatcher.PatchMessageRouting | android/src/main/java/cn/leancloud/plugin/LeancloudPlugin.java:744-821 | "recall" recalls the old message; anything else updates the old message to the new one |
| Replies.Answer | android/src/main/java/cn/leancloud/plugin/LeancloudPlugin.java:264-273 | a failure is answered with the exception envelope, a success with the shaped result |
| Replies.SuccessAndErrorDistinct | android/src/main/java/cn/leancloud/plugin/Common.java:183-208 | an error answer never has "success" and a success never has "error", so they never coincide |
| Replies.ClientReply | android/src/main/java/cn/leancloud/plugin/LeancloudPlugin.java:264-292 | open and close answer exactly {"success": {"clientId": id}} or the error envelope |
| Replies.CreatedConversationTtl | android/src/main/java/cn/leancloud/plugin/LeancloudPlugin.java:300-317 | the created conversation reports the requested ttl exactly for a temporary conversation, and otherwise the dump's keys unchanged |
| Replies.WrapConversations | android/src/main/java/cn/leancloud/plugin/LeancloudPlugin.java:350-353 | the loop wraps every conversation, in order |
| Replies.ConversationListReply | android/src/main/java/cn/leancloud/plugin/LeancloudPlugin.java:343-355 | the query answers a list with one wrapped conversation per result, in order, or the error envelope |
| Replies.MuteReply | android/src/main/java/cn/leancloud/plugin/LeancloudPlugin.java:389-396 | the mute answer carries the update time; after "mute" the list names the client, after "unmute" it is empty, and otherwise there is no list |
| Replies.UpdatedConversationReply | android/src/main/java/cn/leancloud/plugin/LeancloudPlugin.java:421-429 | updateData answers with the conversation wrapped after the update |
| Replies.FailureEntryReadsBack | android/src/main/java/cn/leancloud/plugin/LeancloudPlugin.java:444-456 | a failure entry names the failed members and its code text parses back to the code |
| Replies.FailedList | android/src/main/java/cn/leancloud/plugin/LeancloudPlugin.java:444-456 | the loop makes one entry per failure, in order |
| Replies.PartialSuccessReply | android/src/main/java/cn/leancloud/plugin/LeancloudPlugin.java:434-461 | member updates answer the allowed ids, the members and the update time, and "failedPids" exactly when failures were reported |
| Replies.MemberPageReply | android/src/main/java/cn/leancloud/plugin/LeancloudPlugin.java:560-563 | a page of member ids and the next cursor |
| Replies.ReceiptReply | android/src/main/java/cn/leancloud/plugin/LeancloudPlugin.java:599-602 | the read and delivered watermarks as longs |
| Replies.ReceiptKeysDistinct | android/src/main/java/cn/leancloud/plugin/LeancloudPlugin.java:599-602 | the two watermarks are reported under different keys, with their own values |
| Replies.MemberCountReply | android/src/main/java/cn/leancloud/plugin/LeancloudPlugin.java:606-616 | the count as an int; a null count raises when unboxed |
| Replies.WrapMessages | android/src/main/java/cn/leancloud/plugin/LeancloudPlugin.java:632-635 | the loop wraps every message, in order |
| Replies.MessageListReply | android/src/main/java/cn/leancloud/plugin/LeancloudPlugin.java:627-639 | the query answers exactly the returned messages, wrapped, in order |
| Replies.MessageReply | android/src/main/java/cn/leancloud/plugin/LeancloudPlugin.java:731-742 | a sent or patched message answers {"success": its dump}, an empty map for a null message |
| Plugin.MethodChannel.constructor | android/src/main/java/cn/leancloud/plugin/LeancloudPlugin.java:836-839 | a new channel has sent nothing |
| Plugin.MethodChannel.InvokeMethod | android/src/main/java/cn/leancloud/plugin/LeancloudPlugin.java:836-839 | one more push with the method and payload |
| Plugin.SignData | android/src/main/java/cn/leancloud/plugin/LeancloudPlugin.java:107-110 | the "sign" map is found exactly when the result is a map whose "sign" is a map |
| Plugin.FillFields | android/src/main/java/cn/leancloud/plugin/LeancloudPlugin.java:107-120 | nothing is set without a sign map; the fill raises exactly when a field has the wrong type; otherwise the fields are the map's |
| Plugin.FillResult2Signature | android/src/main/java/cn/leancloud/plugin/LeancloudPlugin.java:107-120 | raises exactly when a cast fails, leaving the signature as it was; otherwise sets exactly the map's fields |
| Plugin.PromptedFields | android/src/main/java/cn/leancloud/plugin/LeancloudPlugin.java:123-157 | an error, not-implemented or missing reply leaves the signature unfilled |
| Plugin.PromptedFieldsFromSignMap | android/src/main/java/cn/leancloud/plugin/LeancloudPlugin.java:107-157 | a prompted signature is filled only from a success with a sign map, and then with exactly its fields |
| Plugin.IntegerTimestampLeavesUnfilled | android/src/main/java/cn/leancloud/plugin/LeancloudPlugin.java:113 | a timestamp sent as an Integer makes the fill raise, so the signature stays unfilled |
| Plugin.SessionPromptParams | android/src/main/java/cn/leancloud/plugin/LeancloudPlugin.java:124-125 | the session prompt carries exactly the client id |
| Plugin.ConversationPromptParams | android/src/main/java/cn/leancloud/plugin/LeancloudPlugin.java:162-168 | the conversation prompt carries client id, target ids and action, and the conversation id exactly when it is non-empty |
| Plugin.PromptSessionSignature | android/src/main/java/cn/leancloud/plugin/LeancloudPlugin.java:123-157 | one "onSignSessionOpen" push, and a fresh signature with the fields the reply gives |
| Plugin.PromptConversationSignature | android/src/main/java/cn/leancloud/plugin/LeancloudPlugin.java:160-201 | one "onSignConversation" push, and a fresh signature with the fields the reply gives |
| Plugin.FactoryFor | android/src/main/java/cn/leancloud/plugin/LeancloudPlugin.java:255-256 | a prompting factory is registered exactly when either flag is set |
| Plugin.OfflinePayload | android/src/main/java/cn/leancloud/plugin/LeancloudPlugin.java:868-874 | the wrapped client plus "error": {"code": code} |
| Plugin.LeancloudPlugin.constructor | android/src/main/java/cn/leancloud/plugin/LeancloudPlugin.java:836-839 | the plugin keeps the registry and channel given |
| Plugin.LeancloudPlugin.OnMethodCall | android/src/main/java/cn/leancloud/plugin/LeancloudPlugin.java:222-829 | the outcome is the dispatch of the raw arguments; an openClient that reaches the engine registers its flags and factory, and any other call leaves the registry unchanged |
| Plugin.LeancloudPlugin.SessionSignatureFor | android/src/main/java/cn/leancloud/plugin/DefaultSignatureFactory.java:39-46 | without a session entry nothing is pushed and the result is null; with one the host is prompted |
| Plugin.LeancloudPlugin.ConversationSignatureFor | android/src/main/java/cn/leancloud/plugin/DefaultSignatureFactory.java:48-56 | without a conversation entry nothing is pushed and the result is null; with one the host is prompted |
| Plugin.LeancloudPlugin.Notify | android/src/main/java/cn/leancloud/plugin/LeancloudPlugin.java:836-839 | exactly one push with the method and payload |
| Plugin.LeancloudPlugin.OnDisconnected | android/src/main/java/cn/leancloud/plugin/LeancloudPlugin.java:850-852 | pushes "onSessionDisconnect" with the wrapped client |
| Plugin.LeancloudPlugin.OnResumed | android/src/main/java/cn/leancloud/plugin/LeancloudPlugin.java:859-861 | pushes "onSessionResume" with the wrapped client |
| Plugin.LeancloudPlugin.OnOffline | android/src/main/java/cn/leancloud/plugin/LeancloudPlugin.java:868-874 | pushes "onSessionClose" with the offline payload |
| Plugin.UnsignedOpenStopsPrompts | android/src/main/java/cn/leancloud/plugin/LeancloudPlugin.java:255-256 | an open without signing flags removes the client from both maps, so no prompt follows |
| Plugin.SessionOnlySigning | android/src/main/java/cn/leancloud/plugin/LeancloudPlugin.java:255-256 | session signing alone prompts for sessions and not for conversation operations |
| ConversationEvents.ChangeName | android/src/main/java/cn/leancloud/plugin/DefaultConversationEventHandler.java:20-33 | the op names of the six kinds of change |
| ConversationEvents.OpName | android/src/main/java/cn/leancloud/plugin/DefaultConversationEventHandler.java:20-33 | the bare name for the client's own event, "members-" plus the name for others' |
| ConversationEvents.ChangeNameInjective | android/src/main/java/cn/leancloud/plugin/DefaultConversationEventHandler.java:20-33 | different changes have different names |
| ConversationEvents.OpNameDistinguishes | android/src/main/java/cn/leancloud/plugin/DefaultConversationEventHandler.java:20-33 | the twelve op names are pairwise different |
| ConversationEvents.ChangedMembers | android/src/main/java/cn/leancloud/plugin/DefaultConversationEventHandler.java:51-139 | "m" is present for others' events and for kicked and invited, where it names the client itself |
| ConversationEvents.MemberPayload | android/src/main/java/cn/leancloud/plugin/DefaultConversationEventHandler.java:51-310 | the exact keys and values of a membership push |
| ConversationEvents.OwnEventMembers | android/src/main/java/cn/leancloud/plugin/DefaultConversationEventHandler.java:101-244 | kicked and invited name the client as the changed member; the client's own mute and block pushes have no "m" |
| ConversationEvents.UnreadPayload | android/src/main/java/cn/leancloud/plugin/DefaultConversationEventHandler.java:317-330 | the count, the mention flag and, when present, the last message |
| ConversationEvents.WatermarkPayload | android/src/main/java/cn/leancloud/plugin/DefaultConversationEventHandler.java:335-358 | the delivered or the read watermark under its own key, as a long |
| ConversationEvents.WatermarksDifferOnlyInKey | android/src/main/java/cn/leancloud/plugin/DefaultConversationEventHandler.java:335-358 | the two watermark pushes agree on everything but the timestamp key |
| ConversationEvents.PatchPayload | android/src/main/java/cn/leancloud/plugin/DefaultConversationEventHandler.java:366-394 | the wrapped message, and recall=true only for a recall |
| ConversationEvents.RecallAddsFlagOnly | android/src/main/java/cn/leancloud/plugin/DefaultConversationEventHandler.java:366-394 | a recall push is the update push plus recall=true |
| ConversationEvents.InfoPayload | android/src/main/java/cn/leancloud/plugin/DefaultConversationEventHandler.java:418-431 | the operator, the changed attributes, the wrapped conversation and the time |
| ConversationEvents.DefaultConversationEventHandler.constructor | android/src/main/java/cn/leancloud/plugin/DefaultConversationEventHandler.java:37-39 | the handler keeps its listener |
| ConversationEvents.DefaultConversationEventHandler.NotifyMembers | android/src/main/java/cn/leancloud/plugin/DefaultConversationEventHandler.java:51-310 | with a listener, exactly one "onConversationMembersUpdate" push with the membership payload |
| ConversationEvents.DefaultConversationEventHandler.OnMemberLeft | android/src/main/java/cn/leancloud/plugin/DefaultConversationEventHandler.java:51-65 | pushes "members-left" with the members and the operator |
| ConversationEvents.DefaultConversationEventHandler.OnMemberJoined | android/src/main/java/cn/leancloud/plugin/DefaultConversationEventHandler.java:77-91 | pushes "members-joined" |
| ConversationEvents.DefaultConversationEventHandler.OnKicked | android/src/main/java/cn/leancloud/plugin/DefaultConversationEventHandler.java:101-115 | pushes "left" naming the client |
| ConversationEvents.DefaultConversationEventHandler.OnInvited | android/src/main/java/cn/leancloud/plugin/DefaultConversationEventHandler.java:125-139 | pushes "joined" naming the client |
| ConversationEvents.DefaultConversationEventHandler.OnMuted | android/src/main/java/cn/leancloud/plugin/DefaultConversationEventHandler.java:147-159 | pushes "muted" |
| ConversationEvents.DefaultConversationEventHandler.OnUnmuted | android/src/main/java/cn/leancloud/plugin/DefaultConversationEventHandler.java:167-179 | pushes "unmuted" |
| ConversationEvents.DefaultConversationEventHandler.OnMemberMuted | android/src/main/java/cn/leancloud/plugin/DefaultConversationEventHandler.java:188-201 | pushes "members-muted" |
| ConversationEvents.DefaultConversationEventHandler.OnMemberUnmuted | android/src/main/java/cn/leancloud/plugin/DefaultConversationEventHandler.java:210-224 | pushes "members-unmuted" |
| ConversationEvents.DefaultConversationEventHandler.OnBlocked | android/src/main/java/cn/leancloud/plugin/DefaultConversationEventHandler.java:232-244 | pushes "blocked" |
| ConversationEvents.DefaultConversationEventHandler.OnUnblocked | android/src/main/java/cn/leancloud/plugin/DefaultConversationEventHandler.java:252-264 | pushes "unblocked" |
| ConversationEvents.DefaultConversationEventHandler.OnMemberBlocked | android/src/main/java/cn/leancloud/plugin/DefaultConversationEventHandler.java:273-287 | pushes "members-blocked" |
| ConversationEvents.DefaultConversationEventHandler.OnMemberUnblocked | android/src/main/java/cn/leancloud/plugin/DefaultConversationEventHandler.java:296-310 | pushes "members-unblocked" |
| ConversationEvents.DefaultConversationEventHandler.OnUnreadMessagesCountUpdated | android/src/main/java/cn/leancloud/plugin/DefaultConversationEventHandler.java:317-330 | pushes "onUnreadMessageCountUpdate" with the unread payload |
| ConversationEvents.DefaultConversationEventHandler.OnLastDeliveredAtUpdated | android/src/main/java/cn/leancloud/plugin/DefaultConversationEventHandler.java:335-344 | pushes "onLastReceiptTimestampUpdate" with the delivered watermark |
| ConversationEvents.DefaultConversationEventHandler.OnLastReadAtUpdated | android/src/main/java/cn/leancloud/plugin/DefaultConversationEventHandler.java:349-358 | pushes "onLastReceiptTimestampUpdate" with the read watermark |
| ConversationEvents.DefaultConversationEventHandler.OnMessageUpdated | android/src/main/java/cn/leancloud/plugin/DefaultConversationEventHandler.java:366-376 | a null message raises and pushes nothing; otherwise, with a listener, pushes "onMessagePatch" without recall |
| ConversationEvents.DefaultConversationEventHandler.OnMessageRecalled | android/src/main/java/cn/leancloud/plugin/DefaultConversationEventHandler.java:384-394 | a null message raises and pushes nothing; otherwise, with a listener, pushes "onMessagePatch" with recall=true |
| ConversationEvents.DefaultConversationEventHandler.OnMemberInfoUpdated | android/src/main/java/cn/leancloud/plugin/DefaultConversationEventHandler.java:405-408 | pushes nothing |
| ConversationEvents.DefaultConversationEventHandler.OnInfoChanged | android/src/main/java/cn/leancloud/plugin/DefaultConversationEventHandler.java:418-431 | pushes "onConversationDataUpdate" with the info payload |
| MessageEvents.ReceivedPayload | android/src/main/java/cn/leancloud/plugin/DefaultMessageHandler.java:26-34 | exactly the client, the conversation and the wrapped message |
| MessageEvents.ReceiptPayload | android/src/main/java/cn/leancloud/plugin/DefaultMessageHandler.java:44-54 | the message id, the delivery time as a long and read=false |
| MessageEvents.ReceiptNeverRead | android/src/main/java/cn/leancloud/plugin/DefaultMessageHandler.java:44-54 | a receipt push never reports a read and never carries the message |
| MessageEvents.DefaultMessageHandler.constructor | android/src/main/java/cn/leancloud/plugin/DefaultMessageHandler.java:14-16 | the handler keeps its listener |
| MessageEvents.DefaultMessageHandler.OnMessage | android/src/main/java/cn/leancloud/plugin/DefaultMessageHandler.java:26-34 | with a listener, one "onMessageReceive" push |
| MessageEvents.DefaultMessageHandler.OnMessageReceipt | android/src/main/java/cn/leancloud/plugin/DefaultMessageHandler.java:44-54 | with a listener, one "onMessageReceipt" push |
| ClientEvents.DefaultClientEventHandler.constructor | android/src/main/java/cn/leancloud/plugin/DefaultClientEventHandler.java:8-10 | the handler keeps its listener |
| ClientEvents.DefaultClientEventHandler.OnConnectionPaused | android/src/main/java/cn/leancloud/plugin/DefaultClientEventHandler.java:19-23 | with a listener, "onSessionDisconnect" with the wrapped client |
| ClientEvents.DefaultClientEventHandler.OnConnectionResume | android/src/main/java/cn/leancloud/plugin/DefaultClientEventHandler.java:32-36 | with a listener, "onSessionResume" with the wrapped client |
| ClientEvents.DefaultClientEventHandler.OnClientOffline | android/src/main/java/cn/leancloud/plugin/DefaultClientEventHandler.java:46-50 | with a listener, "onSessionClose" with the client and the code |
| ClientEvents.OfflineCarriesCode | android/src/main/java/cn/leancloud/plugin/LeancloudPlugin.java:868-874 | the offline push carries the client id and the code as an int, unlike an error envelope's text code |
| SwiftPlugin.ErrorEnvelope | ios/Classes/SwiftLeancloudPlugin.swift:98-107 | {"error": {"code", plus "message" and "details" exactly when given}} |
| SwiftPlugin.ClientNotFound | ios/Classes/SwiftLeancloudPlugin.swift:92-96 | code 9973 with "client not found." |
| SwiftPlugin.MapErrorCodes | ios/Classes/SwiftLeancloudPlugin.swift:109-127 | an LCError keeps its code and has details exactly with user info, the details being that user info; 9977 takes the underlying error's text, other codes the reason; any other error is 9977 with its description |
| SwiftPlugin.ErrorRepliesAreNotSuccess | ios/Classes/SwiftLeancloudPlugin.swift:92-127 | no error reply equals the empty success reply |
| SwiftPlugin.ForceFlag | ios/Classes/SwiftLeancloudPlugin.swift:41 | "force" is true when absent or not a Bool, and the Bool otherwise |
| SwiftPlugin.AfterOpen | ios/Classes/SwiftLeancloudPlugin.swift:26-39 | the map is unchanged for a known client or a failed creation; otherwise it gains the new delegator |
| SwiftPlugin.AfterClose | ios/Classes/SwiftLeancloudPlugin.swift:55-63 | a failed close leaves the map; a successful one removes exactly that client and keeps every other delegator |
| SwiftPlugin.OpenKeepsDelegators | ios/Classes/SwiftLeancloudPlugin.swift:26-39 | opening never drops or replaces a delegator |
| SwiftPlugin.OpenThenCloseRestores | ios/Classes/SwiftLeancloudPlugin.swift:26-63 | opening a new client and closing it successfully restores the map |
| SwiftPlugin.CompletionReply | ios/Classes/SwiftLeancloudPlugin.swift:42-49 | the empty map on success, the mapped error otherwise |
| SwiftPlugin.SwiftLeancloudPlugin.constructor | ios/Classes/SwiftLeancloudPlugin.swift:24 | the delegator map starts empty |
| SwiftPlugin.SwiftLeancloudPlugin.Handle | ios/Classes/SwiftLeancloudPlugin.swift:12-22 | non-map arguments or any other method trap; openClient and closeClient behave as below |
| SwiftPlugin.SwiftLeancloudPlugin.OpenClient | ios/Classes/SwiftLeancloudPlugin.swift:26-50 | a non-string client id traps; a known client's delegator is reused; a new one is stored, or a creation error answered at once; the map afterwards is AfterOpen |
| SwiftPlugin.SwiftLeancloudPlugin.CloseClient | ios/Classes/SwiftLeancloudPlugin.swift:52-67 | a non-string client id traps; an unknown one gets "client not found."; a known one starts the close |
| SwiftPlugin.SwiftLeancloudPlugin.CloseCompleted | ios/Classes/SwiftLeancloudPlugin.swift:55-63 | the map afterwards is AfterClose and the reply is the completion reply |

## Left out

- Threads and timing: the main-thread handler, the count-down latch and its 30-second wait are not modelled. A prompt the host never answers is the `NoReply` outcome, and it leaves the signature unfilled, as the timeout does.
- The engine SDK is a parameter: its network calls, object dumps, the conversation lookup and the exception codes `INVALID_PARAMETER` are not modelled. Its answers arrive as `Completion` values.
- The `ConcurrentHashMap`s of the registry are plain maps, and there is no concurrency.
- Floating point: the IEEE-754 image of a Float, Double or normalised BigDecimal is an opaque 8-byte value.
- Arguments arrive as a `Value`. Flutter's `MethodCall` also accepts a `JSONObject` as arguments; that form is not modelled.
- The engine's client and conversation are never null in the model. The source reads them with no null check: the conversation id in the log lines at DefaultConversationEventHandler.java:53, 79, 102-103, 126-127, 318, 336 and 350, and both ids in every payload built when a listener is set.
- ConversationEvents.DefaultConversationEventHandler.OnInfoChanged takes the changed attributes as a map, never null. The log line at DefaultConversationEventHandler.java:420 calls `attr.toJSONString()`, which would raise for null.
- ConversationEvents.DefaultConversationEventHandler.OnMemberInfoUpdated does not take the member info that DefaultConversationEventHandler.java:407 logs; that line would raise for a null one.
- A null member list is modelled, and its push carries "m": null. The log lines at DefaultConversationEventHandler.java:189, 212, 275 and 298 hand the list to the SDK's `StringUtil.join`, which is not part of this model, so whether that raises for null is not modelled.
- MessageEvents.DefaultMessageHandler.OnMessageReceipt takes the message's id and delivery time, not the message. A null message, which DefaultMessageHandler.java:49 would dereference when a listener is set, cannot be given.
- The clock: the update time of a push is a parameter.
- Random file names: a file without a name gets one from a parameter.
- Channel registration, the plugin's attach and detach callbacks, logging and `notifyWithResult` are not modelled. `notifyWithResult` is used only by the signature prompts, which are modelled.
- The interfaces `IMEventNotification` and `ClientStatusListener` are stated through the classes that implement them.
- The empty iOS delegator callbacks are not modelled.
- Flutter's `StandardMessageCodec` is not part of this repository. Its little-endian layouts for ints, longs, sizes and alignment are written out in the model, and every value that is not a Number is left to a `base` function parameter.
- `EqualsIgnoreCase` folds ASCII letters only, while Java folds all of Unicode.
- SwiftPlugin.ForceFlag: an NSNumber 0 or 1 bridged to Bool by Swift is not modelled; only a Bool counts.
- SwiftPlugin.MapError has no contract of its own; `SwiftPlugin.MapErrorCodes` states it.
- Common.WrapConversation requires that the casts at Common.java:288-289 succeed. When the dump has "conv_type" and "uniqueId" but no "unique", the type must be an Integer, and for type 1 the unique id must be a String or null. Every other dump is admitted unchanged (`Common.UncastDumpsPassThrough`). The engine's dump guarantees this, so the raise a failing cast would cause is not modelled.
- Replies.CreatedConversation and Replies.CreatedConversationReply have no contract of their own; `Replies.CreatedConversationTtl` states them.
- SwiftPlugin.SwiftLeancloudPlugin.constructor: the delegator map is a `static var` at SwiftLeancloudPlugin.swift:24, one dictionary shared by every plugin instance in the process. The model makes it a field of a single plugin object, so two plugin instances (two Flutter engines) seeing each other's delegators is not captured.
- On iOS, a failed open leaves the new delegator stored. This is what the code does.
- Integer widths: Dafny integers are unbounded. The codec's round trips are stated for values in the signed 32- or 64-bit range.
