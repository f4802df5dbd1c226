# QSocket client core, modelled in Dafny

This project models the protocol logic of the QSocket Android/Java client:

- **`WebSocketConnection`** is the connection state machine. Its states are DISCONNECTED, CONNECTING, CONNECTED and DISCONNECTING.
  - It keeps a listener registry per state, plus the wildcard `ALL`.
  - It guards `connect`, `disconnect` and `sendMessage`.
  - It dispatches inbound frames on their `eventType`:
    - `"101"`: the connection is established.
    - `"102"`: a server error.
    - Anything else goes to the channel manager.
  - It fans errors out to every listener.
  - Its inner `ActivityTimer` runs the ping/pong heartbeat.
- **`ChannelManager`** is the registry of channels by name.
  - It validates and registers subscriptions.
  - It queues subscribe attempts, which act only when the connection is CONNECTED.
  - It re-subscribes every channel on each transition into CONNECTED.
  - It unsubscribes channels and routes channel-addressed frames.
- **`ChannelImpl`** is one channel. It holds its subscription state and its event-name → listener-set map.
  - It validates `bind` and `unbind`.
  - The acknowledgements `"103"` and `"104"` drive its state.
  - It writes the JSON `subscribe`/`unsubscribe` commands.
- **`ConnectionStateChange`** is the immutable transition record, with `equals` and `hashCode`.
- **`QSocketOptions`** holds the client configuration:
  - setters with validation;
  - `buildUrl` (`scheme://host:port`);
  - the authorization header.
- **`QSocket`** is the facade that applications call.

## How the model is built

- **Event thread.** Every anonymous `Runnable` the client queues on its single event thread becomes a `Task` value. The factory (`Factory` in `factory.dfy`) holds the FIFO `tasks`.
  - A public operation is modelled as a method that appends tasks.
  - Each `Run...` method is the body of one task, run when the event thread reaches it. `QSocket.RunNextTask` runs the oldest task.
  - Tasks that act on a channel hold the channel object. They read its listener fields when they run, as the Java closures do.
- **Timer service.** It is a list of `TimerEntry` values in `Factory.timers`, and a `Future` is an index into that list. `Pending` gives the waiting tasks of each kind.
- **Application callbacks.** They are appended to `Factory.delivered`.
- **Transport.** The websocket client is a flag `hasTransport` (the Java `underlyingConnection != null`) plus a log `wire` of the calls made on it. Failures the model cannot predict are parameters of the step that hits them:
  - `clientCreated` is false for an SSL failure while the client is created;
  - `sendSucceeds` is false when `send` throws.
- **Listener sets.** Java iterates over hash sets in an order it does not define. Each loop over such a set returns a ghost `notified` or `order` sequence. It is proved to list every element of the set exactly once (`Enumerates`), and the queued tasks are stated in that order.
- **Java values.**
  - A Java `null` is `Option.None`.
  - A thrown exception is a `Result`/`Outcome` failure that carries its message.
  - `int` and `long` are the `int32`/`int64` newtypes.
- **JSON.** The outbound JSON is the text Gson writes: HTML-safe escaping, keys in insertion order. A reader for that text (`Json.ParseObject2`) shows that nothing is lost in encoding.

Modules:

- `Protocol`, `Json`, `ConnectionStateChanges` and `Options` are named modules.
- The classes that refer to one another through the factory live in the default module, one file each: `Factory`, `ChannelImpl`, `ChannelManager`, `ActivityTimer`, `WebSocketConnection` and `QSocket`.

Two behaviours of the code are worth knowing:

- **Pong timeout.** A pong timeout calls `disconnect()`. That only queues a task, and the task acts only when the connection is CONNECTED. The timeout does not force DISCONNECTED by itself (`WebSocketConnection.java:109-119,355-361`).
- **`subscribeTo` exceptions.** The Javadoc of `subscribe` says that it throws `IllegalArgumentException` for a null name, a channel already subscribed, a null event name, or event names without a listener (`QSocket.java:191-198`). Only the null name does. `subscribeTo` catches every other `IllegalArgumentException` and only logs it (`ChannelManager.java:58-60`), so `subscribe` returns the unregistered channel. The model follows the code. `subscribeTo` catches only `IllegalArgumentException`. An `IllegalStateException` from `bind` on an UNSUBSCRIBED channel reaches the caller (`ChannelManager.Thrown`). Through `QSocket.subscribe` this cannot happen, because the channel there is always new (`QSocket.Subscribe` proves the case away).

## Model

| member | source | states |
|---|---|---|
| Protocol.StateNameInjective | src/main/java/com/websocket/client/connection/websocket/WebSocketConnection.java:148 | two states print as the same name inside error messages iff they are the same state |
| ConnectionStateChanges.NewStateChange | src/main/java/com/websocket/client/connection/ConnectionStateChange.java:33-43 | construction succeeds iff the two states differ; on success the getters give back exactly the two arguments; otherwise it is an IllegalArgumentException |
| ConnectionStateChanges.Equals | src/main/java/com/websocket/client/connection/ConnectionStateChange.java:70-78 | true iff the other object is a state change with the same previous and the same current state |
| ConnectionStateChanges.AddInt32 | src/main/java/com/websocket/client/connection/ConnectionStateChange.java:66-68 | Java `int` addition: the exact sum, shifted by 2^32 when it leaves the 32-bit range |
| ConnectionStateChanges.EqualsReflexive | src/main/java/com/websocket/client/connection/ConnectionStateChange.java:70-78 | every state change equals itself |
| ConnectionStateChanges.EqualsSymmetric | src/main/java/com/websocket/client/connection/ConnectionStateChange.java:70-78 | `a.equals(b)` and `b.equals(a)` agree |
| ConnectionStateChanges.EqualsRejectsNullAndOthers | src/main/java/com/websocket/client/connection/ConnectionStateChange.java:72-77 | equals is false for null and for an object of another class |
| ConnectionStateChanges.HashCode | src/main/java/com/websocket/client/connection/ConnectionStateChange.java:65-68 | the hash is the Java `int` sum of the two states' hash codes, wrapping modulo 2^32, and the same whichever state is added first |
| ConnectionStateChanges.EqualsImpliesSameHash | src/main/java/com/websocket/client/connection/ConnectionStateChange.java:65-78 | equal state changes have equal hash codes, for any hash codes of the enum constants |
| ConnectionStateChanges.ReverseTransitionsCollide | src/main/java/com/websocket/client/connection/ConnectionStateChange.java:65-68 | a transition and its reverse are both valid and not equal, yet they hash alike |
| Options.QSocketOptions.constructor | src/main/java/com/websocket/client/QSocketOptions.java:26-45 | the defaults: host 10.3.1.181, both ports 4444, unencrypted, timeouts 120000 and 30000, no proxy, token 1234567890 |
| Options.QSocketOptions.SetEncrypted | src/main/java/com/websocket/client/QSocketOptions.java:64-67 | stores the flag and returns the same object |
| Options.QSocketOptions.SetHost | src/main/java/com/websocket/client/QSocketOptions.java:79-82 | stores the host (a null host as the text "null" it formats to) and returns the same object |
| Options.QSocketOptions.SetWsPort | src/main/java/com/websocket/client/QSocketOptions.java:94-97 | stores the port and returns the same object |
| Options.QSocketOptions.SetWssPort | src/main/java/com/websocket/client/QSocketOptions.java:109-112 | stores the port and returns the same object |
| Options.QSocketOptions.SetCluster | src/main/java/com/websocket/client/QSocketOptions.java:114-119 | host becomes `ws-<cluster>.qsocket.com`, both ports go back to 4444, the same object is returned |
| Options.QSocketOptions.SetActivityTimeout | src/main/java/com/websocket/client/QSocketOptions.java:134-142 | succeeds iff the value is at least 1000 and then stores it; otherwise an IllegalArgumentException with the source's message and the old value kept |
| Options.QSocketOptions.SetPongTimeout | src/main/java/com/websocket/client/QSocketOptions.java:159-167 | succeeds iff the value is at least 1000 and then stores it; otherwise an IllegalArgumentException and the old value kept |
| Options.QSocketOptions.SetProxy | src/main/java/com/websocket/client/QSocketOptions.java:196-202 | succeeds iff the proxy is non-null and then stores it; otherwise an IllegalArgumentException and the old proxy kept |
| Options.QSocketOptions.SetAuthorizationToken | src/main/java/com/websocket/client/QSocketOptions.java:211-218 | succeeds iff the token is non-null and then stores it; otherwise an IllegalArgumentException and the old token kept |
| Options.QSocketOptions.BuildUrl | src/main/java/com/websocket/client/QSocketOptions.java:180-186 | the URL reads back as scheme `wss` exactly when encrypted, the whole host, and the port for that scheme |
| Options.QSocketOptions.GetUrlHeader | src/main/java/com/websocket/client/QSocketOptions.java:220-224 | a map with the single key `Authorization`, mapped to the token |
| Options.NatToString | src/main/java/com/websocket/client/QSocketOptions.java:183-184 | the decimal text of a number is a non-empty string of digits |
| Options.DigitsValueOfNatToString | src/main/java/com/websocket/client/QSocketOptions.java:183-184 | the digits `%s` prints for a non-negative number have that number as their value |
| Options.ParseIntOfIntToString | src/main/java/com/websocket/client/QSocketOptions.java:183-184 | the text `%s` prints for any int reads back as that int |
| Options.ParseUrlOfUrl | src/main/java/com/websocket/client/QSocketOptions.java:183-184 | `scheme://host:port` splits back into exactly its scheme, host and port, whatever colons the host holds |
| Json.EscapeChar | src/main/java/com/websocket/client/channel/impl/ChannelImpl.java:151 | a character is written as itself or as an escape that starts with a backslash; a quote or a backslash is always written as a backslash followed by itself |
| Json.ParseHex4OfHex4 | src/main/java/com/websocket/client/channel/impl/ChannelImpl.java:151 | the four hex digits of a `\u` escape read back as the code they encode |
| Json.ReadStepEscapeChar | src/main/java/com/websocket/client/channel/impl/ChannelImpl.java:151 | the escape written for a character reads back as that character, with the rest of the input untouched |
| Json.ReadStringOfEscape | src/main/java/com/websocket/client/channel/impl/ChannelImpl.java:151 | an escaped string followed by a closing quote reads back as the string and what follows |
| Json.ParseQuotedOfQuote | src/main/java/com/websocket/client/channel/impl/ChannelImpl.java:151 | a JSON string literal reads back as its string |
| Json.ParseMemberOfMember | src/main/java/com/websocket/client/channel/impl/ChannelImpl.java:151 | a `"key":"value"` entry reads back as its key and value |
| Json.ParseObject2OfObject2 | src/main/java/com/websocket/client/channel/impl/ChannelImpl.java:146-151 | the text of a two-entry object reads back as its two keys and values, in insertion order |
| Json.Object2Injective | src/main/java/com/websocket/client/channel/impl/ChannelImpl.java:146-151 | two-entry objects with different contents have different texts |
| ValidateArguments | src/main/java/com/websocket/client/channel/impl/ChannelImpl.java:222-241 | passes iff the event name and listener are non-null, the name lacks the `qsocket_internal:` prefix and the channel is not UNSUBSCRIBED; the failure is an IllegalStateException exactly when only the last check fails |
| BindListener | src/main/java/com/websocket/client/channel/impl/ChannelImpl.java:68-75 | afterwards the bound pairs are the old ones plus (event, listener); the event name becomes a key; no set is left empty |
| UnbindListener | src/main/java/com/websocket/client/channel/impl/ChannelImpl.java:83-91 | afterwards the bound pairs are the old ones minus (event, listener); the key stays iff its set is still non-empty; other keys are kept |
| BindIdempotent | src/main/java/com/websocket/client/channel/impl/ChannelImpl.java:64-76 | binding the same pair twice equals binding it once |
| UnbindUnbound | src/main/java/com/websocket/client/channel/impl/ChannelImpl.java:79-92 | unbinding a pair that is not bound leaves the map unchanged |
| UnbindAfterBind | src/main/java/com/websocket/client/channel/impl/ChannelImpl.java:64-92 | unbind undoes a bind of a pair that was not bound before |
| CompareStrings | src/main/java/com/websocket/client/channel/impl/ChannelImpl.java:204-206 | `String.compareTo` is zero iff the strings are equal |
| CompareAntisymmetric | src/main/java/com/websocket/client/channel/impl/ChannelImpl.java:204-206 | swapping the strings negates the comparison |
| CompareTransitive | src/main/java/com/websocket/client/channel/impl/ChannelImpl.java:204-206 | the order is transitive |
| PlainQuote | src/main/java/com/websocket/client/channel/impl/ChannelImpl.java:146-149 | the constant keys and values of the commands are written without escapes |
| SubscribeHead | src/main/java/com/websocket/client/channel/impl/ChannelImpl.java:144-152 | the fixed head plus the quoted name is Gson's text for `{command: subscribe, channel: name}` |
| UnsubscribeHead | src/main/java/com/websocket/client/channel/impl/ChannelImpl.java:154-162 | the fixed head plus the quoted name is Gson's text for `{command: unsubscribe, channel: name}` |
| ChannelImpl.constructor | src/main/java/com/websocket/client/channel/impl/ChannelImpl.java:46-54 | name and factory as given, state INITIAL, no listeners |
| ChannelImpl.NewChannel | src/main/java/com/websocket/client/channel/impl/ChannelImpl.java:46-54 | a null name is refused with an IllegalArgumentException; otherwise a new INITIAL channel with that name and no listeners |
| ChannelImpl.Bind | src/main/java/com/websocket/client/channel/impl/ChannelImpl.java:64-76 | the outcome is the validation's; the map is BindListener of the old one on success and unchanged on failure |
| ChannelImpl.AddListener | src/main/java/com/websocket/client/channel/impl/ChannelImpl.java:68-75 | the map afterwards is BindListener of the old map; no event name is left with an empty set |
| ChannelImpl.Unbind | src/main/java/com/websocket/client/channel/impl/ChannelImpl.java:79-92 | the outcome is the validation's; the map is UnbindListener of the old one on success and unchanged on failure |
| ChannelImpl.RemoveListener | src/main/java/com/websocket/client/channel/impl/ChannelImpl.java:83-91 | the map afterwards is UnbindListener of the old map, an emptied set being dropped, so no event name is left with an empty set |
| ChannelImpl.IsSubscribed | src/main/java/com/websocket/client/channel/impl/ChannelImpl.java:95-97 | true iff the state is SUBSCRIBED |
| ChannelImpl.ToSubscribeMessageParses | src/main/java/com/websocket/client/channel/impl/ChannelImpl.java:144-152 | the subscribe command is the object `{"command":"subscribe","channel":name}`, command first, and reads back as exactly that |
| ChannelImpl.ToUnsubscribeMessageParses | src/main/java/com/websocket/client/channel/impl/ChannelImpl.java:154-162 | the unsubscribe command is `{"command":"unsubscribe","channel":name}` and reads back as exactly that |
| ChannelImpl.CommandsIdentifyChannel | src/main/java/com/websocket/client/channel/impl/ChannelImpl.java:144-162 | two channels' commands coincide iff their names do; a subscribe command never equals an unsubscribe command |
| ChannelImpl.CompareTo | src/main/java/com/websocket/client/channel/impl/ChannelImpl.java:204-206 | zero iff the names are equal, and antisymmetric |
| ChannelImpl.UpdateTasks | src/main/java/com/websocket/client/channel/impl/ChannelImpl.java:169-183 | SUBSCRIBED queues one subscription-succeeded callback iff there is an event listener; UNSUBSCRIBED queues one unsubscribed callback iff there is an unsubscription listener; any other state queues nothing |
| ChannelImpl.MessageEffect | src/main/java/com/websocket/client/channel/impl/ChannelImpl.java:102-116 | "103" gives SUBSCRIBED and "104" gives UNSUBSCRIBED, each with updateState's callbacks; any other event keeps the state and queues one event callback carrying the whole message |
| ChannelImpl.MessageEffectOwnTasks | src/main/java/com/websocket/client/channel/impl/ChannelImpl.java:102-116 | every task a frame queues for a channel acts on that channel |
| ChannelImpl.UpdateState | src/main/java/com/websocket/client/channel/impl/ChannelImpl.java:165-184 | the state is set unconditionally and exactly UpdateTasks is queued |
| ChannelImpl.OnMessage | src/main/java/com/websocket/client/channel/impl/ChannelImpl.java:102-116 | the new state and the queued tasks are MessageEffect's |
| ChannelImpl.SetEventListener | src/main/java/com/websocket/client/channel/impl/ChannelImpl.java:189-191 | stores the listener |
| ChannelImpl.SetUnsubscribeEventListener | src/main/java/com/websocket/client/channel/impl/ChannelImpl.java:194-196 | stores the listener |
| ExtractDataFrom | src/main/java/com/websocket/client/channel/impl/ChannelImpl.java:216-220 | the data handed to the event listener is the whole message, unchanged |
| ChannelImpl.RunEventTask | src/main/java/com/websocket/client/channel/impl/ChannelImpl.java:111-116 | the event listener present when the task runs gets one `onEvent(name, event, data)`; none means no callback |
| ChannelImpl.RunSubscriptionSucceededTask | src/main/java/com/websocket/client/channel/impl/ChannelImpl.java:170-175 | the event listener present when the task runs gets one `onSubscriptionSucceeded(name)` |
| ChannelImpl.RunUnsubscribedTask | src/main/java/com/websocket/client/channel/impl/ChannelImpl.java:177-182 | the unsubscription listener present when the task runs gets one `onUnsubscribed(name)` |
| FirstFailure | src/main/java/com/websocket/client/channel/impl/ChannelManager.java:159-161 | every event name before the returned index passes validation, and the one at it (if any) fails |
| FirstFailureIs | src/main/java/com/websocket/client/channel/impl/ChannelManager.java:159-161 | an index before which all pass and at which one fails is FirstFailure |
| BindEachStep | src/main/java/com/websocket/client/channel/impl/ChannelManager.java:159-161 | binding one more name extends the map by one BindListener |
| BindEachBinds | src/main/java/com/websocket/client/channel/impl/ChannelManager.java:159-161 | binding a listener to a list of names binds it to exactly those names and leaves every other pair as it was |
| ChannelManager.constructor | src/main/java/com/websocket/client/channel/impl/ChannelManager.java:27-29 | an empty registry and no connection |
| ChannelManager.GetChannel | src/main/java/com/websocket/client/channel/impl/ChannelManager.java:31-37 | a channel is found iff the name is registered, and it carries that name |
| ChannelManager.SetConnection | src/main/java/com/websocket/client/channel/impl/ChannelManager.java:39-50 | a null connection is refused and nothing changes; otherwise the manager leaves the old connection's CONNECTED set and joins the new one's |
| ChannelManager.BindEvents | src/main/java/com/websocket/client/channel/impl/ChannelManager.java:159-161 | binds the names up to the first failing one, keeps those binds, and reports that failure (Pass iff none fails) |
| ChannelManager.ValidateArgumentsAndBindEvents | src/main/java/com/websocket/client/channel/impl/ChannelManager.java:148-165 | refuses a null or already registered channel; otherwise binds up to the first failing name and sets the event listener only if all pass; the registry and the queue are untouched |
| ChannelManager.SubscribeTo | src/main/java/com/websocket/client/channel/impl/ChannelManager.java:52-62 | registers the channel iff all checks pass: then the name maps to it, its listener is set and bound to every event name, and one subscribe attempt is queued; a rejected argument leaves registry, queue and event listener alone; a channel already registered keeps its listener map, and a new one keeps the binds made before the first failing name; only an IllegalStateException escapes |
| ChannelManager.UnsubscribeFrom | src/main/java/com/websocket/client/channel/impl/ChannelManager.java:64-78 | null is refused; otherwise the name leaves the registry at once; a registered channel gets the listener, and an unsubscribe task is queued iff the connection is CONNECTED now |
| ChannelManager.OnMessage | src/main/java/com/websocket/client/channel/impl/ChannelManager.java:81-94 | a frame reaches exactly the registered channel its `channel` field names, with that channel's MessageEffect; otherwise nothing happens |
| ChannelManager.OnConnectionStateChange | src/main/java/com/websocket/client/channel/impl/ChannelManager.java:99-107 | a change into CONNECTED queues exactly one subscribe attempt per registered channel; any other change queues nothing |
| ChannelManager.SubscribeAll | src/main/java/com/websocket/client/channel/impl/ChannelManager.java:103-105 | one subscribe task per channel of the set, each channel once |
| ChannelManager.SendOrQueueSubscribeMessage | src/main/java/com/websocket/client/channel/impl/ChannelManager.java:116-130 | queues one subscribe task for the channel |
| ChannelManager.SendUnsubscribeMessage | src/main/java/com/websocket/client/channel/impl/ChannelManager.java:132-140 | queues one unsubscribe task for the channel |
| ChannelManager.RunSubscribeTask | src/main/java/com/websocket/client/channel/impl/ChannelManager.java:121-128 | iff the connection is CONNECTED when the task runs: the subscribe command is queued for sending and the channel is SUBSCRIBE_SENT; otherwise nothing changes |
| ChannelManager.RunUnsubscribeTask | src/main/java/com/websocket/client/channel/impl/ChannelManager.java:135-138 | the unsubscribe command is queued for sending, the channel becomes UNSUBSCRIBED and its unsubscription callback (if a listener is set) follows |
| ActivityTimer.constructor | src/main/java/com/websocket/client/connection/websocket/WebSocketConnection.java:307-310 | the two timeouts as given, no timer held |
| ActivityTimer.CancelSlot | src/main/java/com/websocket/client/connection/websocket/WebSocketConnection.java:317-323 | the held task, if any, stops waiting and nothing else changes |
| ActivityTimer.Activity | src/main/java/com/websocket/client/connection/websocket/WebSocketConnection.java:316-332 | afterwards exactly one ping task is waiting, with the activity timeout, and no pong task |
| ActivityTimer.CancelTimeouts | src/main/java/com/websocket/client/connection/websocket/WebSocketConnection.java:337-344 | afterwards neither a ping nor a pong task is waiting |
| ActivityTimer.SchedulePongCheck | src/main/java/com/websocket/client/connection/websocket/WebSocketConnection.java:350-362 | afterwards exactly one pong task is waiting, with the pong timeout, and no ping task |
| BindState | src/main/java/com/websocket/client/connection/websocket/WebSocketConnection.java:122-124 | the listener is added under that state only; every state keeps its entry |
| UnbindState | src/main/java/com/websocket/client/connection/websocket/WebSocketConnection.java:127-129 | the listener is removed under that state only; every state keeps its entry |
| UnbindStateAfterBindState | src/main/java/com/websocket/client/connection/websocket/WebSocketConnection.java:122-129 | unbind undoes a bind of a listener not yet bound under that state |
| BindStateIdempotent | src/main/java/com/websocket/client/connection/websocket/WebSocketConnection.java:122-124 | binding twice is binding once (set semantics) |
| ListenersUnderAdd | src/main/java/com/websocket/client/connection/websocket/WebSocketConnection.java:230-232 | adding one state's set to the collected listeners gives the listeners under one more state |
| WebSocketConnection.constructor | src/main/java/com/websocket/client/connection/websocket/WebSocketConnection.java:67-83 | state DISCONNECTED, no transport, an empty set for every state including ALL, and a heartbeat with the given timeouts |
| WebSocketConnection.Connect | src/main/java/com/websocket/client/connection/websocket/WebSocketConnection.java:88-106 | queues one connect task |
| WebSocketConnection.Disconnect | src/main/java/com/websocket/client/connection/websocket/WebSocketConnection.java:109-119 | queues one disconnect task |
| WebSocketConnection.SendMessage | src/main/java/com/websocket/client/connection/websocket/WebSocketConnection.java:139-156 | queues one send task carrying the message |
| WebSocketConnection.Bind | src/main/java/com/websocket/client/connection/websocket/WebSocketConnection.java:122-124 | the registry becomes BindState of the old one |
| WebSocketConnection.Unbind | src/main/java/com/websocket/client/connection/websocket/WebSocketConnection.java:127-129 | returns true iff the listener was bound under that state; the registry becomes UnbindState of the old one |
| WebSocketConnection.UpdateState | src/main/java/com/websocket/client/connection/websocket/WebSocketConnection.java:160-178 | a move to the current state does nothing; otherwise the state is set and exactly one change callback is queued per distinct listener under ALL or the new state |
| WebSocketConnection.NotifyStateChange | src/main/java/com/websocket/client/connection/websocket/WebSocketConnection.java:170-177 | one state-change task per listener of the set, each listener once |
| WebSocketConnection.SendErrorToAllListeners | src/main/java/com/websocket/client/connection/websocket/WebSocketConnection.java:228-242 | one error task per distinct listener bound under any state, carrying message, code and exception |
| WebSocketConnection.NotifyError | src/main/java/com/websocket/client/connection/websocket/WebSocketConnection.java:234-241 | one error task per listener of the set, each listener once |
| WebSocketConnection.RunConnect | src/main/java/com/websocket/client/connection/websocket/WebSocketConnection.java:92-104 | acts only when DISCONNECTED: it opens the transport, moves to CONNECTING and only then calls connect; an SSL failure reports "Error connecting over SSL" to every listener and keeps the state |
| WebSocketConnection.RunDisconnect | src/main/java/com/websocket/client/connection/websocket/WebSocketConnection.java:112-117 | acts only when CONNECTED: it moves to DISCONNECTING, notifies, and closes the transport |
| WebSocketConnection.RunSendMessage | src/main/java/com/websocket/client/connection/websocket/WebSocketConnection.java:142-154 | the message goes on the wire only when CONNECTED and the send succeeds; otherwise nothing is sent and every listener gets one error with the source's message |
| WebSocketConnection.HandleConnectionMessage | src/main/java/com/websocket/client/connection/websocket/WebSocketConnection.java:212-216 | moves to CONNECTED and notifies, unless already CONNECTED, when nothing happens |
| WebSocketConnection.HandleError | src/main/java/com/websocket/client/connection/websocket/WebSocketConnection.java:219-226 | every listener gets one error whose message is the frame's `message` and whose code is the frame's `eventType` |
| WebSocketConnection.HandleEvent | src/main/java/com/websocket/client/connection/websocket/WebSocketConnection.java:189-200 | "101" goes to CONNECTED, "102" reports an error and keeps the state, and any other event is handed unchanged to the channel the frame names; a frame without an event type does nothing |
| WebSocketConnection.OnMessage | src/main/java/com/websocket/client/connection/websocket/WebSocketConnection.java:253-264 | re-arms the heartbeat (exactly one ping task waiting, no pong task) and queues the frame for handling |
| WebSocketConnection.OnClose | src/main/java/com/websocket/client/connection/websocket/WebSocketConnection.java:267-283 | cancels both heartbeat tasks at once and queues the close handling |
| WebSocketConnection.RunClose | src/main/java/com/websocket/client/connection/websocket/WebSocketConnection.java:272-279 | the state ends DISCONNECTED; the listeners are notified only if it was not DISCONNECTED already |
| WebSocketConnection.OnError | src/main/java/com/websocket/client/connection/websocket/WebSocketConnection.java:285-298 | queues the error report and changes no state |
| WebSocketConnection.RunTransportError | src/main/java/com/websocket/client/connection/websocket/WebSocketConnection.java:289-296 | every listener gets one error "An exception was thrown by the websocket" |
| WebSocketConnection.FireTimer | src/main/java/com/websocket/client/connection/websocket/WebSocketConnection.java:324-361 | a ping firing sends the ping literal and leaves exactly one pong task waiting; a pong firing queues a disconnect and leaves nothing waiting |
| BindStates | src/main/java/com/websocket/client/QSocket.java:133-135 | every state keeps its entry in the registry |
| BindStatesBinds | src/main/java/com/websocket/client/QSocket.java:133-135 | binding under a list of states adds the listener under exactly those states |
| ConnectStates | src/main/java/com/websocket/client/QSocket.java:128-131 | no states given means ALL alone; given states are used as they are |
| QSocket.NewConnection | src/main/java/com/websocket/client/QSocket.java:73 | the connection gets the options' URL, header, proxy and timeouts, and starts DISCONNECTED with no listeners |
| QSocket.Attach | src/main/java/com/websocket/client/QSocket.java:75 | afterwards the manager is the fresh connection's only listener, bound under CONNECTED alone |
| QSocket.NewParts | src/main/java/com/websocket/client/QSocket.java:71-75 | a fresh factory, manager and connection, wired together, with nothing queued |
| QSocket.constructor | src/main/java/com/websocket/client/QSocket.java:65-77 | the connection is built from the options, and the manager listens to it under CONNECTED only |
| QSocket.Create | src/main/java/com/websocket/client/QSocket.java:65-69 | null options are refused with an IllegalArgumentException; otherwise a valid client on those options |
| QSocket.BindUnderEach | src/main/java/com/websocket/client/QSocket.java:133-135 | the registry becomes BindStates of the old one |
| QSocket.Connect | src/main/java/com/websocket/client/QSocket.java:126-144 | it fails iff the listener is null and states are given, and then nothing is bound or queued; otherwise it binds under ConnectStates (nothing for a null listener) and queues one connect |
| QSocket.ConnectWithoutListener | src/main/java/com/websocket/client/QSocket.java:99-101 | binds nothing and queues one connect |
| QSocket.OnNetworkAvailable | src/main/java/com/websocket/client/QSocket.java:243-245 | the same as `connect()`: nothing bound, one connect queued |
| QSocket.Disconnect | src/main/java/com/websocket/client/QSocket.java:154-159 | queues a disconnect iff the connection is CONNECTED |
| QSocket.Subscribe | src/main/java/com/websocket/client/QSocket.java:200-206 | a null name is refused; otherwise a new INITIAL channel is returned even when the manager rejects it; a rejected channel has no event listener and only the binds made before the first failing name (none for a duplicate name), and a duplicate name leaves `getChannel` on the other object |
| QSocket.Unsubscribe | src/main/java/com/websocket/client/QSocket.java:214-217 | `unsubscribeFrom(name, null)`: the channel leaves the registry, with no listener; the command is queued iff CONNECTED |
| QSocket.UnsubscribeWithListener | src/main/java/com/websocket/client/QSocket.java:225-228 | `unsubscribeFrom(name, listener)` |
| QSocket.GetChannel | src/main/java/com/websocket/client/QSocket.java:235-237 | a channel is found iff its name is registered, and it carries that name |
| QSocket.RunNextTask | src/main/java/com/websocket/client/connection/websocket/WebSocketConnection.java:170-177 | the oldest task runs, tasks it queues go behind the waiting ones, and exactly the matching application callback is made |
| QSocket.RunConnectionTask | src/main/java/com/websocket/client/connection/websocket/WebSocketConnection.java:88-106 | a connection task keeps the client valid and only appends to the queue |
| QSocket.RunConnectTask | src/main/java/com/websocket/client/connection/websocket/WebSocketConnection.java:92-104 | the client stays valid and the queue only grows |
| QSocket.RunDisconnectTask | src/main/java/com/websocket/client/connection/websocket/WebSocketConnection.java:112-117 | the client stays valid and the queue only grows |
| QSocket.RunSendMessageTask | src/main/java/com/websocket/client/connection/websocket/WebSocketConnection.java:142-154 | the client stays valid and the queue only grows |
| QSocket.RunInboundTask | src/main/java/com/websocket/client/connection/websocket/WebSocketConnection.java:258-262 | the client stays valid, the queue only grows, and every channel task queued is on one of this client's channels |
| QSocket.RunCloseTask | src/main/java/com/websocket/client/connection/websocket/WebSocketConnection.java:272-281 | the client stays valid and the queue only grows |
| QSocket.RunTransportErrorTask | src/main/java/com/websocket/client/connection/websocket/WebSocketConnection.java:289-296 | the client stays valid and the queue only grows |
| QSocket.RunListenerTask | src/main/java/com/websocket/client/channel/impl/ChannelManager.java:99-112 | an application listener receives its state change or error and nothing is queued; the manager makes no callback, ignores errors and states other than CONNECTED, and on CONNECTED queues exactly one subscribe attempt per registered channel |
| QSocket.RunChannelTask | src/main/java/com/websocket/client/channel/impl/ChannelImpl.java:111-116 | each channel task makes exactly its channel's callback, read from the listener fields when it runs |
| QSocket.TransportMessage | src/main/java/com/websocket/client/connection/websocket/WebSocketConnection.java:253-264 | a frame re-arms the heartbeat and is queued |
| QSocket.TransportClose | src/main/java/com/websocket/client/connection/websocket/WebSocketConnection.java:267-283 | a close stops both heartbeat tasks and is queued |
| QSocket.TransportError | src/main/java/com/websocket/client/connection/websocket/WebSocketConnection.java:285-298 | an error is queued and nothing else changes |
| QSocket.TimerFires | src/main/java/com/websocket/client/connection/websocket/WebSocketConnection.java:324-361 | a ping firing queues the ping frame; a pong firing queues a disconnect |
| QSocket.RunSubscribeTask | src/main/java/com/websocket/client/channel/impl/ChannelManager.java:116-130 | the client stays valid and the queue only grows |
| QSocket.RunUnsubscribeTask | src/main/java/com/websocket/client/channel/impl/ChannelManager.java:132-140 | the client stays valid and the queue only grows |

## Left out

- **Gson decoding of inbound frames.**
  - An inbound frame arrives already decoded, as an `Envelope` of three optional fields. The same value stands for the raw text that the client passes on as "the whole message".
  - The outbound encoding is modelled in full, for maps of two string entries.
- **Threads, locks and real time.** `volatile`, `synchronized`, `ConcurrentHashMap`, the thread pool and real time are left out. The event thread is a FIFO drained one task at a time. A timer fires only when the environment step `QSocket.TimerFires` says so, and a fired timer task is one atomic step with respect to `activity()`. In Java, `activity()` on the socket's thread can run between the ping task's `sendMessage` and its `schedulePongCheck()` (`WebSocketConnection.java:324-330`), and then a ping and a pong timer wait at the same time. The model's `ActivityTimer.Valid` excludes that.
  - `Future.cancel(true)` interrupting a running task is not modelled. A cancelled task that has not started never runs.
  - `factory.shutdownThreads()` on close is not modelled.
- **`org.java_websocket` and the factory.**
  - The websocket client itself (handshake, TLS, proxy, headers) is left out. It is reduced to `hasTransport` and the `wire` log.
  - `new URI(url)` throwing `URISyntaxException` is not modelled. `QSocket.NewConnection` assumes the options' URL parses.
  - How the factory builds the transport and the connection is not part of this model either.
- **Android and logging.** The connectivity receiver (`ConnectivityChangeReceiver`, `registerReceiver`/`unregisterReceiver`) and all `Log`/slf4j logging are left out. Its only effect is calling `onNetworkAvailable`, which is modelled.
- **Getters, `toString` and the two-argument `QSocket` constructor.** Each getter returns a field as it is, so the model reads the field. The two-argument constructor only supplies a new factory.
- **Unused code.**
  - `clearDownSubscription` is never called, so it is not modelled.
  - The commented-out code is not behaviour: the per-event listener delivery loop, the internal-event dispatch and the old URL format.
  - `eventNameToListenerMap` is kept up to date but never consulted on delivery, exactly as in the code.
- ConnectionStateChanges.HashCode: the enum constants' hash codes are identity hashes that the program does not choose, so they are a parameter. The lemmas hold for every choice.
- CompareStrings: compares characters as Unicode scalar values rather than UTF-16 code units. The two orders differ only between supplementary characters and code units at or above U+E000.
- **Null references.** A `null` handed where the code dereferences it at once is excluded by the types. Examples: a null `change` in `onConnectionStateChange`, and a null channel object in `onMessage`.
- ChannelManager.UnsubscribeFrom: requires a connection only for a registered name. A null name is refused and an unregistered name returns before the connection is read. A registered name before `setConnection` would fail with a null dereference at `ChannelManager.java:75`, after the channel has left the registry and taken its listener. `QSocket` always sets the connection first.
- ChannelManager.RunSubscribeTask: requires a connection, for the same reason.
- ChannelManager.RunUnsubscribeTask: requires a connection, for the same reason.
- ChannelImpl.RunEventTask: with no event listener, Java throws a `NullPointerException` inside the task (`ChannelImpl.java:114`). The model makes no callback. This is the usual case after `subscribe(channelName)` (`QSocket.java:175-177`), which subscribes without a listener.
- ChannelImpl.RunSubscriptionSucceededTask: if the event listener was set to null after the task was queued, Java throws a `NullPointerException` inside the task. The model makes no callback.
- ChannelImpl.RunUnsubscribedTask: if the unsubscription listener was set to null after the task was queued, Java throws a `NullPointerException` inside the task. The model makes no callback.
- WebSocketConnection.RunDisconnect: with no transport, Java throws a `NullPointerException` inside the task after the state change. The model makes the state change and records no close. Nothing else differs.
- WebSocketConnection.HandleEvent: a frame without an `eventType` makes Java's `switch` throw inside the task. The model does nothing, which is the task's only effect.
- WebSocketConnection.UpdateState: a move to the current state makes the `ConnectionStateChange` constructor throw inside the task. The model returns `ok == false` and changes nothing. One example is a second `"101"` while CONNECTED.
- QSocket.RunNextTask: states the callbacks made and that the queue only grows behind the waiting tasks. What each task does to the connection and the channels is stated on the `WebSocketConnection`, `ChannelManager` and `ChannelImpl` methods it runs and is not repeated here.
- QSocket.RunConnectionTask: states only that the client stays valid and the queue grows. The effects are stated by the `WebSocketConnection.Run...` method it calls.
- QSocket.RunConnectTask: the same; see `WebSocketConnection.RunConnect`.
- QSocket.RunDisconnectTask: the same; see `WebSocketConnection.RunDisconnect`.
- QSocket.RunSendMessageTask: the same; see `WebSocketConnection.RunSendMessage`.
- QSocket.RunInboundTask: the same; see `WebSocketConnection.HandleEvent`.
- QSocket.RunCloseTask: the same; see `WebSocketConnection.RunClose`.
- QSocket.RunTransportErrorTask: the same; see `WebSocketConnection.RunTransportError`.
- QSocket.RunSubscribeTask: the same; see `ChannelManager.RunSubscribeTask`.
- QSocket.RunUnsubscribeTask: the same; see `ChannelManager.RunUnsubscribeTask`.
- QSocket.TimerFires: does not repeat the timer slots `WebSocketConnection.FireTimer` states.
