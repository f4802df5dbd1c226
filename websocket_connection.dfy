/*
 * The connection state machine over one websocket. Public operations only
 * queue work on the event thread; the `Run...` methods are the bodies of
 * those queued tasks, and `OnMessage`/`OnClose`/`OnError` are the callbacks
 * the websocket client makes.
 */

/** The messages of the errors the connection reports to its listeners. */
const SSL_ERROR_MESSAGE := "Error connecting over SSL"
const TRANSPORT_ERROR_MESSAGE := "An exception was thrown by the websocket"
const SEND_FAILED_PREFIX := "An exception occurred while sending message ["
const NOT_CONNECTED_PREFIX := "Cannot send a message while in "

/** The calls made on the underlying websocket client, in order. */
datatype TransportCall = Opened | ConnectCalled | Sent(text: string) | CloseCalled

/** The listeners a transition into `s` notifies. */
function Interested(m: map<ConnectionState, set<ConnectionListener>>, s: ConnectionState): set<ConnectionListener>
  requires All in m && s in m
{
  m[All] + m[s]
}

/** The listeners bound under the states in `keys`. */
function ListenersUnder(m: map<ConnectionState, set<ConnectionListener>>, keys: set<ConnectionState>): set<ConnectionListener>
{
  set s, l | s in keys && s in m && l in m[s] :: l
}

/** Every listener bound under any state. */
function AllListeners(m: map<ConnectionState, set<ConnectionListener>>): set<ConnectionListener>
{
  ListenersUnder(m, m.Keys)
}

lemma ListenersUnderNone(m: map<ConnectionState, set<ConnectionListener>>)
  ensures ListenersUnder(m, {}) == {}
{
}

lemma ListenersUnderAdd(m: map<ConnectionState, set<ConnectionListener>>, keys: set<ConnectionState>, s: ConnectionState)
  requires s in m
  ensures ListenersUnder(m, keys + {s}) == ListenersUnder(m, keys) + m[s]
{
  forall l | l in m[s]
    ensures l in ListenersUnder(m, keys + {s})
  {
    assert s in keys + {s} && s in m && l in m[s];
  }
}

/** The registry after `bind(s, l)`. */
function BindState(m: map<ConnectionState, set<ConnectionListener>>, s: ConnectionState, l: ConnectionListener)
  : (r: map<ConnectionState, set<ConnectionListener>>)
  requires s in m
  ensures r.Keys == m.Keys
  ensures forall s', l' | s' in m :: l' in r[s'] <==> l' in m[s'] || (s' == s && l' == l)
{
  m[s := m[s] + {l}]
}

/** The registry after `unbind(s, l)`. */
function UnbindState(m: map<ConnectionState, set<ConnectionListener>>, s: ConnectionState, l: ConnectionListener)
  : (r: map<ConnectionState, set<ConnectionListener>>)
  requires s in m
  ensures r.Keys == m.Keys
  ensures forall s', l' | s' in m :: l' in r[s'] <==> l' in m[s'] && !(s' == s && l' == l)
{
  m[s := m[s] - {l}]
}

/** `unbind` undoes a `bind` of a listener that was not bound under that state. */
lemma UnbindStateAfterBindState(m: map<ConnectionState, set<ConnectionListener>>, s: ConnectionState, l: ConnectionListener)
  requires s in m && l !in m[s]
  ensures UnbindState(BindState(m, s, l), s, l) == m
{
  assert m[s] + {l} - {l} == m[s];
}

/** Binding twice has the effect of binding once. */
lemma BindStateIdempotent(m: map<ConnectionState, set<ConnectionListener>>, s: ConnectionState, l: ConnectionListener)
  requires s in m
  ensures BindState(BindState(m, s, l), s, l) == BindState(m, s, l)
{
  assert m[s] + {l} + {l} == m[s] + {l};
}

class WebSocketConnection {
  const url: string
  const proxy: Proxy
  const header: map<string, string>
  const factory: Factory
  /** What `factory.getChannelManager()` returns. */
  const channelManager: ChannelManager
  const activityTimer: ActivityTimer
  var state: ConnectionState
  var eventListeners: map<ConnectionState, set<ConnectionListener>>
  /** Whether `underlyingConnection` is non-null. */
  var hasTransport: bool
  var wire: seq<TransportCall>

  /** The registry has a set for every state, including the wildcard, which is never the current state. */
  ghost predicate Valid()
    reads this`eventListeners, this`state
  {
    eventListeners.Keys == AllConnectionStates && state != All
  }

  constructor (url: string, activityTimeout: int64, pongTimeout: int64, proxy: Proxy, factory: Factory,
               header: map<string, string>, channelManager: ChannelManager)
    requires Pending(factory.timers, PingTimer) == {} && Pending(factory.timers, PongTimer) == {}
    ensures Valid()
    ensures this.url == url && this.proxy == proxy && this.factory == factory
    ensures this.header == header && this.channelManager == channelManager
    ensures state == Disconnected && !hasTransport && wire == []
    ensures forall s | s in eventListeners :: eventListeners[s] == {}
    ensures fresh(activityTimer) && activityTimer.factory == factory && activityTimer.Valid()
    ensures activityTimer.activityTimeout == activityTimeout && activityTimer.pongTimeout == pongTimeout
  {
    this.url := url;
    activityTimer := new ActivityTimer(activityTimeout, pongTimeout, factory);
    this.proxy := proxy;
    this.factory := factory;
    this.header := header;
    this.channelManager := channelManager;
    state := Disconnected;
    hasTransport := false;
    wire := [];
    var listeners := map[];
    var states := [Connecting, Connected, Disconnecting, Disconnected, All];
    for i := 0 to |states|
      invariant listeners.Keys == set j | 0 <= j < i :: states[j]
      invariant forall s | s in listeners :: listeners[s] == {}
    {
      listeners := listeners[states[i] := {}];
    }
    assert listeners.Keys == {states[0], states[1], states[2], states[3], states[4]};
    eventListeners := listeners;
  }

  method Connect()
    modifies factory`tasks
    ensures factory.tasks == old(factory.tasks) + [ConnectTask]
  {
    factory.QueueOnEventThread(ConnectTask);
  }

  method Disconnect()
    modifies factory`tasks
    ensures factory.tasks == old(factory.tasks) + [DisconnectTask]
  {
    factory.QueueOnEventThread(DisconnectTask);
  }

  method SendMessage(message: string)
    modifies factory`tasks
    ensures factory.tasks == old(factory.tasks) + [SendMessageTask(message)]
  {
    factory.QueueOnEventThread(SendMessageTask(message));
  }

  method Bind(s: ConnectionState, listener: ConnectionListener)
    requires Valid()
    modifies this`eventListeners
    ensures Valid()
    ensures eventListeners == BindState(old(eventListeners), s, listener)
  {
    eventListeners := eventListeners[s := eventListeners[s] + {listener}];
  }

  method Unbind(s: ConnectionState, listener: ConnectionListener) returns (removed: bool)
    requires Valid()
    modifies this`eventListeners
    ensures Valid()
    ensures removed <==> listener in old(eventListeners)[s]
    ensures eventListeners == UnbindState(old(eventListeners), s, listener)
  {
    removed := listener in eventListeners[s];
    eventListeners := eventListeners[s := eventListeners[s] - {listener}];
  }

  /**
   * `updateState(newState)`. Building the state change throws when the
   * connection is already in `newState`; then nothing happens and `ok` is false.
   */
  method UpdateState(newState: ConnectionState) returns (ok: bool, ghost notified: seq<ConnectionListener>)
    requires Valid() && newState != All
    modifies this`state, factory`tasks
    ensures Valid()
    ensures ok <==> old(state) != newState
    ensures ok ==> state == newState
                   && Enumerates(notified, Interested(eventListeners, newState))
                   && factory.tasks == old(factory.tasks)
                                       + StateChangeTasks(notified, ConnectionStateChange(old(state), newState))
    ensures !ok ==> state == old(state) && factory.tasks == old(factory.tasks)
  {
    notified := [];
    var change := NewStateChange(state, newState);
    if change.Err? {
      return false, notified;
    }
    ok := true;
    state := newState;
    var interested := eventListeners[All] + eventListeners[newState];
    notified := NotifyStateChange(interested, change.value);
  }

  /** Queues one state-change callback for each listener in `interested`. */
  method NotifyStateChange(interested: set<ConnectionListener>, change: ConnectionStateChange)
    returns (ghost notified: seq<ConnectionListener>)
    modifies factory`tasks
    ensures Enumerates(notified, interested)
    ensures factory.tasks == old(factory.tasks) + StateChangeTasks(notified, change)
  {
    notified := [];
    var remaining := interested;
    while remaining != {}
      invariant remaining <= interested
      invariant Enumerates(notified, interested - remaining)
      invariant factory.tasks == old(factory.tasks) + StateChangeTasks(notified, change)
      decreases remaining
    {
      var listener :| listener in remaining;
      factory.QueueOnEventThread(StateChangeTask(listener, change));
      EnumeratesTake(notified, interested, remaining, listener);
      StateChangeTasksSnoc(notified, listener, change);
      notified := notified + [listener];
      remaining := remaining - {listener};
    }
  }

  /** `sendErrorToAllListeners`: one error callback per distinct listener bound under any state. */
  method SendErrorToAllListeners(message: Option<string>, code: Option<string>, cause: Cause)
    returns (ghost notified: seq<ConnectionListener>)
    modifies factory`tasks
    ensures Enumerates(notified, AllListeners(eventListeners))
    ensures factory.tasks == old(factory.tasks) + ErrorTasks(notified, ErrorReport(message, code, cause))
  {
    var allListeners: set<ConnectionListener> := {};
    var keys := eventListeners.Keys;
    ListenersUnderNone(eventListeners);
    while keys != {}
      invariant keys <= eventListeners.Keys
      invariant factory.tasks == old(factory.tasks)
      invariant allListeners == ListenersUnder(eventListeners, eventListeners.Keys - keys)
      decreases keys
    {
      var s :| s in keys;
      ListenersUnderAdd(eventListeners, eventListeners.Keys - keys, s);
      assert eventListeners.Keys - (keys - {s}) == (eventListeners.Keys - keys) + {s};
      allListeners := allListeners + eventListeners[s];
      keys := keys - {s};
    }
    assert eventListeners.Keys - keys == eventListeners.Keys;
    notified := NotifyError(allListeners, ErrorReport(message, code, cause));
  }

  /** Queues one error callback for each listener in `listeners`. */
  method NotifyError(listeners: set<ConnectionListener>, error: ErrorReport)
    returns (ghost notified: seq<ConnectionListener>)
    modifies factory`tasks
    ensures Enumerates(notified, listeners)
    ensures factory.tasks == old(factory.tasks) + ErrorTasks(notified, error)
  {
    notified := [];
    var remaining := listeners;
    while remaining != {}
      invariant remaining <= listeners
      invariant Enumerates(notified, listeners - remaining)
      invariant factory.tasks == old(factory.tasks) + ErrorTasks(notified, error)
      decreases remaining
    {
      var listener :| listener in remaining;
      factory.QueueOnEventThread(ErrorTask(listener, error));
      EnumeratesTake(notified, listeners, remaining, listener);
      ErrorTasksSnoc(notified, listener, error);
      notified := notified + [listener];
      remaining := remaining - {listener};
    }
  }

  /**
   * The task `connect()` queues. `clientCreated` is false when creating the
   * websocket client fails with an SSL error.
   */
  method RunConnect(clientCreated: bool) returns (ghost notified: seq<ConnectionListener>)
    requires Valid()
    modifies this`state, this`hasTransport, this`wire, factory`tasks
    ensures Valid()
    ensures old(state) != Disconnected ==>
              state == old(state) && hasTransport == old(hasTransport) && wire == old(wire)
              && factory.tasks == old(factory.tasks)
    ensures old(state) == Disconnected && clientCreated ==>
              hasTransport && state == Connecting && wire == old(wire) + [Opened, ConnectCalled]
              && Enumerates(notified, Interested(eventListeners, Connecting))
              && factory.tasks == old(factory.tasks)
                                  + StateChangeTasks(notified, ConnectionStateChange(Disconnected, Connecting))
    ensures old(state) == Disconnected && !clientCreated ==>
              state == Disconnected && hasTransport == old(hasTransport) && wire == old(wire)
              && Enumerates(notified, AllListeners(eventListeners))
              && factory.tasks == old(factory.tasks)
                                  + ErrorTasks(notified, ErrorReport(Some(SSL_ERROR_MESSAGE), None, SslException))
  {
    notified := [];
    if state == Disconnected {
      if clientCreated {
        hasTransport := true;
        wire := wire + [Opened];
        var ok;
        ok, notified := UpdateState(Connecting);
        wire := wire + [ConnectCalled];
      } else {
        notified := SendErrorToAllListeners(Some(SSL_ERROR_MESSAGE), None, SslException);
      }
    }
  }

  /** The task `disconnect()` queues; closing a missing client fails after the state change. */
  method RunDisconnect() returns (ghost notified: seq<ConnectionListener>)
    requires Valid()
    modifies this`state, this`wire, factory`tasks
    ensures Valid()
    ensures old(state) != Connected ==>
              state == old(state) && wire == old(wire) && factory.tasks == old(factory.tasks)
    ensures old(state) == Connected ==>
              state == Disconnecting
              && wire == old(wire) + (if hasTransport then [CloseCalled] else [])
              && Enumerates(notified, Interested(eventListeners, Disconnecting))
              && factory.tasks == old(factory.tasks)
                                  + StateChangeTasks(notified, ConnectionStateChange(Connected, Disconnecting))
  {
    notified := [];
    if state == Connected {
      var ok;
      ok, notified := UpdateState(Disconnecting);
      if hasTransport {
        wire := wire + [CloseCalled];
      }
    }
  }

  /**
   * The task `sendMessage(message)` queues. `sendSucceeds` is false when the
   * client's `send` throws; a missing client throws as well.
   */
  method RunSendMessage(message: string, sendSucceeds: bool) returns (ghost notified: seq<ConnectionListener>)
    modifies this`wire, factory`tasks
    ensures state == Connected && hasTransport && sendSucceeds ==>
              wire == old(wire) + [Sent(message)] && factory.tasks == old(factory.tasks)
    ensures state == Connected && !(hasTransport && sendSucceeds) ==>
              wire == old(wire)
              && Enumerates(notified, AllListeners(eventListeners))
              && factory.tasks == old(factory.tasks)
                   + ErrorTasks(notified, ErrorReport(Some(SEND_FAILED_PREFIX + message + "]"), None, SendException))
    ensures state != Connected ==>
              wire == old(wire)
              && Enumerates(notified, AllListeners(eventListeners))
              && factory.tasks == old(factory.tasks)
                   + ErrorTasks(notified, ErrorReport(Some(NOT_CONNECTED_PREFIX + StateName(state) + " state"), None, NoException))
  {
    if state == Connected {
      if hasTransport && sendSucceeds {
        wire := wire + [Sent(message)];
        notified := [];
      } else {
        notified := SendErrorToAllListeners(Some(SEND_FAILED_PREFIX + message + "]"),
                                            None, SendException);
      }
    } else {
      notified := SendErrorToAllListeners(Some(NOT_CONNECTED_PREFIX + StateName(state) + " state"),
                                          None, NoException);
    }
  }

  /** `handleConnectionMessage`: the server confirmed the connection. */
  method HandleConnectionMessage() returns (ok: bool, ghost notified: seq<ConnectionListener>)
    requires Valid()
    modifies this`state, factory`tasks
    ensures Valid()
    ensures ok <==> old(state) != Connected
    ensures ok ==> state == Connected
                   && Enumerates(notified, Interested(eventListeners, Connected))
                   && factory.tasks == old(factory.tasks)
                                       + StateChangeTasks(notified, ConnectionStateChange(old(state), Connected))
    ensures !ok ==> state == old(state) && factory.tasks == old(factory.tasks)
  {
    ok, notified := UpdateState(Connected);
  }

  /** `handleError`: the server reported an error; its code is the frame's event type. */
  method HandleError(frame: Envelope) returns (ghost notified: seq<ConnectionListener>)
    modifies factory`tasks
    ensures Enumerates(notified, AllListeners(eventListeners))
    ensures factory.tasks == old(factory.tasks) + ErrorTasks(notified, ErrorReport(frame.message, frame.eventType, NoException))
  {
    notified := SendErrorToAllListeners(frame.message, frame.eventType, NoException);
  }

  /**
   * The task `onMessage` queues: dispatch on the frame's event type. A frame
   * without one makes the task fail before it does anything.
   */
  method HandleEvent(frame: Envelope) returns (ghost notified: seq<ConnectionListener>)
    requires Valid() && channelManager.Valid() && channelManager.factory == factory
    modifies this`state, factory`tasks, channelManager.ChannelsNamed(frame.channel)`state
    ensures Valid()
    ensures frame.eventType.None? ==> state == old(state) && factory.tasks == old(factory.tasks)
    ensures frame.eventType == Some(CONNECTION_ESTABLISHED_EVENT) ==>
              if old(state) == Connected then state == old(state) && factory.tasks == old(factory.tasks)
              else state == Connected
                   && Enumerates(notified, Interested(eventListeners, Connected))
                   && factory.tasks == old(factory.tasks)
                                       + StateChangeTasks(notified, ConnectionStateChange(old(state), Connected))
    ensures frame.eventType == Some(CONNECTION_ERROR_EVENT) ==>
              state == old(state)
              && Enumerates(notified, AllListeners(eventListeners))
              && factory.tasks == old(factory.tasks) + ErrorTasks(notified, ErrorReport(frame.message, frame.eventType, NoException))
    ensures frame.eventType.Some? && frame.eventType.value !in {CONNECTION_ESTABLISHED_EVENT, CONNECTION_ERROR_EVENT} ==>
              state == old(state)
              && var route := channelManager.GetChannel(frame.channel);
                 (route.None? ==> factory.tasks == old(factory.tasks))
                 && (route.Some? ==>
                       route.value.state == old(route.value.MessageEffect(frame.eventType.value, frame)).0
                       && factory.tasks == old(factory.tasks)
                                           + old(route.value.MessageEffect(frame.eventType.value, frame)).1)
  {
    notified := [];
    if frame.eventType.None? {
      return;
    }
    var event := frame.eventType.value;
    if event == CONNECTION_ESTABLISHED_EVENT {
      var ok;
      ok, notified := HandleConnectionMessage();
    } else if event == CONNECTION_ERROR_EVENT {
      notified := HandleError(frame);
    } else {
      channelManager.OnMessage(event, frame);
    }
  }

  /** Transport callback: any frame from the server re-arms the heartbeat and is handled on the event thread. */
  method OnMessage(frame: Envelope)
    requires activityTimer.factory == factory && activityTimer.Valid()
    modifies activityTimer`pingTimer, factory`timers, factory`tasks
    ensures activityTimer.Valid()
    ensures activityTimer.pingTimer.Some? && Pending(factory.timers, PingTimer) == {activityTimer.pingTimer.value}
    ensures Pending(factory.timers, PongTimer) == {}
    ensures factory.tasks == old(factory.tasks) + [InboundTask(frame)]
  {
    activityTimer.Activity();
    factory.QueueOnEventThread(InboundTask(frame));
  }

  /** Transport callback: the socket closed; the heartbeat stops at once. */
  method OnClose()
    requires activityTimer.factory == factory && activityTimer.Valid()
    modifies factory`timers, factory`tasks
    ensures activityTimer.Valid()
    ensures Pending(factory.timers, PingTimer) == {} && Pending(factory.timers, PongTimer) == {}
    ensures factory.tasks == old(factory.tasks) + [CloseTask]
  {
    activityTimer.CancelTimeouts();
    factory.QueueOnEventThread(CloseTask);
  }

  /** The task `onClose` queues: any state but DISCONNECTED moves to DISCONNECTED. */
  method RunClose() returns (ghost notified: seq<ConnectionListener>)
    requires Valid()
    modifies this`state, factory`tasks
    ensures Valid()
    ensures state == Disconnected
    ensures old(state) == Disconnected ==> factory.tasks == old(factory.tasks)
    ensures old(state) != Disconnected ==>
              Enumerates(notified, Interested(eventListeners, Disconnected))
              && factory.tasks == old(factory.tasks)
                                  + StateChangeTasks(notified, ConnectionStateChange(old(state), Disconnected))
  {
    notified := [];
    if state != Disconnected {
      var ok;
      ok, notified := UpdateState(Disconnected);
    }
  }

  /** Transport callback: an error; the state is left alone, as the client also reports a close. */
  method OnError()
    modifies factory`tasks
    ensures factory.tasks == old(factory.tasks) + [TransportErrorTask]
  {
    factory.QueueOnEventThread(TransportErrorTask);
  }

  /** The task `onError` queues. */
  method RunTransportError() returns (ghost notified: seq<ConnectionListener>)
    modifies factory`tasks
    ensures Enumerates(notified, AllListeners(eventListeners))
    ensures factory.tasks == old(factory.tasks)
                             + ErrorTasks(notified, ErrorReport(Some(TRANSPORT_ERROR_MESSAGE), None, TransportException))
  {
    notified := SendErrorToAllListeners(Some(TRANSPORT_ERROR_MESSAGE), None, TransportException);
  }

  /**
   * The timer service runs the heartbeat task behind `future`: a ping
   * sends the ping frame and arms the pong check; a pong check disconnects.
   */
  method FireTimer(future: nat)
    requires activityTimer.factory == factory && activityTimer.Valid()
    requires future < |factory.timers| && factory.timers[future].status == Scheduled
    modifies activityTimer`pongTimer, factory`timers, factory`tasks
    ensures activityTimer.Valid()
    ensures old(factory.timers[future].kind) == PingTimer ==>
              factory.tasks == old(factory.tasks) + [SendMessageTask(PING_EVENT_SERIALIZED)]
              && Pending(factory.timers, PingTimer) == {}
              && activityTimer.pongTimer.Some? && Pending(factory.timers, PongTimer) == {activityTimer.pongTimer.value}
    ensures old(factory.timers[future].kind) == PongTimer ==>
              factory.tasks == old(factory.tasks) + [DisconnectTask]
              && Pending(factory.timers, PingTimer) == {} && Pending(factory.timers, PongTimer) == {}
  {
    var ts := factory.timers;
    var kind := ts[future].kind;
    factory.StartTimer(future);
    PendingSettle(ts, future, Ran, PingTimer);
    PendingSettle(ts, future, Ran, PongTimer);
    if kind == PingTimer {
      SendMessage(PING_EVENT_SERIALIZED);
      activityTimer.SchedulePongCheck();
    } else {
      assert future in Pending(ts, PongTimer);
      assert Pending(ts, PingTimer) == {};
      Disconnect();
    }
  }
}
