/*
 * The client facade: it owns the factory, the connection and the channel
 * manager, and its public methods are the application's entry points. The
 * event thread is modelled by `RunNextTask`, which runs the oldest queued
 * task; the websocket client's callbacks and the timer service are the
 * remaining steps of the environment.
 */

/** The messages of the exceptions the client's entry points throw. */
const NULL_OPTIONS_MESSAGE := "QSocketOptions cannot be null"
const NULL_CONNECTION_LISTENER_MESSAGE := "Cannot bind to connection states with a null connection event listener"

/** The registry after binding `listener` under each of `states` in turn. */
function BindStates(m: map<ConnectionState, set<ConnectionListener>>, states: seq<ConnectionState>,
                    listener: ConnectionListener): (r: map<ConnectionState, set<ConnectionListener>>)
  requires m.Keys == AllConnectionStates
  ensures r.Keys == AllConnectionStates
{
  if states == [] then m
  else
    var last := states[|states| - 1];
    assert last in AllConnectionStates by {
      assert last.Connecting? || last.Connected? || last.Disconnecting? || last.Disconnected? || last.All?;
    }
    BindState(BindStates(m, states[..|states| - 1], listener), last, listener)
}

/** Binding under a list of states adds the listener under exactly those states. */
lemma {:induction false} BindStatesBinds(m: map<ConnectionState, set<ConnectionListener>>, states: seq<ConnectionState>,
                                         listener: ConnectionListener)
  requires m.Keys == AllConnectionStates
  ensures forall s, l | s in AllConnectionStates ::
            l in BindStates(m, states, listener)[s] <==> l in m[s] || (l == listener && s in states)
{
  if states != [] {
    var front := states[..|states| - 1];
    BindStatesBinds(m, front, listener);
    assert states == front + [states[|states| - 1]];
  }
}

/** The states `connect(listener, states...)` binds a non-null listener under. */
function ConnectStates(states: seq<ConnectionState>): (r: seq<ConnectionState>)
  ensures r != []
  ensures states != [] ==> r == states
{
  if states == [] then [All] else states
}

/** Binding one listener under `s` in an empty registry leaves it the only listener, under `s` alone. */
lemma BindIntoEmpty(m: map<ConnectionState, set<ConnectionListener>>, s: ConnectionState, l: ConnectionListener)
  requires s in m && forall s' | s' in m :: m[s'] == {}
  ensures forall s' | s' in m :: BindState(m, s, l)[s'] == if s' == s then {l} else {}
{
}

class QSocket {
  const options: QSocketOptions
  const factory: Factory
  const connection: WebSocketConnection
  const channelManager: ChannelManager

  /** The parts share one factory, the manager listens to this client's connection, and queued channel tasks stay within the client. */
  ghost predicate Valid()
    reads factory`tasks, factory`timers, connection`eventListeners, connection`state
    reads connection.activityTimer`pingTimer, connection.activityTimer`pongTimer
    reads channelManager`channelNameToChannel, channelManager`connection
  {
    && connection.factory == factory && connection.channelManager == channelManager
    && connection.activityTimer.factory == factory
    && channelManager.factory == factory && channelManager.connection == connection
    && connection.Valid() && channelManager.Valid() && connection.activityTimer.Valid()
    && TaskChannelsOf(factory.tasks, factory)
  }

  /** Builds the connection `options` describe, on factory `f`, reporting to manager `m`. */
  static method NewConnection(options: QSocketOptions, f: Factory, m: ChannelManager) returns (c: WebSocketConnection)
    requires f.timers == []
    ensures fresh(c) && fresh(c.activityTimer)
    ensures c.factory == f && c.channelManager == m && c.activityTimer.factory == f
    ensures c.Valid() && c.activityTimer.Valid()
    ensures c.url == options.BuildUrl() && c.header == options.GetUrlHeader() && c.proxy == options.proxy
    ensures c.activityTimer.activityTimeout == options.activityTimeout
    ensures c.activityTimer.pongTimeout == options.pongTimeout
    ensures c.state == Disconnected && !c.hasTransport && c.wire == []
    ensures forall s | s in c.eventListeners :: c.eventListeners[s] == {}
  {
    c := new WebSocketConnection(options.BuildUrl(), options.activityTimeout, options.pongTimeout,
                                 options.proxy, f, options.GetUrlHeader(), m);
  }

  /** `setConnection` on a fresh manager and a fresh connection: the manager becomes the connection's only listener. */
  static method Attach(m: ChannelManager, c: WebSocketConnection)
    requires m.connection == null && m.Valid() && c.Valid() && c.factory == m.factory
    requires forall s | s in c.eventListeners :: c.eventListeners[s] == {}
    modifies m`connection, c`eventListeners
    ensures m.connection == c && m.Valid() && c.Valid()
    ensures forall s | s in AllConnectionStates ::
              c.eventListeners[s] == if s == Connected then {ChannelManagerListener} else {}
  {
    ghost var listeners := c.eventListeners;
    var attached := m.SetConnection(c);
    assert c.eventListeners == BindState(listeners, Connected, ChannelManagerListener);
    BindIntoEmpty(listeners, Connected, ChannelManagerListener);
  }

  /** Builds the factory, the channel manager and the connection, and attaches the manager to the connection. */
  static method NewParts(options: QSocketOptions) returns (f: Factory, m: ChannelManager, c: WebSocketConnection)
    ensures fresh(f) && fresh(m) && fresh(c) && fresh(c.activityTimer)
    ensures c.factory == f && c.channelManager == m && c.activityTimer.factory == f
    ensures m.factory == f && m.connection == c
    ensures c.Valid() && m.Valid() && c.activityTimer.Valid()
    ensures f.tasks == [] && f.timers == [] && f.delivered == []
    ensures c.url == options.BuildUrl() && c.header == options.GetUrlHeader() && c.proxy == options.proxy
    ensures c.activityTimer.activityTimeout == options.activityTimeout
    ensures c.activityTimer.pongTimeout == options.pongTimeout
    ensures c.state == Disconnected && !c.hasTransport && c.wire == []
    ensures forall s | s in AllConnectionStates ::
              c.eventListeners[s] == if s == Connected then {ChannelManagerListener} else {}
    ensures m.channelNameToChannel == map[]
  {
    f := new Factory();
    m := new ChannelManager(f);
    c := NewConnection(options, f, m);
    Attach(m, c);
  }

  /** The constructor once `options` is known to be non-null. */
  constructor (options: QSocketOptions)
    ensures Valid()
    ensures this.options == options
    ensures fresh(factory) && fresh(connection) && fresh(channelManager) && fresh(connection.activityTimer)
    ensures factory.tasks == [] && factory.timers == [] && factory.delivered == []
    ensures connection.url == options.BuildUrl() && connection.header == options.GetUrlHeader()
    ensures connection.proxy == options.proxy
    ensures connection.activityTimer.activityTimeout == options.activityTimeout
    ensures connection.activityTimer.pongTimeout == options.pongTimeout
    ensures connection.state == Disconnected && !connection.hasTransport && connection.wire == []
    ensures forall s | s in AllConnectionStates ::
              connection.eventListeners[s] == if s == Connected then {ChannelManagerListener} else {}
    ensures channelManager.channelNameToChannel == map[]
  {
    var f, m, c := NewParts(options);
    this.options := options;
    factory := f;
    connection := c;
    channelManager := m;
  }

  /** `new QSocket(options, ...)`, which refuses null options. */
  static method Create(options: QSocketOptions?) returns (r: Result<QSocket>)
    ensures r.Err? <==> options == null
    ensures r.Err? ==> r.failure == IllegalArgument(NULL_OPTIONS_MESSAGE)
    ensures r.Ok? ==> fresh(r.value) && r.value.Valid() && r.value.options == options
  {
    if options == null {
      return Err(IllegalArgument(NULL_OPTIONS_MESSAGE));
    }
    var client := new QSocket(options);
    return Ok(client);
  }

  /**
   * `connect(listener, states...)`: bind a non-null listener under the given
   * states (ALL when none are given), then ask the connection to connect.
   */
  /** The loop of `connect` that binds `listener` under each of `states` in turn. */
  method BindUnderEach(listener: ConnectionListener, states: seq<ConnectionState>)
    requires Valid()
    modifies connection`eventListeners
    ensures Valid()
    ensures connection.eventListeners == BindStates(old(connection.eventListeners), states, listener)
  {
    for i := 0 to |states|
      invariant connection.Valid()
      invariant connection.eventListeners == BindStates(old(connection.eventListeners), states[..i], listener)
    {
      connection.Bind(states[i], listener);
      assert states[..i + 1][..i] == states[..i];
    }
    assert states[..|states|] == states;
  }

  method Connect(listener: Option<ListenerId>, states: seq<ConnectionState>) returns (r: Outcome)
    requires Valid()
    modifies connection`eventListeners, factory`tasks
    ensures Valid()
    ensures r.Fail? <==> listener.None? && states != []
    ensures r.Fail? ==>
              r.failure == IllegalArgument(NULL_CONNECTION_LISTENER_MESSAGE)
              && connection.eventListeners == old(connection.eventListeners)
              && factory.tasks == old(factory.tasks)
    ensures r.Pass? ==> factory.tasks == old(factory.tasks) + [ConnectTask]
    ensures listener.None? ==> connection.eventListeners == old(connection.eventListeners)
    ensures listener.Some? ==>
              connection.eventListeners
                == BindStates(old(connection.eventListeners), ConnectStates(states), AppListener(listener.value))
  {
    if listener.Some? {
      BindUnderEach(AppListener(listener.value), ConnectStates(states));
    } else if |states| > 0 {
      return Fail(IllegalArgument(NULL_CONNECTION_LISTENER_MESSAGE));
    }
    ghost var before := factory.tasks;
    connection.Connect();
    TaskChannelsOfAppend(before, [ConnectTask], factory);
    r := Pass;
  }

  /** `connect()`. */
  method ConnectWithoutListener()
    requires Valid()
    modifies connection`eventListeners, factory`tasks
    ensures Valid()
    ensures connection.eventListeners == old(connection.eventListeners)
    ensures factory.tasks == old(factory.tasks) + [ConnectTask]
  {
    var r := Connect(None, []);
  }

  /** `onNetworkAvailable()`: the same as `connect()`. */
  method OnNetworkAvailable()
    requires Valid()
    modifies connection`eventListeners, factory`tasks
    ensures Valid()
    ensures connection.eventListeners == old(connection.eventListeners)
    ensures factory.tasks == old(factory.tasks) + [ConnectTask]
  {
    ConnectWithoutListener();
  }

  /** `disconnect()`: forwarded to the connection only while it is CONNECTED. */
  method Disconnect()
    requires Valid()
    modifies factory`tasks
    ensures Valid()
    ensures connection.state == Connected ==> factory.tasks == old(factory.tasks) + [DisconnectTask]
    ensures connection.state != Connected ==> factory.tasks == old(factory.tasks)
  {
    if connection.state == Connected {
      connection.Disconnect();
    }
  }

  /**
   * `subscribe(channelName, listener, eventNames...)`: create the channel
   * and hand it to the manager. The new channel is returned even when the
   * manager refused it.
   */
  method Subscribe(channelName: Option<string>, listener: Option<ListenerId>, eventNames: seq<Option<string>>)
    returns (r: Result<ChannelImpl>)
    requires Valid()
    modifies channelManager`channelNameToChannel, factory`tasks
    ensures Valid()
    ensures r.Err? <==> channelName.None?
    ensures r.Err? ==>
              r.failure == IllegalArgument(NULL_CHANNEL_NAME_MESSAGE)
              && channelManager.channelNameToChannel == old(channelManager.channelNameToChannel)
              && factory.tasks == old(factory.tasks)
    ensures r.Ok? ==> fresh(r.value) && r.value.name == channelName.value && r.value.factory == factory
    ensures r.Ok? && channelName.value !in old(channelManager.channelNameToChannel)
                  && FirstFailure(channelName.value, Initial, eventNames, listener) == |eventNames| ==>
              channelManager.channelNameToChannel == old(channelManager.channelNameToChannel)[channelName.value := r.value]
              && r.value.eventListener == listener
              && r.value.eventNameToListeners == BindEach(map[], eventNames, listener)
              && factory.tasks == old(factory.tasks) + [SubscribeTask(r.value)]
    ensures r.Ok? && (channelName.value in old(channelManager.channelNameToChannel)
                      || FirstFailure(channelName.value, Initial, eventNames, listener) < |eventNames|) ==>
              channelManager.channelNameToChannel == old(channelManager.channelNameToChannel)
              && factory.tasks == old(factory.tasks)
    ensures r.Ok? && channelName.value in old(channelManager.channelNameToChannel) ==>
              GetChannel(channelName) == old(GetChannel(channelName)) && GetChannel(channelName) != Some(r.value)
    ensures r.Ok? ==> r.value.state == Initial && r.value.unsubscriptionListener.None? && r.value.Valid()
    ensures r.Ok? && channelName.value !in old(channelManager.channelNameToChannel) ==>
              r.value.eventNameToListeners
              == BindEach(map[], eventNames[..FirstFailure(channelName.value, Initial, eventNames, listener)], listener)
    ensures r.Ok? && channelName.value in old(channelManager.channelNameToChannel) ==>
              r.value.eventNameToListeners == map[] && r.value.eventListener.None?
    ensures r.Ok? && FirstFailure(channelName.value, Initial, eventNames, listener) < |eventNames| ==>
              r.value.eventListener.None?
  {
    var created := ChannelImpl.NewChannel(channelName, factory);
    if created.Err? {
      return Err(created.failure);
    }
    var channel := created.value;
    var outcome := channelManager.SubscribeTo(channel, listener, eventNames);
    assert !outcome.Thrown?;
    r := Ok(channel);
  }

  /** `unsubscribe(channelName)`: the same as unsubscribing with no listener. */
  method Unsubscribe(channelName: Option<string>) returns (r: Outcome)
    requires Valid()
    modifies channelManager`channelNameToChannel, channelManager.ChannelsNamed(channelName)`unsubscriptionListener
    modifies factory`tasks
    ensures Valid()
    ensures r.Fail? <==> channelName.None?
    ensures channelName.Some? ==>
              channelManager.channelNameToChannel == old(channelManager.channelNameToChannel) - {channelName.value}
    ensures channelName.Some? && channelName.value in old(channelManager.channelNameToChannel) ==>
              var channel := old(channelManager.channelNameToChannel)[channelName.value];
              channel.unsubscriptionListener.None?
              && factory.tasks == old(factory.tasks)
                                  + if connection.state == Connected then [UnsubscribeTask(channel)] else []
    ensures !(channelName.Some? && channelName.value in old(channelManager.channelNameToChannel)) ==>
              factory.tasks == old(factory.tasks)
  {
    r := UnsubscribeWithListener(channelName, None);
  }

  /** `unsubscribe(channelName, listener)`: the listener hears when the channel is unsubscribed. */
  method UnsubscribeWithListener(channelName: Option<string>, listener: Option<ListenerId>) returns (r: Outcome)
    requires Valid()
    modifies channelManager`channelNameToChannel, channelManager.ChannelsNamed(channelName)`unsubscriptionListener
    modifies factory`tasks
    ensures Valid()
    ensures r.Fail? <==> channelName.None?
    ensures channelName.Some? ==>
              channelManager.channelNameToChannel == old(channelManager.channelNameToChannel) - {channelName.value}
    ensures channelName.Some? && channelName.value in old(channelManager.channelNameToChannel) ==>
              var channel := old(channelManager.channelNameToChannel)[channelName.value];
              channel.unsubscriptionListener == listener
              && factory.tasks == old(factory.tasks)
                                  + if connection.state == Connected then [UnsubscribeTask(channel)] else []
    ensures !(channelName.Some? && channelName.value in old(channelManager.channelNameToChannel)) ==>
              factory.tasks == old(factory.tasks)
  {
    r := channelManager.UnsubscribeFrom(channelName, listener);
  }

  /** `getChannel(channelName)`. */
  function GetChannel(channelName: Option<string>): (r: Option<ChannelImpl>)
    reads this, channelManager
    ensures r.Some? <==> channelName.Some? && channelName.value in channelManager.channelNameToChannel
    ensures r.Some? && channelManager.Valid() ==> r.value.name == channelName.value
  {
    channelManager.GetChannel(channelName)
  }

  /** The channels the oldest queued task may change the state of. */
  function NextTaskChannels(): set<ChannelImpl>
    reads this, factory, channelManager
  {
    (if factory.tasks != [] && factory.tasks[0].HasChannel() then {factory.tasks[0].channel} else {})
    + channelManager.channelNameToChannel.Values
  }

  /**
   * The event thread runs the oldest task. `clientCreated` and
   * `sendSucceeds` say how the websocket client behaves if the task uses it.
   * Tasks queued meanwhile go behind the ones already waiting.
   */
  method RunNextTask(clientCreated: bool, sendSucceeds: bool) returns (task: Task)
    requires Valid() && factory.tasks != []
    modifies factory`tasks, factory`delivered
    modifies connection`state, connection`hasTransport, connection`wire
    modifies NextTaskChannels()`state
    ensures Valid()
    ensures task == old(factory.tasks[0])
    ensures old(factory.tasks[1..]) <= factory.tasks
    ensures task.StateChangeTask? && task.listener.AppListener? ==>
              factory.delivered == old(factory.delivered) + [OnConnectionStateChange(task.listener.id, task.change)]
    ensures task.ErrorTask? && task.listener.AppListener? ==>
              factory.delivered == old(factory.delivered) + [OnError(task.listener.id, task.error)]
    ensures task.EventTask? ==>
              factory.delivered == old(factory.delivered)
                + if task.channel.eventListener.Some?
                  then [OnEvent(task.channel.eventListener.value, task.channel.name, task.eventName, task.data)]
                  else []
    ensures task.SubscriptionSucceededTask? ==>
              factory.delivered == old(factory.delivered)
                + if task.channel.eventListener.Some?
                  then [OnSubscriptionSucceeded(task.channel.eventListener.value, task.channel.name)]
                  else []
    ensures task.UnsubscribedTask? ==>
              factory.delivered == old(factory.delivered)
                + if task.channel.unsubscriptionListener.Some?
                  then [OnUnsubscribed(task.channel.unsubscriptionListener.value, task.channel.name)]
                  else []
    ensures !(task.StateChangeTask? || task.ErrorTask? || task.EventTask?
              || task.SubscriptionSucceededTask? || task.UnsubscribedTask?)
            || ((task.StateChangeTask? || task.ErrorTask?) && task.listener.ChannelManagerListener?) ==>
              factory.delivered == old(factory.delivered)
  {
    ghost var channels := NextTaskChannels();
    task := factory.TakeNext();
    if task.HasChannel() {
      assert task.channel in channels;
      RunChannelTask(task);
    } else if task.StateChangeTask? || task.ErrorTask? {
      ghost var order := RunListenerTask(task);
    } else {
      assert task.InboundTask? ==> channelManager.ChannelsNamed(task.frame.channel) <= channels;
      RunConnectionTask(task, clientCreated, sendSucceeds);
    }
  }

  /** The tasks the connection queues for itself. */
  method RunConnectionTask(task: Task, clientCreated: bool, sendSucceeds: bool)
    requires Valid() && !task.HasChannel() && !task.StateChangeTask? && !task.ErrorTask?
    modifies factory`tasks, connection`state, connection`hasTransport, connection`wire
    modifies (if task.InboundTask? then channelManager.ChannelsNamed(task.frame.channel) else {})`state
    ensures Valid()
    ensures old(factory.tasks) <= factory.tasks
  {
    match task {
      case ConnectTask => RunConnectTask(clientCreated);
      case DisconnectTask => RunDisconnectTask();
      case SendMessageTask(text) => RunSendMessageTask(text, sendSucceeds);
      case InboundTask(frame) => RunInboundTask(frame);
      case CloseTask => RunCloseTask();
      case TransportErrorTask => RunTransportErrorTask();
    }
  }

  /** `connect()` on the event thread. */
  method RunConnectTask(clientCreated: bool)
    requires Valid()
    modifies factory`tasks, connection`state, connection`hasTransport, connection`wire
    ensures Valid()
    ensures old(factory.tasks) <= factory.tasks
  {
    ghost var before := factory.tasks;
    ghost var n := connection.RunConnect(clientCreated);
    TaskChannelsOfGrown(before, factory.tasks, factory);
  }

  /** `disconnect()` on the event thread. */
  method RunDisconnectTask()
    requires Valid()
    modifies factory`tasks, connection`state, connection`wire
    ensures Valid()
    ensures old(factory.tasks) <= factory.tasks
  {
    ghost var before := factory.tasks;
    ghost var n := connection.RunDisconnect();
    TaskChannelsOfGrown(before, factory.tasks, factory);
  }

  /** `sendMessage(message)` on the event thread. */
  method RunSendMessageTask(message: string, sendSucceeds: bool)
    requires Valid()
    modifies factory`tasks, connection`wire
    ensures Valid()
    ensures old(factory.tasks) <= factory.tasks
  {
    ghost var before := factory.tasks;
    ghost var n := connection.RunSendMessage(message, sendSucceeds);
    TaskChannelsOfGrown(before, factory.tasks, factory);
  }

  /** A frame from the server, handled on the event thread. */
  method RunInboundTask(frame: Envelope)
    requires Valid()
    modifies factory`tasks, connection`state, channelManager.ChannelsNamed(frame.channel)`state
    ensures Valid()
    ensures old(factory.tasks) <= factory.tasks
  {
    ghost var before := factory.tasks;
    ghost var route := channelManager.GetChannel(frame.channel);
    ghost var effect: seq<Task> := [];
    if route.Some? && frame.eventType.Some? {
      effect := route.value.MessageEffect(frame.eventType.value, frame).1;
      route.value.MessageEffectOwnTasks(frame.eventType.value, frame);
    }
    ghost var oldState := connection.state;
    ghost var n := connection.HandleEvent(frame);
    ListenerTasksHaveNoChannel(n, ConnectionStateChange(oldState, Connected),
                               ErrorReport(frame.message, frame.eventType, NoException), factory);
    if frame.eventType == Some(CONNECTION_ESTABLISHED_EVENT) {
      if oldState != Connected {
        TaskChannelsOfAppend(before, StateChangeTasks(n, ConnectionStateChange(oldState, Connected)), factory);
      }
    } else if frame.eventType == Some(CONNECTION_ERROR_EVENT) {
      TaskChannelsOfAppend(before, ErrorTasks(n, ErrorReport(frame.message, frame.eventType, NoException)), factory);
    } else if route.Some? {
      TaskChannelsOfAppend(before, effect, factory);
    }
  }

  /** The socket closed: the connection is DISCONNECTED. */
  method RunCloseTask()
    requires Valid()
    modifies factory`tasks, connection`state
    ensures Valid()
    ensures old(factory.tasks) <= factory.tasks
  {
    ghost var before := factory.tasks;
    ghost var n := connection.RunClose();
    TaskChannelsOfGrown(before, factory.tasks, factory);
  }

  /** The websocket client failed: every listener hears of it. */
  method RunTransportErrorTask()
    requires Valid()
    modifies factory`tasks
    ensures Valid()
    ensures old(factory.tasks) <= factory.tasks
  {
    ghost var before := factory.tasks;
    ghost var n := connection.RunTransportError();
    TaskChannelsOfGrown(before, factory.tasks, factory);
  }

  /** A connection callback: application listeners hear it; the manager reacts to CONNECTED and ignores errors. */
  method RunListenerTask(task: Task) returns (ghost order: seq<ChannelImpl>)
    requires Valid() && (task.StateChangeTask? || task.ErrorTask?)
    modifies factory`tasks, factory`delivered
    ensures Valid()
    ensures old(factory.tasks) <= factory.tasks
    ensures task.StateChangeTask? && task.listener.AppListener? ==>
              factory.delivered == old(factory.delivered) + [OnConnectionStateChange(task.listener.id, task.change)]
    ensures task.ErrorTask? && task.listener.AppListener? ==>
              factory.delivered == old(factory.delivered) + [OnError(task.listener.id, task.error)]
    ensures task.listener.ChannelManagerListener? ==> factory.delivered == old(factory.delivered)
    ensures task.StateChangeTask? && task.listener.ChannelManagerListener? && task.change.currentState == Connected ==>
              Enumerates(order, channelManager.channelNameToChannel.Values)
              && factory.tasks == old(factory.tasks) + SubscribeTasks(order)
    ensures task.listener.AppListener? || task.ErrorTask? || task.change.currentState != Connected ==>
              factory.tasks == old(factory.tasks)
  {
    order := [];
    match task {
      case StateChangeTask(listener, change) =>
        if listener.AppListener? {
          factory.Deliver(OnConnectionStateChange(listener.id, change));
        } else {
          order := channelManager.OnConnectionStateChange(change);
        }
      case ErrorTask(listener, error) =>
        if listener.AppListener? {
          factory.Deliver(OnError(listener.id, error));
        }
    }
  }

  /** The tasks that act on one channel. */
  method RunChannelTask(task: Task)
    requires Valid() && task.HasChannel() && task.channel.factory == factory
    modifies factory`tasks, factory`delivered, task.channel`state
    ensures Valid()
    ensures old(factory.tasks) <= factory.tasks
    ensures task.EventTask? ==>
              factory.delivered == old(factory.delivered)
                + if task.channel.eventListener.Some?
                  then [OnEvent(task.channel.eventListener.value, task.channel.name, task.eventName, task.data)]
                  else []
    ensures task.SubscriptionSucceededTask? ==>
              factory.delivered == old(factory.delivered)
                + if task.channel.eventListener.Some?
                  then [OnSubscriptionSucceeded(task.channel.eventListener.value, task.channel.name)]
                  else []
    ensures task.UnsubscribedTask? ==>
              factory.delivered == old(factory.delivered)
                + if task.channel.unsubscriptionListener.Some?
                  then [OnUnsubscribed(task.channel.unsubscriptionListener.value, task.channel.name)]
                  else []
    ensures task.SubscribeTask? || task.UnsubscribeTask? ==> factory.delivered == old(factory.delivered)
  {
    match task {
      case SubscribeTask(channel) =>
        RunSubscribeTask(channel);
      case UnsubscribeTask(channel) =>
        RunUnsubscribeTask(channel);
      case EventTask(channel, eventName, data) =>
        channel.RunEventTask(eventName, data);
      case SubscriptionSucceededTask(channel) =>
        channel.RunSubscriptionSucceededTask();
      case UnsubscribedTask(channel) =>
        channel.RunUnsubscribedTask();
    }
  }

  /** The websocket client delivers a frame. */
  method TransportMessage(frame: Envelope)
    requires Valid()
    modifies connection.activityTimer`pingTimer, factory`timers, factory`tasks
    ensures Valid()
    ensures factory.tasks == old(factory.tasks) + [InboundTask(frame)]
    ensures connection.activityTimer.pingTimer.Some?
    ensures Pending(factory.timers, PingTimer) == {connection.activityTimer.pingTimer.value}
    ensures Pending(factory.timers, PongTimer) == {}
  {
    connection.OnMessage(frame);
  }

  /** The websocket client reports that the socket closed. */
  method TransportClose()
    requires Valid()
    modifies factory`timers, factory`tasks
    ensures Valid()
    ensures factory.tasks == old(factory.tasks) + [CloseTask]
    ensures Pending(factory.timers, PingTimer) == {} && Pending(factory.timers, PongTimer) == {}
  {
    connection.OnClose();
  }

  /** The websocket client reports an error. */
  method TransportError()
    requires Valid()
    modifies factory`tasks
    ensures Valid()
    ensures factory.tasks == old(factory.tasks) + [TransportErrorTask]
  {
    connection.OnError();
  }

  /** The timer service runs the heartbeat task behind `future`. */
  method TimerFires(future: nat)
    requires Valid() && future < |factory.timers| && factory.timers[future].status == Scheduled
    modifies connection.activityTimer`pongTimer, factory`timers, factory`tasks
    ensures Valid()
    ensures old(factory.timers[future].kind) == PingTimer ==>
              factory.tasks == old(factory.tasks) + [SendMessageTask(PING_EVENT_SERIALIZED)]
    ensures old(factory.timers[future].kind) == PongTimer ==>
              factory.tasks == old(factory.tasks) + [DisconnectTask]
  {
    connection.FireTimer(future);
  }

  /** A subscribe attempt on the event thread. */
  method RunSubscribeTask(channel: ChannelImpl)
    requires Valid() && channel.factory == factory
    modifies factory`tasks, channel`state
    ensures Valid()
    ensures old(factory.tasks) <= factory.tasks
  {
    ghost var before := factory.tasks;
    channelManager.RunSubscribeTask(channel);
    if connection.state == Connected {
      TaskChannelsOfAppend(before, [SendMessageTask(channel.ToSubscribeMessage())], factory);
    }
    assert TaskChannelsOf(factory.tasks, factory);
    ValidAfterQueueing();
  }

  /** An unsubscribe on the event thread. */
  method RunUnsubscribeTask(channel: ChannelImpl)
    requires Valid() && channel.factory == factory
    modifies factory`tasks, channel`state
    ensures Valid()
    ensures old(factory.tasks) <= factory.tasks
  {
    ghost var before := factory.tasks;
    ghost var callbacks := channel.UpdateTasks(Unsubscribed);
    channelManager.RunUnsubscribeTask(channel);
    TaskChannelsOfAppend(before, [SendMessageTask(channel.ToUnsubscribeMessage())] + callbacks, factory);
    assert TaskChannelsOf(factory.tasks, factory);
    ValidAfterQueueing();
  }

  /** Only the queue changed, and it still acts on this client's channels: the client stays valid. */
  twostate lemma ValidAfterQueueing()
    requires old(Valid())
    requires connection.state == old(connection.state) && connection.eventListeners == old(connection.eventListeners)
    requires connection.activityTimer.pingTimer == old(connection.activityTimer.pingTimer)
    requires connection.activityTimer.pongTimer == old(connection.activityTimer.pongTimer)
    requires channelManager.channelNameToChannel == old(channelManager.channelNameToChannel)
    requires channelManager.connection == old(channelManager.connection)
    requires factory.timers == old(factory.timers) && TaskChannelsOf(factory.tasks, factory)
    ensures Valid()
  {
  }
}
