/*
 * The registry of subscribed channels, keyed by name. It listens to the
 * connection for transitions into CONNECTED and (re)sends a subscribe
 * command for every registered channel each time.
 */

/** The messages of the exceptions the manager throws. */
const NULL_CONNECTION_MESSAGE := "Cannot construct ChannelManager with a null com.websocket.client.connection"
const NULL_CHANNEL_MESSAGE := "Cannot subscribe to a null com.websocket.client.channel"
const NULL_UNSUBSCRIBE_CHANNEL_MESSAGE := "Cannot unsubscribe from null com.websocket.client.channel"
const ALREADY_SUBSCRIBED_PREFIX := "Already subscribed to a com.websocket.client.channel with name "

/** How `subscribeTo` ended: the channel was registered, a rejection was caught and logged, or an exception escaped. */
datatype SubscribeOutcome = Registered | Rejected(failure: Failure) | Thrown(failure: Failure)

/** The index of the first event name whose `bind` fails validation, or the number of names if none does. */
function FirstFailure(channelName: string, state: ChannelState,
                      eventNames: seq<Option<string>>, listener: Option<ListenerId>): (k: nat)
  ensures k <= |eventNames|
  ensures forall j | 0 <= j < k :: ValidateArguments(channelName, state, eventNames[j], listener).Pass?
  ensures k < |eventNames| ==> ValidateArguments(channelName, state, eventNames[k], listener).Fail?
{
  if eventNames == [] then 0
  else if ValidateArguments(channelName, state, eventNames[0], listener).Fail? then 0
  else 1 + FirstFailure(channelName, state, eventNames[1..], listener)
}

lemma FirstFailureIs(channelName: string, state: ChannelState,
                     eventNames: seq<Option<string>>, listener: Option<ListenerId>, i: nat)
  requires i <= |eventNames|
  requires forall j | 0 <= j < i :: ValidateArguments(channelName, state, eventNames[j], listener).Pass?
  requires i < |eventNames| ==> ValidateArguments(channelName, state, eventNames[i], listener).Fail?
  ensures FirstFailure(channelName, state, eventNames, listener) == i
{
}

/** The listener map after binding `listener` to each of `eventNames` in turn. */
function BindEach(m: map<string, set<ListenerId>>, eventNames: seq<Option<string>>, listener: Option<ListenerId>)
  : map<string, set<ListenerId>>
{
  if eventNames == [] then m
  else
    var before := BindEach(m, eventNames[..|eventNames| - 1], listener);
    var e := eventNames[|eventNames| - 1];
    if e.Some? && listener.Some? then BindListener(before, e.value, listener.value) else before
}

/** One more step of `BindEach`. */
lemma BindEachStep(m: map<string, set<ListenerId>>, eventNames: seq<Option<string>>, listener: Option<ListenerId>, i: nat)
  requires i < |eventNames|
  ensures BindEach(m, eventNames[..i + 1], listener)
          == var before := BindEach(m, eventNames[..i], listener);
             if eventNames[i].Some? && listener.Some? then BindListener(before, eventNames[i].value, listener.value)
             else before
{
  assert eventNames[..i + 1][..i] == eventNames[..i];
}

/** Binding a listener to a list of (non-null) event names binds it to exactly those names, and nothing else changes. */
lemma {:induction false} BindEachBinds(m: map<string, set<ListenerId>>, eventNames: seq<Option<string>>, listener: ListenerId)
  requires forall i | 0 <= i < |eventNames| :: eventNames[i].Some?
  ensures forall e, l :: Bound(BindEach(m, eventNames, Some(listener)), e, l)
                         <==> Bound(m, e, l) || (l == listener && Some(e) in eventNames)
{
  if eventNames != [] {
    var front := eventNames[..|eventNames| - 1];
    BindEachBinds(m, front, listener);
    assert eventNames == front + [eventNames[|eventNames| - 1]];
  }
}

class ChannelManager {
  const factory: Factory
  var channelNameToChannel: map<string, ChannelImpl>
  var connection: WebSocketConnection?

  /** Every channel is registered under its own name, and all share the manager's factory. */
  ghost predicate Valid()
    reads this`channelNameToChannel, this`connection
  {
    && (forall name | name in channelNameToChannel ::
          channelNameToChannel[name].name == name && channelNameToChannel[name].factory == factory)
    && (connection != null ==> connection.factory == factory)
  }

  constructor (factory: Factory)
    ensures this.factory == factory && channelNameToChannel == map[] && connection == null
    ensures Valid()
  {
    this.factory := factory;
    channelNameToChannel := map[];
    connection := null;
  }

  /** `getChannel(name)`: the channel registered under `name`, if any. */
  function GetChannel(channelName: Option<string>): (r: Option<ChannelImpl>)
    reads this
    ensures r.Some? <==> channelName.Some? && channelName.value in channelNameToChannel
    ensures r.Some? && Valid() ==> r.value.name == channelName.value && r.value.factory == factory
  {
    if channelName.Some? && channelName.value in channelNameToChannel then Some(channelNameToChannel[channelName.value])
    else None
  }

  /** The channel an operation on `channelName` may touch, as a frame. */
  function ChannelsNamed(channelName: Option<string>): set<ChannelImpl>
    reads this
  {
    if channelName.Some? && channelName.value in channelNameToChannel then {channelNameToChannel[channelName.value]}
    else {}
  }

  /** `setConnection(c)`: move the manager's CONNECTED listener from the old connection to `c`. */
  method SetConnection(c: WebSocketConnection?) returns (r: Outcome)
    requires Valid()
    requires c != null ==> c.Valid() && c.factory == factory
    requires connection != null ==> connection.Valid()
    modifies this`connection, (if connection == null then {} else {connection})`eventListeners,
             (if c == null then {} else {c})`eventListeners
    ensures Valid()
    ensures c == null ==>
              r == Fail(IllegalArgument(NULL_CONNECTION_MESSAGE))
              && connection == old(connection)
              && (connection != null ==> connection.eventListeners == old(connection.eventListeners))
    ensures c != null ==> r.Pass? && connection == c && c.Valid()
    ensures c != null && old(connection) != c && old(connection) != null ==>
              old(connection).eventListeners
                == UnbindState(old(connection.eventListeners), Connected, ChannelManagerListener)
              && c.eventListeners == BindState(old(c.eventListeners), Connected, ChannelManagerListener)
    ensures c != null && (old(connection) == c || old(connection) == null) ==>
              c.eventListeners == BindState(old(c.eventListeners), Connected, ChannelManagerListener)
  {
    if c == null {
      return Fail(IllegalArgument(NULL_CONNECTION_MESSAGE));
    }
    ghost var before := c.eventListeners;
    if connection != null {
      var removed := connection.Unbind(Connected, ChannelManagerListener);
    }
    connection := c;
    c.Bind(Connected, ChannelManagerListener);
    assert before[Connected] - {ChannelManagerListener} + {ChannelManagerListener}
        == before[Connected] + {ChannelManagerListener};
    r := Pass;
  }

  /** The loop of `validateArgumentsAndBindEvents`: bind each event name in turn, up to the first that fails validation. */
  method BindEvents(channel: ChannelImpl, listener: Option<ListenerId>, eventNames: seq<Option<string>>)
    returns (r: Outcome)
    requires channel.Valid()
    modifies channel`eventNameToListeners
    ensures channel.Valid()
    ensures var k := FirstFailure(channel.name, channel.state, eventNames, listener);
            && channel.eventNameToListeners == BindEach(old(channel.eventNameToListeners), eventNames[..k], listener)
            && r == if k < |eventNames| then ValidateArguments(channel.name, channel.state, eventNames[k], listener)
                    else Pass
    ensures r.Pass? <==> FirstFailure(channel.name, channel.state, eventNames, listener) == |eventNames|
    ensures r.Fail? && r.failure.IllegalState? ==> channel.state == Unsubscribed
  {
    for i := 0 to |eventNames|
      invariant forall j | 0 <= j < i :: ValidateArguments(channel.name, channel.state, eventNames[j], listener).Pass?
      invariant channel.eventNameToListeners == BindEach(old(channel.eventNameToListeners), eventNames[..i], listener)
      invariant channel.Valid()
    {
      var bound := channel.Bind(eventNames[i], listener);
      if bound.Fail? {
        FirstFailureIs(channel.name, channel.state, eventNames, listener, i);
        return bound;
      }
      BindEachStep(old(channel.eventNameToListeners), eventNames, listener, i);
    }
    FirstFailureIs(channel.name, channel.state, eventNames, listener, |eventNames|);
    r := Pass;
  }

  /**
   * `validateArgumentsAndBindEvents`: refuse a null or already registered
   * channel, then bind the listener to each event name in turn, stopping at
   * the first name that fails validation; finally set the event listener.
   */
  method ValidateArgumentsAndBindEvents(channel: ChannelImpl?, listener: Option<ListenerId>,
                                        eventNames: seq<Option<string>>) returns (r: Outcome)
    requires channel != null ==> channel.Valid()
    modifies (if channel == null then {} else {channel})`eventNameToListeners,
             (if channel == null then {} else {channel})`eventListener
    ensures channel != null ==> channel.Valid()
    ensures channel == null ==> r == Fail(IllegalArgument(NULL_CHANNEL_MESSAGE))
    ensures channel != null && channel.name in channelNameToChannel ==>
              r == Fail(IllegalArgument(ALREADY_SUBSCRIBED_PREFIX + channel.name))
              && channel.eventNameToListeners == old(channel.eventNameToListeners)
              && channel.eventListener == old(channel.eventListener)
    ensures channel != null && channel.name !in channelNameToChannel ==>
              var k := FirstFailure(channel.name, channel.state, eventNames, listener);
              && channel.eventNameToListeners == BindEach(old(channel.eventNameToListeners), eventNames[..k], listener)
              && (k < |eventNames| ==>
                    r == ValidateArguments(channel.name, channel.state, eventNames[k], listener)
                    && channel.eventListener == old(channel.eventListener))
              && (k == |eventNames| ==> r == Pass && channel.eventListener == listener)
    ensures r.Pass? <==> channel != null && channel.name !in channelNameToChannel
                         && FirstFailure(channel.name, channel.state, eventNames, listener) == |eventNames|
    ensures r.Fail? && r.failure.IllegalState? ==> channel != null && channel.state == Unsubscribed
    ensures channelNameToChannel == old(channelNameToChannel) && factory.tasks == old(factory.tasks)
  {
    if channel == null {
      return Fail(IllegalArgument(NULL_CHANNEL_MESSAGE));
    }
    if channel.name in channelNameToChannel {
      return Fail(IllegalArgument(ALREADY_SUBSCRIBED_PREFIX + channel.name));
    }
    r := BindEvents(channel, listener, eventNames);
    if r.Pass? {
      channel.SetEventListener(listener);
    }
  }

  /**
   * `subscribeTo`: register the channel and queue its subscribe attempt.
   * A rejected argument is caught and only logged; an illegal-state failure
   * from `bind` escapes to the caller.
   */
  method SubscribeTo(channel: ChannelImpl?, listener: Option<ListenerId>, eventNames: seq<Option<string>>)
    returns (r: SubscribeOutcome)
    requires Valid()
    requires channel != null ==> channel.factory == factory && channel.Valid()
    modifies this`channelNameToChannel, factory`tasks
    modifies (if channel == null then {} else {channel})`eventNameToListeners,
             (if channel == null then {} else {channel})`eventListener
    ensures Valid()
    ensures channel != null ==> channel.Valid()
    ensures r.Registered? <==>
              channel != null && channel.name !in old(channelNameToChannel)
              && FirstFailure(channel.name, channel.state, eventNames, listener) == |eventNames|
    ensures r.Rejected? ==> r.failure.IllegalArgument?
    ensures r.Thrown? ==> r.failure.IllegalState? && channel != null && channel.state == Unsubscribed
    ensures r.Registered? ==>
              channelNameToChannel == old(channelNameToChannel)[channel.name := channel]
              && channel.eventListener == listener
              && channel.eventNameToListeners == BindEach(old(channel.eventNameToListeners), eventNames, listener)
              && factory.tasks == old(factory.tasks) + [SubscribeTask(channel)]
    ensures !r.Registered? ==>
              channelNameToChannel == old(channelNameToChannel) && factory.tasks == old(factory.tasks)
              && (channel != null ==> channel.eventListener == old(channel.eventListener))
    ensures channel != null && channel.name !in old(channelNameToChannel) ==>
              channel.eventNameToListeners
              == BindEach(old(channel.eventNameToListeners),
                          eventNames[..FirstFailure(channel.name, channel.state, eventNames, listener)], listener)
    ensures channel != null && channel.name in old(channelNameToChannel) ==>
              channel.eventNameToListeners == old(channel.eventNameToListeners)
  {
    var checked := ValidateArgumentsAndBindEvents(channel, listener, eventNames);
    if checked.Fail? {
      if checked.failure.IllegalArgument? {
        return Rejected(checked.failure);
      }
      return Thrown(checked.failure);
    }
    assert eventNames[..|eventNames|] == eventNames;
    channelNameToChannel := channelNameToChannel[channel.name := channel];
    SendOrQueueSubscribeMessage(channel);
    r := Registered;
  }

  /**
   * `unsubscribeFrom`: drop the channel from the registry at once; the
   * unsubscribe command goes out only if the connection is CONNECTED now.
   */
  method UnsubscribeFrom(channelName: Option<string>, listener: Option<ListenerId>) returns (r: Outcome)
    requires Valid()
    requires channelName.Some? && channelName.value in channelNameToChannel ==> connection != null
    modifies this`channelNameToChannel, ChannelsNamed(channelName)`unsubscriptionListener, factory`tasks
    ensures Valid()
    ensures channelName.None? ==>
              r == Fail(IllegalArgument(NULL_UNSUBSCRIBE_CHANNEL_MESSAGE))
              && channelNameToChannel == old(channelNameToChannel) && factory.tasks == old(factory.tasks)
    ensures channelName.Some? ==> r == Pass && channelNameToChannel == old(channelNameToChannel) - {channelName.value}
    ensures channelName.Some? && channelName.value !in old(channelNameToChannel) ==> factory.tasks == old(factory.tasks)
    ensures channelName.Some? && channelName.value in old(channelNameToChannel) ==>
              var channel := old(channelNameToChannel)[channelName.value];
              channel.unsubscriptionListener == listener
              && factory.tasks == old(factory.tasks)
                                  + if connection.state == Connected then [UnsubscribeTask(channel)] else []
  {
    if channelName.None? {
      return Fail(IllegalArgument(NULL_UNSUBSCRIBE_CHANNEL_MESSAGE));
    }
    r := Pass;
    var name := channelName.value;
    if name !in channelNameToChannel {
      return;
    }
    var channel := channelNameToChannel[name];
    channelNameToChannel := channelNameToChannel - {name};
    channel.SetUnsubscribeEventListener(listener);
    if connection.state == Connected {
      SendUnsubscribeMessage(channel);
    }
  }

  /** `onMessage(event, message)`: hand the frame to the channel its `channel` field names, if registered. */
  method OnMessage(event: string, frame: Envelope)
    requires Valid()
    modifies ChannelsNamed(frame.channel)`state, factory`tasks
    ensures GetChannel(frame.channel).None? ==> factory.tasks == old(factory.tasks)
    ensures GetChannel(frame.channel).Some? ==>
              var channel := GetChannel(frame.channel).value;
              channel.state == old(channel.MessageEffect(event, frame)).0
              && factory.tasks == old(factory.tasks) + old(channel.MessageEffect(event, frame)).1
  {
    var found := GetChannel(frame.channel);
    if found.Some? {
      found.value.OnMessage(event, frame);
    }
  }

  /** The manager's connection listener: on every transition into CONNECTED, queue a subscribe attempt per channel. */
  method OnConnectionStateChange(change: ConnectionStateChange) returns (ghost order: seq<ChannelImpl>)
    modifies factory`tasks
    ensures change.currentState == Connected ==>
              Enumerates(order, channelNameToChannel.Values)
              && factory.tasks == old(factory.tasks) + SubscribeTasks(order)
    ensures change.currentState != Connected ==> factory.tasks == old(factory.tasks)
  {
    order := [];
    if change.currentState == Connected {
      order := SubscribeAll(channelNameToChannel.Values);
    }
  }

  /** The loop of `onConnectionStateChange`: queue a subscribe attempt for each of `channels`, in some order. */
  method SubscribeAll(channels: set<ChannelImpl>) returns (ghost order: seq<ChannelImpl>)
    modifies factory`tasks
    ensures Enumerates(order, channels)
    ensures factory.tasks == old(factory.tasks) + SubscribeTasks(order)
  {
    order := [];
    ghost var start := factory.tasks;
    var remaining := channels;
    while remaining != {}
      invariant remaining <= channels
      invariant Enumerates(order, channels - remaining)
      invariant factory.tasks == start + SubscribeTasks(order)
      decreases remaining
    {
      var channel :| channel in remaining;
      EnumeratesTake(order, channels, remaining, channel);
      SubscribeTasksSnoc(order, channel);
      SendOrQueueSubscribeMessage(channel);
      order := order + [channel];
      remaining := remaining - {channel};
    }
  }


  method SendOrQueueSubscribeMessage(channel: ChannelImpl)
    modifies factory`tasks
    ensures factory.tasks == old(factory.tasks) + [SubscribeTask(channel)]
  {
    factory.QueueOnEventThread(SubscribeTask(channel));
  }

  method SendUnsubscribeMessage(channel: ChannelImpl)
    modifies factory`tasks
    ensures factory.tasks == old(factory.tasks) + [UnsubscribeTask(channel)]
  {
    factory.QueueOnEventThread(UnsubscribeTask(channel));
  }

  /** The task `sendOrQueueSubscribeMessage` queues: it acts only if the connection is CONNECTED when it runs. */
  method RunSubscribeTask(channel: ChannelImpl)
    requires Valid() && connection != null && channel.factory == factory
    modifies channel`state, factory`tasks
    ensures connection.state == Connected ==>
              channel.state == SubscribeSent
              && factory.tasks == old(factory.tasks) + [SendMessageTask(channel.ToSubscribeMessage())]
    ensures connection.state != Connected ==>
              channel.state == old(channel.state) && factory.tasks == old(factory.tasks)
  {
    if connection.state == Connected {
      var message := channel.ToSubscribeMessage();
      connection.SendMessage(message);
      channel.UpdateState(SubscribeSent);
    }
  }

  /** The task `sendUnsubscribeMessage` queues: send the command and mark the channel UNSUBSCRIBED. */
  method RunUnsubscribeTask(channel: ChannelImpl)
    requires Valid() && connection != null && channel.factory == factory
    modifies channel`state, factory`tasks
    ensures channel.state == Unsubscribed
    ensures factory.tasks == old(factory.tasks) + [SendMessageTask(channel.ToUnsubscribeMessage())]
                             + old(channel.UpdateTasks(Unsubscribed))
  {
    connection.SendMessage(channel.ToUnsubscribeMessage());
    channel.UpdateState(Unsubscribed);
  }
}
