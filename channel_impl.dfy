/*
 * A public channel: its name, its subscription state, the listeners bound
 * to its event names, and the two listeners that hear about acknowledgements
 * and events.
 */

/** The pieces of the messages of the exceptions `validateArguments` throws, around the channel and event names. */
const BIND_TO_CHANNEL := "Cannot bind or unbind to channel "
const BIND_CHANNEL := "Cannot bind or unbind channel "
const WITH_NULL_EVENT_NAME := " with a null event name"
const WITH_NULL_LISTENER := " with a null listener"
const WITH_INTERNAL_EVENT_NAME := " with an internal event name such as "
const UNSUBSCRIBED_CHANNEL_MESSAGE := "Cannot bind or unbind to events on a channel that has been unsubscribed. "
                                      + "Call Pusher.subscribe() to resubscribe to this channel"

/** The message of the exception a channel with a null name is refused with. */
const NULL_CHANNEL_NAME_MESSAGE := "Cannot subscribe to a channel with a null name"

/** Whether `validateArguments` lets a `bind` or `unbind` call through, checking in the source's order. */
function ValidateArguments(channelName: string, state: ChannelState,
                           eventName: Option<string>, listener: Option<ListenerId>): (r: Outcome)
  ensures r.Pass? <==> (eventName.Some? && listener.Some?
                        && !StartsWith(eventName.value, INTERNAL_EVENT_PREFIX) && state != Unsubscribed)
  ensures (r.Fail? && r.failure.IllegalState?) <==> (eventName.Some? && listener.Some?
                        && !StartsWith(eventName.value, INTERNAL_EVENT_PREFIX) && state == Unsubscribed)
{
  if eventName.None? then Fail(IllegalArgument(BIND_TO_CHANNEL + channelName + WITH_NULL_EVENT_NAME))
  else if listener.None? then Fail(IllegalArgument(BIND_TO_CHANNEL + channelName + WITH_NULL_LISTENER))
  else if StartsWith(eventName.value, INTERNAL_EVENT_PREFIX) then
    Fail(IllegalArgument(BIND_CHANNEL + channelName + WITH_INTERNAL_EVENT_NAME + eventName.value))
  else if state == Unsubscribed then Fail(IllegalState(UNSUBSCRIBED_CHANNEL_MESSAGE))
  else Pass
}

/** Listener `l` is bound to event name `e`. */
predicate Bound(m: map<string, set<ListenerId>>, e: string, l: ListenerId)
{
  e in m && l in m[e]
}

/** No event name maps to an empty set: `unbind` prunes emptied sets. */
predicate NoEmptySets(m: map<string, set<ListenerId>>)
{
  forall e | e in m :: m[e] != {}
}

/** The listener map after `bind(e, l)` succeeds. */
function BindListener(m: map<string, set<ListenerId>>, e: string, l: ListenerId): (r: map<string, set<ListenerId>>)
  ensures forall e', l' :: Bound(r, e', l') <==> Bound(m, e', l') || (e' == e && l' == l)
  ensures r.Keys == m.Keys + {e}
  ensures NoEmptySets(m) ==> NoEmptySets(r)
{
  m[e := (if e in m then m[e] else {}) + {l}]
}

/** The listener map after `unbind(e, l)` succeeds. */
function UnbindListener(m: map<string, set<ListenerId>>, e: string, l: ListenerId): (r: map<string, set<ListenerId>>)
  ensures forall e', l' :: Bound(r, e', l') <==> Bound(m, e', l') && !(e' == e && l' == l)
  ensures e in r <==> e in m && m[e] - {l} != {}
  ensures r.Keys - {e} == m.Keys - {e}
  ensures NoEmptySets(m) ==> NoEmptySets(r)
{
  if e !in m then m
  else if m[e] - {l} == {} then
    assert forall l' | l' in m[e] :: l' in m[e] - {l} || l' == l;
    m - {e}
  else m[e := m[e] - {l}]
}

/** Binding the same pair twice has no further effect. */
lemma BindIdempotent(m: map<string, set<ListenerId>>, e: string, l: ListenerId)
  ensures BindListener(BindListener(m, e, l), e, l) == BindListener(m, e, l)
{
  var once := BindListener(m, e, l);
  assert once[e] + {l} == once[e];
}

/** Unbinding a pair that is not bound leaves a pruned map unchanged. */
lemma UnbindUnbound(m: map<string, set<ListenerId>>, e: string, l: ListenerId)
  requires NoEmptySets(m) && !Bound(m, e, l)
  ensures UnbindListener(m, e, l) == m
{
  if e in m {
    assert m[e] - {l} == m[e];
    assert m[e := m[e]] == m;
  }
}

/** `unbind` undoes a `bind` of a pair that was not bound before. */
lemma UnbindAfterBind(m: map<string, set<ListenerId>>, e: string, l: ListenerId)
  requires NoEmptySets(m) && !Bound(m, e, l)
  ensures UnbindListener(BindListener(m, e, l), e, l) == m
{
  var r := UnbindListener(BindListener(m, e, l), e, l);
  assert r.Keys == m.Keys;
  forall e' | e' in m
    ensures r[e'] == m[e']
  {
    if e' == e {
      assert r[e] == m[e] + {l} - {l};
    }
  }
}

/** Java's `String.compareTo`: the difference of the first differing characters, else of the lengths. */
function CompareStrings(a: string, b: string): (r: int)
  ensures r == 0 <==> a == b
{
  if a == [] || b == [] then |a| - |b|
  else if a[0] != b[0] then a[0] as int - b[0] as int
  else
    assert a == [a[0]] + a[1..] && b == [b[0]] + b[1..];
    CompareStrings(a[1..], b[1..])
}

lemma {:induction false} CompareAntisymmetric(a: string, b: string)
  ensures CompareStrings(a, b) == -CompareStrings(b, a)
{
  if a != [] && b != [] && a[0] == b[0] {
    CompareAntisymmetric(a[1..], b[1..]);
  }
}

lemma {:induction false} CompareTransitive(a: string, b: string, c: string)
  requires CompareStrings(a, b) < 0 && CompareStrings(b, c) < 0
  ensures CompareStrings(a, c) < 0
{
  if a != [] && b != [] && c != [] && a[0] == b[0] && b[0] == c[0] {
    CompareTransitive(a[1..], b[1..], c[1..]);
  }
}

/*
 * The fixed text of the two commands up to the channel name. The channel name
 * is the only part that varies, so the commands are written as this text,
 * the quoted name and the closing brace.
 */
const SUBSCRIBE_COMMAND_HEAD :=
  "{" + ("\"" + COMMAND + "\"") + ":" + ("\"" + SUBSCRIBE + "\"") + "," + ("\"" + CHANNEL + "\"") + ":"
const UNSUBSCRIBE_COMMAND_HEAD :=
  "{" + ("\"" + COMMAND + "\"") + ":" + ("\"" + UNSUBSCRIBE + "\"") + "," + ("\"" + CHANNEL + "\"") + ":"

/** The keys and values the commands use are written as themselves between quotes. */
lemma PlainQuote(s: string)
  requires s in {COMMAND, SUBSCRIBE, UNSUBSCRIBE, CHANNEL}
  ensures Json.Quote(s) == "\"" + s + "\""
{
  forall i | 0 <= i < |s|
    ensures Json.EscapeChar(s[i]) == [s[i]]
  {
    assert 'a' <= s[i] <= 'z';
  }
  EscapePlain(s);
}

/** A string with nothing to escape is written as itself. */
lemma {:induction false} EscapePlain(s: string)
  requires forall i | 0 <= i < |s| :: Json.EscapeChar(s[i]) == [s[i]]
  ensures Json.Escape(s) == s
{
  if s != [] {
    EscapePlain(s[1..]);
    assert s == [s[0]] + s[1..];
  }
}

/** An object whose first three strings need no escaping starts with fixed text. */
lemma Object2OfPlain(k1: string, v1: string, k2: string, v2: string)
  requires Json.Quote(k1) == "\"" + k1 + "\"" && Json.Quote(v1) == "\"" + v1 + "\"" && Json.Quote(k2) == "\"" + k2 + "\""
  ensures Json.Object2(k1, v1, k2, v2)
       == "{" + ("\"" + k1 + "\"") + ":" + ("\"" + v1 + "\"") + "," + ("\"" + k2 + "\"") + ":" + Json.Quote(v2) + "}"
{
}

/** The subscribe head is what Gson writes for the constant keys and value. */
lemma SubscribeHead(name: string)
  ensures SUBSCRIBE_COMMAND_HEAD + Json.Quote(name) + "}" == Json.Object2(COMMAND, SUBSCRIBE, CHANNEL, name)
{
  PlainQuote(COMMAND);
  PlainQuote(SUBSCRIBE);
  PlainQuote(CHANNEL);
  Object2OfPlain(COMMAND, SUBSCRIBE, CHANNEL, name);
}

/** The unsubscribe head is what Gson writes for the constant keys and value. */
lemma UnsubscribeHead(name: string)
  ensures UNSUBSCRIBE_COMMAND_HEAD + Json.Quote(name) + "}" == Json.Object2(COMMAND, UNSUBSCRIBE, CHANNEL, name)
{
  PlainQuote(COMMAND);
  PlainQuote(UNSUBSCRIBE);
  PlainQuote(CHANNEL);
  Object2OfPlain(COMMAND, UNSUBSCRIBE, CHANNEL, name);
}

class ChannelImpl {
  const name: string
  const factory: Factory
  var state: ChannelState
  var eventNameToListeners: map<string, set<ListenerId>>
  var eventListener: Option<ListenerId>
  var unsubscriptionListener: Option<ListenerId>

  /** The listener map never keeps an event name whose set has been emptied. */
  ghost predicate Valid()
    reads this`eventNameToListeners
  {
    NoEmptySets(eventNameToListeners)
  }

  constructor (channelName: string, factory: Factory)
    ensures Valid()
    ensures name == channelName && this.factory == factory
    ensures state == Initial && eventNameToListeners == map[]
    ensures eventListener == None && unsubscriptionListener == None
  {
    name := channelName;
    this.factory := factory;
    state := Initial;
    eventNameToListeners := map[];
    eventListener, unsubscriptionListener := None, None;
  }

  /** `new ChannelImpl(channelName, factory)`, which refuses a null name. */
  static method NewChannel(channelName: Option<string>, factory: Factory) returns (r: Result<ChannelImpl>)
    ensures r.Ok? <==> channelName.Some?
    ensures r.Err? ==> r.failure == IllegalArgument(NULL_CHANNEL_NAME_MESSAGE)
    ensures r.Ok? ==> fresh(r.value) && r.value.name == channelName.value && r.value.factory == factory
                      && r.value.state == Initial && r.value.eventNameToListeners == map[]
                      && r.value.eventListener.None? && r.value.unsubscriptionListener.None?
                      && r.value.Valid()
  {
    if channelName.None? {
      return Err(IllegalArgument(NULL_CHANNEL_NAME_MESSAGE));
    }
    var channel := new ChannelImpl(channelName.value, factory);
    return Ok(channel);
  }

  method Bind(eventName: Option<string>, listener: Option<ListenerId>) returns (r: Outcome)
    requires Valid()
    modifies this`eventNameToListeners
    ensures Valid()
    ensures r == ValidateArguments(name, state, eventName, listener)
    ensures eventNameToListeners == if r.Pass? then BindListener(old(eventNameToListeners), eventName.value, listener.value)
                                    else old(eventNameToListeners)
  {
    r := ValidateArguments(name, state, eventName, listener);
    if r.Pass? {
      AddListener(eventName.value, listener.value);
    }
  }

  /** The map update `bind` makes once its arguments are valid. */
  method AddListener(e: string, l: ListenerId)
    requires Valid()
    modifies this`eventNameToListeners
    ensures Valid()
    ensures eventNameToListeners == BindListener(old(eventNameToListeners), e, l)
  {
    var listeners := if e in eventNameToListeners then eventNameToListeners[e] else {};
    eventNameToListeners := eventNameToListeners[e := listeners + {l}];
  }

  method Unbind(eventName: Option<string>, listener: Option<ListenerId>) returns (r: Outcome)
    requires Valid()
    modifies this`eventNameToListeners
    ensures Valid()
    ensures r == ValidateArguments(name, state, eventName, listener)
    ensures eventNameToListeners == if r.Pass? then UnbindListener(old(eventNameToListeners), eventName.value, listener.value)
                                    else old(eventNameToListeners)
  {
    r := ValidateArguments(name, state, eventName, listener);
    if r.Pass? {
      RemoveListener(eventName.value, listener.value);
    }
  }

  /** The map update `unbind` makes once its arguments are valid: an emptied set is dropped. */
  method RemoveListener(e: string, l: ListenerId)
    requires Valid()
    modifies this`eventNameToListeners
    ensures Valid()
    ensures eventNameToListeners == UnbindListener(old(eventNameToListeners), e, l)
  {
    if e in eventNameToListeners {
      var listeners := eventNameToListeners[e] - {l};
      if listeners == {} {
        eventNameToListeners := eventNameToListeners - {e};
      } else {
        eventNameToListeners := eventNameToListeners[e := listeners];
      }
    }
  }

  function IsSubscribed(): (r: bool)
    reads this
    ensures r <==> state == Subscribed
  {
    state.Subscribed?
  }

  /** The command asking the server to subscribe this channel. */
  function ToSubscribeMessage(): string
  {
    SUBSCRIBE_COMMAND_HEAD + Json.Quote(name) + "}"
  }

  /** The command asking the server to unsubscribe this channel. */
  function ToUnsubscribeMessage(): string
  {
    UNSUBSCRIBE_COMMAND_HEAD + Json.Quote(name) + "}"
  }

  /** The subscribe command is the JSON object mapping "command" to "subscribe" and "channel" to the name. */
  lemma ToSubscribeMessageParses()
    ensures ToSubscribeMessage() == Json.Object2(COMMAND, SUBSCRIBE, CHANNEL, name)
    ensures Json.ParseObject2(ToSubscribeMessage()) == Some((COMMAND, SUBSCRIBE, CHANNEL, name))
  {
    SubscribeHead(name);
    Json.ParseObject2OfObject2(COMMAND, SUBSCRIBE, CHANNEL, name);
  }

  /** The unsubscribe command is the JSON object mapping "command" to "unsubscribe" and "channel" to the name. */
  lemma ToUnsubscribeMessageParses()
    ensures ToUnsubscribeMessage() == Json.Object2(COMMAND, UNSUBSCRIBE, CHANNEL, name)
    ensures Json.ParseObject2(ToUnsubscribeMessage()) == Some((COMMAND, UNSUBSCRIBE, CHANNEL, name))
  {
    UnsubscribeHead(name);
    Json.ParseObject2OfObject2(COMMAND, UNSUBSCRIBE, CHANNEL, name);
  }

  /** Different channels are told apart by their subscribe and unsubscribe commands. */
  lemma CommandsIdentifyChannel(other: ChannelImpl)
    ensures ToSubscribeMessage() == other.ToSubscribeMessage() <==> name == other.name
    ensures ToUnsubscribeMessage() == other.ToUnsubscribeMessage() <==> name == other.name
    ensures ToSubscribeMessage() != other.ToUnsubscribeMessage()
  {
    ToSubscribeMessageParses();
    ToUnsubscribeMessageParses();
    other.ToSubscribeMessageParses();
    other.ToUnsubscribeMessageParses();
  }

  /** `compareTo`: channels are ordered by name. */
  function CompareTo(other: ChannelImpl): (r: int)
    ensures r == 0 <==> name == other.name
    ensures r == -CompareStrings(other.name, name)
  {
    CompareAntisymmetric(name, other.name);
    CompareStrings(name, other.name)
  }

  /** The callback tasks `updateState(s)` queues, given the listeners set now. */
  function UpdateTasks(s: ChannelState): (r: seq<Task>)
    reads this
    ensures s == Subscribed ==> r == (if eventListener.Some? then [SubscriptionSucceededTask(this)] else [])
    ensures s == Unsubscribed ==> r == (if unsubscriptionListener.Some? then [UnsubscribedTask(this)] else [])
    ensures s != Subscribed && s != Unsubscribed ==> r == []
    ensures r != [] <==> (s == Subscribed && eventListener.Some?) || (s == Unsubscribed && unsubscriptionListener.Some?)
  {
    if s == Subscribed && eventListener.Some? then [SubscriptionSucceededTask(this)]
    else if s == Unsubscribed && unsubscriptionListener.Some? then [UnsubscribedTask(this)]
    else []
  }

  /** The state `onMessage(event, ...)` leaves and the tasks it queues. */
  function MessageEffect(event: string, message: Envelope): (r: (ChannelState, seq<Task>))
    reads this
    ensures event == SUBSCRIPTION_SUCCESS_EVENT ==> r == (Subscribed, UpdateTasks(Subscribed))
    ensures event == UNSUBSCRIPTION_SUCCESS_EVENT ==> r == (Unsubscribed, UpdateTasks(Unsubscribed))
    ensures event != SUBSCRIPTION_SUCCESS_EVENT && event != UNSUBSCRIPTION_SUCCESS_EVENT ==>
              r == (state, [EventTask(this, event, message)])
  {
    if event == SUBSCRIPTION_SUCCESS_EVENT then (Subscribed, UpdateTasks(Subscribed))
    else if event == UNSUBSCRIPTION_SUCCESS_EVENT then (Unsubscribed, UpdateTasks(Unsubscribed))
    else (state, [EventTask(this, event, ExtractDataFrom(message))])
  }

  /** Every task a frame queues for this channel is a task on this channel. */
  lemma MessageEffectOwnTasks(event: string, message: Envelope)
    ensures forall t | t in MessageEffect(event, message).1 :: t.HasChannel() && t.channel == this
  {
  }

  method UpdateState(newState: ChannelState)
    modifies this`state, factory`tasks
    ensures state == newState
    ensures factory.tasks == old(factory.tasks) + old(UpdateTasks(newState))
  {
    state := newState;
    if newState == Subscribed && eventListener.Some? {
      factory.QueueOnEventThread(SubscriptionSucceededTask(this));
    } else if newState == Unsubscribed && unsubscriptionListener.Some? {
      factory.QueueOnEventThread(UnsubscribedTask(this));
    }
  }

  /** `onMessage(event, message)`: acknowledgements move the state; any other event goes to the event listener. */
  method OnMessage(event: string, message: Envelope)
    modifies this`state, factory`tasks
    ensures state == old(MessageEffect(event, message)).0
    ensures factory.tasks == old(factory.tasks) + old(MessageEffect(event, message)).1
  {
    if event == SUBSCRIPTION_SUCCESS_EVENT {
      UpdateState(Subscribed);
    } else if event == UNSUBSCRIPTION_SUCCESS_EVENT {
      UpdateState(Unsubscribed);
    } else {
      var data := ExtractDataFrom(message);
      factory.QueueOnEventThread(EventTask(this, event, data));
    }
  }

  method SetEventListener(listener: Option<ListenerId>)
    modifies this`eventListener
    ensures eventListener == listener
  {
    eventListener := listener;
  }

  method SetUnsubscribeEventListener(listener: Option<ListenerId>)
    modifies this`unsubscriptionListener
    ensures unsubscriptionListener == listener
  {
    unsubscriptionListener := listener;
  }

  /*
   * The bodies of the tasks the channel queues. Each reads the listener
   * field when it runs; a listener that is null by then means the task
   * fails and nothing reaches application code.
   */

  method RunEventTask(event: string, data: Envelope)
    modifies factory`delivered
    ensures factory.delivered == old(factory.delivered)
              + if eventListener.Some? then [OnEvent(eventListener.value, name, event, data)] else []
  {
    if eventListener.Some? {
      factory.Deliver(OnEvent(eventListener.value, name, event, data));
    }
  }

  method RunSubscriptionSucceededTask()
    modifies factory`delivered
    ensures factory.delivered == old(factory.delivered)
              + if eventListener.Some? then [OnSubscriptionSucceeded(eventListener.value, name)] else []
  {
    if eventListener.Some? {
      factory.Deliver(OnSubscriptionSucceeded(eventListener.value, name));
    }
  }

  method RunUnsubscribedTask()
    modifies factory`delivered
    ensures factory.delivered == old(factory.delivered)
              + if unsubscriptionListener.Some? then [OnUnsubscribed(unsubscriptionListener.value, name)] else []
  {
    if unsubscriptionListener.Some? {
      factory.Deliver(OnUnsubscribed(unsubscriptionListener.value, name));
    }
  }
}

/** `extractDataFrom`: the data handed to the event listener is the whole message. */
function ExtractDataFrom(message: Envelope): (data: Envelope)
  ensures data == message
{
  message
}
