/*
 * The classes of the client refer to one another through the shared factory
 * (the event thread, the timers, the channel manager), so they live together
 * in the default module, spread over several files; these imports serve all
 * of them.
 */
import opened Protocol
import opened ConnectionStateChanges
import opened Json
import opened Options

/** A listener registered on the connection: the channel manager itself, or application code. */
datatype ConnectionListener = ChannelManagerListener | AppListener(id: ListenerId)

/** The exception handed to `onError`, if any. */
datatype Cause = NoException | SslException | SendException | TransportException

/** What an error callback reports: a message, a code and the exception, each possibly absent. */
datatype ErrorReport = ErrorReport(message: Option<string>, code: Option<string>, cause: Cause)

/** A callback into application code, in the order the event thread made it. */
datatype Callback =
  | OnConnectionStateChange(listener: ListenerId, change: ConnectionStateChange)
  | OnError(listener: ListenerId, error: ErrorReport)
  | OnSubscriptionSucceeded(listener: ListenerId, channelName: string)
  | OnUnsubscribed(listener: ListenerId, channelName: string)
  | OnEvent(listener: ListenerId, channelName: string, eventName: string, data: Envelope)

/**
 * One task queued on the event thread: the body of one of the client's
 * anonymous `Runnable`s, with the values it captured. Tasks that act on a
 * channel hold the channel object and read its fields when they run.
 */
datatype Task =
  | ConnectTask
  | DisconnectTask
  | SendMessageTask(text: string)
  | InboundTask(frame: Envelope)
  | CloseTask
  | TransportErrorTask
  | StateChangeTask(listener: ConnectionListener, change: ConnectionStateChange)
  | ErrorTask(listener: ConnectionListener, error: ErrorReport)
  | SubscribeTask(channel: ChannelImpl)
  | UnsubscribeTask(channel: ChannelImpl)
  | EventTask(channel: ChannelImpl, eventName: string, data: Envelope)
  | SubscriptionSucceededTask(channel: ChannelImpl)
  | UnsubscribedTask(channel: ChannelImpl)
{
  predicate HasChannel()
  {
    SubscribeTask? || UnsubscribeTask? || EventTask? || SubscriptionSucceededTask? || UnsubscribedTask?
  }
}

/** The two heartbeat timers of a connection. */
datatype TimerKind = PingTimer | PongTimer

/** The state of a scheduled timer task, as its `Future` reports it. */
datatype TimerStatus = Scheduled | Cancelled | Ran

datatype TimerEntry = TimerEntry(kind: TimerKind, delay: int64, status: TimerStatus)

/** Handles of the timer tasks of one kind that are still waiting to run. */
function Pending(timers: seq<TimerEntry>, kind: TimerKind): set<nat>
{
  set h | 0 <= h < |timers| && timers[h].status == Scheduled && timers[h].kind == kind
}

/** `xs` lists every element of `s` exactly once, in some order. */
ghost predicate Enumerates<T>(xs: seq<T>, s: set<T>)
{
  && (forall i, j | 0 <= i < j < |xs| :: xs[i] != xs[j])
  && (forall x | x in s :: x in xs)
  && (forall i | 0 <= i < |xs| :: xs[i] in s)
}

/** Taking one more element out of `remaining` extends the enumeration of what was taken. */
lemma EnumeratesTake<T>(xs: seq<T>, s: set<T>, remaining: set<T>, x: T)
  requires Enumerates(xs, s - remaining) && remaining <= s && x in remaining
  ensures Enumerates(xs + [x], s - (remaining - {x}))
{
  var ys := xs + [x];
  assert ys[|xs|] == x;
  assert forall i | 0 <= i < |xs| :: ys[i] == xs[i] && xs[i] != x;
  forall y | y in s - (remaining - {x})
    ensures y in ys
  {
    if y != x {
      assert y in xs;
    }
  }
}

/** Every queued task that acts on a channel acts on one created with factory `f`. */
ghost predicate TaskChannelsOf(tasks: seq<Task>, f: Factory)
{
  forall t | t in tasks :: t.HasChannel() ==> t.channel.factory == f
}

/** Appending tasks whose channels belong to `f` keeps the queue's channels within `f`. */
lemma TaskChannelsOfAppend(tasks: seq<Task>, extra: seq<Task>, f: Factory)
  requires TaskChannelsOf(tasks, f) && TaskChannelsOf(extra, f)
  ensures TaskChannelsOf(tasks + extra, f)
{
}

/** A queue that only grew keeps its channels within `f` if the added tasks do. */
lemma TaskChannelsOfGrown(before: seq<Task>, after: seq<Task>, f: Factory)
  requires TaskChannelsOf(before, f) && before <= after && TaskChannelsOf(after[|before|..], f)
  ensures TaskChannelsOf(after, f)
{
  assert after == before + after[|before|..];
}

/** Callbacks to connection listeners act on no channel. */
lemma ListenerTasksHaveNoChannel(listeners: seq<ConnectionListener>, change: ConnectionStateChange,
                                 error: ErrorReport, f: Factory)
  ensures TaskChannelsOf(StateChangeTasks(listeners, change), f)
  ensures TaskChannelsOf(ErrorTasks(listeners, error), f)
{
}

function StateChangeTasks(listeners: seq<ConnectionListener>, change: ConnectionStateChange): (r: seq<Task>)
  ensures |r| == |listeners|
  ensures forall i | 0 <= i < |r| :: r[i] == StateChangeTask(listeners[i], change)
{
  if listeners == [] then []
  else StateChangeTasks(listeners[..|listeners| - 1], change) + [StateChangeTask(listeners[|listeners| - 1], change)]
}

function ErrorTasks(listeners: seq<ConnectionListener>, error: ErrorReport): (r: seq<Task>)
  ensures |r| == |listeners|
  ensures forall i | 0 <= i < |r| :: r[i] == ErrorTask(listeners[i], error)
{
  if listeners == [] then []
  else ErrorTasks(listeners[..|listeners| - 1], error) + [ErrorTask(listeners[|listeners| - 1], error)]
}

function SubscribeTasks(channels: seq<ChannelImpl>): (r: seq<Task>)
  ensures |r| == |channels|
  ensures forall i | 0 <= i < |r| :: r[i] == SubscribeTask(channels[i])
{
  if channels == [] then []
  else SubscribeTasks(channels[..|channels| - 1]) + [SubscribeTask(channels[|channels| - 1])]
}

/**
 * What the client gets from the factory, which is not part of this model:
 * the single event thread (a FIFO of tasks drained one at a time), the
 * timer service (scheduled tasks and their futures, a future being an index
 * into `timers`), and a log of the callbacks made into application code.
 */
class Factory {
  var tasks: seq<Task>
  var timers: seq<TimerEntry>
  var delivered: seq<Callback>

  constructor ()
    ensures tasks == [] && timers == [] && delivered == []
  {
    tasks, timers, delivered := [], [], [];
  }

  /** `queueOnEventThread`: the task runs after every task queued before it. */
  method QueueOnEventThread(task: Task)
    modifies this`tasks
    ensures tasks == old(tasks) + [task]
  {
    tasks := tasks + [task];
  }

  /** The event thread takes the oldest task. */
  method TakeNext() returns (task: Task)
    requires tasks != []
    modifies this`tasks
    ensures task == old(tasks)[0] && tasks == old(tasks)[1..]
  {
    task := tasks[0];
    tasks := tasks[1..];
  }

  /** `getTimers().schedule(...)`: returns the new task's future. */
  method Schedule(kind: TimerKind, delay: int64) returns (future: nat)
    modifies this`timers
    ensures future == |old(timers)| && timers == old(timers) + [TimerEntry(kind, delay, Scheduled)]
  {
    future := |timers|;
    timers := timers + [TimerEntry(kind, delay, Scheduled)];
  }

  /** `Future.cancel`: a task still waiting never runs; a task that already ran is unaffected. */
  method Cancel(future: nat)
    requires future < |timers|
    modifies this`timers
    ensures timers == if old(timers)[future].status == Scheduled
                      then old(timers)[future := old(timers)[future].(status := Cancelled)]
                      else old(timers)
  {
    if timers[future].status == Scheduled {
      timers := timers[future := timers[future].(status := Cancelled)];
    }
  }

  /** The timer service starts a waiting task. */
  method StartTimer(future: nat)
    requires future < |timers| && timers[future].status == Scheduled
    modifies this`timers
    ensures timers == old(timers)[future := old(timers)[future].(status := Ran)]
  {
    timers := timers[future := timers[future].(status := Ran)];
  }

  method Deliver(callback: Callback)
    modifies this`delivered
    ensures delivered == old(delivered) + [callback]
  {
    delivered := delivered + [callback];
  }
}

lemma PendingAppend(timers: seq<TimerEntry>, entry: TimerEntry, kind: TimerKind)
  ensures Pending(timers + [entry], kind)
       == Pending(timers, kind) + if entry.status == Scheduled && entry.kind == kind then {|timers|} else {}
{
  var ts := timers + [entry];
  forall h | h in Pending(timers, kind)
    ensures h in Pending(ts, kind)
  {
    assert ts[h] == timers[h];
  }
  forall h | h in Pending(ts, kind) && h != |timers|
    ensures h in Pending(timers, kind)
  {
    assert ts[h] == timers[h];
  }
}

lemma PendingSettle(timers: seq<TimerEntry>, future: nat, status: TimerStatus, kind: TimerKind)
  requires future < |timers| && status != Scheduled
  ensures Pending(timers[future := timers[future].(status := status)], kind) == Pending(timers, kind) - {future}
{
  var ts := timers[future := timers[future].(status := status)];
  forall h | h in Pending(timers, kind) - {future}
    ensures h in Pending(ts, kind)
  {
    assert ts[h] == timers[h];
  }
}

lemma StateChangeTasksSnoc(listeners: seq<ConnectionListener>, listener: ConnectionListener, change: ConnectionStateChange)
  ensures StateChangeTasks(listeners + [listener], change)
       == StateChangeTasks(listeners, change) + [StateChangeTask(listener, change)]
{
  assert (listeners + [listener])[..|listeners|] == listeners;
}

lemma ErrorTasksSnoc(listeners: seq<ConnectionListener>, listener: ConnectionListener, error: ErrorReport)
  ensures ErrorTasks(listeners + [listener], error) == ErrorTasks(listeners, error) + [ErrorTask(listener, error)]
{
  assert (listeners + [listener])[..|listeners|] == listeners;
}

lemma SubscribeTasksSnoc(channels: seq<ChannelImpl>, channel: ChannelImpl)
  ensures SubscribeTasks(channels + [channel]) == SubscribeTasks(channels) + [SubscribeTask(channel)]
{
  assert (channels + [channel])[..|channels|] == channels;
}
