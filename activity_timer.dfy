/*
 * The connection's heartbeat: any traffic from the server re-arms a ping
 * timer; a ping that fires sends a ping and arms a pong timer; a pong timer
 * that fires gives up on the connection. In this model a timer task runs as
 * one step, so the two timer tasks are never waiting at the same time.
 */

class ActivityTimer {
  const activityTimeout: int64
  const pongTimeout: int64
  const factory: Factory
  var pingTimer: Option<nat>
  var pongTimer: Option<nat>

  /** Each slot names the only task of its kind that can still be waiting, and at most one kind is waiting. */
  ghost predicate Valid()
    reads this`pingTimer, this`pongTimer, factory`timers
  {
    && (pingTimer.Some? ==> pingTimer.value < |factory.timers| && factory.timers[pingTimer.value].kind == PingTimer)
    && (pongTimer.Some? ==> pongTimer.value < |factory.timers| && factory.timers[pongTimer.value].kind == PongTimer)
    && Pending(factory.timers, PingTimer) <= (if pingTimer.Some? then {pingTimer.value} else {})
    && Pending(factory.timers, PongTimer) <= (if pongTimer.Some? then {pongTimer.value} else {})
    && (Pending(factory.timers, PingTimer) == {} || Pending(factory.timers, PongTimer) == {})
  }

  constructor (activityTimeout: int64, pongTimeout: int64, factory: Factory)
    requires Pending(factory.timers, PingTimer) == {} && Pending(factory.timers, PongTimer) == {}
    ensures this.activityTimeout == activityTimeout && this.pongTimeout == pongTimeout && this.factory == factory
    ensures pingTimer.None? && pongTimer.None?
    ensures Valid()
  {
    this.activityTimeout := activityTimeout;
    this.pongTimeout := pongTimeout;
    this.factory := factory;
    pingTimer, pongTimer := None, None;
  }

  /** Cancels the task in `slot`, if there is one. */
  method CancelSlot(slot: Option<nat>, kind: TimerKind)
    requires slot.Some? ==> slot.value < |factory.timers| && factory.timers[slot.value].kind == kind
    modifies factory`timers
    ensures |factory.timers| == |old(factory.timers)|
    ensures forall h | 0 <= h < |factory.timers| :: factory.timers[h].kind == old(factory.timers)[h].kind
    ensures forall k :: Pending(factory.timers, k)
                        == Pending(old(factory.timers), k) - if slot.Some? then {slot.value} else {}
  {
    if slot.Some? {
      var ts := factory.timers;
      factory.Cancel(slot.value);
      forall k
        ensures Pending(factory.timers, k) == Pending(ts, k) - {slot.value}
      {
        if ts[slot.value].status == Scheduled {
          PendingSettle(ts, slot.value, Cancelled, k);
        } else {
          assert slot.value !in Pending(ts, k);
        }
      }
    }
  }

  /** `activity()`: drop any pong check and re-arm the ping. */
  method Activity()
    requires Valid()
    modifies this`pingTimer, factory`timers
    ensures Valid()
    ensures pingTimer.Some? && Pending(factory.timers, PingTimer) == {pingTimer.value}
    ensures Pending(factory.timers, PongTimer) == {}
    ensures factory.timers[pingTimer.value].delay == activityTimeout
  {
    CancelSlot(pongTimer, PongTimer);
    CancelSlot(pingTimer, PingTimer);
    var ts := factory.timers;
    var future := factory.Schedule(PingTimer, activityTimeout);
    PendingAppend(ts, TimerEntry(PingTimer, activityTimeout, Scheduled), PingTimer);
    PendingAppend(ts, TimerEntry(PingTimer, activityTimeout, Scheduled), PongTimer);
    pingTimer := Some(future);
  }

  /** `cancelTimeouts()`: nothing is left waiting. */
  method CancelTimeouts()
    requires Valid()
    modifies factory`timers
    ensures Valid()
    ensures Pending(factory.timers, PingTimer) == {} && Pending(factory.timers, PongTimer) == {}
  {
    CancelSlot(pingTimer, PingTimer);
    CancelSlot(pongTimer, PongTimer);
  }

  /** `schedulePongCheck()`, called once the ping task has started: arm the pong check. */
  method SchedulePongCheck()
    requires Valid() && Pending(factory.timers, PingTimer) == {}
    modifies this`pongTimer, factory`timers
    ensures Valid()
    ensures pongTimer.Some? && Pending(factory.timers, PongTimer) == {pongTimer.value}
    ensures Pending(factory.timers, PingTimer) == {}
    ensures factory.timers[pongTimer.value].delay == pongTimeout
  {
    CancelSlot(pongTimer, PongTimer);
    var ts := factory.timers;
    var future := factory.Schedule(PongTimer, pongTimeout);
    PendingAppend(ts, TimerEntry(PongTimer, pongTimeout, Scheduled), PingTimer);
    PendingAppend(ts, TimerEntry(PongTimer, pongTimeout, Scheduled), PongTimer);
    pongTimer := Some(future);
  }
}
