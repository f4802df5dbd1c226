/**
 * An immutable record of one connection state transition. The constructor
 * refuses a "transition" to the state it starts from; equality compares
 * both states and hashing adds the two states' hash codes.
 */
module ConnectionStateChanges {
  import opened Protocol

  datatype ConnectionStateChange = ConnectionStateChange(previousState: ConnectionState, currentState: ConnectionState)

  /** The message of the exception the constructor throws for a non-transition, less the state's name. */
  const SAME_STATE_MESSAGE_PREFIX :=
    "Attempted to create an com.websocket.client.connection state update where both previous and current state are: "

  /** `new ConnectionStateChange(previous, current)`: throws when the two states are equal. */
  function NewStateChange(previous: ConnectionState, current: ConnectionState): (r: Result<ConnectionStateChange>)
    ensures r.Ok? <==> previous != current
    ensures r.Ok? ==> r.value.previousState == previous && r.value.currentState == current
    ensures r.Err? ==> r.failure.IllegalArgument?
  {
    if previous == current then Err(IllegalArgument(SAME_STATE_MESSAGE_PREFIX + StateName(current)))
    else
      Ok(ConnectionStateChange(previous, current))
  }

  /** Whatever `equals` may be handed: null, another state change, or an object of another class. */
  datatype JavaObject = Null | StateChangeObject(change: ConnectionStateChange) | OtherObject

  /** `equals(obj)`. */
  function Equals(self: ConnectionStateChange, obj: JavaObject): (r: bool)
    ensures r <==> obj.StateChangeObject?
                   && obj.change.previousState == self.previousState
                   && obj.change.currentState == self.currentState
  {
    match obj
    case StateChangeObject(other) =>
      self.currentState == other.currentState && self.previousState == other.previousState
    case _ => false
  }

  /** Java `int` addition, which wraps around modulo 2^32. */
  function AddInt32(a: int32, b: int32): (r: int32)
    ensures r as int == a as int + b as int
            || r as int == a as int + b as int - 0x1_0000_0000
            || r as int == a as int + b as int + 0x1_0000_0000
  {
    var s := a as int + b as int;
    if s >= 0x8000_0000 then (s - 0x1_0000_0000) as int32
    else if s < -0x8000_0000 then (s + 0x1_0000_0000) as int32
    else s as int32
  }

  /**
   * `hashCode()`. The hash code of an enum constant is its identity hash,
   * which the program does not choose, so it is a parameter here.
   */
  function HashCode(self: ConnectionStateChange, stateHash: ConnectionState -> int32): (r: int32)
    ensures (r as int - (stateHash(self.previousState) as int + stateHash(self.currentState) as int)) % 0x1_0000_0000 == 0
    ensures r == AddInt32(stateHash(self.currentState), stateHash(self.previousState))
  {
    AddInt32(stateHash(self.previousState), stateHash(self.currentState))
  }

  lemma EqualsReflexive(c: ConnectionStateChange)
    ensures Equals(c, StateChangeObject(c))
  {
  }

  lemma EqualsSymmetric(a: ConnectionStateChange, b: ConnectionStateChange)
    ensures Equals(a, StateChangeObject(b)) == Equals(b, StateChangeObject(a))
  {
  }

  lemma EqualsRejectsNullAndOthers(c: ConnectionStateChange)
    ensures !Equals(c, Null) && !Equals(c, OtherObject)
  {
  }

  /** Equal state changes have equal hash codes, whatever the states' own hash codes are. */
  lemma EqualsImpliesSameHash(a: ConnectionStateChange, b: ConnectionStateChange, stateHash: ConnectionState -> int32)
    requires Equals(a, StateChangeObject(b))
    ensures HashCode(a, stateHash) == HashCode(b, stateHash)
  {
  }

  /**
   * The hash is symmetric in the two states, so a transition and its reverse
   * collide although both are valid and they are not equal.
   */
  lemma ReverseTransitionsCollide(x: ConnectionState, y: ConnectionState, stateHash: ConnectionState -> int32)
    requires x != y
    ensures NewStateChange(x, y).Ok? && NewStateChange(y, x).Ok?
    ensures !Equals(NewStateChange(x, y).value, StateChangeObject(NewStateChange(y, x).value))
    ensures HashCode(NewStateChange(x, y).value, stateHash) == HashCode(NewStateChange(y, x).value, stateHash)
  {
  }
}
