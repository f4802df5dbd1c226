/**
 * Vocabulary shared by every part of the client: the two state enums, the
 * wire-level field names and reserved event codes, the decoded inbound
 * envelope, Java's fixed-width integers, and the Option/Result/Outcome
 * wrappers that stand for Java's null references and thrown exceptions.
 */
module Protocol {

  /** A Java reference that may be null. */
  datatype Option<+T> = None | Some(value: T) {
    predicate IsFailure() { None? }
    function PropagateFailure<U>(): Option<U> requires None? { None }
    function Extract(): T requires Some? { value }
  }

  /** A Java exception thrown synchronously to the caller, with its message. */
  datatype Failure =
    | IllegalArgument(reason: string)
    | IllegalState(reason: string)

  /** The result of a Java call that either returns a value or throws. */
  datatype Result<+T> = Ok(value: T) | Err(failure: Failure)

  /** The result of a Java `void` call that may throw. */
  datatype Outcome = Pass | Fail(failure: Failure)

  /** Java `int` and `long`. */
  newtype int32 = x: int | -0x8000_0000 <= x < 0x8000_0000
  newtype int64 = x: int | -0x8000_0000_0000_0000 <= x < 0x8000_0000_0000_0000

  /** Connection states; `All` is a wildcard for listener binding, never an actual state. */
  datatype ConnectionState = Connecting | Connected | Disconnecting | Disconnected | All

  const AllConnectionStates: set<ConnectionState> :=
    {Connecting, Connected, Disconnecting, Disconnected, All}

  /** The enum constant's name, as `toString()` prints it. */
  function StateName(s: ConnectionState): (r: string)
    ensures r != []
  {
    match s
    case Connecting => "CONNECTING"
    case Connected => "CONNECTED"
    case Disconnecting => "DISCONNECTING"
    case Disconnected => "DISCONNECTED"
    case All => "ALL"
  }

  /** Distinct states print as distinct names, so a message naming a state names exactly one. */
  lemma StateNameInjective(a: ConnectionState, b: ConnectionState)
    ensures StateName(a) == StateName(b) <==> a == b
  {
  }

  /** Subscription states of one channel; `Unsubscribed` is terminal. */
  datatype ChannelState = Initial | SubscribeSent | Subscribed | Unsubscribed | Failed

  /** Field names of the JSON envelopes. */
  const EVENT_TYPE := "eventType"
  const CHANNEL := "channel"
  const MESSAGE := "message"
  const COMMAND := "command"
  const SUBSCRIBE := "subscribe"
  const UNSUBSCRIBE := "unsubscribe"

  /** Reserved inbound event-type codes. */
  const CONNECTION_ESTABLISHED_EVENT := "101"
  const CONNECTION_ERROR_EVENT := "102"
  const SUBSCRIPTION_SUCCESS_EVENT := "103"
  const UNSUBSCRIPTION_SUCCESS_EVENT := "104"

  /** Event names with this prefix may not be bound on a channel. */
  const INTERNAL_EVENT_PREFIX := "qsocket_internal:"

  /** The heartbeat literal the connection sends when the ping timer fires. */
  const PING_EVENT_SERIALIZED := "{\"event\": \"qsocket:ping\"}"

  /**
   * An inbound frame after JSON decoding: each of the three string fields
   * the client reads may be absent. The envelope also stands for the raw
   * text it was decoded from wherever the client passes "the whole message" on.
   */
  datatype Envelope = Envelope(eventType: Option<string>, channel: Option<string>, message: Option<string>)

  /** Application-side listener objects are identified by number. */
  type ListenerId = nat

  predicate StartsWith(s: string, prefix: string)
  {
    |prefix| <= |s| && s[..|prefix|] == prefix
  }
}
