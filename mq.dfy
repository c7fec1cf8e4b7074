/** The parts of the IBM MQ client library the sampler touches, as an abstract
    collaborator: every call is answered by a total function of everything
    asked before (the trace) and of the call's own arguments, so the library
    may return any value or throw at any step. */
module MQ {
  import opened JavaLang

  newtype byte = x: int | 0 <= x < 256
  type Bytes = seq<byte>

  /** Open options and get-message options, with the values of MQConstants. */
  const MQOO_INPUT_AS_Q_DEF: int := 1
  const MQOO_OUTPUT: int := 16
  const MQGMO_NO_WAIT: int := 0
  const MQGMO_WAIT: int := 1

  /** Keys of the connection properties table, as named by MQConstants. */
  const HostNameProperty := "hostname"
  const PortProperty := "port"
  const ChannelProperty := "channel"
  const UseMQCSPAuthenticationProperty := "Use_MQCSP_Authentication"
  const UserIdProperty := "userID"
  const PasswordProperty := "password"

  /** The values the sampler stores in the properties table. */
  datatype PropValue = PString(s: string) | PInt(i: int) | PBool(b: bool)
  type Props = map<string, PropValue>

  /** The id fields of an MQMsg2 used as the get filter; None is the
      library's "no id" default (MQMI_NONE / MQCI_NONE). */
  datatype Msg2 = Msg2(messageId: Option<Bytes>, correlationId: Option<Bytes>)

  const NewMsg2: Msg2 := Msg2(None, None)

  /** The two fields of MQGetMessageOptions the sampler sets. */
  datatype GetOptions = GetOptions(options: int, waitInterval: int)

  /** A freshly constructed MQGetMessageOptions: no wait, interval 0. */
  const DefaultGetOptions: GetOptions := GetOptions(MQGMO_NO_WAIT, 0)

  /** One call into the MQ library and what it answered. A queue manager and a
      queue are named by the position in the trace of the Connect or
      AccessQueue event that produced them. */
  datatype Event =
    | Connect(manager: Option<string>, props: Option<Props>, status: Status)
    | AccessQueue(mgr: nat, queue: Option<string>, openOptions: int, status: Status)
    | Put(handle: nat, payload: Bytes, assignedId: Result<Bytes>)
    | GetMsg2(handle: nat, filter: Msg2, gmo: GetOptions, data: Result<Bytes>)
    | Close(handle: nat, status: Status)
    | Disconnect(mgr: nat, status: Status)

  /** Whether the call recorded by e returned normally. */
  predicate Succeeded(e: Event) {
    match e
    case Connect(_, _, s) => s.Done?
    case AccessQueue(_, _, _, s) => s.Done?
    case Put(_, _, r) => r.Ok?
    case GetMsg2(_, _, _, r) => r.Ok?
    case Close(_, s) => s.Done?
    case Disconnect(_, s) => s.Done?
  }

  /** The exception of a call that threw. */
  function ThrownBy(e: Event): Exn
    requires !Succeeded(e)
  {
    match e
    case Connect(_, _, s) => s.exn
    case AccessQueue(_, _, _, s) => s.exn
    case Put(_, _, r) => r.exn
    case GetMsg2(_, _, _, r) => r.exn
    case Close(_, s) => s.exn
    case Disconnect(_, s) => s.exn
  }

  /** What the MQ library answers, given the trace so far and the arguments:
      new MQQueueManager, accessQueue, put (answering the message id it
      assigned), getMsg2 (answering the message data), close, disconnect,
      isConnected, and the reason-code name table. */
  datatype Library = Library(
    connect: (seq<Event>, Option<string>, Option<Props>) -> Status,
    accessQueue: (seq<Event>, nat, Option<string>, int) -> Status,
    put: (seq<Event>, nat, Bytes) -> Result<Bytes>,
    getMsg2: (seq<Event>, nat, Msg2, GetOptions) -> Result<Bytes>,
    close: (seq<Event>, nat) -> Status,
    disconnect: (seq<Event>, nat) -> Status,
    isConnected: (seq<Event>, nat) -> bool,
    lookupReasonCode: int -> Option<string>)

  /** The platform's named charsets: String.getBytes(name) and new String(bytes, name)
      on non-null arguments; either may throw (an unknown charset name, say). */
  datatype Charsets = Charsets(
    encode: (string, string) -> Result<Bytes>,
    decode: (Bytes, string) -> Result<string>)

  /** message.getBytes(charset): a null message or charset name throws NullPointerException. */
  function Encode(cs: Charsets, message: Option<string>, charset: Option<string>): Result<Bytes> {
    if message.None? || charset.None? then Thrown(NullPointer)
    else cs.encode(message.value, charset.value)
  }

  /** new String(data, charset): a null charset name throws NullPointerException. */
  function Decode(cs: Charsets, data: Bytes, charset: Option<string>): Result<string> {
    if charset.None? then Thrown(NullPointer) else cs.decode(data, charset.value)
  }
}
