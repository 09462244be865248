// Shared vocabulary of the node model: fixed-width integers, bytes, the
// TLM generic payload as a value, the component identifiers and socket
// counts of the node, the report-action status codes and the events the
// process steps notify.

module Tlm {

  type Byte = bv8

  const TWO_32: nat := 0x1_0000_0000
  const TWO_64: nat := 0x1_0000_0000_0000_0000

  /** C++ `unsigned int`. */
  type uint32 = x: nat | x < 0x1_0000_0000
  /** C++ `sc_dt::uint64`. */
  type uint64 = x: nat | x < 0x1_0000_0000_0000_0000
  /** C++ `sc_dt::uchar`. */
  type uint8 = x: nat | x < 0x100

  /** Conversion of a 64-bit value to `unsigned int`: the high bits are dropped. */
  function Truncate32(x: uint64): (r: uint32)
    ensures x < TWO_32 ==> r == x
    ensures (x - r) % TWO_32 == 0
  {
    x % TWO_32
  }

  /** `n` zero bytes, the result of `memset(buf, 0, n)`. */
  function Zeros(n: nat): (r: seq<Byte>)
    ensures |r| == n
    ensures forall i :: 0 <= i < n ==> r[i] == 0
  {
    seq(n, _ => 0 as Byte)
  }

  // Component identification numbers.
  const GVOC_ID_NR: nat := 100
  const SENSOR_ID_NR: nat := 200
  const OTHERNODES_ID_NR: nat := 300
  const IC1_ID_NR: nat := 400
  const SAE_ID_NR: nat := 500
  const LMODEL_ID_NR: nat := 600
  const MONITOR_ID_NR: nat := 700
  const SEE_ID_NR: nat := 800
  const ACT_ID_NR: nat := 900
  const EXTACTION_ID_NR: nat := 1000

  // Numbers of communication partners.
  const SAE_INITIATOR_NUMBER: nat := 2
  const IC2_TARGET_NUMBER: nat := 2
  const IC3_TARGET_NUMBER: nat := 2
  const SEE_INITIATOR_NUMBER: nat := 3

  /** Every socket of the node is 32 bits wide; memories are 4 bytes wide. */
  const BUSWIDTH: nat := 32
  const MEMORY_WIDTH: nat := BUSWIDTH / 8

  datatype Command = Read | Write | Ignore

  datatype Response =
    | Incomplete
    | Ok
    | GenericError
    | AddressError
    | CommandError
    | BurstError
    | ByteEnableError

  /** Return values of the non-blocking transport calls. */
  datatype SyncEnum = Accepted | Updated | Completed

  /**
   * The generic payload as far as the node uses it. `data` holds the bytes
   * found at the data pointer when the transaction is issued, `byteEnable`
   * says whether the byte-enable pointer is non-null.
   */
  datatype Payload = Payload(
    command: Command,
    address: uint64,
    data: seq<Byte>,
    length: uint32,
    streamingWidth: uint32,
    byteEnable: bool,
    response: Response)

  /** A freshly constructed payload. */
  const DEFAULT_PAYLOAD := Payload(Ignore, 0, [], 0, 0, false, Incomplete)

  /** Where a router hands a call on: the socket index and the payload it carries. */
  datatype Delivery = Delivery(socket: nat, payload: Payload)

  /** The data pointer is valid for `length` bytes. */
  predicate DataFits(p: Payload) {
    |p.data| >= p.length
  }

  /**
   * Status of the learning model's and the evaluation engine's actions.
   * `Unset` is the value 0 of a zero-initialised global.
   */
  datatype ReportStatus = Unset | ReadDone | WriteDone | ActionNeeded | Notify | ActionFailed

  function StatusCode(s: ReportStatus): (c: nat)
    ensures c % 11 == 0 && c <= 55
    ensures c == 0 <==> s == Unset
  {
    match s
    case Unset => 0
    case ReadDone => 11
    case WriteDone => 22
    case ActionNeeded => 33
    case Notify => 44
    case ActionFailed => 55
  }

  lemma StatusCodeInjective(s: ReportStatus, t: ReportStatus)
    ensures StatusCode(s) == StatusCode(t) <==> s == t
  {
  }

  datatype EventKind = LmodelToMonitor | LmodelToSee | SeeToMonitor | MonitorEv

  /** An element of one of the node's event vectors: the event and the node index. */
  datatype Event = Event(kind: EventKind, node: nat)

  datatype Option<T> = None | Some(value: T)
}
