// The interface to another node (process B'). Each iteration moves every
// value waiting on its input into a queue, in arrival order, and writes a
// data byte through its socket of interconnect 1 into the self-awareness
// engine's memory. The byte is the front of the queue, which is read but
// never removed; while the queue is empty the previous byte is sent again.

module InitiatorOthernode {
  import opened Tlm
  import opened MemoryBlock
  import opened Bookkeeping
  import Quantum
  import TargetSae
  import Interconnect1

  /** The byte an iteration sends: the front of the queue, or the byte already held. */
  function SentByte(queue: seq<Byte>, held: Byte): (b: Byte)
    ensures queue != [] ==> b == queue[0]
    ensures queue == [] ==> b == held
  {
    if queue != [] then queue[0] else held
  }

  /**
   * Once a value has arrived, later arrivals never change what is sent:
   * every iteration sends the first value ever received.
   */
  lemma FrontIsSticky(queue: seq<Byte>, arrivals: seq<Byte>, held: Byte, other: Byte)
    requires queue != []
    ensures SentByte(queue + arrivals, other) == SentByte(queue, held)
  {
  }

  class OtherNode {
    const id: nat
    /** The interconnect-1 socket the interface is bound to. */
    const socket: nat
    /** Transaction length (`on_data_length`); the data is a single byte. */
    const dl: uint32
    const datasetCycle: uint32

    var tObj: Payload
    var delay: nat
    var memAdrStart: uint64
    var qk: Quantum.Keeper
    /** Every value received so far, oldest first (`on_queue`). */
    var queue: seq<Byte>
    /** The byte the data pointer designates (the thread's `data`). */
    var data: Byte

    ghost predicate Valid()
      reads this
    {
      dl <= 1
    }

    /** The data byte is not initialised; its first value is the caller's. */
    constructor (id: nat, socket: nat, dataLength: uint32, datasetCycle: uint32, quantum: nat, initialData: Byte)
      requires dataLength <= 1
      ensures Valid() && this.socket == socket && dl == dataLength && this.datasetCycle == datasetCycle
      ensures memAdrStart == 0 && delay == 0 && qk == Quantum.Keeper(0, quantum)
      ensures queue == [] && data == initialData
    {
      this.id := id;
      this.socket := socket;
      dl := dataLength;
      this.datasetCycle := datasetCycle;
      tObj := DEFAULT_PAYLOAD;
      delay := 0;
      memAdrStart := 0;
      qk := Quantum.Keeper(0, quantum);
      queue := [];
      data := initialData;
    }

    /** `read_out_fifo`: every available value is pushed onto the queue, in order. */
    method ReadOutFifo(available: seq<Byte>)
      modifies this
      ensures queue == old(queue) + available
      ensures tObj == old(tObj) && delay == old(delay) && memAdrStart == old(memAdrStart)
      ensures qk == old(qk) && data == old(data)
    {
      var i := 0;
      while i < |available|
        invariant 0 <= i <= |available|
        invariant queue == old(queue) + available[..i]
        invariant tObj == old(tObj) && delay == old(delay) && memAdrStart == old(memAdrStart)
        invariant qk == old(qk) && data == old(data)
      {
        queue := queue + [available[i]];
        i := i + 1;
        assert available[..i] == available[..i - 1] + [available[i - 1]];
      }
      assert available[..i] == available;
    }

    /** The start of an iteration: queue the arrivals and take the byte to send. */
    method Collect(available: seq<Byte>)
      modifies this
      ensures queue == old(queue) + available && data == SentByte(old(queue) + available, old(data))
      ensures tObj == old(tObj) && delay == old(delay) && memAdrStart == old(memAdrStart) && qk == old(qk)
    {
      ReadOutFifo(available);
      if queue != [] {
        data := queue[0];
      }
    }

    /** `set_trans_Obj`: a write of `dl` bytes of `bytes` at `adr`. */
    function TransObj(adr: uint64, bytes: seq<Byte>): (p: Payload)
      ensures p.command == Write && p.address == adr && p.data == bytes
      ensures p.length == dl && p.streamingWidth == dl && !p.byteEnable && p.response == Incomplete
    {
      Payload(Write, adr, bytes, dl, dl, false, Incomplete)
    }

    /**
     * One iteration of process B': queue the arrivals, send the front of
     * the queue (or the byte held) to the SAE through interconnect 1, and
     * when several data sets go out per cycle clear the byte and move the
     * cursor on; then account for the write's time.
     */
    method Step(router: Interconnect1.Router, available: seq<Byte>)
      requires Valid() && router.Valid() && socket < router.tsocketNr
      modifies this, router.sae.mem, router.sae.mem.cells
      ensures Valid() && queue == old(queue) + available
      ensures var sent := SentByte(old(queue) + available, old(data));
        var p := router.Mapped(socket, TransObj(old(memAdrStart), [sent]), true);
        var r := TargetSae.Serve(router.sae.mem.Geom(), old(router.sae.mem.cells[..]), 0, p, old(qk.local));
        && router.sae.mem.cells[..] == r.contents && tObj == r.payload && delay == r.delay
        && qk == Quantum.Commit(old(qk), r.delay)
        && memAdrStart == CursorAfter(old(memAdrStart), dl, datasetCycle > 1, Quantum.Syncs(old(qk), r.delay))
        && data == if datasetCycle > 1 && dl == 1 then 0 else sent
    {
      Collect(available);
      var q, d := router.BTransport(socket, TransObj(memAdrStart, [data]), qk.local);
      var cursor, keeper := Advance(memAdrStart, dl, datasetCycle, qk, d);
      tObj, delay, memAdrStart, qk := q, d, cursor, keeper;
      if datasetCycle > 1 && dl == 1 {
        data := 0;
      }
    }

    /** Backward calls are answered as completed; invalidations are ignored. */
    function NbTransportBw(p: Payload): (s: SyncEnum)
      ensures s == Completed
    {
      Completed
    }
  }
}
