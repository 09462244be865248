// A sensor environment (process B). Each iteration drains its input FIFO,
// keeping the latest value, and writes that one byte through its socket of
// interconnect 1 into the self-awareness engine's memory. The address
// cursor moves on when several data sets go out per cycle and rewinds on
// every synchronisation.

module InitiatorSensorenv {
  import opened Tlm
  import opened MemoryBlock
  import opened Bookkeeping
  import Quantum
  import TargetSae
  import Interconnect1

  /** The last of the `values`, or `current` when there are none. */
  function LastOr(values: seq<Byte>, current: Byte): (r: Byte)
    ensures |values| == 0 ==> r == current
    ensures |values| > 0 ==> r == values[|values| - 1]
  {
    if |values| == 0 then current else values[|values| - 1]
  }

  /** Draining in two batches keeps the same value as draining their concatenation at once. */
  lemma LastOrConcat(a: seq<Byte>, b: seq<Byte>, current: Byte)
    ensures LastOr(a + b, current) == LastOr(b, LastOr(a, current))
  {
  }

  /**
   * The construction-time warning: the FIFO holds fewer values than one
   * cycle sends. The source divides by the number of data sets per cycle,
   * so that number must not be 0.
   */
  function FifoTooSmall(fifoSize: uint32, datasetCycle: uint32): (small: bool)
    requires datasetCycle > 0
    ensures small <==> fifoSize < datasetCycle
  {
    fifoSize / datasetCycle < 1
  }

  class Sensor {
    const id: nat
    /** The interconnect-1 socket the sensor is bound to. */
    const socket: nat
    /** Transaction length (`s_data_length`); the data is a single byte. */
    const dl: uint32
    const datasetCycle: uint32
    const fifoSize: uint32

    var tObj: Payload
    var delay: nat
    var memAdrStart: uint64
    var qk: Quantum.Keeper
    /** The byte sent (`senv_data`). */
    var senvData: Byte

    ghost predicate Valid()
      reads this
    {
      dl <= 1
    }

    /** The data byte is not initialised; its first value is the caller's. */
    constructor (id: nat, socket: nat, dataLength: uint32, datasetCycle: uint32, quantum: nat,
                 fifoSize: uint32, initialData: Byte)
      requires dataLength <= 1
      ensures Valid() && this.socket == socket && dl == dataLength
      ensures this.datasetCycle == datasetCycle && this.fifoSize == fifoSize
      ensures memAdrStart == 0 && delay == 0 && qk == Quantum.Keeper(0, quantum) && senvData == initialData
    {
      this.id := id;
      this.socket := socket;
      dl := dataLength;
      this.datasetCycle := datasetCycle;
      this.fifoSize := fifoSize;
      tObj := DEFAULT_PAYLOAD;
      delay := 0;
      memAdrStart := 0;
      qk := Quantum.Keeper(0, quantum);
      senvData := initialData;
    }

    /** `read_out_fifo`: reads every available value; the last one read is kept. */
    method ReadOutFifo(available: seq<Byte>)
      modifies this
      ensures senvData == LastOr(available, old(senvData))
      ensures tObj == old(tObj) && delay == old(delay) && memAdrStart == old(memAdrStart) && qk == old(qk)
    {
      var i := 0;
      while i < |available|
        invariant 0 <= i <= |available|
        invariant senvData == LastOr(available[..i], old(senvData))
        invariant tObj == old(tObj) && delay == old(delay) && memAdrStart == old(memAdrStart) && qk == old(qk)
      {
        senvData := available[i];
        i := i + 1;
      }
      assert available[..i] == available;
    }

    /** `set_trans_Obj`: a write of `dl` bytes of `data` at `adr`. */
    function TransObj(adr: uint64, data: seq<Byte>): (p: Payload)
      ensures p.command == Write && p.address == adr && p.data == data
      ensures p.length == dl && p.streamingWidth == dl && !p.byteEnable && p.response == Incomplete
    {
      Payload(Write, adr, data, dl, dl, false, Incomplete)
    }

    /**
     * One iteration of process B: drain the FIFO, send the latest value to
     * the SAE through interconnect 1, clear the value, move the cursor on
     * and account for the write's time.
     */
    method Step(router: Interconnect1.Router, available: seq<Byte>)
      requires Valid() && router.Valid() && socket < router.tsocketNr
      modifies this, router.sae.mem, router.sae.mem.cells
      ensures Valid()
      ensures var sent := LastOr(available, old(senvData));
        var p := router.Mapped(socket, TransObj(old(memAdrStart), [sent]), true);
        var r := TargetSae.Serve(router.sae.mem.Geom(), old(router.sae.mem.cells[..]), 0, p, old(qk.local));
        && router.sae.mem.cells[..] == r.contents && tObj == r.payload && delay == r.delay
        && qk == Quantum.Commit(old(qk), r.delay)
        && memAdrStart == CursorAfter(old(memAdrStart), dl, datasetCycle > 1, Quantum.Syncs(old(qk), r.delay))
        && senvData == if dl == 1 then 0 else sent
    {
      ReadOutFifo(available);
      var q, d := router.BTransport(socket, TransObj(memAdrStart, [senvData]), qk.local);
      var cursor, keeper := Advance(memAdrStart, dl, datasetCycle, qk, d);
      tObj, delay, memAdrStart, qk := q, d, cursor, keeper;
      if dl == 1 {
        senvData := 0;
      }
    }

    /** Backward calls are accepted and otherwise ignored. */
    function NbTransportBw(p: Payload): (s: SyncEnum)
      ensures s == Accepted
    {
      Accepted
    }
  }
}
