// The goals, values, objectives and constraints source (g.v.o.c.).
// Process A1 writes a data block into the monitor memory, process A2 into
// the evaluation engine's g.v.o.c. memory, both through interconnect 3,
// whose output is the global `gvoc_target_idx`. Each process walks its
// own address cursor forward when it sends several blocks per cycle and
// rewinds it whenever its quantum keeper synchronises.

module InitiatorGvoc {
  import opened Tlm
  import opened MemoryBlock
  import opened Bookkeeping
  import Quantum
  import Fabric
  import BridgeMonitor
  import BridgeSee
  import Interconnect3

  /** Bytes of a converted data value (`str_size`). */
  const STR_SIZE: nat := 1

  /**
   * `set_target_idx`: the monitor's id selects output 0, the evaluation
   * engine's output 1, and any other id leaves the selector as it was.
   */
  function TargetIndex(id: nat, current: uint32): (idx: uint32)
    ensures id == MONITOR_ID_NR ==> idx == 0
    ensures id == SEE_ID_NR ==> idx == 1
    ensures id != MONITOR_ID_NR && id != SEE_ID_NR ==> idx == current
  {
    if id == SEE_ID_NR then 1 else if id == MONITOR_ID_NR then 0 else current
  }

  /**
   * `prepare_datablock`: the value 1 converted to a one-character string,
   * which streams the byte itself, copied over the first `STR_SIZE` bytes.
   */
  function Prepared(data: seq<Byte>): (r: seq<Byte>)
    requires |data| >= STR_SIZE
    ensures |r| == |data| && r[0] == 1
    ensures forall i :: STR_SIZE <= i < |data| ==> r[i] == data[i]
  {
    [1] + data[STR_SIZE..]
  }

  /** Preparing the block twice leaves it as preparing it once. */
  lemma PreparedIdempotent(data: seq<Byte>)
    requires |data| >= STR_SIZE
    ensures Prepared(Prepared(data)) == Prepared(data)
  {
  }

  class Gvoc {
    const id: nat
    /** Block length for the evaluation engine; also the size of the data buffer. */
    const seeDl: uint32
    /** Block length for the monitor. */
    const monitorDl: uint32
    /** Blocks per cycle for the evaluation engine (`gvoc_see_dataset_cycle`). */
    const seeDatasetCycle: uint32
    /** Blocks per cycle for the monitor (`gvoc_m_dataset_cycle`). */
    const mDatasetCycle: uint32

    var tObj: Payload
    var mDelay: nat
    var seeDelay: nat
    var seeAdrStart: uint64
    var mAdrStart: uint64
    var seeQk: Quantum.Keeper
    var mQk: Quantum.Keeper
    /** The data buffer (`gvoc_data`), shared by both processes. */
    var data: seq<Byte>

    ghost predicate Valid()
      reads this
    {
      |data| == seeDl && STR_SIZE <= seeDl && monitorDl <= seeDl
    }

    constructor (id: nat, seeDataLength: uint32, monitorDataLength: uint32,
                 seeDatasetCycle: uint32, mDatasetCycle: uint32, quantum: nat)
      requires STR_SIZE <= seeDataLength && monitorDataLength <= seeDataLength
      ensures Valid() && data == Zeros(seeDataLength)
      ensures seeDl == seeDataLength && monitorDl == monitorDataLength
      ensures this.seeDatasetCycle == seeDatasetCycle && this.mDatasetCycle == mDatasetCycle
      ensures seeAdrStart == 0 && mAdrStart == 0 && mDelay == 0 && seeDelay == 0
      ensures seeQk == Quantum.Keeper(0, quantum) && mQk == Quantum.Keeper(0, quantum)
    {
      this.id := id;
      seeDl := seeDataLength;
      monitorDl := monitorDataLength;
      this.seeDatasetCycle := seeDatasetCycle;
      this.mDatasetCycle := mDatasetCycle;
      tObj := DEFAULT_PAYLOAD;
      mDelay := 0;
      seeDelay := 0;
      seeAdrStart := 0;
      mAdrStart := 0;
      seeQk := Quantum.Keeper(0, quantum);
      mQk := Quantum.Keeper(0, quantum);
      data := Zeros(seeDataLength);
    }

    method SetTargetIdx(g: Fabric.Globals, target: nat)
      modifies g
      ensures g.gvocTargetIdx == TargetIndex(target, old(g.gvocTargetIdx))
      ensures g.mTargetIdx == old(g.mTargetIdx) && g.seeTargetIdx == old(g.seeTargetIdx)
      ensures g.ic1InitiatorIdx == old(g.ic1InitiatorIdx)
      ensures g.lmActionsStatus == old(g.lmActionsStatus) && g.seeActionsStatus == old(g.seeActionsStatus)
      ensures old(g.Reachable()) ==> g.Reachable()
    {
      g.gvocTargetIdx := TargetIndex(target, g.gvocTargetIdx);
    }

    /**
     * `set_trans_Obj`: a write of the block length of the selected output;
     * for any other selector the length keeps its value from `prev`.
     */
    function TransObj(prev: Payload, idx: uint32, adr: uint64, block: seq<Byte>): (p: Payload)
      ensures p.command == Write && p.address == adr && p.data == block
      ensures p.response == Incomplete && !p.byteEnable
      ensures idx == 0 ==> p.length == monitorDl && p.streamingWidth == monitorDl
      ensures idx == 1 ==> p.length == seeDl && p.streamingWidth == seeDl
      ensures idx != 0 && idx != 1 ==> p.length == prev.length && p.streamingWidth == prev.streamingWidth
    {
      var shaped :=
        if idx == 0 then prev.(length := monitorDl, streamingWidth := monitorDl)
        else if idx == 1 then prev.(length := seeDl, streamingWidth := seeDl)
        else prev;
      shaped.(command := Write, address := adr, data := block, response := Incomplete, byteEnable := false)
    }

    /**
     * One iteration of process A1: prepare the block, write the first
     * `monitorDl` bytes of it into the monitor memory at the cursor, move
     * the cursor on when several blocks go out per cycle, and account for
     * the write's time; a synchronisation rewinds the cursor.
     */
    method StepMonitor(g: Fabric.Globals, monitor: BridgeMonitor.Monitor, see: BridgeSee.See)
      requires Valid() && monitor.Valid() && see.Valid()
      modifies this, g, monitor.mem, monitor.mem.cells
      ensures Valid() && data == Prepared(old(data)) && g.gvocTargetIdx == 0
      ensures var p := TransObj(old(tObj), 0, old(mAdrStart), Prepared(old(data)));
        var r := Transact(monitor.mem.Geom(), old(monitor.mem.cells[..]), p, old(mQk.local));
        && monitor.mem.cells[..] == r.contents && tObj == r.payload && mDelay == r.delay
        && mQk == Quantum.Commit(old(mQk), r.delay)
        && mAdrStart == CursorAfter(old(mAdrStart), monitorDl, mDatasetCycle > 1, Quantum.Syncs(old(mQk), r.delay))
      ensures seeAdrStart == old(seeAdrStart) && seeQk == old(seeQk) && seeDelay == old(seeDelay)
      ensures g.mTargetIdx == old(g.mTargetIdx) && g.seeTargetIdx == old(g.seeTargetIdx)
      ensures g.ic1InitiatorIdx == old(g.ic1InitiatorIdx)
      ensures g.lmActionsStatus == old(g.lmActionsStatus) && g.seeActionsStatus == old(g.seeActionsStatus)
    {
      var block := Prepared(data);
      SetTargetIdx(g, MONITOR_ID_NR);
      var q, d := Interconnect3.BTransport(g, monitor, see, TransObj(tObj, 0, mAdrStart, block), mQk.local);
      var cursor, keeper := Advance(mAdrStart, monitorDl, mDatasetCycle, mQk, d);
      data, tObj, mDelay, mAdrStart, mQk := block, q, d, cursor, keeper;
    }

    /** One iteration of process A2: as A1, with the whole block written to the evaluation engine. */
    method StepSee(g: Fabric.Globals, monitor: BridgeMonitor.Monitor, see: BridgeSee.See)
      requires Valid() && monitor.Valid() && see.Valid()
      modifies this, g, see.gvocMem, see.gvocMem.cells
      ensures Valid() && data == Prepared(old(data)) && g.gvocTargetIdx == 1
      ensures var p := TransObj(old(tObj), 1, old(seeAdrStart), Prepared(old(data)));
        var r := Transact(see.gvocMem.Geom(), old(see.gvocMem.cells[..]), p, old(seeQk.local));
        && see.gvocMem.cells[..] == r.contents && tObj == r.payload && seeDelay == r.delay
        && seeQk == Quantum.Commit(old(seeQk), r.delay)
        && seeAdrStart == CursorAfter(old(seeAdrStart), seeDl, seeDatasetCycle > 1, Quantum.Syncs(old(seeQk), r.delay))
      ensures mAdrStart == old(mAdrStart) && mQk == old(mQk) && mDelay == old(mDelay)
      ensures g.mTargetIdx == old(g.mTargetIdx) && g.seeTargetIdx == old(g.seeTargetIdx)
      ensures g.ic1InitiatorIdx == old(g.ic1InitiatorIdx)
      ensures g.lmActionsStatus == old(g.lmActionsStatus) && g.seeActionsStatus == old(g.seeActionsStatus)
    {
      var block := Prepared(data);
      SetTargetIdx(g, SEE_ID_NR);
      var q, d := Interconnect3.BTransport(g, monitor, see, TransObj(tObj, 1, seeAdrStart, block), seeQk.local);
      var cursor, keeper := Advance(seeAdrStart, seeDl, seeDatasetCycle, seeQk, d);
      data, tObj, seeDelay, seeAdrStart, seeQk := block, q, d, cursor, keeper;
    }

    /** Backward calls are answered as completed; invalidations are ignored. */
    function NbTransportBw(p: Payload): (s: SyncEnum)
      ensures s == Completed
    {
      Completed
    }
  }
}
