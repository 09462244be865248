// The monitor's bridge. Process E1 reads the learning model's report after
// `lmodel_to_monitor`, process E2 the evaluation engine's report after
// `see_to_monitor`; both go through interconnect 2, whose output the
// monitor selects through the global `m_target_idx`. The monitor's own
// memory is written by the g.v.o.c. through interconnect 3.

module BridgeMonitor {
  import opened Tlm
  import opened MemoryBlock
  import Quantum
  import Fabric
  import BridgeLModel
  import BridgeSee
  import Interconnect2

  /** `set_target_id`'s mapping of a component id to an interconnect-2 output; 3 flags an unknown id. */
  function TargetIndex(id: nat): (idx: uint32)
    ensures idx == 0 <==> id == LMODEL_ID_NR
    ensures idx == 1 <==> id == SEE_ID_NR
    ensures idx == 0 || idx == 1 || idx == 3
  {
    if id == LMODEL_ID_NR then 0 else if id == SEE_ID_NR then 1 else 3
  }

  /** The fallback index names no output of interconnect 2. */
  lemma UnknownIdSelectsNothing(id: nat)
    requires id != LMODEL_ID_NR && id != SEE_ID_NR
    ensures TargetIndex(id) >= IC2_TARGET_NUMBER
  {
  }

  /**
   * A report copied by its owner to address 0 is what a read of the same
   * length at address 0 brings back, whatever the memory held before.
   */
  lemma ReportReachesMonitor(g: Geometry, before: seq<Byte>, src: seq<Byte>, p: Payload, delay: nat)
    requires g.width > 0 && |before| == g.size && 0 < p.length <= g.size && |src| >= p.length
    requires p.command == Read && p.address == 0 && |p.data| == p.length
    requires p.streamingWidth == p.length && !p.byteEnable
    ensures var r := Transact(g, SelfWritten(before, 0, src, p.length), p, delay);
      r.payload.response == Ok && r.payload.data == src[..p.length]
  {
    var after := SelfWritten(before, 0, src, p.length);
    assert CheckRange(|before|, 0, p.length) == Ok;
    ReadLoads(g, after, p, delay);
    var r := Transact(g, after, p, delay);
    assert |r.payload.data| == p.length;
    assert forall i :: 0 <= i < p.length ==> r.payload.data[i] == src[i];
  }

  class Monitor {
    const id: nat
    const nodenbr: nat
    /** Bytes E1 reads from the learning model (`m_lm_report_dl`). */
    const lmReportDl: uint32
    /** Bytes E2 reads from the evaluation engine (`m_see_report_dl`). */
    const seeReportDl: uint32
    const mem: Memory

    var lmDelay: nat
    var seeDelay: nat
    /** The transaction object both processes share. */
    var tObj: Payload
    /** E1's read buffer. */
    var lmData: seq<Byte>
    /** E2's read buffer. */
    var seeData: seq<Byte>
    /** E2's quantum keeper. */
    var qk1: Quantum.Keeper
    /** E1's quantum keeper. */
    var qk2: Quantum.Keeper

    ghost predicate Valid()
      reads this
    {
      mem.Valid() && mem.width > 0 && |lmData| == lmReportDl && |seeData| == seeReportDl
    }

    /**
     * The monitor memory starts zeroed. The two read buffers are allocated
     * without initialisation; their first contents are the caller's.
     */
    constructor (id: nat, memSize: uint64, memWidth: uint32, lmReportDl: uint32, seeReportDl: uint32,
                 readLatency: nat, writeLatency: nat, quantum: nat, nodenbr: nat,
                 initialLm: seq<Byte>, initialSee: seq<Byte>)
      requires memWidth > 0 && |initialLm| == lmReportDl && |initialSee| == seeReportDl
      ensures Valid() && fresh(mem) && fresh(mem.cells)
      ensures mem.id == id && mem.size == memSize && mem.width == memWidth && mem.cells[..] == Zeros(memSize)
      ensures mem.readDelay == readLatency && mem.writeDelay == writeLatency
      ensures this.lmReportDl == lmReportDl && this.seeReportDl == seeReportDl
      ensures lmData == initialLm && seeData == initialSee
      ensures lmDelay == 0 && seeDelay == 0 && this.nodenbr == nodenbr && this.id == id
      ensures qk1 == Quantum.Keeper(0, quantum) && qk2 == Quantum.Keeper(0, quantum)
    {
      this.id := id;
      this.nodenbr := nodenbr;
      this.lmReportDl := lmReportDl;
      this.seeReportDl := seeReportDl;
      mem := new Memory(id, readLatency, writeLatency, memSize, memWidth);
      lmDelay := 0;
      seeDelay := 0;
      tObj := DEFAULT_PAYLOAD;
      lmData := initialLm;
      seeData := initialSee;
      qk1 := Quantum.Keeper(0, quantum);
      qk2 := Quantum.Keeper(0, quantum);
    }

    /** `set_target_id`: publishes the output of interconnect 2 for the component `target`. */
    method SetTargetId(g: Fabric.Globals, target: nat)
      modifies g
      ensures g.mTargetIdx == TargetIndex(target)
      ensures g.gvocTargetIdx == old(g.gvocTargetIdx) && g.seeTargetIdx == old(g.seeTargetIdx)
      ensures g.ic1InitiatorIdx == old(g.ic1InitiatorIdx)
      ensures g.lmActionsStatus == old(g.lmActionsStatus) && g.seeActionsStatus == old(g.seeActionsStatus)
      ensures old(g.Reachable()) ==> g.Reachable()
    {
      g.mTargetIdx := TargetIndex(target);
    }

    /**
     * `set_trans_Obj`: a read of the report length of the selected
     * output. For any other index the length is left uninitialised; its
     * value is `indeterminate`.
     */
    function TransObj(idx: uint32, adr: uint64, data: seq<Byte>, indeterminate: uint32): (p: Payload)
      ensures p.command == Read && p.address == adr && p.data == data
      ensures p.response == Incomplete && !p.byteEnable && p.streamingWidth == p.length
      ensures p.length == if idx == 0 then lmReportDl else if idx == 1 then seeReportDl else indeterminate
    {
      var dl := if idx == 0 then lmReportDl else if idx == 1 then seeReportDl else indeterminate;
      Payload(Read, adr, data, dl, dl, false, Incomplete)
    }

    /**
     * `execute_trans`: issues `tObj` through interconnect 2 with the
     * delay of the process that owns the selected output; for any other
     * index nothing happens.
     */
    method ExecuteTrans(g: Fabric.Globals, lm: BridgeLModel.LModel, see: BridgeSee.See)
      requires lm.Valid() && see.Valid() && DataFits(tObj)
      modifies this
      modifies if g.mTargetIdx < IC2_TARGET_NUMBER then {Interconnect2.ReportMemory(lm, see, g.mTargetIdx)} else {}
      modifies if g.mTargetIdx < IC2_TARGET_NUMBER then {Interconnect2.ReportMemory(lm, see, g.mTargetIdx).cells} else {}
      ensures g.mTargetIdx < IC2_TARGET_NUMBER ==>
        var m := Interconnect2.ReportMemory(lm, see, g.mTargetIdx);
        var r := Transact(m.Geom(), old(m.cells[..]), old(tObj),
                          if g.mTargetIdx == 0 then old(lmDelay) else old(seeDelay));
        && m.cells[..] == r.contents && tObj == r.payload
        && (if g.mTargetIdx == 0 then lmDelay == r.delay && seeDelay == old(seeDelay)
            else seeDelay == r.delay && lmDelay == old(lmDelay))
      ensures g.mTargetIdx >= IC2_TARGET_NUMBER ==>
        tObj == old(tObj) && lmDelay == old(lmDelay) && seeDelay == old(seeDelay)
      ensures lmData == old(lmData) && seeData == old(seeData) && qk1 == old(qk1) && qk2 == old(qk2)
    {
      if g.mTargetIdx == 0 {
        var q, d := Interconnect2.BTransport(g, lm, see, tObj, lmDelay);
        tObj, lmDelay := q, d;
      } else if g.mTargetIdx == 1 {
        var q, d := Interconnect2.BTransport(g, lm, see, tObj, seeDelay);
        tObj, seeDelay := q, d;
      }
    }

    /**
     * One iteration of process E1 after `lmodel_to_monitor`: read the
     * learning model's report at address 0, notify `monitor_ev`, account
     * for the read's time and clear the buffer. The bytes read are
     * returned.
     */
    method StepLm(g: Fabric.Globals, lm: BridgeLModel.LModel, see: BridgeSee.See)
      returns (read: seq<Byte>, ev: Event)
      requires Valid() && lm.Valid() && see.Valid()
      modifies this, g, lm.repMem, lm.repMem.cells
      ensures Valid() && g.mTargetIdx == 0 && lmData == Zeros(lmReportDl)
      ensures var r := Transact(lm.repMem.Geom(), old(lm.repMem.cells[..]),
                                TransObj(0, 0, old(lmData), 0), old(qk2.local));
        && lm.repMem.cells[..] == r.contents && read == r.payload.data && tObj == r.payload
        && lmDelay == r.delay && qk2 == Quantum.Commit(old(qk2), r.delay)
      ensures ev == Event(MonitorEv, nodenbr)
      ensures seeData == old(seeData) && seeDelay == old(seeDelay) && qk1 == old(qk1)
      ensures g.gvocTargetIdx == old(g.gvocTargetIdx) && g.seeTargetIdx == old(g.seeTargetIdx)
      ensures g.ic1InitiatorIdx == old(g.ic1InitiatorIdx)
      ensures g.lmActionsStatus == old(g.lmActionsStatus) && g.seeActionsStatus == old(g.seeActionsStatus)
    {
      lmDelay := qk2.local;
      SetTargetId(g, LMODEL_ID_NR);
      tObj := TransObj(g.mTargetIdx, 0, lmData, 0);
      ExecuteTrans(g, lm, see);
      read := tObj.data;
      ev := Event(MonitorEv, nodenbr);
      qk2 := Quantum.Commit(qk2, lmDelay);
      lmData := Zeros(lmReportDl);
    }

    /**
     * One iteration of process E2 after `see_to_monitor`: read the
     * evaluation engine's report at address 0, account for the read's time
     * and clear the buffer. The bytes read are returned.
     */
    method StepSee(g: Fabric.Globals, lm: BridgeLModel.LModel, see: BridgeSee.See)
      returns (read: seq<Byte>)
      requires Valid() && lm.Valid() && see.Valid()
      modifies this, g, see.repMem, see.repMem.cells
      ensures Valid() && g.mTargetIdx == 1 && seeData == Zeros(seeReportDl)
      ensures var r := Transact(see.repMem.Geom(), old(see.repMem.cells[..]),
                                TransObj(1, 0, old(seeData), 0), old(qk1.local));
        && see.repMem.cells[..] == r.contents && read == r.payload.data && tObj == r.payload
        && seeDelay == r.delay && qk1 == Quantum.Commit(old(qk1), r.delay)
      ensures lmData == old(lmData) && lmDelay == old(lmDelay) && qk2 == old(qk2)
      ensures g.gvocTargetIdx == old(g.gvocTargetIdx) && g.seeTargetIdx == old(g.seeTargetIdx)
      ensures g.ic1InitiatorIdx == old(g.ic1InitiatorIdx)
      ensures g.lmActionsStatus == old(g.lmActionsStatus) && g.seeActionsStatus == old(g.seeActionsStatus)
    {
      seeDelay := qk1.local;
      SetTargetId(g, SEE_ID_NR);
      tObj := TransObj(g.mTargetIdx, 0, seeData, 0);
      ExecuteTrans(g, lm, see);
      read := tObj.data;
      qk1 := Quantum.Commit(qk1, seeDelay);
      seeData := Zeros(seeReportDl);
    }

    /** The g.v.o.c.'s writes into the monitor memory arrive here, on its behalf. */
    method BTransport(p: Payload, delay: nat) returns (q: Payload, delay': nat)
      requires Valid() && DataFits(p)
      modifies mem, mem.cells
      ensures var r := Transact(mem.Geom(), old(mem.cells[..]), p, delay);
        mem.cells[..] == r.contents && q == r.payload && delay' == r.delay
      ensures mem.initiator == GVOC_ID_NR
    {
      var _, q1, d1 := mem.Operation(GVOC_ID_NR, p, delay);
      q, delay' := q1, d1;
    }

    /** Direct memory access, non-blocking and debug calls on the monitor memory are answered with constants. */
    function GetDirectMemPtr(p: Payload): (granted: bool)
      ensures !granted
    {
      false
    }

    function NbTransportFw(p: Payload): (s: SyncEnum)
      ensures s == Accepted
    {
      Accepted
    }

    function TransportDbg(p: Payload): (n: nat)
      ensures n == 0
    {
      0
    }

    /** Backward calls from interconnect 2 are accepted and otherwise ignored. */
    function NbTransportBw(p: Payload): (s: SyncEnum)
      ensures s == Accepted
    {
      Accepted
    }
  }
}
