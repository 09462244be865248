// The learning model's bridge. Process C1 reads a block of sensor data
// from the self-awareness engine, has the learning core evaluate it and
// reports "A" (acceptable) or "F" (action needed) in its report memory;
// process C2 writes the core's result to the self-evaluation engine. The
// monitor reads the report memory through interconnect 2.

module BridgeLModel {
  import opened Tlm
  import opened MemoryBlock
  import opened Bookkeeping
  import Quantum
  import Fabric
  import TargetSae
  import BridgeSee

  /** ASCII 'A', the report of acceptable sensor data (`lm_pos_result`). */
  const POSITIVE_RESULT: Byte := 0x41
  /** ASCII 'F', the report of data that calls for an action (`lm_neg_result`). */
  const NEGATIVE_RESULT: Byte := 0x46

  /** The two-byte, NUL-terminated report string for a status. */
  function ReportText(status: ReportStatus): (r: seq<Byte>)
    ensures |r| == 2 && r[1] == 0
    ensures r[0] == NEGATIVE_RESULT <==> status == ActionNeeded
    ensures r[0] == POSITIVE_RESULT || r[0] == NEGATIVE_RESULT
  {
    [if status == ActionNeeded then NEGATIVE_RESULT else POSITIVE_RESULT, 0]
  }

  /** Status recorded after the read of the SAE memory, before the core evaluates the data. */
  function ReadStatus(r: Response): (s: ReportStatus)
    ensures s == ReadDone <==> r == Ok
    ensures s == ReadDone || s == ActionFailed
  {
    if r == Ok then ReadDone else ActionFailed
  }

  /**
   * With an evaluator that leaves the status alone, as the learning core
   * currently does, no sensor data ever leads to an "F" report.
   */
  lemma UnchangedStatusReportsAcceptable(r: Response)
    ensures ReportText(ReadStatus(r))[0] == POSITIVE_RESULT
  {
  }

  /** Socket 1 of the SAE grants the learning model every command, so a call there is a plain memory operation. */
  lemma SaeGrantsRead(g: Geometry, before: seq<Byte>, p: Payload, delay: nat)
    requires g.width > 0 && |before| == g.size && DataFits(p)
    ensures var o := Transact(g, before, p, delay);
      TargetSae.Serve(g, before, 1, p, delay) == TargetSae.Served(o.contents, o.payload, o.delay)
  {
  }

  class LModel {
    const id: nat
    const nodenbr: nat
    /** Bytes read from the SAE per cycle (`lm_sae_dl`). */
    const saeDl: uint32
    /** Bytes of result written to the SEE per cycle (`lm_res_dl`). */
    const resDl: uint32
    /** Bytes of the report string copied into the report memory (`lm_rep_dl`). */
    const repDl: uint32
    const triggerNr: uint32
    const repMem: Memory

    /** Next SAE address C1 reads (`sae_adr_start`). */
    var saeAdrStart: uint64
    /** Address of every write to the SEE (`see_adr_start`); it is never reassigned. */
    var seeAdrStart: uint64
    var targetId: nat
    /** The buffer the SAE data is read into (`lm_sae_data`). */
    var saeData: seq<Byte>
    /** The buffer of result data written to the SEE (`lm_res_data`). */
    var resData: seq<Byte>
    var saeTObj: Payload
    var seeTObj: Payload
    var saeDelay: nat
    var seeDelay: nat
    /** Process C1's cycle counter. */
    var cyclesCounter: uint32
    var qk1: Quantum.Keeper
    var qk2: Quantum.Keeper

    ghost predicate Valid()
      reads this
    {
      && repMem.Valid() && repMem.width > 0
      && |saeData| == saeDl && |resData| == saeDl
      && resDl <= saeDl && repDl <= 2
    }

    /**
     * The report memory and the SAE data buffer start zeroed. Process C2
     * replaces the result buffer by an uninitialised one of `saeDl` bytes
     * before its first cycle; its contents are the caller's
     * (`initialResult`).
     */
    constructor (id: nat, memSize: uint64, memWidth: uint32,
                 resultDl: uint32, reportDl: uint32, saeDataDl: uint32,
                 readLatency: nat, writeLatency: nat,
                 triggerNr: uint32, quantum: nat, nodenbr: nat, initialResult: seq<Byte>)
      requires memWidth > 0 && reportDl <= 2 && resultDl <= saeDataDl
      requires |initialResult| == saeDataDl
      ensures Valid() && fresh(repMem) && fresh(repMem.cells)
      ensures repMem.cells[..] == Zeros(memSize) && repMem.id == id
      ensures repMem.readDelay == readLatency && repMem.writeDelay == writeLatency
      ensures saeData == Zeros(saeDataDl) && resData == initialResult
      ensures saeAdrStart == 0 && seeAdrStart == 0 && cyclesCounter == 1
      ensures qk1 == Quantum.Keeper(0, quantum) && qk2 == Quantum.Keeper(0, quantum)
      ensures saeDl == saeDataDl && resDl == resultDl && repDl == reportDl
      ensures this.id == id && this.nodenbr == nodenbr && this.triggerNr == triggerNr
    {
      this.id := id;
      this.nodenbr := nodenbr;
      saeDl := saeDataDl;
      resDl := resultDl;
      repDl := reportDl;
      this.triggerNr := triggerNr;
      repMem := new Memory(id, readLatency, writeLatency, memSize, memWidth);
      saeAdrStart := 0;
      seeAdrStart := 0;
      targetId := 0;
      saeData := Zeros(saeDataDl);
      resData := initialResult;
      saeTObj := DEFAULT_PAYLOAD;
      seeTObj := DEFAULT_PAYLOAD;
      saeDelay := 0;
      seeDelay := 0;
      cyclesCounter := 1;
      qk1 := Quantum.Keeper(0, quantum);
      qk2 := Quantum.Keeper(0, quantum);
    }

    /**
     * `set_trans_Obj`: the target decides the command and the length (the
     * command argument is not consulted); for any other target those two
     * keep the values they had in `prev`.
     */
    function TransObj(prev: Payload, cmd: Command, target: nat, data: seq<Byte>, adr: uint64): (p: Payload)
      ensures p.address == adr && p.data == data && p.response == Incomplete && !p.byteEnable
      ensures target == SAE_ID_NR ==> p.command == Read && p.length == saeDl && p.streamingWidth == saeDl
      ensures target == SEE_ID_NR ==> p.command == Write && p.length == resDl && p.streamingWidth == resDl
      ensures target != SAE_ID_NR && target != SEE_ID_NR ==>
        p.command == prev.command && p.length == prev.length && p.streamingWidth == prev.streamingWidth
    {
      var shaped :=
        if target == SAE_ID_NR then prev.(command := Read, length := saeDl, streamingWidth := saeDl)
        else if target == SEE_ID_NR then prev.(command := Write, length := resDl, streamingWidth := resDl)
        else prev;
      shaped.(address := adr, data := data, response := Incomplete, byteEnable := false)
    }

    method SetTargetId(target: nat)
      modifies this
      ensures targetId == target
      ensures saeAdrStart == old(saeAdrStart) && saeData == old(saeData) && resData == old(resData)
      ensures saeTObj == old(saeTObj) && seeTObj == old(seeTObj) && cyclesCounter == old(cyclesCounter)
      ensures qk1 == old(qk1) && qk2 == old(qk2) && saeDelay == old(saeDelay) && seeDelay == old(seeDelay)
      ensures seeAdrStart == old(seeAdrStart)
    {
      targetId := target;
    }

    /** Writes the report string of the current status at address 0 of the report memory. */
    method DoReport(status: ReportStatus)
      requires Valid()
      modifies repMem.cells
      ensures repMem.cells[..] == SelfWritten(old(repMem.cells[..]), 0, ReportText(status), repDl)
    {
      repMem.SelfWrite(0, ReportText(status), repDl);
    }

    /** The monitor's reads of the report memory arrive here, on behalf of the monitor. */
    method BTransport(p: Payload, delay: nat) returns (q: Payload, delay': nat)
      requires Valid() && DataFits(p)
      modifies repMem, repMem.cells
      ensures var r := Transact(repMem.Geom(), old(repMem.cells[..]), p, delay);
        repMem.cells[..] == r.contents && q == r.payload && delay' == r.delay
      ensures repMem.initiator == MONITOR_ID_NR
    {
      var _, q1, d1 := repMem.Operation(MONITOR_ID_NR, p, delay);
      q, delay' := q1, d1;
    }

    /** Direct memory access, non-blocking and debug calls on the report memory are answered with constants. */
    function GetDirectMemPtr(p: Payload): (granted: bool)
      ensures !granted
    {
      false
    }

    function NbTransportFw(p: Payload): (s: SyncEnum)
      ensures s == Accepted
    {
      Accepted
    }

    function TransportDbg(p: Payload): (n: nat)
      ensures n == 0
    {
      0
    }

    /** Backward calls on either initiator socket are accepted and otherwise ignored. */
    function NbTransportBw(p: Payload): (s: SyncEnum)
      ensures s == Accepted
    {
      Accepted
    }

    /**
     * `execute_trans` for the SAE: a read through SAE socket 1, after
     * which the read status is recorded.
     */
    method ExecuteSaeTrans(g: Fabric.Globals, sae: TargetSae.Sae)
      requires Valid() && sae.Valid() && DataFits(saeTObj) && |saeTObj.data| == saeDl
      modifies this, g, sae.mem, sae.mem.cells
      ensures var r := TargetSae.Serve(sae.mem.Geom(), old(sae.mem.cells[..]), 1, old(saeTObj), old(saeDelay));
        sae.mem.cells[..] == r.contents && saeTObj == r.payload && saeDelay == r.delay
        && g.lmActionsStatus == ReadStatus(r.payload.response)
      ensures |saeTObj.data| == saeDl
      ensures saeAdrStart == old(saeAdrStart) && saeData == old(saeData) && resData == old(resData)
      ensures seeTObj == old(seeTObj) && cyclesCounter == old(cyclesCounter) && targetId == old(targetId)
      ensures qk1 == old(qk1) && qk2 == old(qk2) && seeDelay == old(seeDelay) && seeAdrStart == old(seeAdrStart)
      ensures g.mTargetIdx == old(g.mTargetIdx) && g.gvocTargetIdx == old(g.gvocTargetIdx)
      ensures g.seeTargetIdx == old(g.seeTargetIdx) && g.ic1InitiatorIdx == old(g.ic1InitiatorIdx)
      ensures g.seeActionsStatus == old(g.seeActionsStatus)
    {
      var q, d := sae.BTransport(1, saeTObj, saeDelay);
      saeTObj, saeDelay := q, d;
      g.lmActionsStatus := ReadStatus(q.response);
    }

    /**
     * One iteration of process C1: read the next `saeDl` bytes of the SAE
     * memory, let the core evaluate them, report, advance the read address,
     * choose the event to notify, and account for the time the read took.
     * A synchronisation counts the cycle and rewinds the read address.
     */
    method StepC1(g: Fabric.Globals, sae: TargetSae.Sae, evaluate: (seq<Byte>, ReportStatus) -> ReportStatus)
      returns (ev: Event)
      requires Valid() && sae.Valid() && sae.mem.cells != repMem.cells
      modifies this, g, sae.mem, sae.mem.cells, repMem.cells
      ensures Valid()
      ensures var p := TransObj(old(saeTObj), Read, SAE_ID_NR, old(saeData), old(saeAdrStart));
        var r := Transact(sae.mem.Geom(), old(sae.mem.cells[..]), p, old(qk1.local));
        var synced := Quantum.Syncs(old(qk1), r.delay);
        && sae.mem.cells[..] == r.contents && saeTObj == r.payload && saeDelay == r.delay
        && saeData == r.payload.data
        && g.lmActionsStatus == evaluate(r.payload.data, ReadStatus(r.payload.response))
        && repMem.cells[..] == SelfWritten(old(repMem.cells[..]), 0, ReportText(g.lmActionsStatus), repDl)
        && saeAdrStart == CursorAfter(old(saeAdrStart), saeDl, true, synced)
        && qk1 == Quantum.Commit(old(qk1), r.delay)
        && cyclesCounter == CounterAfter(old(cyclesCounter), triggerNr, synced)
      ensures ev == Event(if Fires(old(cyclesCounter), triggerNr) then LmodelToMonitor else MonitorEv, nodenbr)
      ensures targetId == SAE_ID_NR && resData == old(resData) && seeTObj == old(seeTObj)
      ensures qk2 == old(qk2) && seeAdrStart == old(seeAdrStart)
      ensures g.mTargetIdx == old(g.mTargetIdx) && g.gvocTargetIdx == old(g.gvocTargetIdx)
      ensures g.seeTargetIdx == old(g.seeTargetIdx) && g.ic1InitiatorIdx == old(g.ic1InitiatorIdx)
      ensures g.seeActionsStatus == old(g.seeActionsStatus)
    {
      ReadAndReport(g, sae, evaluate);
      ev := CloseCycle();
    }

    /** The first half of a C1 iteration: the SAE read, the evaluation and the report. */
    method ReadAndReport(g: Fabric.Globals, sae: TargetSae.Sae, evaluate: (seq<Byte>, ReportStatus) -> ReportStatus)
      requires Valid() && sae.Valid() && sae.mem.cells != repMem.cells
      modifies this, g, sae.mem, sae.mem.cells, repMem.cells
      ensures Valid()
      ensures var p := TransObj(old(saeTObj), Read, SAE_ID_NR, old(saeData), old(saeAdrStart));
        var r := Transact(sae.mem.Geom(), old(sae.mem.cells[..]), p, old(qk1.local));
        && sae.mem.cells[..] == r.contents && saeTObj == r.payload && saeDelay == r.delay
        && saeData == r.payload.data
        && g.lmActionsStatus == evaluate(r.payload.data, ReadStatus(r.payload.response))
        && repMem.cells[..] == SelfWritten(old(repMem.cells[..]), 0, ReportText(g.lmActionsStatus), repDl)
      ensures targetId == SAE_ID_NR && resData == old(resData) && seeTObj == old(seeTObj)
      ensures saeAdrStart == old(saeAdrStart) && cyclesCounter == old(cyclesCounter)
      ensures qk1 == old(qk1) && qk2 == old(qk2) && seeAdrStart == old(seeAdrStart)
      ensures g.mTargetIdx == old(g.mTargetIdx) && g.gvocTargetIdx == old(g.gvocTargetIdx)
      ensures g.seeTargetIdx == old(g.seeTargetIdx) && g.ic1InitiatorIdx == old(g.ic1InitiatorIdx)
      ensures g.seeActionsStatus == old(g.seeActionsStatus)
    {
      saeDelay := qk1.local;
      SetTargetId(SAE_ID_NR);
      saeTObj := TransObj(saeTObj, Read, targetId, saeData, saeAdrStart);
      SaeGrantsRead(sae.mem.Geom(), sae.mem.cells[..], saeTObj, saeDelay);
      ExecuteSaeTrans(g, sae);
      saeData := saeTObj.data;
      g.lmActionsStatus := evaluate(saeData, g.lmActionsStatus);
      DoReport(g.lmActionsStatus);
    }

    /**
     * The second half of a C1 iteration: advance the read address, pick
     * the event, and hand the read's delay to the quantum keeper.
     */
    method CloseCycle() returns (ev: Event)
      modifies this
      ensures var synced := Quantum.Syncs(old(qk1), old(saeDelay));
        && saeAdrStart == CursorAfter(old(saeAdrStart), saeDl, true, synced)
        && qk1 == Quantum.Commit(old(qk1), old(saeDelay))
        && cyclesCounter == CounterAfter(old(cyclesCounter), triggerNr, synced)
      ensures ev == Event(if Fires(old(cyclesCounter), triggerNr) then LmodelToMonitor else MonitorEv, nodenbr)
      ensures saeData == old(saeData) && resData == old(resData) && saeTObj == old(saeTObj)
      ensures seeTObj == old(seeTObj) && saeDelay == old(saeDelay) && seeDelay == old(seeDelay)
      ensures qk2 == old(qk2) && targetId == old(targetId) && seeAdrStart == old(seeAdrStart)
    {
      saeAdrStart := (saeAdrStart + saeDl) % TWO_64;
      var counter := cyclesCounter;
      if Fires(counter, triggerNr) {
        ev := Event(LmodelToMonitor, nodenbr);
        counter := 0;
      } else {
        ev := Event(MonitorEv, nodenbr);
      }
      qk1 := qk1.Set(saeDelay);
      if qk1.NeedSync() {
        counter := (counter + 1) % TWO_32;
        qk1 := qk1.Sync();
        saeAdrStart := 0;
      }
      cyclesCounter := counter;
    }

    /**
     * `execute_trans` for the SEE: a write to the SEE's socket 2. The
     * response is only logged.
     */
    method ExecuteSeeTrans(see: BridgeSee.See)
      requires see.Valid() && DataFits(seeTObj)
      modifies this, see.lmMem, see.lmMem.cells
      ensures var r := Transact(see.lmMem.Geom(), old(see.lmMem.cells[..]), old(seeTObj), old(seeDelay));
        see.lmMem.cells[..] == r.contents && seeTObj == r.payload && seeDelay == r.delay
      ensures saeAdrStart == old(saeAdrStart) && saeData == old(saeData) && resData == old(resData)
      ensures saeTObj == old(saeTObj) && cyclesCounter == old(cyclesCounter) && targetId == old(targetId)
      ensures qk1 == old(qk1) && qk2 == old(qk2) && saeDelay == old(saeDelay) && seeAdrStart == old(seeAdrStart)
    {
      var q, d := see.BTransport(2, seeTObj, seeDelay);
      seeTObj, seeDelay := q, d;
    }

    /**
     * One iteration of process C2 after `monitor_ev`: when C1's evaluation
     * asked for an action the core fills the result buffer (`produced`),
     * otherwise its first `resDl` bytes are cleared; the first `resDl`
     * bytes are then written to the SEE and `lmodel_to_see` is notified.
     */
    method StepC2(g: Fabric.Globals, see: BridgeSee.See, produced: seq<Byte>) returns (ev: Event)
      requires Valid() && see.Valid() && |produced| == saeDl
      requires see.lmMem.cells != repMem.cells
      modifies this, see.lmMem, see.lmMem.cells
      ensures Valid()
      ensures resData == if g.lmActionsStatus == ActionNeeded then produced
                         else Zeros(resDl) + old(resData)[resDl..]
      ensures var p := TransObj(old(seeTObj), Write, SEE_ID_NR, resData, old(seeAdrStart));
        var r := Transact(see.lmMem.Geom(), old(see.lmMem.cells[..]), p, old(qk2.local));
        && see.lmMem.cells[..] == r.contents && seeTObj == r.payload && seeDelay == r.delay
        && qk2 == Quantum.Commit(old(qk2), r.delay)
      ensures ev == Event(LmodelToSee, nodenbr)
      ensures targetId == SEE_ID_NR && saeData == old(saeData) && saeTObj == old(saeTObj)
      ensures saeAdrStart == old(saeAdrStart) && seeAdrStart == old(seeAdrStart)
      ensures qk1 == old(qk1) && cyclesCounter == old(cyclesCounter) && saeDelay == old(saeDelay)
    {
      seeDelay := qk2.local;
      SetTargetId(SEE_ID_NR);
      if g.lmActionsStatus == ActionNeeded {
        resData := produced;
      } else {
        resData := Zeros(resDl) + resData[resDl..];
      }
      seeTObj := TransObj(seeTObj, Write, targetId, resData, seeAdrStart);
      ExecuteSeeTrans(see);
      ev := Event(LmodelToSee, nodenbr);
      qk2 := qk2.Set(seeDelay);
      if qk2.NeedSync() {
        qk2 := qk2.Sync();
      }
    }
  }
}
