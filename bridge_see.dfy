// The self-evaluation engine's bridge (process D). It owns three memories:
// one for the learning model's results (socket tag 2), one for its own
// report (tag 1, read by the monitor) and one for g.v.o.c. data (tag 0).
// Each iteration writes its decision to an action target through
// interconnect 4.

module BridgeSee {
  import opened Tlm
  import opened MemoryBlock
  import opened Bookkeeping
  import Quantum
  import Fabric
  import ActionTarget
  import Interconnect4

  class See {
    const id: nat
    const nodenbr: nat
    /** Bytes of the decision copied into the report memory (`see_rep_data_length`). */
    const repDl: uint32
    /** Bytes of the decision sent to the action targets (`see_act_data_length`). */
    const actDl: uint32
    const triggerNr: uint32
    /** Address of every action write (`see_adr`); it is never reassigned. */
    const seeAdr: uint64
    const lmMem: Memory
    const gvocMem: Memory
    const repMem: Memory

    var idelay: nat
    var cyclesCounter: uint32
    /** The decision buffer (`see_dec_data`). */
    var decData: seq<Byte>
    var tObj: Payload
    var qk: Quantum.Keeper

    ghost predicate Valid()
      reads this
    {
      && lmMem.Valid() && gvocMem.Valid() && repMem.Valid()
      && lmMem.width > 0 && gvocMem.width > 0 && repMem.width > 0
      && lmMem != gvocMem && lmMem != repMem && gvocMem != repMem
      && lmMem.cells != gvocMem.cells && lmMem.cells != repMem.cells && gvocMem.cells != repMem.cells
      && |decData| == actDl && repDl <= actDl
    }

    /**
     * All three memories start zeroed. The decision buffer's initial
     * contents are left to the caller (`initialDecision`), as the
     * allocation does not initialise them.
     */
    constructor (id: nat, lmMemorySize: uint64, gvocMemorySize: uint64, reportMemorySize: uint64,
                 reportDl: uint32, actionsDl: uint32,
                 gvocWidth: uint32, lmWidth: uint32, repWidth: uint32,
                 readLatency: nat, gvocWriteLatency: nat, lmWriteLatency: nat,
                 triggerNr: uint32, quantum: nat, nodenbr: nat, initialDecision: seq<Byte>)
      requires gvocWidth > 0 && lmWidth > 0 && repWidth > 0
      requires reportDl <= actionsDl && |initialDecision| == actionsDl
      ensures Valid() && fresh(lmMem) && fresh(gvocMem) && fresh(repMem)
      ensures fresh(lmMem.cells) && fresh(gvocMem.cells) && fresh(repMem.cells)
      ensures lmMem.cells[..] == Zeros(lmMemorySize) && gvocMem.cells[..] == Zeros(gvocMemorySize)
      ensures repMem.cells[..] == Zeros(reportMemorySize)
      ensures lmMem.writeDelay == lmWriteLatency && gvocMem.writeDelay == gvocWriteLatency
      ensures repMem.writeDelay == readLatency && repMem.readDelay == readLatency
      ensures seeAdr == 0 && cyclesCounter == 1 && idelay == 0 && qk == Quantum.Keeper(0, quantum)
      ensures this.repDl == reportDl && this.actDl == actionsDl && this.triggerNr == triggerNr
      ensures this.id == id && this.nodenbr == nodenbr && tObj == DEFAULT_PAYLOAD
    {
      this.id := id;
      this.nodenbr := nodenbr;
      repDl := reportDl;
      actDl := actionsDl;
      this.triggerNr := triggerNr;
      seeAdr := 0;
      lmMem := new Memory(id, readLatency, lmWriteLatency, lmMemorySize, lmWidth);
      gvocMem := new Memory(id, readLatency, gvocWriteLatency, gvocMemorySize, gvocWidth);
      repMem := new Memory(id, readLatency, readLatency, reportMemorySize, repWidth);
      idelay := 0;
      cyclesCounter := 1;
      decData := initialDecision;
      tObj := DEFAULT_PAYLOAD;
      qk := Quantum.Keeper(0, quantum);
    }

    /** The memory behind socket tag 2, 1 or 0. */
    function MemFor(tag: int): Memory
      requires 0 <= tag <= 2
    {
      if tag == 2 then lmMem else if tag == 1 then repMem else gvocMem
    }

    /** Incoming blocking transport: the socket tag selects the memory and is recorded as initiator. */
    method BTransport(tag: int, p: Payload, delay: nat) returns (q: Payload, delay': nat)
      requires Valid() && DataFits(p)
      modifies if 0 <= tag <= 2 then {MemFor(tag)} else {}
      modifies if 0 <= tag <= 2 then {MemFor(tag).cells} else {}
      ensures 0 <= tag <= 2 ==>
        var m := MemFor(tag);
        var r := Transact(m.Geom(), old(m.cells[..]), p, delay);
        m.cells[..] == r.contents && q == r.payload && delay' == r.delay && m.initiator == tag
      ensures !(0 <= tag <= 2) ==> q == p && delay' == delay
    {
      if 0 <= tag <= 2 {
        var _, q1, d1 := MemFor(tag).Operation(tag, p, delay);
        q, delay' := q1, d1;
      } else {
        q, delay' := p, delay;
      }
    }

    /** Direct memory access, non-blocking and debug calls on any tag are answered with constants. */
    function GetDirectMemPtr(tag: int, p: Payload): (granted: bool)
      ensures !granted
    {
      false
    }

    function NbTransportFw(tag: int, p: Payload): (s: SyncEnum)
      ensures s == Accepted
    {
      Accepted
    }

    function TransportDbg(tag: int, p: Payload): (n: nat)
      ensures n == 0
    {
      0
    }

    /** Backward calls from interconnect 4 are accepted and otherwise ignored. */
    function NbTransportBw(p: Payload): (s: SyncEnum)
      ensures s == Accepted
    {
      Accepted
    }

    /** The action transaction: a write of the whole decision at `seeAdr`; the address argument is not used. */
    function TransObj(adr: uint32, data: seq<Byte>): (p: Payload)
      ensures p.command == Write && p.address == seeAdr && p.data == data
      ensures p.length == actDl && p.streamingWidth == actDl
      ensures !p.byteEnable && p.response == Incomplete
    {
      Payload(Write, seeAdr, data, actDl, actDl, false, Incomplete)
    }

    /** `set_target_idx`: selects output `id` of interconnect 4. */
    method SetTargetIdx(g: Fabric.Globals, id: int)
      modifies g
      ensures g.seeTargetIdx == id % TWO_32
      ensures g.mTargetIdx == old(g.mTargetIdx) && g.gvocTargetIdx == old(g.gvocTargetIdx)
      ensures g.ic1InitiatorIdx == old(g.ic1InitiatorIdx)
      ensures g.lmActionsStatus == old(g.lmActionsStatus) && g.seeActionsStatus == old(g.seeActionsStatus)
      ensures old(g.Reachable()) ==> (g.Reachable() <==> id % TWO_32 == 0)
    {
      g.seeTargetIdx := id % TWO_32;
    }

    /** Copies the first `repDl` decision bytes into the report memory at address 0. */
    method DoReport()
      requires Valid()
      modifies repMem.cells
      ensures repMem.cells[..] == SelfWritten(old(repMem.cells[..]), 0, decData, repDl)
    {
      repMem.SelfWrite(0, decData, repDl);
    }

    /** Issues `tObj` through interconnect 4 and records whether the action write succeeded. */
    method ExecuteTrans(g: Fabric.Globals, outputs: seq<ActionTarget.Target>)
      requires Valid() && DataFits(tObj)
      requires g.seeTargetIdx < |outputs| && outputs[g.seeTargetIdx].Valid()
      modifies this, g, outputs[g.seeTargetIdx].mem, outputs[g.seeTargetIdx].mem.cells
      ensures var t := outputs[old(g.seeTargetIdx)];
        var r := Transact(t.mem.Geom(), old(t.mem.cells[..]), old(tObj), old(idelay));
        t.mem.cells[..] == r.contents && tObj == r.payload && idelay == r.delay
        && g.seeActionsStatus == (if r.payload.response == Ok then WriteDone else ActionFailed)
      ensures decData == old(decData) && qk == old(qk) && cyclesCounter == old(cyclesCounter)
      ensures g.mTargetIdx == old(g.mTargetIdx) && g.gvocTargetIdx == old(g.gvocTargetIdx)
      ensures g.seeTargetIdx == old(g.seeTargetIdx) && g.ic1InitiatorIdx == old(g.ic1InitiatorIdx)
      ensures g.lmActionsStatus == old(g.lmActionsStatus)
    {
      var q, d := Interconnect4.BTransport(g, outputs, tObj, idelay);
      tObj, idelay := q, d;
      if tObj.response == Ok {
        g.seeActionsStatus := WriteDone;
      } else {
        g.seeActionsStatus := ActionFailed;
      }
    }

    /**
     * One iteration of process D after `lmodel_to_see` was notified:
     * take the decision, report it, write it to the selected action
     * target, notify the monitor on a trigger cycle, and account for
     * the time the write took.
     */
    method Step(g: Fabric.Globals, outputs: seq<ActionTarget.Target>, decision: seq<Byte>)
      returns (ev: Option<Event>)
      requires Valid() && |decision| == actDl
      requires g.seeTargetIdx < |outputs| && outputs[g.seeTargetIdx].Valid()
      requires outputs[g.seeTargetIdx].mem.cells != repMem.cells
      modifies this, g, repMem.cells, outputs[g.seeTargetIdx].mem, outputs[g.seeTargetIdx].mem.cells
      ensures Valid() && decData == decision
      ensures repMem.cells[..] == SelfWritten(old(repMem.cells[..]), 0, decision, repDl)
      ensures var t := outputs[old(g.seeTargetIdx)];
        var r := Transact(t.mem.Geom(), old(t.mem.cells[..]), TransObj(0, decision), old(qk.local));
        && t.mem.cells[..] == r.contents && tObj == r.payload && idelay == r.delay
        && g.seeActionsStatus == (if r.payload.response == Ok then WriteDone else ActionFailed)
        && qk == Quantum.Commit(old(qk), r.delay)
        && cyclesCounter == CounterAfter(old(cyclesCounter), triggerNr, Quantum.Syncs(old(qk), r.delay))
      ensures ev == if Fires(old(cyclesCounter), triggerNr) then Some(Event(SeeToMonitor, nodenbr)) else None
      ensures g.mTargetIdx == old(g.mTargetIdx) && g.gvocTargetIdx == old(g.gvocTargetIdx)
      ensures g.seeTargetIdx == old(g.seeTargetIdx) && g.ic1InitiatorIdx == old(g.ic1InitiatorIdx)
      ensures g.lmActionsStatus == old(g.lmActionsStatus)
    {
      idelay := qk.local;
      decData := decision;
      DoReport();
      tObj := TransObj(0, decData);
      ExecuteTrans(g, outputs);
      var counter := cyclesCounter;
      ev := None;
      if Fires(counter, triggerNr) {
        ev := Some(Event(SeeToMonitor, nodenbr));
        counter := 0;
      }
      qk := qk.Set(idelay);
      if qk.NeedSync() {
        counter := (counter + 1) % TWO_32;
        qk := qk.Sync();
      }
      cyclesCounter := counter;
    }
  }
}
