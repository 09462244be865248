// Interconnect 2 carries the monitor's reads to the report memories of the
// learning model (output 0) and of the self-evaluation engine (output 1,
// bound to its socket tag 1). The output is the global `m_target_idx`,
// which the monitor sets before each read.

module Interconnect2 {
  import opened Tlm
  import opened MemoryBlock
  import Fabric
  import BridgeLModel
  import BridgeSee

  /**
   * Output socket of a forward call. The selector must name one of the two
   * outputs; the monitor's fallback value 3 does not.
   */
  function Select(g: Fabric.Globals): (port: nat)
    requires g.mTargetIdx < IC2_TARGET_NUMBER
    reads g
    ensures port < IC2_TARGET_NUMBER && port == g.mTargetIdx
  {
    g.mTargetIdx
  }

  /** The report memory reached through output `port`. */
  function ReportMemory(lm: BridgeLModel.LModel, see: BridgeSee.See, port: nat): Memory
    requires port < IC2_TARGET_NUMBER
  {
    if port == 0 then lm.repMem else see.repMem
  }

  /** Blocking forward call: into the learning model, or into socket 1 of the evaluation engine. */
  method BTransport(g: Fabric.Globals, lm: BridgeLModel.LModel, see: BridgeSee.See, p: Payload, delay: nat)
    returns (q: Payload, delay': nat)
    requires g.mTargetIdx < IC2_TARGET_NUMBER && lm.Valid() && see.Valid() && DataFits(p)
    modifies ReportMemory(lm, see, g.mTargetIdx), ReportMemory(lm, see, g.mTargetIdx).cells
    ensures var m := ReportMemory(lm, see, Select(g));
      var r := Transact(m.Geom(), old(m.cells[..]), p, delay);
      m.cells[..] == r.contents && q == r.payload && delay' == r.delay
      && m.initiator == (if Select(g) == 0 then MONITOR_ID_NR else 1)
  {
    if Select(g) == 0 {
      q, delay' := lm.BTransport(p, delay);
    } else {
      q, delay' := see.BTransport(1, p, delay);
    }
  }

  /** The other forward calls reach targets that answer them with constants. */
  function GetDirectMemPtr(g: Fabric.Globals, lm: BridgeLModel.LModel, see: BridgeSee.See, p: Payload): (granted: bool)
    requires g.mTargetIdx < IC2_TARGET_NUMBER
    reads g
    ensures !granted
  {
    if Select(g) == 0 then lm.GetDirectMemPtr(p) else see.GetDirectMemPtr(1, p)
  }

  function NbTransportFw(g: Fabric.Globals, lm: BridgeLModel.LModel, see: BridgeSee.See, p: Payload): (s: SyncEnum)
    requires g.mTargetIdx < IC2_TARGET_NUMBER
    reads g
    ensures s == Accepted
  {
    if Select(g) == 0 then lm.NbTransportFw(p) else see.NbTransportFw(1, p)
  }

  function TransportDbg(g: Fabric.Globals, lm: BridgeLModel.LModel, see: BridgeSee.See, p: Payload): (n: nat)
    requires g.mTargetIdx < IC2_TARGET_NUMBER
    reads g
    ensures n == 0
  {
    if Select(g) == 0 then lm.TransportDbg(p) else see.TransportDbg(1, p)
  }

  /** Backward calls from either output go unchanged to the single target socket. */
  function Backward(p: Payload): (d: Delivery)
    ensures d.socket == 0 && d.payload == p
  {
    Delivery(0, p)
  }
}
