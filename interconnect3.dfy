// Interconnect 3 carries the g.v.o.c.'s writes to the monitor memory
// (output 0) and to the evaluation engine's g.v.o.c. memory (output 1,
// bound to its socket tag 0). The output is the global `gvoc_target_idx`,
// which the g.v.o.c. sets before each write.

module Interconnect3 {
  import opened Tlm
  import opened MemoryBlock
  import Fabric
  import BridgeMonitor
  import BridgeSee

  /** Output socket of a forward call; the selector must name one of the two outputs. */
  function Select(g: Fabric.Globals): (port: nat)
    requires g.gvocTargetIdx < IC3_TARGET_NUMBER
    reads g
    ensures port < IC3_TARGET_NUMBER && port == g.gvocTargetIdx
  {
    g.gvocTargetIdx
  }

  /** The memory reached through output `port`. */
  function TargetMemory(monitor: BridgeMonitor.Monitor, see: BridgeSee.See, port: nat): Memory
    requires port < IC3_TARGET_NUMBER
  {
    if port == 0 then monitor.mem else see.gvocMem
  }

  /** Blocking forward call: into the monitor, or into socket 0 of the evaluation engine. */
  method BTransport(g: Fabric.Globals, monitor: BridgeMonitor.Monitor, see: BridgeSee.See, p: Payload, delay: nat)
    returns (q: Payload, delay': nat)
    requires g.gvocTargetIdx < IC3_TARGET_NUMBER && monitor.Valid() && see.Valid() && DataFits(p)
    modifies TargetMemory(monitor, see, g.gvocTargetIdx), TargetMemory(monitor, see, g.gvocTargetIdx).cells
    ensures var m := TargetMemory(monitor, see, Select(g));
      var r := Transact(m.Geom(), old(m.cells[..]), p, delay);
      m.cells[..] == r.contents && q == r.payload && delay' == r.delay
      && m.initiator == (if Select(g) == 0 then GVOC_ID_NR else 0)
  {
    if Select(g) == 0 {
      q, delay' := monitor.BTransport(p, delay);
    } else {
      q, delay' := see.BTransport(0, p, delay);
    }
  }

  /** The other forward calls reach targets that answer them with constants. */
  function GetDirectMemPtr(g: Fabric.Globals, monitor: BridgeMonitor.Monitor, see: BridgeSee.See, p: Payload): (granted: bool)
    requires g.gvocTargetIdx < IC3_TARGET_NUMBER
    reads g
    ensures !granted
  {
    if Select(g) == 0 then monitor.GetDirectMemPtr(p) else see.GetDirectMemPtr(0, p)
  }

  function NbTransportFw(g: Fabric.Globals, monitor: BridgeMonitor.Monitor, see: BridgeSee.See, p: Payload): (s: SyncEnum)
    requires g.gvocTargetIdx < IC3_TARGET_NUMBER
    reads g
    ensures s == Accepted
  {
    if Select(g) == 0 then monitor.NbTransportFw(p) else see.NbTransportFw(0, p)
  }

  function TransportDbg(g: Fabric.Globals, monitor: BridgeMonitor.Monitor, see: BridgeSee.See, p: Payload): (n: nat)
    requires g.gvocTargetIdx < IC3_TARGET_NUMBER
    reads g
    ensures n == 0
  {
    if Select(g) == 0 then monitor.TransportDbg(p) else see.TransportDbg(0, p)
  }

  /** Backward calls from either output go unchanged to the single target socket. */
  function Backward(p: Payload): (d: Delivery)
    ensures d.socket == 0 && d.payload == p
  {
    Delivery(0, p)
  }
}
