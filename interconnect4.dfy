// Interconnect 4 fans the evaluation engine out to the actuators and the
// external actions. It keeps no state: every forward call goes to the
// output chosen by `see_target_idx`, every backward call to its single
// target socket.

module Interconnect4 {
  import opened Tlm
  import opened MemoryBlock
  import ActionTarget
  import Fabric

  /**
   * Output socket of a forward call (b_transport, get_direct_mem_ptr,
   * nb_transport_fw, transport_dbg): the selector, which must name one of
   * the `outputs` sockets the router was built with.
   */
  function Select(g: Fabric.Globals, outputs: nat): (port: nat)
    requires g.seeTargetIdx < outputs
    reads g
    ensures port < outputs && port == g.seeTargetIdx
  {
    g.seeTargetIdx
  }

  /** Backward calls ignore the socket tag they arrive on and go to the single target socket unchanged. */
  function Backward(tag: int, p: Payload): (d: Delivery)
    ensures d.socket == 0 && d.payload == p
  {
    Delivery(0, p)
  }

  /** Blocking forward call into the selected action target. */
  method BTransport(g: Fabric.Globals, outputs: seq<ActionTarget.Target>, p: Payload, delay: nat)
    returns (q: Payload, delay': nat)
    requires g.seeTargetIdx < |outputs| && outputs[g.seeTargetIdx].Valid() && DataFits(p)
    modifies outputs[g.seeTargetIdx].mem, outputs[g.seeTargetIdx].mem.cells
    ensures var t := outputs[Select(g, |outputs|)];
      var r := Transact(t.mem.Geom(), old(t.mem.cells[..]), p, delay);
      t.mem.cells[..] == r.contents && q == r.payload && delay' == r.delay && t.mem.initiator == t.caller
  {
    var t := outputs[Select(g, |outputs|)];
    q, delay' := t.BTransport(p, delay);
  }
}
