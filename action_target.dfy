// The targets behind interconnect 4: actuators and external actions. Their
// blocking transport is the memory operation followed by a computation-core
// hook whose body is empty.

module ActionTarget {
  import opened Tlm
  import opened MemoryBlock

  class Target {
    /** Identifier passed to the memory as initiator: the actuator id, or the extaction socket tag. */
    const caller: nat
    const mem: Memory

    ghost predicate Valid() {
      mem.Valid() && mem.width > 0
    }

    constructor (id: nat, caller: nat, memorySize: uint64, memoryWidth: uint32, readLatency: nat, writeLatency: nat)
      requires memoryWidth > 0
      ensures Valid() && fresh(mem) && fresh(mem.cells) && this.caller == caller
      ensures mem.id == id && mem.size == memorySize && mem.cells[..] == Zeros(memorySize)
    {
      this.caller := caller;
      mem := new Memory(id, readLatency, writeLatency, memorySize, memoryWidth);
    }

    method BTransport(p: Payload, delay: nat) returns (q: Payload, delay': nat)
      requires Valid() && DataFits(p)
      modifies mem, mem.cells
      ensures mem.initiator == caller
      ensures var r := Transact(mem.Geom(), old(mem.cells[..]), p, delay);
        mem.cells[..] == r.contents && q == r.payload && delay' == r.delay
    {
      var _, q1, d1 := mem.Operation(caller, p, delay);
      q, delay' := q1, d1;
    }
  }
}
