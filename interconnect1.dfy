// Interconnect 1 funnels the sensors and the other nodes into socket 0
// of the self-awareness engine. The SAE memory is split evenly among its
// N target sockets; each call is moved into the region of the socket it
// arrived on, and backward calls are moved back.

module Interconnect1 {
  import opened Tlm
  import opened MemoryBlock
  import KeyFunctions
  import TargetSae
  import Fabric

  /** Bytes of SAE memory per initiator (`sae_memory_size / ic1_tsocket_nr`). */
  function RegionSize(saeSize: uint32, n: uint32): (r: uint32)
    requires n > 0
    ensures r * n <= saeSize
  {
    assert saeSize == (saeSize / n) * n + saeSize % n;
    saeSize / n
  }

  /** Forward mapping of the address of a call arriving on socket `idx`, in `unsigned int`. */
  function MapForward(saeSize: uint32, n: uint32, idx: nat, adr: uint64): (r: uint32)
    requires n > 0
  {
    (idx * RegionSize(saeSize, n) + Truncate32(adr)) % TWO_32
  }

  /** Reverse mapping for socket `idx`, in `unsigned int`. */
  function MapReverse(saeSize: uint32, n: uint32, idx: nat, adr: uint64): (r: uint32)
    requires n > 0
  {
    (Truncate32(adr) + TWO_32 - (idx * RegionSize(saeSize, n)) % TWO_32) % TWO_32
  }

  lemma ModOfOffset(x: nat, t: nat)
    requires t < TWO_32
    ensures ((x + t) % TWO_32 + TWO_32 - x % TWO_32) % TWO_32 == t
  {
    var r := x % TWO_32;
    var q := x / TWO_32;
    assert x == q * TWO_32 + r;
    assert (x + t) % TWO_32 == (r + t) % TWO_32;
  }

  /** The reverse mapping undoes the forward mapping for every address and socket. */
  lemma MapRoundTrip(saeSize: uint32, n: uint32, idx: nat, adr: uint64)
    requires n > 0
    ensures MapReverse(saeSize, n, idx, MapForward(saeSize, n, idx, adr)) == Truncate32(adr)
  {
    ModOfOffset(idx * RegionSize(saeSize, n), Truncate32(adr));
  }

  /** An in-region address of socket `idx < N` lands inside that socket's region. */
  lemma MapIntoRegion(saeSize: uint32, n: uint32, idx: nat, adr: uint64)
    requires n > 0 && idx < n && adr < RegionSize(saeSize, n)
    ensures var rs := RegionSize(saeSize, n);
      MapForward(saeSize, n, idx, adr) == idx * rs + adr
      && idx * rs <= MapForward(saeSize, n, idx, adr) < (idx + 1) * rs
  {
    var rs := RegionSize(saeSize, n);
    KeyFunctions.MulMonotone(idx + 1, n, rs);
    assert (idx + 1) * rs == idx * rs + rs;
  }

  /** Different sockets never share an SAE address. */
  lemma RegionsDisjoint(saeSize: uint32, n: uint32, i: nat, a: uint64, j: nat, b: uint64)
    requires n > 0 && i < n && j < n && i != j
    requires a < RegionSize(saeSize, n) && b < RegionSize(saeSize, n)
    ensures MapForward(saeSize, n, i, a) != MapForward(saeSize, n, j, b)
  {
    var rs := RegionSize(saeSize, n);
    MapIntoRegion(saeSize, n, i, a);
    MapIntoRegion(saeSize, n, j, b);
    if i < j {
      KeyFunctions.MulMonotone(i + 1, j, rs);
    } else {
      KeyFunctions.MulMonotone(j + 1, i, rs);
    }
  }

  /** With three initiators on a twelve-byte memory, address 3 of sockets 0, 1, 2 maps to 3, 7 and 11. */
  lemma MappingExample()
    ensures MapForward(12, 3, 0, 3) == 3
    ensures MapForward(12, 3, 1, 3) == 7
    ensures MapForward(12, 3, 2, 3) == 11
  {
  }

  /** With an SAE memory sized by `SaeMemsize`, each region holds one initiator's data for a cycle. */
  lemma RegionMatchesSizing(dataPerCycle: uint32, n: uint32, maxDl: uint32)
    requires n > 0 && dataPerCycle * n * maxDl < TWO_32
    ensures RegionSize(KeyFunctions.SaeMemsize(dataPerCycle, n, maxDl), n) == dataPerCycle * maxDl
  {
    KeyFunctions.SaeMemsizeSplits(dataPerCycle, n, maxDl);
  }

  class Router {
    /** Number of target sockets, one per sensor and other node (`ic1_tsocket_nr`). */
    const tsocketNr: uint32
    const saeMemorySize: uint32
    /** The target bound to the initiator socket. */
    const sae: TargetSae.Sae

    ghost predicate Valid() {
      sae.Valid() && tsocketNr > 0
    }

    constructor (tsocketNr: uint32, saeMemorySize: uint32, sae: TargetSae.Sae)
      ensures this.tsocketNr == tsocketNr && this.saeMemorySize == saeMemorySize && this.sae == sae
    {
      this.tsocketNr := tsocketNr;
      this.saeMemorySize := saeMemorySize;
      this.sae := sae;
    }

    /** `address_mapping`: the payload with only its address replaced. */
    function Mapped(idx: nat, p: Payload, forward: bool): (q: Payload)
      requires tsocketNr > 0
      ensures q == p.(address := q.address)
      ensures forward ==> q.address == MapForward(saeMemorySize, tsocketNr, idx, p.address)
      ensures !forward ==> q.address == MapReverse(saeMemorySize, tsocketNr, idx, p.address)
    {
      if forward then p.(address := MapForward(saeMemorySize, tsocketNr, idx, p.address))
      else p.(address := MapReverse(saeMemorySize, tsocketNr, idx, p.address))
    }

    /** Forward blocking call from socket `tag`: map the address, then call socket 0 of the SAE. */
    method BTransport(tag: nat, p: Payload, delay: nat) returns (q: Payload, delay': nat)
      requires Valid() && tag < tsocketNr && DataFits(p)
      modifies sae.mem, sae.mem.cells
      ensures var r := TargetSae.Serve(sae.mem.Geom(), old(sae.mem.cells[..]), 0, Mapped(tag, p, true), delay);
        sae.mem.cells[..] == r.contents && q == r.payload && delay' == r.delay
    {
      var m := Mapped(tag, p, true);
      q, delay' := sae.BTransport(0, m, delay);
    }

    /** The other forward calls map the address the same way; the SAE answers them with constants. */
    function GetDirectMemPtr(tag: nat, p: Payload): (r: (Payload, bool))
      requires Valid() && tag < tsocketNr
      ensures r.0 == Mapped(tag, p, true) && !r.1
    {
      var m := Mapped(tag, p, true);
      (m, sae.GetDirectMemPtr(0, m))
    }

    function NbTransportFw(tag: nat, p: Payload): (r: (Payload, SyncEnum))
      requires Valid() && tag < tsocketNr
      ensures r.0 == Mapped(tag, p, true) && r.1 == Accepted
    {
      var m := Mapped(tag, p, true);
      (m, sae.NbTransportFw(0, m))
    }

    function TransportDbg(tag: nat, p: Payload): (r: (Payload, nat))
      requires Valid() && tag < tsocketNr
      ensures r.0 == Mapped(tag, p, true) && r.1 == 0
    {
      var m := Mapped(tag, p, true);
      (m, sae.TransportDbg(0, m))
    }

    /** Backward non-blocking call: reverse-mapped and delivered to socket `ic1_initiator_idx`. */
    function NbTransportBw(g: Fabric.Globals, p: Payload): (d: Delivery)
      requires tsocketNr > 0
      reads g
      ensures d.socket == g.ic1InitiatorIdx
      ensures d.payload == Mapped(g.ic1InitiatorIdx, p, false)
    {
      Delivery(g.ic1InitiatorIdx, Mapped(g.ic1InitiatorIdx, p, false))
    }

    /** Backward invalidation: delivered unchanged to socket `ic1_initiator_idx`. */
    function InvalidateDirectMemPtr(g: Fabric.Globals, startRange: uint64, endRange: uint64): (socket: nat)
      reads g
      ensures socket == g.ic1InitiatorIdx
    {
      g.ic1InitiatorIdx
    }

    /**
     * A response travelling back over the path a request of socket 0 took
     * carries the initiator's own address again.
     */
    lemma BackwardRestoresAddress(g: Fabric.Globals, p: Payload)
      requires tsocketNr > 0 && g.ic1InitiatorIdx == 0
      ensures NbTransportBw(g, Mapped(0, p, true)).payload == p.(address := Truncate32(p.address))
    {
      MapRoundTrip(saeMemorySize, tsocketNr, 0, p.address);
    }
  }
}
