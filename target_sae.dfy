// The self-awareness engine's target: one memory behind two tagged
// sockets. Socket 1 is bound to the learning model, socket 0 to
// interconnect 1, which carries the sensors and the other nodes.

module TargetSae {
  import opened Tlm
  import opened MemoryBlock
  import Fabric

  /** What the access control does with a call on a socket tag. */
  datatype Access =
    | Grant(initiator: nat)  // run the memory operation on behalf of `initiator`
    | Deny                   // answer with a command error, leave the memory alone
    | Drop                   // an unknown tag: do nothing

  /** The learning model may read and write; the interconnect-1 initiators may only write. */
  function Decide(tag: int, cmd: Command): (a: Access)
    ensures a.Grant? <==> tag == 1 || (tag == 0 && cmd != Read)
    ensures a.Deny? <==> tag == 0 && cmd == Read
    ensures a.Grant? ==> a.initiator == (if tag == 1 then LMODEL_ID_NR else IC1_ID_NR)
  {
    if tag == 1 then Grant(LMODEL_ID_NR)
    else if tag == 0 then (if cmd == Read then Deny else Grant(IC1_ID_NR))
    else Drop
  }

  /** Effect of a blocking call on the memory contents, the payload and the delay. */
  datatype Served = Served(contents: seq<Byte>, payload: Payload, delay: nat)

  function Serve(g: Geometry, before: seq<Byte>, tag: int, p: Payload, delay: nat): (r: Served)
    requires g.width > 0 && |before| == g.size && DataFits(p)
    ensures |r.contents| == |before|
    ensures !Decide(tag, p.command).Grant? ==> r.contents == before && r.delay == delay
    ensures Decide(tag, p.command).Deny? ==> r.payload == p.(response := CommandError)
    ensures Decide(tag, p.command).Drop? ==> r.payload == p
  {
    match Decide(tag, p.command)
    case Grant(_) =>
      var o := Transact(g, before, p, delay);
      Served(o.contents, o.payload, o.delay)
    case Deny => Served(before, p.(response := CommandError), delay)
    case Drop => Served(before, p, delay)
  }

  /** Nothing that arrives through interconnect 1 can take bytes out of the memory. */
  lemma Ic1NeverReads(g: Geometry, before: seq<Byte>, p: Payload, delay: nat)
    requires g.width > 0 && |before| == g.size && DataFits(p)
    ensures Serve(g, before, 0, p, delay).payload.data == p.data
  {
  }

  /** Through either socket only a successful write changes the memory. */
  lemma OnlyGrantedWritesChange(g: Geometry, before: seq<Byte>, tag: int, p: Payload, delay: nat)
    requires g.width > 0 && |before| == g.size && DataFits(p)
    ensures Serve(g, before, tag, p, delay).contents != before ==>
      p.command == Write && (tag == 0 || tag == 1) && Serve(g, before, tag, p, delay).payload.response == Ok
  {
    if Decide(tag, p.command).Grant? {
      OnlyWritesChangeMemory(g, before, p, delay);
    }
  }

  class Sae {
    const id: nat
    const mem: Memory
    /** Number of tagged target sockets (`sae_initiator_nr`). */
    const initiatorNr: nat

    ghost predicate Valid() {
      mem.Valid() && mem.width > 0
    }

    constructor (id: nat, memorySize: uint64, memoryWidth: uint32, readLatency: nat, writeLatency: nat)
      requires memoryWidth > 0
      ensures Valid() && fresh(mem) && fresh(mem.cells)
      ensures this.id == id && initiatorNr == SAE_INITIATOR_NUMBER
      ensures mem.id == id && mem.size == memorySize && mem.width == memoryWidth
      ensures mem.readDelay == readLatency && mem.writeDelay == writeLatency
      ensures mem.cells[..] == Zeros(memorySize)
    {
      this.id := id;
      initiatorNr := SAE_INITIATOR_NUMBER;
      mem := new Memory(id, readLatency, writeLatency, memorySize, memoryWidth);
    }

    /** Blocking transport on socket `tag`, with the access control in front of the memory. */
    method BTransport(tag: int, p: Payload, delay: nat) returns (q: Payload, delay': nat)
      requires Valid() && DataFits(p)
      modifies mem, mem.cells
      ensures var r := Serve(mem.Geom(), old(mem.cells[..]), tag, p, delay);
        mem.cells[..] == r.contents && q == r.payload && delay' == r.delay
      ensures mem.initiator == match Decide(tag, p.command)
        case Grant(who) => who
        case _ => old(mem.initiator)
    {
      match Decide(tag, p.command) {
        case Grant(who) =>
          var _, q1, d1 := mem.Operation(who, p, delay);
          q, delay' := q1, d1;
        case Deny =>
          q, delay' := p.(response := CommandError), delay;
        case Drop =>
          q, delay' := p, delay;
      }
    }

    /** Direct memory interface requests are refused. */
    function GetDirectMemPtr(tag: int, p: Payload): (granted: bool)
      ensures !granted
    {
      false
    }

    function NbTransportFw(tag: int, p: Payload): (s: SyncEnum)
      ensures s == Accepted
    {
      Accepted
    }

    function TransportDbg(tag: int, p: Payload): (n: nat)
      ensures n == 0
    {
      0
    }
  }

  /** The global `set_target_idx_for_invalidate_ptr`: backward invalidations always go to socket 0. */
  method SetTargetIdxForInvalidatePtr(g: Fabric.Globals, startAddr: uint32, endAddr: uint32)
    modifies g
    ensures g.ic1InitiatorIdx == 0
    ensures g.mTargetIdx == old(g.mTargetIdx) && g.gvocTargetIdx == old(g.gvocTargetIdx)
    ensures g.seeTargetIdx == old(g.seeTargetIdx)
    ensures g.lmActionsStatus == old(g.lmActionsStatus) && g.seeActionsStatus == old(g.seeActionsStatus)
  {
    g.ic1InitiatorIdx := 0;
  }
}
