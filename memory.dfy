// The bounds-checked memory block shared by every target of the node. It
// has two access paths: `Operation`, the transaction path used by TLM
// b_transport calls, and `SelfWrite` / `SelfRead`, the owner's direct path.

module MemoryBlock {
  import opened Tlm
  import KeyFunctions

  /** The fixed parameters of a memory block. */
  datatype Geometry = Geometry(size: uint64, width: uint32, readDelay: nat, writeDelay: nat)

  /** Result of one transaction: new contents, returned payload, new delay, return value. */
  datatype Outcome = Outcome(contents: seq<Byte>, payload: Payload, delay: nat, ok: bool)

  /**
   * Address-range check: the access must start inside the memory and end
   * at most at its last byte. Both access paths of the model use it; see
   * `TransactionCheckAsWritten` and `OwnerCheckAsWritten` for the checks
   * as the code computes them.
   */
  function CheckRange(size: nat, address: nat, length: nat): (r: Response)
    ensures r == Ok || r == AddressError
    ensures r == Ok <==> address < size && address + length <= size
  {
    if address >= size then AddressError
    else if address + length > size then AddressError
    else Ok
  }

  /** `before` with `block` copied in at `at`, the effect of a `memcpy` into memory. */
  function Splice(before: seq<Byte>, at: nat, block: seq<Byte>): (r: seq<Byte>)
    requires at + |block| <= |before|
    ensures |r| == |before|
    ensures forall i :: 0 <= i < |block| ==> r[at + i] == block[i]
    ensures forall k :: 0 <= k < |before| && !(at <= k < at + |block|) ==> r[k] == before[k]
  {
    before[..at] + block + before[at + |block|..]
  }

  /**
   * The transaction path as a function of the memory contents before the
   * call. Shape errors (a byte-enable pointer, a streaming width other
   * than the length) are reported before the command is looked at; after
   * that the final status is always the address-check result.
   */
  function Transact(g: Geometry, before: seq<Byte>, p: Payload, delay: nat): (r: Outcome)
    requires g.width > 0 && |before| == g.size && DataFits(p)
    ensures |r.contents| == |before|
    ensures r.ok <==> !p.byteEnable && p.streamingWidth == p.length
    ensures !r.ok ==> r.delay == 0 && r.contents == before && r.payload.data == p.data
    ensures r.ok ==> r.payload.response == CheckRange(g.size, p.address, p.length)
    ensures r.payload.response != Ok ==> r.contents == before && r.payload.data == p.data
    ensures r.payload == p.(response := r.payload.response, data := r.payload.data)
    ensures |r.payload.data| == |p.data|
  {
    if p.byteEnable then
      Outcome(before, p.(response := ByteEnableError), 0, false)
    else if p.streamingWidth != p.length then
      Outcome(before, p.(response := BurstError), 0, false)
    else
      var status := CheckRange(g.size, p.address, p.length);
      var beats := KeyFunctions.BurstLength(p.length, g.width);
      match p.command
      case Write =>
        var contents := if status == Ok then Splice(before, p.address, p.data[..p.length]) else before;
        Outcome(contents, p.(response := status), delay + g.writeDelay * beats, true)
      case Read =>
        var data := if status == Ok then before[p.address..p.address + p.length] + p.data[p.length..] else p.data;
        Outcome(before, p.(response := status, data := data), delay + g.readDelay * beats, true)
      case Ignore =>
        Outcome(before, p.(response := status), delay, true)
  }

  /** A byte-enable pointer is reported first, a burst mismatch second; both zero the delay. */
  lemma ShapeErrorsFirst(g: Geometry, before: seq<Byte>, p: Payload, delay: nat)
    requires g.width > 0 && |before| == g.size && DataFits(p)
    ensures p.byteEnable ==> Transact(g, before, p, delay).payload.response == ByteEnableError
    ensures !p.byteEnable && p.streamingWidth != p.length ==>
      Transact(g, before, p, delay).payload.response == BurstError
    ensures p.byteEnable || p.streamingWidth != p.length ==>
      Transact(g, before, p, delay).delay == 0 && Transact(g, before, p, delay).contents == before
  {
  }

  /** An in-range write stores the payload bytes and keeps every other byte. */
  lemma WriteStores(g: Geometry, before: seq<Byte>, p: Payload, delay: nat)
    requires g.width > 0 && |before| == g.size && DataFits(p)
    requires p.command == Write && !p.byteEnable && p.streamingWidth == p.length
    requires p.address + p.length <= g.size && p.address < g.size
    ensures var r := Transact(g, before, p, delay);
      r.payload.response == Ok
      && (forall i :: 0 <= i < p.length ==> r.contents[p.address + i] == p.data[i])
      && (forall k :: 0 <= k < g.size && !(p.address <= k < p.address + p.length) ==> r.contents[k] == before[k])
  {
  }

  /** An in-range read fills the first `length` payload bytes and leaves the memory alone. */
  lemma ReadLoads(g: Geometry, before: seq<Byte>, p: Payload, delay: nat)
    requires g.width > 0 && |before| == g.size && DataFits(p)
    requires p.command == Read && !p.byteEnable && p.streamingWidth == p.length
    requires p.address + p.length <= g.size && p.address < g.size
    ensures var r := Transact(g, before, p, delay);
      r.payload.response == Ok && r.contents == before
      && (forall i :: 0 <= i < p.length ==> r.payload.data[i] == before[p.address + i])
      && r.payload.data[p.length..] == p.data[p.length..]
  {
  }

  /** Only a successful write changes the memory. */
  lemma OnlyWritesChangeMemory(g: Geometry, before: seq<Byte>, p: Payload, delay: nat)
    requires g.width > 0 && |before| == g.size && DataFits(p)
    ensures Transact(g, before, p, delay).contents != before ==>
      p.command == Write && Transact(g, before, p, delay).payload.response == Ok
  {
  }

  /**
   * Once the shape is right, reads and writes charge their latency once
   * per bus beat even when the address is out of range; other commands
   * charge nothing.
   */
  lemma DelayPerBeat(g: Geometry, before: seq<Byte>, p: Payload, delay: nat)
    requires g.width > 0 && |before| == g.size && DataFits(p)
    requires !p.byteEnable && p.streamingWidth == p.length
    ensures var r := Transact(g, before, p, delay);
      var beats := KeyFunctions.BurstLength(p.length, g.width);
      && (p.command == Write ==> r.delay == delay + g.writeDelay * beats)
      && (p.command == Read ==> r.delay == delay + g.readDelay * beats)
      && (p.command == Ignore ==> r.delay == delay)
  {
  }

  /** Writing a block and reading the same range back returns the block. */
  lemma WriteThenRead(g: Geometry, before: seq<Byte>, w: Payload, rd: Payload, d1: nat, d2: nat)
    requires g.width > 0 && |before| == g.size && DataFits(w) && DataFits(rd)
    requires w.command == Write && !w.byteEnable && w.streamingWidth == w.length
    requires rd.command == Read && !rd.byteEnable && rd.streamingWidth == rd.length
    requires rd.address == w.address && rd.length == w.length
    requires Transact(g, before, w, d1).payload.response == Ok
    ensures var after := Transact(g, before, w, d1).contents;
      Transact(g, after, rd, d2).payload.response == Ok
      && Transact(g, after, rd, d2).payload.data[..rd.length] == w.data[..w.length]
  {
    var after := Transact(g, before, w, d1).contents;
    var r := Transact(g, after, rd, d2);
    assert after == Splice(before, w.address, w.data[..w.length]);
    assert r.payload.data[..rd.length] == after[w.address..w.address + w.length];
  }

  // ---------------------------------------------------------------------
  // The address checks as the code computes them.

  /**
   * The transaction-path check as written: address and length are taken
   * as `unsigned int`, so the address loses its high 32 bits and the end
   * address wraps modulo 2^32 before the comparison with the 64-bit size.
   */
  function TransactionCheckAsWritten(size: uint64, address: uint64, length: uint32): (r: Response)
    ensures r == Ok <==> Truncate32(address) < size && (Truncate32(address) + length) % TWO_32 <= size
  {
    var start := Truncate32(address);
    if start >= size then AddressError
    else if (start + length) % TWO_32 > size then AddressError
    else Ok
  }

  /** Without wrap-around the check as written is the range check. */
  lemma TransactionCheckAgreesWithoutWrap(size: uint64, address: uint64, length: uint32)
    requires address + length < TWO_32
    ensures TransactionCheckAsWritten(size, address, length) == CheckRange(size, address, length)
  {
  }

  /**
   * Two transactions the check as written accepts although they leave the
   * memory: a length that wraps the 32-bit end address, and an address
   * above 2^32 whose low half is in range.
   */
  lemma TransactionCheckAcceptsOutOfRange()
    ensures TransactionCheckAsWritten(4, 1, 0xFFFF_FFFF) == Ok
    ensures CheckRange(4, 1, 0xFFFF_FFFF) == AddressError
    ensures TransactionCheckAsWritten(4, TWO_32, 1) == Ok
    ensures CheckRange(4, TWO_32, 1) == AddressError
  {
  }

  /**
   * The owner-path check as written: the last byte is computed as
   * `address + length - 1` in `unsigned int` and compared with `<=`
   * against the size.
   */
  function OwnerCheckAsWritten(size: uint64, address: uint32, length: uint32): (r: Response)
    ensures r == Ok <==> address < size && (address + length + TWO_32 - 1) % TWO_32 <= size
  {
    if address >= size then AddressError
    else if (address + length + TWO_32 - 1) % TWO_32 > size then AddressError
    else Ok
  }

  /**
   * For a non-empty access that does not wrap, the owner check lets the
   * access end one byte beyond the memory.
   */
  lemma OwnerCheckOneBeyond(size: uint64, address: uint32, length: uint32)
    requires length > 0 && address + length <= TWO_32
    ensures OwnerCheckAsWritten(size, address, length) == Ok <==> address < size && address + length <= size + 1
  {
  }

  /** The owner check accepts a write of bytes 3 and 4 of a four-byte memory, and rejects the empty access at 0. */
  lemma OwnerCheckCounterexamples()
    ensures OwnerCheckAsWritten(4, 3, 2) == Ok && CheckRange(4, 3, 2) == AddressError
    ensures OwnerCheckAsWritten(4, 0, 0) == AddressError && CheckRange(4, 0, 0) == Ok
  {
  }

  /** Where the owner check accepts the access, the range check accepts it or it ends exactly one byte late. */
  lemma OwnerCheckAtMostOneBeyond(size: uint64, address: uint32, length: uint32)
    requires OwnerCheckAsWritten(size, address, length) == Ok
    requires length > 0 && address + length <= TWO_32
    ensures CheckRange(size, address, length) == Ok || address + length == size + 1
  {
    OwnerCheckOneBeyond(size, address, length);
  }

  /**
   * Byte positions the owner write loop visits as written: its cursor is
   * an `sc_dt::uchar` and wraps modulo 256.
   */
  function SelfWriteCursorAsWritten(adr: uint8, length: nat): (r: seq<nat>)
    ensures |r| == length
    ensures forall i :: 0 <= i < length ==> r[i] == (adr + i) % 256
  {
    seq(length, i => (adr + i) % 256)
  }

  /** Up to position 255 the cursor visits consecutive positions. */
  lemma SelfWriteCursorContiguous(adr: uint8, length: nat)
    requires adr + length <= 256
    ensures forall i :: 0 <= i < length ==> SelfWriteCursorAsWritten(adr, length)[i] == adr + i
  {
  }

  /** In a 300-byte memory a ten-byte owner write at 250 writes its seventh byte to position 0. */
  lemma SelfWriteCursorWraps()
    ensures CheckRange(300, 250, 10) == Ok
    ensures SelfWriteCursorAsWritten(250, 10)[6] == 0
  {
  }

  // ---------------------------------------------------------------------
  // The owner path.

  /** Contents after an owner write of `length` bytes of `src` at `adr`. */
  function SelfWritten(before: seq<Byte>, adr: nat, src: seq<Byte>, length: nat): (r: seq<Byte>)
    requires |src| >= length
    ensures |r| == |before|
    ensures CheckRange(|before|, adr, length) != Ok ==> r == before
    ensures CheckRange(|before|, adr, length) == Ok ==>
      (forall i :: 0 <= i < length ==> r[adr + i] == src[i])
      && (forall k :: 0 <= k < |before| && !(adr <= k < adr + length) ==> r[k] == before[k])
  {
    if CheckRange(|before|, adr, length) == Ok then Splice(before, adr, src[..length]) else before
  }

  /** Target buffer after an owner read of `length` bytes at `adr`. */
  function ReadBack(contents: seq<Byte>, adr: nat, length: nat, target: seq<Byte>): (r: seq<Byte>)
    requires |target| >= length
    ensures |r| == |target|
    ensures CheckRange(|contents|, adr, length) != Ok ==> r == target
    ensures CheckRange(|contents|, adr, length) == Ok ==>
      (forall i :: 0 <= i < length ==> r[i] == contents[adr + i]) && r[length..] == target[length..]
  {
    if CheckRange(|contents|, adr, length) == Ok then contents[adr..adr + length] + target[length..] else target
  }

  /** An owner read of the range an owner write just filled returns the written bytes. */
  lemma SelfWriteThenRead(before: seq<Byte>, adr: nat, src: seq<Byte>, length: nat, target: seq<Byte>)
    requires |src| >= length && |target| >= length
    requires CheckRange(|before|, adr, length) == Ok
    ensures ReadBack(SelfWritten(before, adr, src, length), adr, length, target)[..length] == src[..length]
  {
    var r := ReadBack(SelfWritten(before, adr, src, length), adr, length, target);
    assert forall i :: 0 <= i < length ==> r[i] == src[i];
  }

  class Memory {
    const id: nat
    const readDelay: nat
    const writeDelay: nat
    const size: uint64
    const width: uint32
    const cells: array<Byte>
    /** Identifier of the initiator of the last transaction. */
    var initiator: nat

    ghost predicate Valid() {
      cells.Length == size
    }

    function Geom(): Geometry {
      Geometry(size, width, readDelay, writeDelay)
    }

    /** A fresh memory has `size` bytes, all zero. */
    constructor (id: nat, readDelay: nat, writeDelay: nat, size: uint64, width: uint32)
      ensures Valid() && fresh(cells)
      ensures cells[..] == Zeros(size)
      ensures this.id == id && this.readDelay == readDelay && this.writeDelay == writeDelay
      ensures this.size == size && this.width == width && initiator == 0
    {
      this.id := id;
      this.readDelay := readDelay;
      this.writeDelay := writeDelay;
      this.size := size;
      this.width := width;
      initiator := 0;
      cells := new Byte[size](_ => 0);
    }

    /** The transaction path; `id` is the initiator recorded for the access report. */
    method Operation(id: nat, p: Payload, delay: nat) returns (ok: bool, q: Payload, delay': nat)
      requires Valid() && width > 0 && DataFits(p)
      modifies this, cells
      ensures initiator == id
      ensures var r := Transact(Geom(), old(cells[..]), p, delay);
        cells[..] == r.contents && q == r.payload && delay' == r.delay && ok == r.ok
    {
      initiator := id;
      var status := CheckRange(size, p.address, p.length);
      if p.byteEnable {
        return false, p.(response := ByteEnableError), 0;
      } else if p.streamingWidth != p.length {
        return false, p.(response := BurstError), 0;
      }
      var beats := KeyFunctions.BurstLength(p.length, width);
      q, delay' := p, delay;
      match p.command {
        case Write =>
          if status == Ok {
            forall i | 0 <= i < p.length {
              cells[p.address + i] := p.data[i];
            }
            assert cells[..] == Splice(old(cells[..]), p.address, p.data[..p.length]);
          }
          delay' := delay + writeDelay * beats;
        case Read =>
          if status == Ok {
            q := q.(data := cells[p.address..p.address + p.length] + p.data[p.length..]);
          }
          delay' := delay + readDelay * beats;
        case Ignore =>
          q := q.(response := CommandError);
      }
      q := q.(response := status);
      ok := true;
    }

    /** The owner's write: copies `length` bytes of `src` to `adr` when the range check passes. */
    method SelfWrite(adr: uint8, src: seq<Byte>, length: uint32)
      requires Valid() && |src| >= length
      modifies cells
      ensures cells[..] == SelfWritten(old(cells[..]), adr, src, length)
    {
      if CheckRange(size, adr, length) == Ok {
        var i := 0;
        while i < length
          invariant 0 <= i <= length
          invariant forall k :: 0 <= k < cells.Length ==>
            cells[k] == if adr <= k < adr + i then src[k - adr] else old(cells[k])
        {
          cells[adr + i] := src[i];
          i := i + 1;
        }
        assert cells[..] == SelfWritten(old(cells[..]), adr, src, length);
      }
    }

    /** The owner's read: the target buffer after copying `length` bytes from `adr`. */
    method SelfRead(adr: uint64, target: seq<Byte>, length: uint32) returns (t: seq<Byte>)
      requires Valid() && |target| >= length
      ensures t == ReadBack(cells[..], adr, length, target)
    {
      if CheckRange(size, adr, length) == Ok {
        t := cells[adr..adr + length] + target[length..];
      } else {
        t := target;
      }
    }
  }
}
