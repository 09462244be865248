// Sizing arithmetic of the node (key_parameters) and the file-name helper
// (file_ops). Every size is an `unsigned int` product and wraps modulo 2^32.

module KeyFunctions {
  import opened Tlm

  /** A product of two `unsigned int` values. */
  function Product32(a: uint32, b: uint32): (r: uint32)
    ensures a * b < TWO_32 ==> r == a * b
    ensures (a * b - r) % TWO_32 == 0
  {
    var x := a * b;
    assert x - x % TWO_32 == (x / TWO_32) * TWO_32;
    DivOfMultiple(x / TWO_32, TWO_32);
    x % TWO_32
  }

  /** Size of the evaluation engine's memory for g.v.o.c. data. */
  function SeeGvocMemsize(gvocDl: uint32, dataPerCycle: uint32): (r: uint32)
    ensures gvocDl * dataPerCycle < TWO_32 ==> r == gvocDl * dataPerCycle
  {
    Product32(gvocDl, dataPerCycle)
  }

  /** Size of the self-awareness engine's memory: one region per IC1 initiator. */
  function SaeMemsize(dataPerCycle: uint32, initiators: uint32, maxDl: uint32): (r: uint32)
    ensures dataPerCycle * initiators * maxDl < TWO_32 ==> r == dataPerCycle * initiators * maxDl
  {
    if maxDl > 0 then
      MulMonotone(1, maxDl, dataPerCycle * initiators);
      Product32(Product32(dataPerCycle, initiators), maxDl)
    else
      0
  }

  lemma MulMonotone(a: nat, b: nat, c: nat)
    requires a <= b
    ensures a * c <= b * c
  {
    assert b * c == a * c + (b - a) * c;
  }

  /**
   * Without wrap-around the SAE memory splits evenly among the IC1
   * initiators, and each region holds `dataPerCycle` transfers of the
   * largest initiator data length.
   */
  lemma SaeMemsizeSplits(dataPerCycle: uint32, initiators: uint32, maxDl: uint32)
    requires initiators > 0
    requires dataPerCycle * initiators * maxDl < TWO_32
    ensures SaeMemsize(dataPerCycle, initiators, maxDl) % initiators == 0
    ensures SaeMemsize(dataPerCycle, initiators, maxDl) / initiators == dataPerCycle * maxDl
  {
    var r := SaeMemsize(dataPerCycle, initiators, maxDl);
    assert r == (dataPerCycle * maxDl) * initiators by {
      assert dataPerCycle * initiators * maxDl == (dataPerCycle * maxDl) * initiators;
    }
    DivOfMultiple(dataPerCycle * maxDl, initiators);
  }

  lemma DivOfMultiple(q: nat, n: nat)
    requires n > 0
    ensures (q * n) % n == 0 && (q * n) / n == q
  {
    DivModUnique(q * n, n, q, 0);
  }

  /** Quotient and remainder are the only ones with `x == q * n + r` and `r < n`. */
  lemma DivModUnique(x: nat, n: nat, q: nat, r: nat)
    requires n > 0 && r < n && x == q * n + r
    ensures x / n == q && x % n == r
  {
    var d := x / n;
    var m := x % n;
    assert (d - q) * n == r - m;
    SmallMultiple(d - q, n);
  }

  lemma SmallMultiple(k: int, n: int)
    requires n > 0 && -n < k * n < n
    ensures k == 0
  {
  }

  function LmSaeMemsize(maxDl: uint32): uint32 { maxDl }
  function LmRepMemsize(repDl: uint32): uint32 { repDl }
  function SeeLmMemsize(resDl: uint32): uint32 { resDl }
  function SeeRepMemsize(repDl: uint32): uint32 { repDl }

  /** Size of the monitor's memory for g.v.o.c. data. */
  function MonitorGvocMemsize(gvocDl: uint32, dataPerCycle: uint32): (r: uint32)
    ensures gvocDl * dataPerCycle < TWO_32 ==> r == gvocDl * dataPerCycle
  {
    Product32(gvocDl, dataPerCycle)
  }

  function ActuatorMemsize(actionsDl: uint32, dataPerCycle: uint32): (r: uint32)
    ensures actionsDl * dataPerCycle < TWO_32 ==> r == actionsDl * dataPerCycle
  {
    Product32(actionsDl, dataPerCycle)
  }

  function ExtactionMemsize(actionsDl: uint32, dataPerCycle: uint32): (r: uint32)
    ensures actionsDl * dataPerCycle < TWO_32 ==> r == actionsDl * dataPerCycle
  {
    Product32(actionsDl, dataPerCycle)
  }

  /** The g.v.o.c. memories of monitor and evaluation engine, and the action memories, agree in size. */
  lemma PairedSizesAgree(dl: uint32, n: uint32)
    ensures SeeGvocMemsize(dl, n) == MonitorGvocMemsize(dl, n)
    ensures ActuatorMemsize(dl, n) == ExtactionMemsize(dl, n)
  {
  }

  /** The memories sized by one data length have exactly that size. */
  lemma IdentitySizes(dl: uint32)
    ensures LmSaeMemsize(dl) == dl && LmRepMemsize(dl) == dl
    ensures SeeLmMemsize(dl) == dl && SeeRepMemsize(dl) == dl
  {
  }

  /**
   * Number of bus beats needed for `dl` bytes on a bus `bw` bytes wide,
   * the integer ceiling of `dl / bw`.
   */
  function BurstLength(dl: nat, bw: nat): (r: nat)
    requires bw > 0
    ensures r * bw >= dl
    ensures r == 0 || (r - 1) * bw < dl
  {
    CeilDivBounds(dl, bw);
    (dl + bw - 1) / bw
  }

  lemma CeilDivBounds(dl: nat, bw: nat)
    requires bw > 0
    ensures ((dl + bw - 1) / bw) * bw >= dl
    ensures (dl + bw - 1) / bw == 0 || ((dl + bw - 1) / bw - 1) * bw < dl
  {
    var q := (dl + bw - 1) / bw;
    var m := (dl + bw - 1) % bw;
    assert dl + bw - 1 == q * bw + m;
    assert q * bw >= dl;
    if q > 0 {
      assert (q - 1) * bw == q * bw - bw;
    }
  }

  /** The ceiling is unique: any count of beats with the same bounds is the burst length. */
  lemma BurstLengthUnique(dl: nat, bw: nat, r: nat)
    requires bw > 0
    requires r * bw >= dl && (r == 0 || (r - 1) * bw < dl)
    ensures r == BurstLength(dl, bw)
  {
    var b := BurstLength(dl, bw);
    if r < b {
      assert (b - 1) * bw < dl;
      MulMonotone(r, b - 1, bw);
      assert false;
    } else if r > b {
      MulMonotone(b, r - 1, bw);
      assert false;
    }
  }

  /** `prefix + "_" + suffix`. */
  function BuildFilename(prefix: string, suffix: string): (r: string)
    ensures |r| == |prefix| + 1 + |suffix|
    ensures r[..|prefix|] == prefix
    ensures r[|prefix|] == '_'
    ensures r[|prefix| + 1..] == suffix
  {
    prefix + "_" + suffix
  }
}
