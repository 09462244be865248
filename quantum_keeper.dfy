// An abstract temporal-decoupling quantum keeper. The library class is not
// part of this model; its behaviour is taken as an assumption: `set`
// assigns the local time offset, `need_sync` holds once that offset reached
// the global quantum, and `sync` zeroes it.

module Quantum {

  datatype Keeper = Keeper(local: nat, quantum: nat) {

    function Set(t: nat): (k: Keeper)
      ensures k.local == t && k.quantum == quantum
    {
      this.(local := t)
    }

    predicate NeedSync() {
      local >= quantum
    }

    function Sync(): (k: Keeper)
      ensures k.local == 0 && k.quantum == quantum
    {
      this.(local := 0)
    }
  }

  /**
   * The keeper bookkeeping that closes every process iteration: the local
   * time becomes the snapshot plus what the transport added, then the
   * process synchronises when the quantum is used up.
   */
  function Commit(k: Keeper, t: nat): (r: Keeper)
    ensures r.quantum == k.quantum
    ensures r.local == (if t >= k.quantum then 0 else t)
  {
    var s := k.Set(t);
    if s.NeedSync() then s.Sync() else s
  }

  /** Whether the iteration that commits local time `t` synchronises. */
  predicate Syncs(k: Keeper, t: nat) {
    k.Set(t).NeedSync()
  }

  function Sum(ds: seq<nat>): nat {
    if ds == [] then 0 else Sum(ds[..|ds| - 1]) + ds[|ds| - 1]
  }

  /** Iterations each adding the next delay of `ds` to the current local time. */
  function Run(k: Keeper, ds: seq<nat>): (r: Keeper)
    ensures r.quantum == k.quantum
  {
    if ds == [] then k
    else
      var prev := Run(k, ds[..|ds| - 1]);
      Commit(prev, prev.local + ds[|ds| - 1])
  }

  /** Below the quantum the local time is the sum of all delays so far. */
  lemma {:induction false} RunAccumulates(k: Keeper, ds: seq<nat>)
    requires k.local + Sum(ds) < k.quantum
    ensures Run(k, ds).local == k.local + Sum(ds)
  {
    if ds != [] {
      var init := ds[..|ds| - 1];
      RunAccumulates(k, init);
    }
  }

  /** The first iteration that reaches the quantum synchronises and restarts from zero. */
  lemma RunSyncsAtQuantum(k: Keeper, ds: seq<nat>, d: nat)
    requires k.local + Sum(ds) < k.quantum <= k.local + Sum(ds) + d
    ensures Run(k, ds + [d]).local == 0
  {
    assert (ds + [d])[..|ds|] == ds;
    RunAccumulates(k, ds);
  }

  /** The local time always stays below the quantum at the end of an iteration. */
  lemma {:induction false} RunBelowQuantum(k: Keeper, ds: seq<nat>)
    requires k.local < k.quantum
    ensures Run(k, ds).local < k.quantum
  {
    if ds != [] {
      RunBelowQuantum(k, ds[..|ds| - 1]);
    }
  }
}
