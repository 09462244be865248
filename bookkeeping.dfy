// The per-iteration bookkeeping shared by the process bodies: the address
// cursor that walks through a target memory during a quantum, and the
// cycle counter that decides when the slow events are notified.

module Bookkeeping {
  import opened Tlm
  import KeyFunctions
  import Quantum

  /**
   * Cursor after one iteration: it moves on by the data length when the
   * process writes successive slots (`advance`), and starts over at 0
   * when the iteration synchronises with the quantum.
   */
  function CursorAfter(cursor: uint64, dl: uint32, advance: bool, synced: bool): (r: uint64)
    ensures synced ==> r == 0
    ensures !synced && !advance ==> r == cursor
    ensures !synced && advance && cursor + dl < TWO_64 ==> r == cursor + dl
  {
    if synced then 0
    else if advance then (cursor + dl) % TWO_64
    else cursor
  }

  /** Cursor after iterations whose synchronisation decisions are `syncs`. */
  function CursorRun(cursor: uint64, dl: uint32, advance: bool, syncs: seq<bool>): uint64 {
    if syncs == [] then cursor
    else CursorAfter(CursorRun(cursor, dl, advance, syncs[..|syncs| - 1]), dl, advance, syncs[|syncs| - 1])
  }

  /** Within one quantum the `j`-th transaction of a walking process goes to `j * dl`. */
  lemma {:induction false} CursorWalks(dl: uint32, syncs: seq<bool>)
    requires forall i :: 0 <= i < |syncs| ==> !syncs[i]
    ensures CursorRun(0, dl, true, syncs) == (|syncs| * dl) % TWO_64
  {
    if syncs != [] {
      var init := syncs[..|syncs| - 1];
      CursorWalks(dl, init);
      assert CursorRun(0, dl, true, syncs) == (CursorRun(0, dl, true, init) + dl) % TWO_64;
      WalkStep(|syncs|, dl);
    }
  }

  /** One more step of `dl` on a cursor that has walked `k - 1` steps. */
  lemma WalkStep(k: nat, dl: uint32)
    requires k > 0
    ensures (((k - 1) * dl) % TWO_64 + dl) % TWO_64 == (k * dl) % TWO_64
  {
    var walked := (k - 1) * dl;
    MulStep(k, dl);
    ModAddInto(walked, dl);
    assert k * dl == walked + dl;
  }

  lemma MulStep(k: nat, d: nat)
    requires k > 0
    ensures k * d == (k - 1) * d + d
  {
  }

  lemma ModAddInto(x: nat, d: nat)
    ensures (x % TWO_64 + d) % TWO_64 == (x + d) % TWO_64
  {
    var q := x / TWO_64;
    assert x == q * TWO_64 + x % TWO_64;
  }

  /** A process that does not walk only ever writes to its start address or to 0. */
  lemma {:induction false} CursorStays(cursor: uint64, dl: uint32, syncs: seq<bool>)
    ensures CursorRun(cursor, dl, false, syncs) == cursor || CursorRun(cursor, dl, false, syncs) == 0
  {
    if syncs != [] {
      CursorStays(cursor, dl, syncs[..|syncs| - 1]);
    }
  }

  /** The slow event of an iteration fires when the counter has reached a positive trigger. */
  predicate Fires(counter: uint32, trigger: uint32) {
    counter == trigger && trigger > 0
  }

  /** Counter after one iteration: reset when the event fired, incremented on synchronisation. */
  function CounterAfter(counter: uint32, trigger: uint32, synced: bool): (r: uint32)
    ensures Fires(counter, trigger) && synced ==> r == 1
    ensures Fires(counter, trigger) && !synced ==> r == 0
    ensures !Fires(counter, trigger) && !synced ==> r == counter
    ensures !Fires(counter, trigger) && synced && counter + 1 < TWO_32 ==> r == counter + 1
  {
    var c := if Fires(counter, trigger) then 0 else counter;
    if synced then (c + 1) % TWO_32 else c
  }

  /** With a positive trigger the counter never exceeds it. */
  lemma CounterBounded(counter: uint32, trigger: uint32, synced: bool)
    requires 0 < trigger && counter <= trigger
    ensures CounterAfter(counter, trigger, synced) <= trigger
  {
  }

  /** With trigger 0 the slow event never fires. */
  lemma ZeroTriggerNeverFires(counter: uint32)
    ensures !Fires(counter, 0)
  {
  }

  /** Counter after `k` iterations that each synchronise. */
  function CounterRun(counter: uint32, trigger: uint32, k: nat): uint32 {
    if k == 0 then counter else CounterAfter(CounterRun(counter, trigger, k - 1), trigger, true)
  }

  /**
   * When every iteration closes a quantum, the counter started at 1 is
   * `k % trigger + 1` after `k` iterations, so the slow event fires in
   * exactly the iterations whose number is a multiple of the trigger.
   */
  lemma {:induction false} CounterCountsQuanta(trigger: uint32, k: nat)
    requires trigger > 0
    ensures CounterRun(1, trigger, k) == k % trigger + 1
    ensures Fires(CounterRun(1, trigger, k), trigger) <==> (k + 1) % trigger == 0
  {
    if k > 0 {
      CounterCountsQuanta(trigger, k - 1);
      var prev := CounterRun(1, trigger, k - 1);
      assert prev == (k - 1) % trigger + 1;
      StepMod(k - 1, trigger);
    }
    StepMod(k, trigger);
  }

  lemma StepMod(k: nat, t: nat)
    requires t > 0
    ensures k % t + 1 == t ==> (k + 1) % t == 0
    ensures k % t + 1 < t ==> (k + 1) % t == k % t + 1
    ensures (k + 1) % t == 0 ==> k % t + 1 == t
  {
    var q := k / t;
    var r := k % t;
    assert k == q * t + r;
    if r + 1 == t {
      assert k + 1 == (q + 1) * t + 0;
      KeyFunctions.DivModUnique(k + 1, t, q + 1, 0);
    } else {
      assert k + 1 == q * t + (r + 1);
      KeyFunctions.DivModUnique(k + 1, t, q, r + 1);
    }
  }

  /**
   * The end of an iteration of a writing process (A1, A2, B): the cursor
   * moves on by one block when several blocks go out per cycle, the delay
   * goes to the quantum keeper, and a synchronisation rewinds the cursor.
   */
  method Advance(cursor: uint64, dl: uint32, datasetCycle: uint32, qk: Quantum.Keeper, delay: nat)
    returns (cursor': uint64, qk': Quantum.Keeper)
    ensures cursor' == CursorAfter(cursor, dl, datasetCycle > 1, Quantum.Syncs(qk, delay))
    ensures qk' == Quantum.Commit(qk, delay)
  {
    cursor' := cursor;
    if datasetCycle > 1 {
      cursor' := (cursor' + dl) % TWO_64;
    }
    qk' := qk.Set(delay);
    if qk'.NeedSync() {
      cursor' := 0;
      qk' := qk'.Sync();
    }
  }
}
