// The node's shared global variables: the socket-selector indices read by
// the routers and the two report-action status variables. One object
// holds them all; the components receive it as a parameter.

module Fabric {
  import opened Tlm

  class Globals {
    /** Output of interconnect 2 chosen by the monitor (`m_target_idx`). */
    var mTargetIdx: uint32
    /** Output of interconnect 3 chosen by the g.v.o.c. (`gvoc_target_idx`). */
    var gvocTargetIdx: uint32
    /** Output of interconnect 4 chosen by the evaluation engine (`see_target_idx`). */
    var seeTargetIdx: uint32
    /** Interconnect-1 socket that receives backward calls (`ic1_initiator_idx`). */
    var ic1InitiatorIdx: uint32
    var lmActionsStatus: ReportStatus
    var seeActionsStatus: ReportStatus

    /** The static initialisers of the globals. */
    constructor ()
      ensures mTargetIdx == 3 && gvocTargetIdx == 0 && seeTargetIdx == 0 && ic1InitiatorIdx == 0
      ensures lmActionsStatus == Unset && seeActionsStatus == ActionFailed
      ensures Reachable()
    {
      mTargetIdx := 3;
      gvocTargetIdx := 0;
      seeTargetIdx := 0;
      ic1InitiatorIdx := 0;
      lmActionsStatus := Unset;
      seeActionsStatus := ActionFailed;
    }

    /**
     * The selector values the node's processes can produce: the monitor
     * selects 0, 1 or its fallback 3, the g.v.o.c. 0 or 1, and nothing
     * changes the other two from 0.
     */
    ghost predicate Reachable()
      reads this
    {
      && (mTargetIdx == 0 || mTargetIdx == 1 || mTargetIdx == 3)
      && gvocTargetIdx <= 1
      && seeTargetIdx == 0
      && ic1InitiatorIdx == 0
    }

    /**
     * Reachable selectors name outputs that exist: interconnects 3 and 4
     * and the backward path of interconnect 1 are in range, and the
     * monitor's selector is in range unless it is its fallback 3.
     */
    lemma ReachableInRange()
      requires Reachable()
      ensures gvocTargetIdx < IC3_TARGET_NUMBER && ic1InitiatorIdx < SAE_INITIATOR_NUMBER
      ensures seeTargetIdx == 0
      ensures mTargetIdx < IC2_TARGET_NUMBER || mTargetIdx == 3
    {
    }
  }
}
