/** The global-operation flag of common/modules/src/global_op.rs: one stored
    bool that `start` and `stop` overwrite and two guards read. Contracts that
    mix the module in share one flag, so they hold a reference to one object. */
module GlobalOp {
  import opened Common

  class GlobalOperation {
    /** Storage "global_operation_ongoing"; an unset slot reads as false. */
    var ongoing: bool

    constructor ()
      ensures !ongoing
    {
      ongoing := false;
    }

    method Start()
      modifies this
      ensures ongoing
    {
      ongoing := true;
    }

    method Stop()
      modifies this
      ensures !ongoing
    {
      ongoing := false;
    }

    /** Passes exactly when no global operation is ongoing. */
    function RequireNotOngoing(): (o: Outcome)
      reads this
      ensures o.Pass? <==> !ongoing
      ensures o.Fail? ==> o.msg == "Global operation ongoing"
    {
      if !ongoing then Pass else Fail("Global operation ongoing")
    }

    /** Passes exactly when a global operation is ongoing. */
    function RequireOngoing(): (o: Outcome)
      reads this
      ensures o.Pass? <==> ongoing
      ensures o.Fail? ==> o.msg == "Global operation not ongoing"
    {
      if ongoing then Pass else Fail("Global operation not ongoing")
    }
  }

  /** In every state exactly one of the two guards passes. */
  lemma GuardsAreComplementary(g: GlobalOperation)
    ensures g.RequireNotOngoing().Pass? != g.RequireOngoing().Pass?
  {
  }
}
