/**
 * The DSM action queue's resolution handler: a DSM picks a queued action and
 * a resolution; a DSR mismatch resolved by assigning the sales DSR rewrites
 * the DSR of every opportunity of that customer, and the action is marked
 * COMPLETED with the resolution and the time, whatever its type and
 * whatever the resolution says.
 */
module ActionQueue {
  import opened Store
  import EngineCommon

  /** The resolution value that keeps the opportunity's DSR. */
  const KeepOpportunityDsr := "keep_opportunity_dsr"
  /** The resolution value that hands the customer to the DSR on the sale. */
  const AssignSalesDsr := "assign_sales_dsr"

  /** An action id names a row of the queue (ids are 1-based, in insertion order). */
  predicate ValidActionId(actions: seq<Action>, id: int) {
    1 <= id <= |actions|
  }

  /**
   * The resolution recorded for action `a`: for a DSR mismatch, which choice
   * was made and the DSR it settles on; for anything else, nothing.
   */
  function ResolutionFor(a: Action, resolution: string): (res: Resolution)
    ensures res.Resolved?
    ensures res.action == Some("Assign Sales DSR") <==> a.mismatchType == "DSR_MISMATCH" && resolution == AssignSalesDsr
    ensures res.action == Some("Keep Opportunity DSR") <==> a.mismatchType == "DSR_MISMATCH" && resolution == KeepOpportunityDsr
    ensures res.action.Some? ==> res.dsrName == Some(if resolution == AssignSalesDsr then a.salesDsr else a.opportunityDsr)
    ensures res.action.None? ==> res.dsrName.None?
  {
    if a.mismatchType == "DSR_MISMATCH" && resolution == KeepOpportunityDsr then
      Resolved(Some("Keep Opportunity DSR"), Some(a.opportunityDsr))
    else if a.mismatchType == "DSR_MISMATCH" && resolution == AssignSalesDsr then
      Resolved(Some("Assign Sales DSR"), Some(a.salesDsr))
    else
      Resolved(None, None)
  }

  /** The action once resolved at time `now`. */
  function Completed(a: Action, resolution: string, now: int): (c: Action)
    ensures c.status == "COMPLETED" && c.resolvedAt == Some(now) && c.resolution == ResolutionFor(a, resolution)
    ensures c.(status := a.status, resolvedAt := a.resolvedAt, resolution := a.resolution) == a
  {
    a.(status := "COMPLETED", resolvedAt := Some(now), resolution := ResolutionFor(a, resolution))
  }

  /**
   * The opportunity table after every row of customer `gstin` is given the
   * DSR `dsr`, whatever its status; other rows, and the other columns, stay.
   */
  function AssignedDsr(leads: seq<Lead>, gstin: string, dsr: string): (s: seq<Lead>)
    ensures |s| == |leads|
    ensures forall i :: 0 <= i < |s| ==> s[i].(dsrName := leads[i].dsrName) == leads[i]
    ensures forall i :: 0 <= i < |s| && leads[i].gstin == gstin ==> s[i].dsrName == dsr
    ensures forall i :: 0 <= i < |s| && leads[i].gstin != gstin ==> s[i] == leads[i]
  {
    seq(|leads|, i requires 0 <= i < |leads| => if leads[i].gstin == gstin then leads[i].(dsrName := dsr) else leads[i])
  }

  /**
   * Resolves the action `actionId` with `resolution` at time `now`, returning
   * the page's message and its kind. An unknown id changes nothing.
   */
  method ResolveAction(db: Database, actionId: int, resolution: string, now: int) returns (message: string, messageType: string)
    modifies db`leads, db`actions
    ensures !ValidActionId(old(db.actions), actionId) ==>
      && message == "Error resolving action: Action not found" && messageType == "danger"
      && db.leads == old(db.leads) && db.actions == old(db.actions)
    ensures ValidActionId(old(db.actions), actionId) ==>
      var a := old(db.actions[actionId - 1]);
      && message == "Action resolved successfully!" && messageType == "success"
      && db.actions == old(db.actions)[actionId - 1 := Completed(a, resolution, now)]
      && db.leads == if a.mismatchType == "DSR_MISMATCH" && resolution == AssignSalesDsr
                     then AssignedDsr(old(db.leads), a.gstin, a.salesDsr) else old(db.leads)
  {
    if !(1 <= actionId <= |db.actions|) {
      return "Error resolving action: Action not found", "danger";
    }
    var a := db.actions[actionId - 1];
    var data := Resolved(None, None);
    if a.mismatchType == "DSR_MISMATCH" {
      if resolution == KeepOpportunityDsr {
        data := Resolved(Some("Keep Opportunity DSR"), Some(a.opportunityDsr));
      } else if resolution == AssignSalesDsr {
        data := Resolved(Some("Assign Sales DSR"), Some(a.salesDsr));
        db.leads := AssignedDsr(db.leads, a.gstin, a.salesDsr);
      }
    }
    db.actions := db.actions[actionId - 1 := a.(status := "COMPLETED", resolvedAt := Some(now), resolution := data)];
    message, messageType := "Action resolved successfully!", "success";
  }

  /** The page acts only on a POST that carries an action id; anything else changes nothing and shows no message. */
  method HandlePost(db: Database, isPost: bool, actionId: Option<int>, resolution: string, now: int) returns (message: string, messageType: string)
    modifies db`leads, db`actions
    ensures !(isPost && actionId.Some?) ==>
      message == "" && messageType == "" && db.leads == old(db.leads) && db.actions == old(db.actions)
    ensures isPost && actionId.Some? && !ValidActionId(old(db.actions), actionId.value) ==>
      && message == "Error resolving action: Action not found" && messageType == "danger"
      && db.leads == old(db.leads) && db.actions == old(db.actions)
    ensures isPost && actionId.Some? && ValidActionId(old(db.actions), actionId.value) ==>
      var a := old(db.actions[actionId.value - 1]);
      && message == "Action resolved successfully!" && messageType == "success"
      && db.actions == old(db.actions)[actionId.value - 1 := Completed(a, resolution, now)]
      && db.leads == if a.mismatchType == "DSR_MISMATCH" && resolution == AssignSalesDsr
                     then AssignedDsr(old(db.leads), a.gstin, a.salesDsr) else old(db.leads)
  {
    message, messageType := "", "";
    if isPost && actionId.Some? {
      message, messageType := ResolveAction(db, actionId.value, resolution, now);
    }
  }

  // ----- Properties -----

  /** Assigning the same DSR twice is the same as once. */
  lemma AssignIdempotent(leads: seq<Lead>, gstin: string, dsr: string)
    ensures AssignedDsr(AssignedDsr(leads, gstin, dsr), gstin, dsr) == AssignedDsr(leads, gstin, dsr)
  {
    var once := AssignedDsr(leads, gstin, dsr);
    var twice := AssignedDsr(once, gstin, dsr);
    forall i | 0 <= i < |leads|
      ensures twice[i] == once[i]
    {
      assert once[i].gstin == leads[i].gstin;
    }
  }

  /** Tables whose rows agree on GSTIN and status have their first match by GSTIN in the same place. */
  lemma {:induction false} FindByGstinSameKeys(a: seq<Lead>, b: seq<Lead>, g: string, activeOnly: bool)
    requires |a| == |b|
    requires forall i :: 0 <= i < |a| ==> a[i].gstin == b[i].gstin && a[i].status == b[i].status
    ensures FindByGstin(a, g, activeOnly) == FindByGstin(b, g, activeOnly)
    decreases |a|
  {
    if a != [] {
      FindByGstinSameKeys(a[1..], b[1..], g, activeOnly);
    }
  }

  /**
   * After a DSR mismatch on customer `g` is resolved by assigning the sales
   * DSR, the opportunity a later sale of that customer settles on (the first
   * with the GSTIN, active or not, as the enhanced engine's level 1 looks it
   * up) is the same row and now carries the sales DSR, so a further sale by
   * that DSR raises no mismatch at level 2.
   */
  lemma AssignSettlesMismatch(leads: seq<Lead>, g: string, dsr: string, activeOnly: bool)
    requires FindByGstin(leads, g, activeOnly).Some?
    ensures var k := FindByGstin(leads, g, activeOnly).value;
      && FindByGstin(AssignedDsr(leads, g, dsr), g, activeOnly) == Some(k)
      && AssignedDsr(leads, g, dsr)[k - 1].dsrName == dsr
  {
    var after := AssignedDsr(leads, g, dsr);
    forall i | 0 <= i < |leads|
      ensures leads[i].gstin == after[i].gstin && leads[i].status == after[i].status
    {
      assert after[i].(dsrName := leads[i].dsrName) == leads[i];
    }
    FindByGstinSameKeys(leads, after, g, activeOnly);
  }

  /**
   * The handler does not look at the action's status: resolving an action
   * again re-completes it, and only the last resolution and time are kept.
   */
  lemma LastResolutionWins(a: Action, first: string, second: string, t1: int, t2: int)
    ensures Completed(Completed(a, first, t1), second, t2) == Completed(a, second, t2)
  {
    var c := Completed(a, first, t1);
    assert c.mismatchType == a.mismatchType && c.salesDsr == a.salesDsr && c.opportunityDsr == a.opportunityDsr;
  }

  /**
   * An action the engines queue for a level-2 DSR mismatch between the sale's
   * DSR and the opportunity's: assigning the sales DSR records that DSR and
   * gives it to every opportunity of the customer; keeping the opportunity
   * DSR records that one; any other resolution records nothing. Either way
   * the action leaves PENDING for COMPLETED.
   */
  lemma MismatchActionResolutions(gstin: string, salesDsr: string, opportunityDsr: string, required: string, resolution: string, now: int)
    ensures var a := EngineCommon.DsrMismatchAction(gstin, salesDsr, opportunityDsr, required);
      && a.status == "PENDING" && Completed(a, resolution, now).status == "COMPLETED"
      && Completed(a, resolution, now).resolution ==
         if resolution == AssignSalesDsr then Resolved(Some("Assign Sales DSR"), Some(salesDsr))
         else if resolution == KeepOpportunityDsr then Resolved(Some("Keep Opportunity DSR"), Some(opportunityDsr))
         else Resolved(None, None)
  {
  }
}
